/** Runs that show the bound on turns to be exact: for any numbers of calls cut short one has as many turns as are allowed. */
module Attained {
  import opened Text
  import opened Json
  import opened Ids
  import opened Records
  import opened Routing
  import opened Machine
  import opened Shape
  import B = Binding
  import O = OutputRoutes
  import Turns

  // One rule, which takes everything for one session

  const TEXT := Obj([Field("text", Str("hi"))])

  function RuleFor(session: string): Rule {
    Rule("all", 0, true, Parsed(Obj([])), Parsed(Obj([])), Parsed(Obj([])),
         Parsed(Policy(Some(session), Some("agent"), None, None, None)), 0)
  }

  function WorldFor(session: string): World {
    World(map["all" := RuleFor(session)], map[], map[], {}, map[], [], map[])
  }

  function DecisionFor(session: string): Decision {
    Decision(session, "agent", "fifo", 0, [], "full_text")
  }

  function InputFor(session: string): RouterInput {
    RouterInput(B.Config(false, ""), [RuleFor(session)], None, None, 0, 0)
  }

  lemma Trimmed(s: string)
    requires s != "" && !IsWhite(s[0]) && !IsWhite(s[|s| - 1])
    ensures Trim(s) == s && !IsBlank(s) && TrimStart(s) == s
  {
  }

  lemma FullText()
    ensures FormatOf(None) == Some("full_text")
  {
    hide Trim;
    Trimmed("full_text");
  }

  lemma RuleTakes(session: string, inbound: Inbound)
    requires !IsBlank(session)
    ensures ResolveRoute(inbound, [RuleFor(session)]) == Matched(RuleFor(session), DecisionFor(session))
  {
    hide FormatOf, IsBlank;
    FullText();
    var rule := RuleFor(session);
    assert SourceMatches(rule.sourceFilter, inbound) == Yes;
    assert OperatorMatches(rule.operatorFilter, inbound) == Yes;
    assert ConditionMatches(rule.condition, inbound) == Yes;
    Trimmed("agent");
    assert DecisionOf(rule) == Some(DecisionFor(session));
  }

  /** What the machine knows of a text message when it is routed and when its turn is taken. */
  lemma TextIsPlain(record: Routed)
    ensures !IsControlCommand(Parsed(TEXT)) && GetInteger(TEXT, "chat_id").None?
    ensures record.payload == Parsed(TEXT) ==> MessageText(record) == Some("hi")
  {
    Trimmed("hi");
    hide IsBlank, TrimStart;
    var fields := [Field("text", Str("hi"))];
    assert Find(fields, "text") == Some(Str("hi"));
    assert fields[1..] == [] && "text" != "chat_id" by { assert |"text"| == 4 && |"chat_id"| == 7; }
    assert Find(fields, "chat_id") == None;
  }

  // Parts of runs

  /** A text message of the event is stored, not processed, and on the bus. */
  predicate IsHeld(m: Machine, u: int) {
    && u in m.db.inbound
    && m.db.inbound[u].payload == Parsed(TEXT) && m.db.inbound[u].sourceKind == "telegram" && !m.db.inbound[u].status.InboundProcessed?
    && |m.bus| > 0 && m.bus[0] == Message(InputRow(u), InputEnvelope(u, 0))
  }

  predicate IsOpenIn(m: Machine, u: int, session: string) {
    IsHeld(m, u) && m.db.world == WorldFor(session)
  }

  /** The router's call up to the write of the routed event. */
  lemma Begun(m: Machine, u: int, session: string)
    requires Shaped(m) && IsOpenIn(m, u, session) && m.router.RouterIdle? && !IsBlank(session)
    ensures var c := Choice(u, m.db.inbound[u], RuleFor(session), DecisionFor(session));
      BeginRouter(m, 0, InputFor(session))
      == m.(router := RouterBusy(u, PutRouted(RoutedRecord(c.rule, c.decision, c.inbound, 0))), log := m.log.(choices := m.log.choices + [c]))
  {
    hide Hears, IsControlCommand, IsBlank, ResolveRoute, RoutedRecord, Shaped;
    Heard(m, 0);
    var inbound := m.db.inbound[u];
    TextIsPlain(RoutedRecord(RuleFor(session), DecisionFor(session), inbound, 0));
    RuleTakes(session, inbound);
    Unbound(m, inbound, session);
    Joined(m, u, session);
  }

  lemma Unbound(m: Machine, inbound: Inbound, session: string)
    requires inbound.payload == Parsed(TEXT) && GetInteger(TEXT, "chat_id").None?
    ensures Bound(m, inbound, InputFor(session)) == B.Tables(m.db.world, m.db.routes, 0, B.Unbound)
    ensures IsRuleListing(WorldFor(session).rules, InputFor(session).listing)
  {
    hide GetInteger;
  }

  lemma Joined(m: Machine, u: int, session: string)
    requires u in m.db.inbound && m.db.world == WorldFor(session)
    ensures var c := Choice(u, m.db.inbound[u], RuleFor(session), DecisionFor(session));
      JoinRoutes(m, u, c.inbound, c.rule, c.decision, B.Tables(m.db.world, m.db.routes, 0, B.Unbound), 0)
      == m.(router := RouterBusy(u, PutRouted(RoutedRecord(c.rule, c.decision, c.inbound, 0))), log := m.log.(choices := m.log.choices + [c]))
  {
    hide RoutedRecord;
    assert O.Materialize(m.db.world, m.db.routes, DecisionFor(session), 0, 0) == O.Progress(m.db.routes, 0, O.Done);
  }

  /** What the steps used here do. */
  ghost predicate IsDone(m: Machine, s: Step, n: Machine) {
    match s
    case DoAsk(u) => n == Ask(m, u)
    case DoReceive(u, sourceId, operatorId, payload) => n == Receive(m, u, sourceId, operatorId, payload)
    case DoPostInput(u, now) => n == PostInput(m, u, now)
    case DoClaim(keys, now) => n == Claim(m, keys, now)
    case DoPublish(publication) => n == Publish(m, publication)
    case DoMarkPublication(now) => n == MarkPublication(m, now)
    case DoBeginRouter(i, input) => n == BeginRouter(m, i, input)
    case DoStepRouter(now) => n == StepRouter(m, now)
    case DoStopRouter => n == StopRouter(m)
    case DoBeginTurn(i) => n == BeginTurn(m, i)
    case DoStepTurn(now) => n == StepTurn(m, now)
    case DoTakeTurn(run) => n == TakeTurn(m, run)
    case DoStopTurn => n == StopTurn(m)
    case DoChangeWorld(world) => n == m.(db := m.db.(world := world))
    case _ => true
  }

  lemma Does(m: Machine, s: Step)
    ensures IsDone(m, s, Do(m, s))
  {
    hide Ask, Receive, PostInput, CreateTask, Claim, Publish, MarkPublication, StopPublisher, BeginRouter, StepRouter, FailRouter, StopRouter;
    hide BeginTurn, StepTurn, TakeTurn, StopTurn, BeginTask, StepTask, RunJob, StopTask, DeliverOutput, DeliverResult, Follow;
  }

  /** No call was cut short. */
  predicate IsWhole(run: Execution) {
    forall s | s in run.steps :: !Turns.CutsShort(s)
  }

  /** One more step of a run. */
  lemma Then(run: Execution, s: Step) returns (more: Execution)
    requires IsExecution(run)
    ensures IsExecution(more) && IsDone(End(run), s, End(more))
    ensures IsWhole(run) && !Turns.CutsShort(s) ==> IsWhole(more)
  {
    hide Do, IsExecution, IsDone, Turns.CutsShort;
    more := Append(run, s);
    AppendIsExecution(run, s);
    Does(End(run), s);
  }

  /** The routed event is pending, its message on the bus, and no turn on the way. */
  predicate IsReady(m: Machine, u: int, session: string) {
    && m.worker.SessionIdle? && |m.bus| > 1 && m.bus[1] == Message(RoutedRow(u), RoutedEnvelope(u, session, 0))
    && IsPendingIn(m, u, session)
  }

  function Started(record: Routed): Task {
    TurnTask(record, Running, None, 0)
  }

  /** After a turn that succeeded. */
  function Turned(m: Machine, u: int, run: string): Machine
    requires u in m.db.routed
  {
    var record := m.db.routed[u];
    m.(db := m.db.(tasks := m.db.tasks[RoutedTask(u) := Started(record)]),
       worker := SessionBusy(u, record, Emitting(run)),
       log := m.log.(turns := m.log.turns + [Turn(u, record.session, run)], turned := m.log.turned + multiset{u}))
  }

  lemma TurnBegins(m: Machine, u: int, session: string)
    requires Shaped(m) && IsReady(m, u, session)
    ensures BeginTurn(m, 1) == m.(worker := SessionBusy(u, m.db.routed[u], Starting))
  {
    hide Hears, Shaped;
    Heard(m, 1);
  }

  lemma TurnStarts(m: Machine, u: int, record: Routed)
    requires m.worker == SessionBusy(u, record, Starting) && record.dependencies == []
    ensures StepTurn(m, 0)
         == m.(db := m.db.(tasks := m.db.tasks[RoutedTask(u) := Started(record)]), worker := SessionBusy(u, record, Thinking))
  {
    hide TurnTask;
  }

  lemma TurnSucceeds(m: Machine, u: int, record: Routed, name: string)
    requires m.worker == SessionBusy(u, record, Thinking) && record.payload == Parsed(TEXT)
    ensures TakeTurn(m, Some(name))
         == m.(worker := SessionBusy(u, record, Emitting(name)),
               log := m.log.(turns := m.log.turns + [Turn(u, record.session, name)], turned := m.log.turned + multiset{u}))
  {
    hide MessageText, TEXT, IsControlCommand, GetInteger;
    TextIsPlain(record);
  }

  lemma TakesTurn(run: Execution, u: int, session: string, name: string) returns (more: Execution)
    requires IsExecution(run) && IsReady(End(run), u, session)
    ensures IsExecution(more) && End(more) == Turned(End(run), u, name)
  {
    hide Do, IsExecution, BeginTurn, StepTurn, TakeTurn, Shaped, Started;
    var m := End(run);
    var record := m.db.routed[u];
    RunShaped(run);
    TurnBegins(m, u, session);
    more := Then(run, DoBeginTurn(1));
    TurnStarts(End(more), u, record);
    more := Then(more, DoStepTurn(0));
    TurnSucceeds(End(more), u, record, name);
    more := Then(more, DoTakeTurn(Some(name)));
  }

  /** The row is due, and the only one. */
  predicate IsOnlyDue(rows: map<RowKey, Row>, k: RowKey) {
    k in rows && IsDue(rows[k], 0) && forall j | j in rows && j != k :: !rows[j].status.RowPending?
  }

  /** After the row was claimed and its publication accepted. */
  function Sent(m: Machine, k: RowKey): Machine
    requires k in m.db.rows
  {
    var row := m.db.rows[k];
    m.(db := m.db.(rows := m.db.rows[k := ClaimedRow(row)]), bus := m.bus + [Message(k, row.payload)],
       publisher := PublisherBusy([Claimed(k, row.payload, row.attempts + 1)], SentOk))
  }

  lemma ClaimsOne(m: Machine, k: RowKey)
    requires m.publisher.PublisherIdle? && IsOnlyDue(m.db.rows, k)
    ensures var row := m.db.rows[k];
      Claim(m, [k], 0) == m.(db := m.db.(rows := m.db.rows[k := ClaimedRow(row)]),
                             publisher := PublisherBusy([Claimed(k, row.payload, row.attempts + 1)], Unsent))
  {
    hide ClaimedRow;
    assert IsClaim(m.db.rows, [k], 0);
    assert ClaimRows(m.db.rows, [k]) == m.db.rows[k := ClaimedRow(m.db.rows[k])];
    assert Queue(m.db.rows, [k]) == [Claimed(k, m.db.rows[k].payload, m.db.rows[k].attempts + 1)];
  }

  lemma Sends(run: Execution, k: RowKey) returns (more: Execution)
    requires IsExecution(run) && End(run).publisher.PublisherIdle? && IsOnlyDue(End(run).db.rows, k)
    ensures IsExecution(more) && End(more) == Sent(End(run), k) && (IsWhole(run) ==> IsWhole(more))
  {
    hide Do, IsExecution, Claim, ClaimedRow, IsWhole;
    ClaimsOne(End(run), k);
    more := Then(run, DoClaim([k], 0));
    more := Then(more, DoPublish(Accepted));
  }

  /** The mark behind a publication that was accepted: the row is found by its id. */
  lemma Marks(run: Execution, k: RowKey, c: Claimed) returns (more: Execution)
    requires IsExecution(run) && End(run).publisher == PublisherBusy([c], SentOk) && c.row == k && k in End(run).db.rows
    ensures var m := End(run);
      && IsExecution(more) && (IsWhole(run) ==> IsWhole(more))
      && End(more) == m.(db := m.db.(rows := m.db.rows[k := m.db.rows[k].(status := RowPublished)]), publisher := PublisherIdle)
  {
    hide Do, IsExecution, RetryDelay, IsWhole;
    more := Then(run, DoMarkPublication(0));
  }

  /** After the router has written the routed event and its row. */
  function RoutedBy(m: Machine, u: int, session: string): Machine
    requires u in m.db.inbound
  {
    var c := Choice(u, m.db.inbound[u], RuleFor(session), DecisionFor(session));
    m.(db := m.db.(routed := m.db.routed[u := RoutedRecord(c.rule, c.decision, c.inbound, 0)],
                   rows := m.db.rows[RoutedRow(u) := NewRow(RoutedEnvelope(u, session, 0), 0)]),
       router := RouterBusy(u, MarkProcessed(true)),
       log := m.log.(choices := m.log.choices + [c], resets := m.log.resets + multiset{u},
                     posted := m.log.posted + [Posted(RoutedRow(u), RoutedEnvelope(u, session, 0))]))
  }

  lemma Routes(run: Execution, u: int, session: string) returns (more: Execution)
    requires IsExecution(run) && IsOpenIn(End(run), u, session) && End(run).router.RouterIdle? && !IsBlank(session)
    ensures IsExecution(more) && End(more) == RoutedBy(End(run), u, session)
  {
    hide Do, IsExecution, BeginRouter, Shaped, IsBlank, RoutedEnvelope;
    RunShaped(run);
    Begun(End(run), u, session);
    more := Then(run, DoBeginRouter(0, InputFor(session)));
    more := Then(more, DoStepRouter(0));
    more := Then(more, DoStepRouter(0));
  }

  /** The event has arrived, is routed, and its routed event is posted and not yet published. */
  predicate IsArrived(m: Machine, u: int, session: string) {
    && IsOpenIn(m, u, session) && m.router == RouterBusy(u, MarkProcessed(true)) && m.worker.SessionIdle? && m.publisher.PublisherIdle?
    && m.bus == [Message(InputRow(u), InputEnvelope(u, 0))]
    && IsOnlyDue(m.db.rows, RoutedRow(u)) && m.db.rows[RoutedRow(u)].payload == RoutedEnvelope(u, session, 0)
    && m.log.turned == m.log.routerLost == m.log.turnLost == multiset{} && IsPendingIn(m, u, session)
  }

  predicate IsPendingIn(m: Machine, u: int, session: string) {
    && u in m.db.routed && m.db.routed[u].status.RoutedPending?
    && m.db.routed[u].payload == Parsed(TEXT) && m.db.routed[u].dependencies == [] && m.db.routed[u].session == session
  }

  lemma PostsInput(u: int, world: World) returns (run: Execution)
    ensures IsExecution(run) && IsWhole(run)
    ensures var m := End(run);
      && m.db.world == world && m.router.RouterIdle? && m.worker.SessionIdle? && m.publisher.PublisherIdle? && m.bus == []
      && u in m.db.inbound && m.db.inbound[u] == Inbound("telegram", "source", None, Parsed(TEXT), InboundPending)
      && m.db.rows == map[InputRow(u) := NewRow(InputEnvelope(u, 0), 0)]
      && m.log.turned == m.log.routerLost == m.log.turnLost == multiset{}
  {
    hide Do, InputEnvelope, IsWhole, TEXT;
    run := Execution(world, [], [Start(world)]);
    assert IsExecution(run) && IsWhole(run) by { Begins(world); }
    hide IsExecution;
    run := Then(run, DoAsk(u));
    run := Then(run, DoReceive(u, "source", None, TEXT));
    run := Then(run, DoPostInput(u, 0));
  }

  /** A text message comes in and is published. */
  lemma ComesIn(u: int, world: World) returns (run: Execution)
    ensures IsExecution(run) && IsWhole(run)
    ensures var m := End(run);
      && IsHeld(m, u) && m.db.world == world && m.router.RouterIdle? && m.worker.SessionIdle? && m.publisher.PublisherIdle?
      && m.bus == [Message(InputRow(u), InputEnvelope(u, 0))] && (forall k | k in m.db.rows :: !m.db.rows[k].status.RowPending?)
      && m.log.turned == m.log.routerLost == m.log.turnLost == multiset{}
  {
    hide Do, InputEnvelope, IsWhole;
    hide IsExecution, TEXT;
    run := PostsInput(u, world);
    run := Sends(run, InputRow(u));
    run := Marks(run, InputRow(u), End(run).publisher.queue[0]);
  }

  lemma Begins(world: World)
    ensures var run := Execution(world, [], [Start(world)]);
      IsExecution(run) && IsWhole(run)
  {
    hide Do;
  }

  lemma Arrives(u: int, session: string) returns (run: Execution)
    requires !IsBlank(session)
    ensures IsExecution(run) && IsArrived(End(run), u, session)
  {
    hide Do, IsExecution, IsBlank, InputEnvelope, RoutedEnvelope, IsWhole;
    run := ComesIn(u, WorldFor(session));
    run := Routes(run, u, session);
  }

  // As many turns as the calls cut short allow

  /** The router is about to mark the event, whose turn may be taken. */
  predicate IsPrimed(m: Machine, u: int, session: string) {
    IsOpenIn(m, u, session) && IsReady(m, u, session) && m.router == RouterBusy(u, MarkProcessed(true))
  }

  predicate HasCounts(m: Machine, u: int, turns: nat, routerLost: nat, turnLost: nat) {
    m.log.turned[u] == turns && m.log.routerLost[u] == routerLost && m.log.turnLost[u] == turnLost
  }

  lemma LosesTurn(run: Execution, u: int, session: string, turns: nat, routerLost: nat, turnLost: nat) returns (more: Execution)
    requires IsExecution(run) && IsPrimed(End(run), u, session) && HasCounts(End(run), u, turns, routerLost, turnLost)
    ensures IsExecution(more) && IsPrimed(End(more), u, session) && HasCounts(End(more), u, turns + 1, routerLost, turnLost + 1)
  {
    hide Do, IsExecution, TurnTask, InputEnvelope, RoutedEnvelope;
    more := TakesTurn(run, u, session, "run");
    more := Then(more, DoStopTurn);
  }

  /** What a call that has taken its turn leaves alone when it is run to its end. */
  lemma Ends(run: Execution, u: int) returns (more: Execution)
    requires IsExecution(run) && End(run).worker.SessionBusy? && End(run).worker.stage.Emitting? && End(run).worker.update == u
    ensures var m, n := End(run), End(more);
      && IsExecution(more) && n.worker.SessionIdle? && n.router == m.router && n.bus == m.bus
      && n.db.inbound == m.db.inbound && n.db.world == m.db.world
      && n.log.turned == m.log.turned && n.log.routerLost == m.log.routerLost && n.log.turnLost == m.log.turnLost
  {
    hide Do, IsExecution, TurnTask, OutputEnvelope;
    more := Then(run, DoStepTurn(0));
    more := Then(more, DoStepTurn(0));
    more := Then(more, DoStepTurn(0));
  }

  lemma TakesWholeTurn(run: Execution, u: int, session: string) returns (more: Execution)
    requires IsExecution(run) && IsReady(End(run), u, session)
    ensures var m, n := End(run), End(more);
      && IsExecution(more) && n.worker.SessionIdle? && n.router == m.router && n.bus == m.bus
      && n.db.inbound == m.db.inbound && n.db.world == m.db.world
      && n.log.turned == m.log.turned + multiset{u} && n.log.routerLost == m.log.routerLost && n.log.turnLost == m.log.turnLost
  {
    hide Do, IsExecution, TurnTask, IsReady;
    more := TakesTurn(run, u, session, "run");
    more := Ends(more, u);
  }

  lemma LosesRouting(run: Execution, u: int, session: string, turns: nat, routerLost: nat, turnLost: nat) returns (more: Execution)
    requires IsExecution(run) && IsPrimed(End(run), u, session) && HasCounts(End(run), u, turns, routerLost, turnLost) && !IsBlank(session)
    ensures IsExecution(more) && IsPrimed(End(more), u, session) && HasCounts(End(more), u, turns + 1, routerLost + 1, turnLost)
  {
    hide Do, IsExecution, IsBlank, InputEnvelope, RoutedEnvelope;
    more := Then(run, DoStopRouter);
    more := TakesWholeTurn(more, u, session);
    more := Routes(more, u, session);
  }

  lemma {:induction false} Loses(u: int, session: string, routerLost: nat, turnLost: nat) returns (run: Execution)
    requires !IsBlank(session)
    ensures IsExecution(run) && IsPrimed(End(run), u, session) && HasCounts(End(run), u, routerLost + turnLost, routerLost, turnLost)
    decreases routerLost + turnLost
  {
    hide Do, IsExecution, IsBlank, IsPrimed;
    if turnLost > 0 {
      run := Loses(u, session, routerLost, turnLost - 1);
      run := LosesTurn(run, u, session, routerLost + turnLost - 1, routerLost, turnLost - 1);
    } else if routerLost > 0 {
      run := Loses(u, session, routerLost - 1, turnLost);
      run := LosesRouting(run, u, session, routerLost - 1, routerLost - 1, turnLost);
    } else {
      run := Primed(u, session);
    }
  }

  lemma Primed(u: int, session: string) returns (run: Execution)
    requires !IsBlank(session)
    ensures IsExecution(run) && IsPrimed(End(run), u, session) && HasCounts(End(run), u, 0, 0, 0)
    ensures var m := End(run);
      && m.publisher.PublisherIdle? && (forall k | k in m.db.rows :: !m.db.rows[k].status.RowPending?)
      && m.bus == [Message(InputRow(u), InputEnvelope(u, 0)), Message(RoutedRow(u), RoutedEnvelope(u, session, 0))]
  {
    hide Do, IsExecution, IsBlank, InputEnvelope, RoutedEnvelope, RetryDelay;
    run := Arrives(u, session);
    run := Sends(run, RoutedRow(u));
    run := Marks(run, RoutedRow(u), End(run).publisher.queue[0]);
  }

  /** For any numbers of calls cut short some run has all the turns that these allow. */
  lemma BoundAttained(u: int, routerLost: nat, turnLost: nat) returns (run: Execution)
    ensures IsExecution(run) && HasCounts(End(run), u, 1 + routerLost + turnLost, routerLost, turnLost)
  {
    hide Do, IsExecution;
    Trimmed("a");
    run := Loses(u, "a", routerLost, turnLost);
    run := TakesWholeTurn(run, u, "a");
  }
}
