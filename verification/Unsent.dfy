/**
  Runs in which a row is marked published with a payload that never reached the bus: the row was
  written again between its publication and its mark. For each kind of row that can be written
  again there is one, with no more cut short, requested or dead-lettered than it takes.
 */
module Unsent {
  import opened Text
  import opened Json
  import opened Ids
  import opened Records
  import opened Routing
  import opened Machine
  import opened Shape
  import opened Attained
  import B = Binding
  import Rows

  predicate IsUnsent(m: Machine, k: RowKey) {
    k in m.db.rows && m.db.rows[k].status.RowPublished? && !Rows.IsSent(m, k)
  }

  /** A row was claimed and its publication, with this payload and no other, accepted; it is not yet marked. */
  predicate IsUnmarked(m: Machine, k: RowKey, e: Envelope) {
    && k in m.db.rows && m.publisher.PublisherBusy? && m.publisher.sending.SentOk?
    && |m.publisher.queue| == 1 && m.publisher.queue[0].row == k
    && forall i | 0 <= i < |m.bus| && m.bus[i].row == k :: m.bus[i].payload == e
  }

  lemma SendsFirst(run: Execution, k: RowKey) returns (more: Execution)
    requires IsExecution(run) && End(run).publisher.PublisherIdle? && IsOnlyDue(End(run).db.rows, k)
    requires forall i | 0 <= i < |End(run).bus| :: End(run).bus[i].row != k
    ensures IsExecution(more) && IsUnmarked(End(more), k, End(run).db.rows[k].payload) && (IsWhole(run) ==> IsWhole(more))
    ensures var m, n := End(run), End(more);
      n == m.(db := m.db.(rows := n.db.rows), bus := n.bus, publisher := n.publisher) && m.bus <= n.bus
  {
    hide Do, IsExecution, ClaimedRow, IsOnlyDue, IsWhole;
    assert k in End(run).db.rows by { OnlyDue(End(run).db.rows, k); }
    more := Sends(run, k);
  }

  lemma OnlyDue(rows: map<RowKey, Row>, k: RowKey)
    requires IsOnlyDue(rows, k)
    ensures k in rows
  {
  }

  /** A call has written its output row, which alone is to be published. */
  lemma WritesOutput(u: int, session: string) returns (run: Execution)
    requires !IsBlank(session)
    ensures IsExecution(run) && HasCounts(End(run), u, 1, 0, 0)
    ensures var m := End(run);
      && m.publisher.PublisherIdle? && IsOnlyDue(m.db.rows, OutputRow(u))
      && m.db.rows[OutputRow(u)].payload == OutputEnvelope(u, session, "one", 0)
      && (forall i | 0 <= i < |m.bus| :: m.bus[i].row != OutputRow(u))
      && IsReady(m.(worker := SessionIdle), u, session) && IsOpenIn(m, u, session) && m.router == RouterBusy(u, MarkProcessed(true))
      && m.worker.SessionBusy? && m.worker.update == u && m.worker.stage.Completing?
  {
    hide Do, IsExecution, IsBlank, InputEnvelope, RoutedEnvelope, TurnTask, OutputEnvelope, WorldFor, TEXT;
    run := Primed(u, session);
    run := TakesTurn(run, u, session, "one");
    run := Then(run, DoStepTurn(0));
  }

  /** A call writes its output row and dies while the row is being published. */
  lemma DiesPublishing(u: int, session: string) returns (run: Execution)
    requires !IsBlank(session)
    ensures IsExecution(run) && IsUnmarked(End(run), OutputRow(u), OutputEnvelope(u, session, "one", 0))
    ensures IsReady(End(run), u, session) && HasCounts(End(run), u, 1, 0, 1)
  {
    hide Do, IsExecution, IsBlank, RoutedEnvelope, OutputEnvelope, IsOnlyDue;
    run := WritesOutput(u, session);
    OnlyDue(End(run).db.rows, OutputRow(u));
    run := SendsFirst(run, OutputRow(u));
    run := Then(run, DoStopTurn);
  }

  /** The next call takes its turn and writes the row again. */
  lemma WritesAgain(run: Execution, u: int, e: Envelope, routerLost: nat, turnLost: nat) returns (more: Execution)
    requires IsExecution(run) && IsReady(End(run), u, "a") && HasCounts(End(run), u, 1, routerLost, turnLost)
    requires IsUnmarked(End(run), OutputRow(u), e)
    ensures IsExecution(more) && HasCounts(End(more), u, 2, routerLost, turnLost)
    ensures IsUnmarked(End(more), OutputRow(u), e) && End(more).db.rows[OutputRow(u)].payload == OutputEnvelope(u, "a", "two", 0)
  {
    hide Do, IsExecution, InputEnvelope, RoutedEnvelope, TurnTask, OutputEnvelope;
    more := TakesTurn(run, u, "a", "two");
    more := Then(more, DoStepTurn(0));
  }

  /** The mark of a row that has been written again. */
  lemma MarksAnother(run: Execution, k: RowKey, e: Envelope, u: int, turns: nat, routerLost: nat, turnLost: nat) returns (more: Execution)
    requires IsExecution(run) && IsUnmarked(End(run), k, e) && End(run).db.rows[k].payload != e
    requires HasCounts(End(run), u, turns, routerLost, turnLost)
    ensures IsExecution(more) && IsUnsent(End(more), k) && HasCounts(End(more), u, turns, routerLost, turnLost)
  {
    hide Do, IsExecution, Rows.IsSent;
    more := Marks(run, k, End(run).publisher.queue[0]);
    NotSent(End(more), k, e);
  }

  /** One session call cut short behind its output row: the next one writes the row again before it is marked. */
  lemma OutputUnsent(u: int) returns (run: Execution)
    ensures IsExecution(run) && IsUnsent(End(run), OutputRow(u)) && HasCounts(End(run), u, 2, 0, 1)
  {
    hide Do, IsExecution, OutputEnvelope, IsReady, IsUnsent, HasCounts, IsBlank;
    var e := OutputEnvelope(u, "a", "one", 0);
    Trimmed("a");
    run := DiesPublishing(u, "a");
    run := WritesAgain(run, u, e, 0, 1);
    OtherRun(u);
    run := MarksAnother(run, OutputRow(u), e, u, 2, 0, 1);
  }

  lemma OtherRun(u: int)
    ensures OutputEnvelope(u, "a", "one", 0) != OutputEnvelope(u, "a", "two", 0)
  {
    assert "one"[0] != "two"[0];
  }

  lemma NotSent(m: Machine, k: RowKey, e: Envelope)
    requires k in m.db.rows && m.db.rows[k].payload != e
    requires forall i | 0 <= i < |m.bus| && m.bus[i].row == k :: m.bus[i].payload == e
    ensures !Rows.IsSent(m, k)
  {
  }

  /** The row of a routed event is being published, and the router is about to mark the event. */
  lemma PublishesRouted(u: int, session: string) returns (run: Execution)
    requires !IsBlank(session)
    ensures IsExecution(run) && IsUnmarked(End(run), RoutedRow(u), RoutedEnvelope(u, session, 0))
    ensures IsHeld(End(run), u) && End(run).router == RouterBusy(u, MarkProcessed(true)) && HasCounts(End(run), u, 0, 0, 0)
  {
    hide Do, IsExecution, IsBlank, InputEnvelope, RoutedEnvelope, IsOnlyDue, WorldFor, TEXT;
    run := Arrives(u, session);
    OnlyDue(End(run).db.rows, RoutedRow(u));
    run := SendsFirst(run, RoutedRow(u));
  }

  /** A router call dies behind its routed event's row, and the rules are changed, while the row is being published. */
  lemma DiesRouting(u: int, session: string, other: string) returns (run: Execution)
    requires !IsBlank(session)
    ensures IsExecution(run) && IsUnmarked(End(run), RoutedRow(u), RoutedEnvelope(u, session, 0))
    ensures IsOpenIn(End(run), u, other) && End(run).router.RouterIdle? && HasCounts(End(run), u, 0, 1, 0)
  {
    hide Do, IsExecution, IsBlank, InputEnvelope, RoutedEnvelope, WorldFor, TEXT;
    run := PublishesRouted(u, session);
    run := Then(run, DoStopRouter);
    run := Then(run, DoChangeWorld(WorldFor(other)));
  }

  lemma RoutesAgain(run: Execution, u: int, e: Envelope) returns (more: Execution)
    requires IsExecution(run) && IsOpenIn(End(run), u, "b") && End(run).router.RouterIdle? && HasCounts(End(run), u, 0, 1, 0)
    requires IsUnmarked(End(run), RoutedRow(u), e)
    ensures IsExecution(more) && HasCounts(End(more), u, 0, 1, 0)
    ensures IsUnmarked(End(more), RoutedRow(u), e) && End(more).db.rows[RoutedRow(u)].payload == RoutedEnvelope(u, "b", 0)
  {
    hide Do, IsExecution, IsBlank, InputEnvelope, RoutedEnvelope, IsOpenIn;
    Trimmed("b");
    OpenIn(End(run), u, "b");
    more := Routes(run, u, "b");
  }

  lemma OpenIn(m: Machine, u: int, session: string)
    requires IsOpenIn(m, u, session)
    ensures u in m.db.inbound
  {
  }

  /** One router call cut short behind its routed event: the next one finds another rule and writes the row again. */
  lemma RoutedUnsent(u: int) returns (run: Execution)
    ensures IsExecution(run) && IsUnsent(End(run), RoutedRow(u)) && HasCounts(End(run), u, 0, 1, 0)
  {
    hide Do, IsExecution, RoutedEnvelope, IsOpenIn, IsUnsent, HasCounts, IsBlank;
    var e := RoutedEnvelope(u, "a", 0);
    Trimmed("a");
    run := DiesRouting(u, "a", "b");
    run := RoutesAgain(run, u, e);
    OtherSession(u);
    run := MarksAnother(run, RoutedRow(u), e, u, 0, 1, 0);
  }

  lemma OtherSession(u: int)
    ensures RoutedEnvelope(u, "a", 0) != RoutedEnvelope(u, "b", 0)
  {
    assert "a"[0] != "b"[0];
  }

  // A router call cut short, and no session call

  /** What the last two steps of a session call leave alone. */
  lemma EndsCall(run: Execution, u: int) returns (more: Execution)
    requires IsExecution(run) && End(run).worker.SessionBusy? && End(run).worker.update == u && End(run).worker.stage.Completing?
    ensures var m, n := End(run), End(more);
      && IsExecution(more) && n.worker.SessionIdle?
      && n == m.(db := m.db.(routed := n.db.routed, tasks := n.db.tasks), worker := n.worker, log := m.log.(committed := n.log.committed))
  {
    hide Do, IsExecution, TurnTask;
    more := Then(run, DoStepTurn(0));
    more := Then(more, DoStepTurn(0));
  }

  /** The session call whose output row is being published goes to its end, and the router call behind the event dies. */
  lemma DiesBehindOutput(u: int, session: string) returns (run: Execution)
    requires !IsBlank(session)
    ensures IsExecution(run) && IsUnmarked(End(run), OutputRow(u), OutputEnvelope(u, session, "one", 0))
    ensures var m := End(run);
      HasCounts(m, u, 1, 1, 0) && IsOpenIn(m, u, session) && m.router.RouterIdle? && m.worker.SessionIdle?
      && |m.bus| > 1 && m.bus[1] == Message(RoutedRow(u), RoutedEnvelope(u, session, 0))
  {
    hide Do, IsExecution, IsBlank, InputEnvelope, RoutedEnvelope, OutputEnvelope, IsOnlyDue, TurnTask, WorldFor, TEXT;
    run := WritesOutput(u, session);
    OnlyDue(End(run).db.rows, OutputRow(u));
    run := SendsFirst(run, OutputRow(u));
    run := EndsCall(run, u);
    run := Then(run, DoStopRouter);
  }

  lemma OpensAgain(run: Execution, u: int, session: string, e: Envelope) returns (more: Execution)
    requires !IsBlank(session) && IsExecution(run) && IsUnmarked(End(run), OutputRow(u), e)
    requires var m := End(run);
      HasCounts(m, u, 1, 1, 0) && IsOpenIn(m, u, session) && m.router.RouterIdle? && m.worker.SessionIdle?
      && |m.bus| > 1 && m.bus[1] == Message(RoutedRow(u), RoutedEnvelope(u, session, 0))
    ensures IsExecution(more) && IsUnmarked(End(more), OutputRow(u), e)
    ensures IsReady(End(more), u, session) && HasCounts(End(more), u, 1, 1, 0)
  {
    hide Do, IsExecution, IsBlank, InputEnvelope, RoutedEnvelope;
    more := Routes(run, u, session);
  }

  /** One router call cut short, and no session call: the event is opened again, and its next turn writes the output row again. */
  lemma OutputUnsentByRouter(u: int) returns (run: Execution)
    ensures IsExecution(run) && IsUnsent(End(run), OutputRow(u)) && HasCounts(End(run), u, 2, 1, 0)
  {
    hide Do, IsExecution, OutputEnvelope, RoutedEnvelope, IsReady, IsOpenIn, IsUnsent, HasCounts, IsBlank;
    var e := OutputEnvelope(u, "a", "one", 0);
    Trimmed("a");
    run := DiesBehindOutput(u, "a");
    run := OpensAgain(run, u, "a", e);
    run := WritesAgain(run, u, e, 1, 0);
    OtherRun(u);
    run := MarksAnother(run, OutputRow(u), e, u, 2, 1, 0);
  }

  // Nothing cut short

  const NO_RULES := World(map[], map[], map[], {}, map[], [], map[])

  const UNRULED := RouterInput(B.Config(false, ""), [], None, None, 0, 0)

  lemma UnruledBound(m: Machine, inbound: Inbound)
    requires inbound.payload == Parsed(TEXT) && GetInteger(TEXT, "chat_id").None?
    ensures Bound(m, inbound, UNRULED) == B.Tables(m.db.world, m.db.routes, 0, B.Unbound)
    ensures IsRuleListing(NO_RULES.rules, UNRULED.listing) && ResolveRoute(inbound, UNRULED.listing) == Resolution.Unmatched
  {
    hide GetInteger, TEXT;
  }

  /** Without rules the router's call is about to post a dead letter. */
  lemma Unruled(m: Machine, u: int)
    requires Shaped(m) && IsHeld(m, u) && m.db.world == NO_RULES && m.router.RouterIdle?
    ensures BeginRouter(m, 0, UNRULED) == m.(router := RouterBusy(u, PostDead))
  {
    hide Hears, IsControlCommand, Shaped, GetInteger, Bound, ResolveRoute, IsRuleListing, TEXT, NO_RULES, UNRULED, JoinRoutes;
    Heard(m, 0);
    TextIsPlain(RoutedRecord(RuleFor(""), DecisionFor(""), m.db.inbound[u], 0));
    UnruledBound(m, m.db.inbound[u]);
  }

  lemma BuriesAt(run: Execution, u: int, now: int) returns (more: Execution)
    requires IsExecution(run) && IsWhole(run) && IsHeld(End(run), u) && End(run).db.world == NO_RULES && End(run).router.RouterIdle?
    ensures IsExecution(more) && IsWhole(more)
    ensures var m, n := End(run), End(more);
      && n == m.(db := m.db.(rows := m.db.rows[DeadLetterRow(u) := NewRow(DeadEnvelope(u, now), now)], inbound := n.db.inbound),
                 log := m.log.(posted := m.log.posted + [Posted(DeadLetterRow(u), DeadEnvelope(u, now))]))
      && IsHeld(n, u)
  {
    hide Do, IsExecution, IsWhole, BeginRouter, Shaped, DeadEnvelope, InputEnvelope;
    RunShaped(run);
    Unruled(End(run), u);
    more := Then(run, DoBeginRouter(0, UNRULED));
    more := Then(more, DoStepRouter(now));
    more := Then(more, DoStepRouter(now));
  }

  /** No call cut short, but the message of an event that no rule takes delivered twice: the dead letter is written twice. */
  lemma DeadLetterUnsent(u: int) returns (run: Execution)
    ensures IsExecution(run) && IsWhole(run) && IsUnsent(End(run), DeadLetterRow(u))
  {
    hide Do, IsExecution, IsWhole, DeadEnvelope, InputEnvelope, IsOnlyDue, Rows.IsSent;
    run := BuriedOnce(u);
    var e := DeadEnvelope(u, 0);
    run := BuriesAt(run, u, 1);
    OtherTimes(u);
    run := Marks(run, DeadLetterRow(u), End(run).publisher.queue[0]);
    NotSent(End(run), DeadLetterRow(u), e);
  }

  lemma BuriedOnce(u: int) returns (run: Execution)
    ensures IsExecution(run) && IsWhole(run) && IsUnmarked(End(run), DeadLetterRow(u), DeadEnvelope(u, 0))
    ensures IsHeld(End(run), u) && End(run).db.world == NO_RULES && End(run).router.RouterIdle?
  {
    hide Do, IsExecution, IsWhole, DeadEnvelope, InputEnvelope;
    run := ComesIn(u, NO_RULES);
    run := BuriesAt(run, u, 0);
    run := SendsFirst(run, DeadLetterRow(u));
  }

  lemma OtherTimes(u: int)
    ensures DeadEnvelope(u, 0) != DeadEnvelope(u, 1) && InputEnvelope(u, 0) != InputEnvelope(u, 1)
  {
  }

  lemma BothAsk(u: int) returns (run: Execution)
    ensures IsExecution(run) && IsWhole(run)
    ensures End(run) == Start(NO_RULES).(requests := Requests(multiset{u, u}, multiset{u, u}, multiset{}))
  {
    hide Do, IsWhole, NO_RULES;
    run := Execution(NO_RULES, [], [Start(NO_RULES)]);
    assert IsExecution(run) && IsWhole(run) by { Begins(NO_RULES); }
    hide IsExecution;
    run := Then(run, DoAsk(u));
    run := Then(run, DoAsk(u));
  }

  lemma RecordTogether(u: int) returns (run: Execution)
    ensures IsExecution(run) && IsWhole(run)
    ensures var m := End(run);
      && m.requests == Requests(multiset{u, u}, multiset{}, multiset{u, u})
      && m.publisher.PublisherIdle? && m.db.rows == map[] && m.bus == []
  {
    hide Do, IsExecution, IsWhole, NO_RULES, TEXT;
    run := BothAsk(u);
    assert multiset{u, u} - multiset{u} == multiset{u} && multiset{u} - multiset{u} == multiset{};
    run := Then(run, DoReceive(u, "source", None, TEXT));
    run := Then(run, DoReceive(u, "source", None, TEXT));
  }

  /** Two requests for one update that both ask before either records. */
  lemma AskTogether(u: int) returns (run: Execution)
    ensures IsExecution(run) && IsWhole(run) && IsUnmarked(End(run), InputRow(u), InputEnvelope(u, 0))
    ensures End(run).requests == Requests(multiset{u, u}, multiset{}, multiset{u})
  {
    hide Do, IsExecution, InputEnvelope, IsWhole, NO_RULES, TEXT;
    run := RecordTogether(u);
    assert multiset{u, u} - multiset{u} == multiset{u};
    run := Then(run, DoPostInput(u, 0));
    run := SendsFirst(run, InputRow(u));
  }

  /** No call cut short, but two requests for one update at a time: both write the row of the input. */
  lemma InputUnsent(u: int) returns (run: Execution)
    ensures IsExecution(run) && IsWhole(run) && IsUnsent(End(run), InputRow(u)) && End(run).requests.missed == multiset{u, u}
  {
    hide Do, IsExecution, IsWhole, InputEnvelope, Rows.IsSent;
    run := AskTogether(u);
    run := Then(run, DoPostInput(u, 1));
    OtherTimes(u);
    run := Marks(run, InputRow(u), End(run).publisher.queue[0]);
    NotSent(End(run), InputRow(u), InputEnvelope(u, 0));
  }
}
