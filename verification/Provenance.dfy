/** Every routed event is what a chosen rule makes of a stored inbound event, and every turn is of a chosen session. */
module Provenance {
  import opened Text
  import opened Records
  import opened Machine
  import opened Frames
  import E = EventBus
  import B = Binding
  import R = Routing
  import O = OutputRoutes
  import Json

  /** Two states of one stored event: all but its status is alike. */
  predicate SameMessage(a: Inbound, b: Inbound) {
    a == b.(status := a.status)
  }

  /** Every choice is of an event that is stored, with the message it has there. */
  predicate ChoicesStored(choices: seq<Choice>, inbound: map<int, Inbound>) {
    forall i | 0 <= i < |choices| ::
      choices[i].update in inbound && SameMessage(inbound[choices[i].update], choices[i].inbound)
  }

  lemma StoredStill(choices: seq<Choice>, a: map<int, Inbound>, b: map<int, Inbound>)
    requires ChoicesStored(choices, a)
    requires forall u | u in a :: u in b && SameMessage(b[u], a[u])
    ensures ChoicesStored(choices, b)
  {
  }

  /** The routed event is what the choice makes of its inbound event. */
  predicate Follows(record: Routed, c: Choice) {
    && record.ruleId == c.rule.id && record.session == c.decision.session && record.agent == c.decision.agent
    && record.queuePolicy == c.decision.queuePolicy && record.priority == c.decision.priority
    && record.payload == c.inbound.payload && record.dependencies == []
  }

  predicate IsChosen(choices: seq<Choice>, u: int, record: Routed) {
    exists i | 0 <= i < |choices| :: choices[i].update == u && Follows(record, choices[i])
  }

  predicate IsDecided(choices: seq<Choice>, u: int, session: string) {
    exists i | 0 <= i < |choices| :: choices[i].update == u && choices[i].decision.session == session
  }

  predicate RoutedChosen(routed: map<int, Routed>, choices: seq<Choice>) {
    forall u | u in routed :: IsChosen(choices, u, routed[u])
  }

  predicate RouterChosen(r: Router, choices: seq<Choice>) {
    r.RouterBusy? && r.todo.PutRouted? ==> IsChosen(choices, r.update, r.todo.record) && r.todo.record.status.RoutedPending?
  }

  predicate WorkerChosen(w: SessionWorker, choices: seq<Choice>) {
    w.SessionBusy? ==> IsChosen(choices, w.update, w.record)
  }

  predicate TurnsDecided(turns: seq<Turn>, choices: seq<Choice>) {
    forall i | 0 <= i < |turns| :: IsDecided(choices, turns[i].update, turns[i].session)
  }

  predicate IsChosenAll(m: Machine) {
    && ChoicesStored(m.log.choices, m.db.inbound)
    && RoutedChosen(m.db.routed, m.log.choices)
    && RouterChosen(m.router, m.log.choices)
    && WorkerChosen(m.worker, m.log.choices)
    && TurnsDecided(m.log.turns, m.log.choices)
  }

  lemma ChosenStill(a: seq<Choice>, b: seq<Choice>, u: int, record: Routed)
    requires IsChosen(a, u, record) && a <= b
    ensures IsChosen(b, u, record)
  {
    var i :| 0 <= i < |a| && a[i].update == u && Follows(record, a[i]);
    assert b[i] == a[i];
  }

  lemma DecidedStill(a: seq<Choice>, b: seq<Choice>, u: int, session: string)
    requires IsDecided(a, u, session) && a <= b
    ensures IsDecided(b, u, session)
  {
    var i :| 0 <= i < |a| && a[i].update == u && a[i].decision.session == session;
    assert b[i] == a[i];
  }

  lemma MoreChoices(m: Machine, choices: seq<Choice>)
    requires IsChosenAll(m) && m.log.choices <= choices && ChoicesStored(choices, m.db.inbound)
    ensures IsChosenAll(m.(log := m.log.(choices := choices)))
  {
    hide IsChosen, IsDecided, ChoicesStored;
    forall u | u in m.db.routed
      ensures IsChosen(choices, u, m.db.routed[u])
    {
      ChosenStill(m.log.choices, choices, u, m.db.routed[u]);
    }
    forall i | 0 <= i < |m.log.turns|
      ensures IsDecided(choices, m.log.turns[i].update, m.log.turns[i].session)
    {
      DecidedStill(m.log.choices, choices, m.log.turns[i].update, m.log.turns[i].session);
    }
    if m.router.RouterBusy? && m.router.todo.PutRouted? {
      ChosenStill(m.log.choices, choices, m.router.update, m.router.todo.record);
    }
    if m.worker.SessionBusy? {
      ChosenStill(m.log.choices, choices, m.worker.update, m.worker.record);
    }
  }

  lemma NewChoiceChosen(choices: seq<Choice>, c: Choice, now: int)
    ensures IsChosen(choices + [c], c.update, RoutedRecord(c.rule, c.decision, c.inbound, now))
    ensures RoutedRecord(c.rule, c.decision, c.inbound, now).status.RoutedPending?
  {
    var all := choices + [c];
    assert all[|choices|] == c;
    assert Follows(RoutedRecord(c.rule, c.decision, c.inbound, now), c);
  }

  lemma NewChoiceStored(choices: seq<Choice>, c: Choice, inbound: map<int, Inbound>)
    requires ChoicesStored(choices, inbound) && c.update in inbound && inbound[c.update] == c.inbound
    ensures ChoicesStored(choices + [c], inbound)
  {
  }

  lemma JoinRoutesChosen(m: Machine, u: int, inbound: Inbound, rule: Rule, d: R.Decision, t: B.Tables, now: int)
    requires IsChosenAll(m) && u in m.db.inbound && inbound == m.db.inbound[u]
    ensures IsChosenAll(JoinRoutes(m, u, inbound, rule, d, t, now))
  {
    hide O.Materialize, RoutedRecord, IsChosen, IsDecided, ChoicesStored, RoutedChosen, WorkerChosen, TurnsDecided;
    var c := Choice(u, inbound, rule, d);
    NewChoiceStored(m.log.choices, c, m.db.inbound);
    NewChoiceChosen(m.log.choices, c, now);
    MoreChoices(m, m.log.choices + [c]);
  }

  lemma RouteEventChosen(m: Machine, u: int, inbound: Inbound, a: RouterInput)
    requires IsChosenAll(m) && u in m.db.inbound && inbound == m.db.inbound[u]
    ensures IsChosenAll(RouteEvent(m, u, inbound, a))
  {
    hide Bound, JoinRoutes, R.IsRuleListing, R.ResolveRoute, IsControlCommand, ChoicesStored, RoutedChosen, WorkerChosen, TurnsDecided;
    var t := Bound(m, inbound, a);
    if !t.outcome.BindFailed? && R.IsRuleListing(t.world.rules, a.listing) {
      match R.ResolveRoute(inbound, a.listing)
      case Matched(rule, d) =>
        JoinRoutesChosen(m, u, inbound, rule, d, t, a.now);
      case _ =>
    }
  }

  lemma BeginRouterChosen(m: Machine, i: nat, a: RouterInput)
    requires IsChosenAll(m)
    ensures IsChosenAll(BeginRouter(m, i, a))
  {
    hide RouteEvent, Hears, IsControlCommand, ChoicesStored, RoutedChosen, WorkerChosen, TurnsDecided;
    if m.router.RouterIdle? && Hears(m, i, E.ROUTER_FILTER) {
      HearsInBus(m, i, E.ROUTER_FILTER);
      var e := m.bus[i].payload;
      if e.kind.MessageReceived? && e.ref.InboundRef? && e.ref.update in m.db.inbound
         && !IsControlCommand(m.db.inbound[e.ref.update].payload) {
        RouteEventChosen(m, e.ref.update, m.db.inbound[e.ref.update], a);
      }
    }
  }

  lemma StepRouterStored(m: Machine, now: int)
    requires ChoicesStored(m.log.choices, m.db.inbound)
    ensures ChoicesStored(m.log.choices, StepRouter(m, now).db.inbound)
  {
    hide StepRouter, ChoicesStored;
    StepRouterFrame(m, now);
    StoredStill(m.log.choices, m.db.inbound, StepRouter(m, now).db.inbound);
  }

  lemma StepRouterChosen(m: Machine, now: int)
    requires IsChosenAll(m)
    ensures IsChosenAll(StepRouter(m, now))
  {
    hide StepRouter, IsChosen, ChoicesStored, WorkerChosen, TurnsDecided;
    StepRouterFrame(m, now);
    StepRouterStored(m, now);
  }

  lemma FailRouterChosen(m: Machine)
    requires IsChosenAll(m)
    ensures IsChosenAll(FailRouter(m)) && IsChosenAll(StopRouter(m))
  {
    hide IsChosen, ChoicesStored, WorkerChosen, TurnsDecided, RoutedChosen;
  }

  lemma BeginTurnChosen(m: Machine, i: nat)
    requires IsChosenAll(m)
    ensures IsChosenAll(BeginTurn(m, i))
  {
    hide Hears, IsChosen, ChoicesStored, RouterChosen, TurnsDecided;
  }

  lemma ChosenCompleted(choices: seq<Choice>, u: int, record: Routed, now: int)
    requires IsChosen(choices, u, record)
    ensures IsChosen(choices, u, record.(status := RoutedCompleted, publishedAt := Some(now)))
  {
    var i :| 0 <= i < |choices| && choices[i].update == u && Follows(record, choices[i]);
    assert Follows(record.(status := RoutedCompleted, publishedAt := Some(now)), choices[i]);
  }

  /** A call stays with the event and the record it began with. */
  lemma StepTurnStays(m: Machine, now: int)
    ensures var n := StepTurn(m, now);
      n.worker.SessionBusy? ==> m.worker.SessionBusy? && n.worker.update == m.worker.update && n.worker.record == m.worker.record
  {
    hide Post, PutTask;
  }

  lemma StepTurnChosen(m: Machine, now: int)
    requires IsChosenAll(m)
    ensures IsChosenAll(StepTurn(m, now))
  {
    hide StepTurn, IsChosen, ChoicesStored, RouterChosen, TurnsDecided;
    StepTurnFrame(m, now);
    StepTurnStays(m, now);
    if m.worker.SessionBusy? {
      ChosenCompleted(m.log.choices, m.worker.update, m.worker.record, now);
    }
  }

  lemma ChosenDecided(choices: seq<Choice>, u: int, record: Routed)
    requires IsChosen(choices, u, record)
    ensures IsDecided(choices, u, record.session)
  {
    var i :| 0 <= i < |choices| && choices[i].update == u && Follows(record, choices[i]);
  }

  lemma TakeTurnChosen(m: Machine, run: Option<string>)
    requires IsChosenAll(m)
    ensures IsChosenAll(TakeTurn(m, run)) && IsChosenAll(StopTurn(m))
  {
    hide IsChosen, IsDecided, ChoicesStored, RouterChosen, RoutedChosen, MessageText;
    if m.worker.SessionBusy? {
      ChosenDecided(m.log.choices, m.worker.update, m.worker.record);
    }
  }

  lemma SameEventsChosen(m: Machine, n: Machine)
    requires IsChosenAll(m) && SameEvents(m, n)
    ensures IsChosenAll(n)
  {
    hide ChoicesStored, RouterChosen, RoutedChosen, TurnsDecided, WorkerChosen;
  }

  /** A webhook request leaves the events already stored as they are. */
  lemma ReceiveKeeps(m: Machine, u: int, sourceId: string, operatorId: Option<string>, payload: Json.Json)
    ensures forall v | v in m.db.inbound ::
      var n := Receive(m, u, sourceId, operatorId, payload);
      v in n.db.inbound && n.db.inbound[v] == m.db.inbound[v]
  {
  }

  lemma ReceiveChosen(m: Machine, u: int, sourceId: string, operatorId: Option<string>, payload: Json.Json)
    requires IsChosenAll(m)
    ensures IsChosenAll(Receive(m, u, sourceId, operatorId, payload))
  {
    hide Ask, Receive, PostInput, ChoicesStored, RouterChosen, RoutedChosen, TurnsDecided, WorkerChosen;
    ReceiveFrame(m, u, sourceId, operatorId, payload);
    ReceiveKeeps(m, u, sourceId, operatorId, payload);
    StoredStill(m.log.choices, m.db.inbound, Receive(m, u, sourceId, operatorId, payload).db.inbound);
  }

  lemma StepChosen(m: Machine, s: Step)
    requires IsChosenAll(m)
    ensures IsChosenAll(Do(m, s))
  {
    hide IsChosenAll, Ask, Receive, PostInput, CreateTask, Claim, Publish, MarkPublication, StopPublisher, BeginRouter, StepRouter, FailRouter, StopRouter;
    hide BeginTurn, StepTurn, TakeTurn, StopTurn, BeginTask, StepTask, RunJob, StopTask, DeliverOutput, DeliverResult, Follow;
    match s
    case DoReceive(u, sourceId, operatorId, payload) => ReceiveChosen(m, u, sourceId, operatorId, payload);
    case DoBeginRouter(i, input) => BeginRouterChosen(m, i, input);
    case DoStepRouter(now) => StepRouterChosen(m, now);
    case DoFailRouter => FailRouterChosen(m);
    case DoStopRouter => FailRouterChosen(m);
    case DoBeginTurn(i) => BeginTurnChosen(m, i);
    case DoStepTurn(now) => StepTurnChosen(m, now);
    case DoTakeTurn(run) => TakeTurnChosen(m, run);
    case DoStopTurn => TakeTurnChosen(m, None);
    case _ =>
      AsideFrame(m, s);
      SameEventsChosen(m, Do(m, s));
  }

  lemma {:induction false} RunChosen(run: Execution)
    requires IsExecution(run)
    ensures IsChosenAll(End(run))
    decreases |run.steps|
  {
    hide Do, IsChosenAll, IsExecution;
    if run.steps == [] {
      StartChosen(run);
    } else {
      var before, s := LastStep(run);
      RunChosen(before);
      StepChosen(End(before), s);
    }
  }

  lemma StartChosen(run: Execution)
    requires IsExecution(run) && run.steps == []
    ensures IsChosenAll(End(run))
  {
    hide Do;
  }
}
