/** Where every send comes from: the steps of the run that chose its rule, began and took its turn, and sent it. */
module Traces {
  import opened Text
  import opened Ids
  import opened Records
  import opened Machine
  import opened Frames
  import opened Shape
  import opened Provenance
  import opened Outputs
  import E = EventBus
  import D = Delivery
  import R = Routing
  import B = Binding
  import O = OutputRoutes
  import T = Transcripts

  // What one step adds to the record

  /** Only a router call's start adds choices, only a turn turns, only a delivery sends; routed events stay. */
  predicate AddsOwn(m: Machine, s: Step, n: Machine) {
    && (!s.DoDeliverOutput? ==> n.log.sends == m.log.sends)
    && (!s.DoBeginRouter? ==> n.log.choices == m.log.choices)
    && (!s.DoTakeTurn? ==> n.log.turns == m.log.turns)
    && m.db.routed.Keys <= n.db.routed.Keys
    && (s.DoBeginTurn? || s.DoStepTurn? || s.DoTakeTurn? || s.DoStopTurn? || n.worker == m.worker)
  }

  lemma EventAddsOwn(m: Machine, s: Step)
    requires IsEventStep(s)
    ensures AddsOwn(m, s, Do(m, s))
  {
    hide Ask, Receive, PostInput, CreateTask, Claim, Publish, MarkPublication, StopPublisher, BeginRouter, StepRouter, FailRouter, StopRouter;
    hide BeginTurn, StepTurn, TakeTurn, StopTurn, BeginTask, StepTask, RunJob, StopTask, DeliverOutput, DeliverResult, Follow;
    match s
    case DoReceive(u, sourceId, operatorId, payload) => ReceiveFrame(m, u, sourceId, operatorId, payload);
    case DoBeginRouter(i, input) => BeginRouterFrame(m, i, input);
    case DoStepRouter(now) => StepRouterFrame(m, now);
    case DoFailRouter => FailRouterFrame(m);
    case DoStopRouter => FailRouterFrame(m);
    case DoBeginTurn(i) => BeginTurnFrame(m, i);
    case DoStepTurn(now) => StepTurnFrame(m, now);
    case DoTakeTurn(run) => TakeTurnFrame(m, run);
    case DoStopTurn => TakeTurnFrame(m, None);
  }

  lemma StepAddsOwn(m: Machine, s: Step)
    ensures AddsOwn(m, s, Do(m, s))
  {
    hide Do;
    if IsEventStep(s) {
      EventAddsOwn(m, s);
    } else {
      AsideFrame(m, s);
      AsideKept(m, s);
    }
  }

  // Sends

  predicate IsOutputOf(e: Envelope, u: int, session: string, run: string) {
    e == OutputEnvelope(u, session, run, e.createdAt)
  }

  /** What delivery read for this output: the row, the session's agent, the latest of the run's assistant transcripts, and the run. */
  predicate IsRead(db: Db, u: int, out: D.Outgoing) {
    && out.event == OutputEvent(u)
    && OutputRow(u) in db.rows && IsOutputOf(db.rows[OutputRow(u)].payload, u, out.session, out.runId)
    && out.session in db.world.sessions && db.world.sessions[out.session].agent == out.agent
    && out.runId in db.world.runs && db.world.runs[out.runId] == out.run
    && out.transcript in db.world.transcripts && T.IsAssistantOf(out.transcript, out.session, out.runId)
    && forall t | t in db.world.transcripts && T.IsAssistantOf(t, out.session, out.runId) :: T.NoLater(t, out.transcript)
  }

  /** The send that a delivery makes for an enabled route of the session, as route and target were stored then. */
  predicate IsSentFrom(m: Machine, u: int, s: D.Send) {
    && IsRead(m.db, u, s.out)
    && s.routeId in m.db.routes && m.db.routes[s.routeId].enabled && m.db.routes[s.routeId].session == s.out.session
    && D.IsSendOn(m.db.world.targets, s.out, s, s.routeId, m.db.routes[s.routeId])
  }

  lemma OutgoingRead(m: Machine, i: nat)
    requires Shaped(m) && Hears(m, i, E.DELIVERY_FILTER) && OutgoingOf(m.db, m.bus[i].payload.event).Ready?
    ensures var out := OutgoingOf(m.db, m.bus[i].payload.event).value;
      out.event.OutputEvent? && IsRead(m.db, out.event.update, out)
  {
    hide Hears, RowsOwned, QueueShaped, RouterOwned, WorkerOwned, TaskerOwned, T.IsAssistantOf, T.Latest, T.AssistantOf, T.NoLater;
    HearsInBus(m, i, E.DELIVERY_FILTER);
    Heard(m, i);
    var k := RowOf(m.bus[i].payload.event);
    assert k.OutputRow? && RowShape(k, m.db.rows[k].payload);
    var e := m.db.rows[k].payload;
    T.LatestIsLatest(T.AssistantOf(m.db.world.transcripts, e.session, e.ref.run));
  }

  predicate AreSentFrom(m: Machine, n: Machine) {
    && |m.log.sends| <= |n.log.sends| && n.log.sends[..|m.log.sends|] == m.log.sends
    && forall i | |m.log.sends| <= i < |n.log.sends| ::
         n.log.sends[i].out.event.OutputEvent? && IsSentFrom(m, n.log.sends[i].out.event.update, n.log.sends[i])
  }

  lemma CallSentFrom(m: Machine, n: Machine, out: D.Outgoing, listing: seq<string>)
    requires out.event.OutputEvent? && IsRead(m.db, out.event.update, out) && D.IsListing(m.db.routes, out.session, listing)
    requires D.AreSendsOf(m.db.world.targets, out, m.db.routes, listing, |listing|, m.log.sends, n.log.sends)
    ensures AreSentFrom(m, n)
  {
    hide IsRead, D.IsSendOn;
    forall i | |m.log.sends| <= i < |n.log.sends|
      ensures n.log.sends[i].out.event.OutputEvent? && IsSentFrom(m, n.log.sends[i].out.event.update, n.log.sends[i])
    {
      var s := n.log.sends[i];
      D.SendOnIsOn(m.db.world.targets, out, s, s.routeId, m.db.routes[s.routeId]);
    }
  }

  lemma DeliverySentFrom(m: Machine, i: nat, listing: seq<string>, accepts: set<string>, budget: nat, now: int)
    requires Shaped(m)
    ensures AreSentFrom(m, DeliverOutput(m, i, listing, accepts, budget, now))
  {
    hide Shaped, Hears, OutgoingOf, D.DeliverToFirst, D.AreSendsOf, IsRead, D.IsSendOn, IsSentFrom;
    if Hears(m, i, E.DELIVERY_FILTER) {
      HearsInBus(m, i, E.DELIVERY_FILTER);
      if m.bus[i].payload.kind.OutputCreated? && OutgoingOf(m.db, m.bus[i].payload.event).Ready? {
        OutgoingRead(m, i);
        var out := OutgoingOf(m.db, m.bus[i].payload.event).value;
        if D.IsListing(m.db.routes, out.session, listing) {
          var d := D.Dispatch(m.db.routes, m.db.deliveries, m.log.sends, budget, 0, 0, 0, false);
          D.CallSteps(m.db.world.targets, out, d, m.db.routes, listing, |listing|, accepts, now);
          CallSentFrom(m, DeliverOutput(m, i, listing, accepts, budget, now), out, listing);
        }
      }
    }
  }

  lemma StepSentFrom(m: Machine, s: Step)
    requires Shaped(m) && s.DoDeliverOutput?
    ensures AreSentFrom(m, Do(m, s))
  {
    hide Shaped, AreSentFrom, Ask, Receive, PostInput, CreateTask, Claim, Publish, MarkPublication, StopPublisher, BeginRouter, StepRouter, FailRouter, StopRouter;
    hide BeginTurn, StepTurn, TakeTurn, StopTurn, BeginTask, StepTask, RunJob, StopTask, DeliverOutput, DeliverResult, Follow;
    DeliverySentFrom(m, s.i, s.listing, s.accepts, s.budget, s.now);
  }

  /** Every send was made at some step of the run, from what was stored then. */
  lemma {:induction false} SendMade(run: Execution, i: nat) returns (n: nat)
    requires IsExecution(run) && i < |End(run).log.sends|
    ensures n < |run.steps| && n < |run.states| && run.steps[n].DoDeliverOutput?
    ensures var s := End(run).log.sends[i];
      s.out.event.OutputEvent? && IsSentFrom(run.states[n], s.out.event.update, s)
    decreases |run.steps|
  {
    hide Do, IsExecution, Shaped, IsSentFrom;
    ExecutionStates(run);
    if run.steps == [] {
      StartEmpty(run);
    } else {
      var before, s := LastStep(run);
      var m := End(before);
      if i < |m.log.sends| {
        n := SendMade(before, i);
        StepSends(before, s);
      } else {
        n := |run.steps| - 1;
        StepSends(before, s);
      }
    }
  }

  lemma StartEmpty(run: Execution)
    requires IsExecution(run) && run.steps == []
    ensures var log := End(run).log;
      log.sends == [] && log.choices == [] && log.turns == [] && End(run).worker.SessionIdle?
  {
    hide Do;
  }

  lemma StepSends(run: Execution, s: Step)
    requires IsExecution(run)
    ensures var m, n := End(run), Do(End(run), s);
      && |m.log.sends| <= |n.log.sends| && n.log.sends[..|m.log.sends|] == m.log.sends
      && (forall i | 0 <= i < |m.log.sends| :: n.log.sends[i] == m.log.sends[i])
      && ((s.DoDeliverOutput? && AreSentFrom(m, n)) || n.log.sends == m.log.sends)
  {
    hide Do, IsExecution, Shaped, IsSentFrom;
    var m, n := End(run), Do(End(run), s);
    if s.DoDeliverOutput? {
      RunShaped(run);
      StepSentFrom(m, s);
    } else {
      StepAddsOwn(m, s);
    }
    forall i | 0 <= i < |m.log.sends|
      ensures n.log.sends[i] == m.log.sends[i]
    {
      assert n.log.sends[..|m.log.sends|][i] == n.log.sends[i];
    }
  }

  // Choices

  /** The rule was the first in the table as the call read it, once the chat was bound, and the event is the stored one. */
  predicate IsChosenFrom(m: Machine, rules: map<string, Rule>, c: Choice) {
    && c.update in m.db.inbound && m.db.inbound[c.update] == c.inbound && !IsControlCommand(c.inbound.payload)
    && c.rule.id in rules && rules[c.rule.id] == c.rule && c.rule.enabled
    && R.CheckOf(c.rule, c.inbound) == R.Yes && R.DecisionOf(c.rule) == Some(c.decision)
    && forall id | id in rules && rules[id].enabled && !R.NoSooner(c.rule, rules[id]) :: R.VerdictOf(rules[id], c.inbound) == R.Skip
  }

  predicate AreChosenFrom(m: Machine, n: Machine) {
    n.log.choices == m.log.choices
    || (|n.log.choices| == |m.log.choices| + 1 && n.log.choices[..|m.log.choices|] == m.log.choices
        && IsChosenFrom(m, n.db.world.rules, n.log.choices[|m.log.choices|]))
  }

  lemma JoinChosenFrom(m: Machine, u: int, inbound: Inbound, rule: Rule, d: R.Decision, t: B.Tables, now: int)
    requires IsChosenFrom(m, t.world.rules, Choice(u, inbound, rule, d))
    ensures AreChosenFrom(m, JoinRoutes(m, u, inbound, rule, d, t, now))
  {
    hide O.Materialize, RoutedRecord, IsChosenFrom;
  }

  lemma RouteChosenFrom(m: Machine, u: int, a: RouterInput)
    requires u in m.db.inbound && !IsControlCommand(m.db.inbound[u].payload)
    ensures AreChosenFrom(m, RouteEvent(m, u, m.db.inbound[u], a))
  {
    hide Bound, JoinRoutes, R.IsRuleListing, R.ResolveRoute, R.CheckOf, R.DecisionOf, R.VerdictOf, R.NoSooner, IsControlCommand;
    var inbound := m.db.inbound[u];
    var t := Bound(m, inbound, a);
    if !t.outcome.BindFailed? && R.IsRuleListing(t.world.rules, a.listing) {
      match R.ResolveRoute(inbound, a.listing)
      case Matched(rule, d) =>
        R.MatchedRule(t.world.rules, a.listing, inbound);
        JoinChosenFrom(m, u, inbound, rule, d, t, a.now);
      case _ =>
    }
  }

  lemma BeginChosenFrom(m: Machine, i: nat, a: RouterInput)
    ensures AreChosenFrom(m, BeginRouter(m, i, a))
  {
    hide RouteEvent, Hears, IsControlCommand, IsChosenFrom;
    if m.router.RouterIdle? && Hears(m, i, E.ROUTER_FILTER) {
      HearsInBus(m, i, E.ROUTER_FILTER);
      var e := m.bus[i].payload;
      if e.kind.MessageReceived? && e.ref.InboundRef? && e.ref.update in m.db.inbound
         && !IsControlCommand(m.db.inbound[e.ref.update].payload) {
        RouteChosenFrom(m, e.ref.update, a);
      }
    }
  }

  lemma StepChosenFrom(m: Machine, s: Step)
    ensures AreChosenFrom(m, Do(m, s))
  {
    hide AreChosenFrom, AddsOwn, Ask, Receive, PostInput, CreateTask, Claim, Publish, MarkPublication, StopPublisher, BeginRouter, StepRouter, FailRouter, StopRouter;
    hide BeginTurn, StepTurn, TakeTurn, StopTurn, BeginTask, StepTask, RunJob, StopTask, DeliverOutput, DeliverResult, Follow;
    if s.DoBeginRouter? {
      BeginChosenFrom(m, s.i, s.input);
    } else {
      OthersChoose(m, s);
    }
  }

  lemma OthersChoose(m: Machine, s: Step)
    requires !s.DoBeginRouter?
    ensures AreChosenFrom(m, Do(m, s))
  {
    hide Do, IsChosenFrom;
    StepAddsOwn(m, s);
  }

  /** Every choice was made at some start of a router call, from the rules as they were then. */
  lemma {:induction false} ChoiceMade(run: Execution, j: nat) returns (n: nat)
    requires IsExecution(run) && j < |End(run).log.choices|
    ensures n < |run.steps| && n + 1 < |run.states|
    ensures run.steps[n].DoBeginRouter? && IsChosenFrom(run.states[n], run.states[n + 1].db.world.rules, End(run).log.choices[j])
    decreases |run.steps|
  {
    hide Do, IsExecution, IsChosenFrom;
    ExecutionStates(run);
    if run.steps == [] {
      StartEmpty(run);
    } else {
      var before, s := LastStep(run);
      StepChosenFrom(End(before), s);
      StepAddsOwn(End(before), s);
      if j < |End(before).log.choices| {
        n := ChoiceMade(before, j);
        assert End(run).log.choices[..|End(before).log.choices|][j] == End(run).log.choices[j];
      } else {
        n := |run.steps| - 1;
      }
    }
  }

  // Turns

  /** The turn that succeeded for the routed event which the call had read. */
  predicate IsTakenBy(m: Machine, s: Step, t: Turn) {
    && s.DoTakeTurn? && s.run == Some(t.run)
    && m.worker.SessionBusy? && m.worker.update == t.update && m.worker.record.session == t.session
    && MessageText(m.worker.record).Some?
  }

  lemma StepTaken(m: Machine, s: Step)
    ensures var n := Do(m, s);
      n.log.turns == m.log.turns
      || (|n.log.turns| == |m.log.turns| + 1 && n.log.turns[..|m.log.turns|] == m.log.turns
          && IsTakenBy(m, s, n.log.turns[|m.log.turns|]))
  {
    hide Ask, Receive, PostInput, CreateTask, Claim, Publish, MarkPublication, StopPublisher, BeginRouter, StepRouter, FailRouter, StopRouter;
    hide BeginTurn, StepTurn, StopTurn, BeginTask, StepTask, RunJob, StopTask, DeliverOutput, DeliverResult, Follow, MessageText;
    if !s.DoTakeTurn? {
      StepAddsOwn(m, s);
    }
  }

  lemma {:induction false} TurnMade(run: Execution, k: nat) returns (n: nat)
    requires IsExecution(run) && k < |End(run).log.turns|
    ensures n < |run.steps| && n < |run.states| && IsTakenBy(run.states[n], run.steps[n], End(run).log.turns[k])
    decreases |run.steps|
  {
    hide Do, IsExecution, IsTakenBy;
    ExecutionStates(run);
    if run.steps == [] {
      StartEmpty(run);
    } else {
      var before, s := LastStep(run);
      StepTaken(End(before), s);
      if k < |End(before).log.turns| {
        n := TurnMade(before, k);
        assert End(run).log.turns[..|End(before).log.turns|][k] == End(run).log.turns[k];
      } else {
        n := |run.steps| - 1;
      }
    }
  }

  /** The routed event that the worker's call is on was read from the store at the call's start. */
  predicate IsBegunWith(m: Machine, s: Step, w: SessionWorker) {
    w.SessionBusy? ==>
      s.DoBeginTurn? && w.update in m.db.routed && m.db.routed[w.update] == w.record && !w.record.status.RoutedCompleted?
  }

  predicate GoesOn(m: Machine, s: Step, n: Machine) {
    n.worker.SessionBusy? ==>
      || (m.worker.SessionBusy? && n.worker.update == m.worker.update && n.worker.record == m.worker.record)
      || IsBegunWith(m, s, n.worker)
  }

  lemma TurnGoesOn(m: Machine, i: nat, run: Option<string>, now: int)
    ensures GoesOn(m, DoBeginTurn(i), BeginTurn(m, i)) && GoesOn(m, DoTakeTurn(run), TakeTurn(m, run))
    ensures GoesOn(m, DoStopTurn, StopTurn(m)) && GoesOn(m, DoStepTurn(now), StepTurn(m, now))
  {
    hide MessageText, Hears, StepTurn;
    StepTurnStays(m, now);
  }

  lemma StepWorks(m: Machine, s: Step)
    ensures GoesOn(m, s, Do(m, s))
  {
    hide Ask, Receive, PostInput, CreateTask, Claim, Publish, MarkPublication, StopPublisher, BeginRouter, StepRouter, FailRouter, StopRouter;
    hide BeginTurn, TakeTurn, StopTurn, StepTurn, BeginTask, StepTask, RunJob, StopTask, DeliverOutput, DeliverResult, Follow;
    match s
    case DoStepTurn(now) => TurnGoesOn(m, 0, None, now);
    case DoBeginTurn(i) => TurnGoesOn(m, i, None, 0);
    case DoTakeTurn(run) => TurnGoesOn(m, 0, run, 0);
    case DoStopTurn => TurnGoesOn(m, 0, None, 0);
    case _ => StepAddsOwn(m, s);
  }

  lemma {:induction false} CallBegun(run: Execution) returns (n: nat)
    requires IsExecution(run) && End(run).worker.SessionBusy?
    ensures n < |run.steps| && n < |run.states| && IsBegunWith(run.states[n], run.steps[n], End(run).worker)
    decreases |run.steps|
  {
    hide Do, IsExecution;
    ExecutionStates(run);
    if run.steps == [] {
      StartEmpty(run);
    } else {
      var before, s := LastStep(run);
      StepWorks(End(before), s);
      n := |run.steps| - 1;
      if !IsBegunWith(run.states[n], run.steps[n], End(run).worker) {
        n := CallBegun(before);
      }
    }
  }

  /** A routed event is never dropped. */
  lemma {:induction false} RoutedStays(run: Execution, n: nat, u: int)
    requires IsExecution(run) && n < |run.states| && u in run.states[n].db.routed
    ensures u in End(run).db.routed
    decreases |run.steps|
  {
    hide Do, IsExecution;
    ExecutionStates(run);
    if n < |run.steps| {
      var before, s := LastStep(run);
      StepAddsOwn(End(before), s);
      RoutedStays(before, n, u);
    }
  }

  // The whole trace

  /** The steps at which the rule was chosen, the turn's call began, the turn succeeded, and the text was sent. */
  datatype Trace = Trace(chosen: nat, begun: nat, taken: nat, sent: nat, choice: Choice)

  predicate IsTraceOf(run: Execution, t: Trace, s: D.Send) {
    && |run.states| == |run.steps| + 1 && t.chosen < t.begun < t.taken < t.sent < |run.steps|
    && s.out.event.OutputEvent?
    && var u := s.out.event.update;
    // delivery read the output row, the run and the transcript, and found target and route open
    && run.steps[t.sent].DoDeliverOutput? && IsSentFrom(run.states[t.sent], u, s)
    // the run is that of a turn that succeeded for the event and the session
    && IsTakenBy(run.states[t.taken], run.steps[t.taken], Turn(u, s.out.session, s.out.runId))
    // the turn's call had read the routed event from the store
    && IsBegunWith(run.states[t.begun], run.steps[t.begun], run.states[t.taken].worker)
    // the routed event is what the chosen rule makes of the stored inbound event
    && t.choice.update == u && Follows(run.states[t.taken].worker.record, t.choice)
    && run.steps[t.chosen].DoBeginRouter? && IsChosenFrom(run.states[t.chosen], run.states[t.chosen + 1].db.world.rules, t.choice)
  }

  lemma SentAfterTurn(run: Execution, sent: nat, s: D.Send) returns (taken: nat)
    requires IsExecution(run) && sent < |run.steps| && |run.states| == |run.steps| + 1
    requires s.out.event.OutputEvent? && IsSentFrom(run.states[sent], s.out.event.update, s)
    ensures taken < sent && IsTakenBy(run.states[taken], run.steps[taken], Turn(s.out.event.update, s.out.session, s.out.runId))
  {
    hide IsExecution, IsTakenBy, D.IsSendOn, T.IsAssistantOf, T.NoLater, EventsServed, TasksServed, NoneWaits, CallBacked, TaskerMoves;
    UptoIsExecution(run, sent);
    var part := Upto(run, sent);
    RunServed(part);
    var t := Turn(s.out.event.update, s.out.session, s.out.runId);
    assert t in End(part).log.turns;
    var k :| 0 <= k < |End(part).log.turns| && End(part).log.turns[k] == t;
    taken := TurnMade(part, k);
  }

  lemma TakenAfterChoice(run: Execution, taken: nat) returns (begun: nat, chosen: nat, c: Choice)
    requires IsExecution(run) && taken < |run.steps| && |run.states| == |run.steps| + 1
    requires run.states[taken].worker.SessionBusy?
    ensures chosen < begun < taken && c in run.states[begun].log.choices
    ensures IsBegunWith(run.states[begun], run.steps[begun], run.states[taken].worker)
    ensures c.update == run.states[taken].worker.update && Follows(run.states[taken].worker.record, c)
    ensures run.steps[chosen].DoBeginRouter? && IsChosenFrom(run.states[chosen], run.states[chosen + 1].db.world.rules, c)
  {
    hide IsExecution, IsChosenFrom, Follows, ChoicesStored, RouterChosen, WorkerChosen, TurnsDecided;
    UptoIsExecution(run, taken);
    begun := CallBegun(Upto(run, taken));
    UptoIsExecution(run, begun);
    var part := Upto(run, begun);
    RunChosen(part);
    var w := run.states[taken].worker;
    var choices := End(part).log.choices;
    assert IsChosen(choices, w.update, w.record);
    var j :| 0 <= j < |choices| && choices[j].update == w.update && Follows(w.record, choices[j]);
    chosen := ChoiceMade(part, j);
    c := choices[j];
  }

  lemma {:induction false} ChoicesStay(run: Execution, n: nat, c: Choice)
    requires IsExecution(run) && n < |run.states| && c in run.states[n].log.choices
    ensures c in End(run).log.choices
    decreases |run.steps|
  {
    hide Do, IsExecution, IsChosenFrom;
    ExecutionStates(run);
    if n < |run.steps| {
      var before, s := LastStep(run);
      StepChosenFrom(End(before), s);
      ChoicesStay(before, n, c);
      var j :| 0 <= j < |End(before).log.choices| && End(before).log.choices[j] == c;
      assert End(run).log.choices[..|End(before).log.choices|][j] == c;
    }
  }

  /**
    Every text ever sent for a session traces back through the run: over the output row, the
    successful turn and the routed event to a stored inbound event and the rule that was first
    to take it. Each was in the store when it was read.
   */
  lemma SendsTraceBack(run: Execution, i: nat) returns (t: Trace)
    requires IsExecution(run) && i < |End(run).log.sends|
    ensures IsTraceOf(run, t, End(run).log.sends[i])
    ensures var u := t.choice.update;
      u in End(run).db.routed && u in End(run).db.inbound && SameMessage(End(run).db.inbound[u], t.choice.inbound)
  {
    hide IsExecution, IsSentFrom, IsChosenFrom, Follows, Do, SameMessage, MessageText;
    hide RoutedChosen, RouterChosen, WorkerChosen, TurnsDecided;
    ExecutionStates(run);
    var s := End(run).log.sends[i];
    var sent := SendMade(run, i);
    var taken := SentAfterTurn(run, sent, s);
    var begun, chosen, c := TakenAfterChoice(run, taken);
    t := Trace(chosen, begun, taken, sent, c);
    RoutedStays(run, begun, c.update);
    ChoicesStay(run, begun, c);
    RunChosen(run);
    var j :| 0 <= j < |End(run).log.choices| && End(run).log.choices[j] == c;
  }
}
