/** An inbound event: as the first request that recorded it had it, for good. */
module Inbounds {
  import opened Text
  import opened Json
  import opened Records
  import opened Machine
  import opened Frames

  /** Two records of an event that differ in their status at most. */
  predicate AreAlike(a: Inbound, b: Inbound) {
    a.sourceKind == b.sourceKind && a.sourceId == b.sourceId && a.operatorId == b.operatorId && a.payload == b.payload
  }

  /** Events stay, but for their status. */
  predicate InboundStay(a: map<int, Inbound>, b: map<int, Inbound>) {
    forall u | u in a :: u in b && AreAlike(a[u], b[u])
  }

  /** The event is new, pending, and what the request brought. */
  predicate IsRecorded(a: map<int, Inbound>, b: map<int, Inbound>, u: int, sourceId: string, operatorId: Option<string>, payload: Json) {
    u !in a && u in b && b[u] == Inbound("telegram", sourceId, operatorId, Parsed(payload), InboundPending)
  }

  lemma StepKeepsInbound(m: Machine, s: Step)
    ensures var n := Do(m, s);
      && InboundStay(m.db.inbound, n.db.inbound)
      && (forall u | u in n.db.inbound && u !in m.db.inbound :: s.DoReceive? && s.u == u)
      && (s.DoReceive? && s.u in n.db.inbound && s.u !in m.db.inbound ==>
            IsRecorded(m.db.inbound, n.db.inbound, s.u, s.sourceId, s.operatorId, s.payload))
  {
    hide InboundStay, IsRecorded, SameEvents, StopPublisher, CreateTask, Claim, Publish, MarkPublication, BeginTask, StepTask, RunJob, StopTask, DeliverOutput, DeliverResult;
    hide Ask, Receive, PostInput, BeginRouter, StepRouter, FailRouter, StopRouter, BeginTurn, StepTurn, TakeTurn, StopTurn, Follow;
    AllStay(m.db.inbound);
    match s
    case DoReceive(u, sourceId, operatorId, payload) => ReceiveRecords(m, u, sourceId, operatorId, payload);
    case DoStepRouter(now) => RouterKeeps(m, now);
    case DoBeginRouter(i, input) => BeginRouterFrame(m, i, input);
    case DoFailRouter => FailRouterFrame(m);
    case DoStopRouter => FailRouterFrame(m);
    case DoBeginTurn(i) => BeginTurnFrame(m, i);
    case DoStepTurn(now) => StepTurnFrame(m, now);
    case DoTakeTurn(run) => TakeTurnFrame(m, run);
    case DoStopTurn => TakeTurnFrame(m, None);
    case _ => AsideKeepsInbound(m, s);
  }

  lemma AsideKeepsInbound(m: Machine, s: Step)
    requires IsAside(s)
    ensures Do(m, s).db.inbound == m.db.inbound
  {
    hide Do, SameEvents;
    AsideFrame(m, s);
    AlikeEvents(m, Do(m, s));
  }

  lemma AllStay(inbound: map<int, Inbound>)
    ensures InboundStay(inbound, inbound)
  {
  }

  lemma AlikeEvents(m: Machine, n: Machine)
    requires SameEvents(m, n)
    ensures n.db.inbound == m.db.inbound
  {
  }

  lemma ReceiveRecords(m: Machine, u: int, sourceId: string, operatorId: Option<string>, payload: Json)
    ensures var n := Receive(m, u, sourceId, operatorId, payload);
      && InboundStay(m.db.inbound, n.db.inbound) && (forall v | v in n.db.inbound && v !in m.db.inbound :: v == u)
      && (u in n.db.inbound && u !in m.db.inbound ==> IsRecorded(m.db.inbound, n.db.inbound, u, sourceId, operatorId, payload))
  {
  }

  lemma RouterKeeps(m: Machine, now: int)
    ensures var n := StepRouter(m, now);
      InboundStay(m.db.inbound, n.db.inbound) && n.db.inbound.Keys == m.db.inbound.Keys
  {
    hide StepRouter;
    StepRouterFrame(m, now);
  }

  /**
    Over every run, whatever requests come side by side and whatever becomes of the event: it has the
    source, the operator and the payload of the request that recorded it first.
   */
  lemma {:induction false} FirstRequestStays(run: Execution, u: int) returns (n: nat)
    requires IsExecution(run) && u in End(run).db.inbound
    ensures n < |run.steps| && n + 1 < |run.states| && run.steps[n].DoReceive? && run.steps[n].u == u && u !in run.states[n].db.inbound
    ensures AreAlike(End(run).db.inbound[u],
              Inbound("telegram", run.steps[n].sourceId, run.steps[n].operatorId, Parsed(run.steps[n].payload), InboundPending))
    decreases |run.steps|
  {
    hide Do, IsExecution;
    ExecutionStates(run);
    if run.steps == [] {
      NothingYet(run);
    } else {
      var before, s := LastStep(run);
      StepKeepsInbound(End(before), s);
      if u in End(before).db.inbound {
        n := FirstRequestStays(before, u);
      } else {
        n := |run.steps| - 1;
      }
    }
  }

  lemma NothingYet(run: Execution)
    requires IsExecution(run) && run.steps == []
    ensures End(run).db.inbound == map[]
  {
    hide Do;
  }
}
