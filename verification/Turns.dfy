/** How often a chat turn can be taken for one event: once, and once more for every call cut short. */
module Turns {
  import opened Text
  import opened Records
  import opened Machine
  import opened Frames
  import opened Shape
  import Json

  function One(b: bool): nat {
    if b then 1 else 0
  }

  predicate IsTurningOn(w: SessionWorker, u: int) {
    w.SessionBusy? && w.update == u && IsTurning(w.stage)
  }

  /** Every turn was committed, was lost, or is being committed now. */
  ghost predicate TurnsBalanced(log: Log, w: SessionWorker) {
    forall u :: log.turned[u] == log.committed[u] + log.turnLost[u] + One(IsTurningOn(w, u))
  }

  /** An event that is pending, or being worked on, was made pending more often than completed. */
  ghost predicate CommitsCovered(log: Log, routed: map<int, Routed>, w: SessionWorker) {
    && (forall u :: log.committed[u] <= log.resets[u])
    && (forall u | u in routed :: log.resets[u] >= 1 && (routed[u].status.RoutedPending? ==> log.committed[u] < log.resets[u]))
    && (w.SessionBusy? && !w.stage.Closing? ==> log.committed[w.update] < log.resets[w.update])
  }

  predicate IsRoutingOn(r: Router, u: int) {
    r.RouterBusy? && r.update == u && IsRouting(r.todo)
  }

  predicate IsProcessed(inbound: map<int, Inbound>, u: int) {
    u in inbound && inbound[u].status.InboundProcessed?
  }

  /** An event is made pending once for its processing, and once more for every router call cut short. */
  ghost predicate ResetsCovered(log: Log, inbound: map<int, Inbound>, r: Router) {
    forall u :: log.resets[u] <= log.routerLost[u] + One(IsProcessed(inbound, u) || IsRoutingOn(r, u))
  }

  ghost predicate Counted(m: Machine) {
    && TurnsBalanced(m.log, m.worker)
    && CommitsCovered(m.log, m.db.routed, m.worker)
    && ResetsCovered(m.log, m.db.inbound, m.router)
  }

  /** The parts of the machine that the counts are about. */
  predicate SameCounts(m: Machine, n: Machine) {
    && n.log.turned == m.log.turned && n.log.committed == m.log.committed && n.log.resets == m.log.resets
    && n.log.routerLost == m.log.routerLost && n.log.turnLost == m.log.turnLost
    && n.db.routed == m.db.routed
  }

  lemma SameCounted(m: Machine, n: Machine)
    requires Counted(m) && SameCounts(m, n) && n.db.inbound == m.db.inbound && n.router == m.router && n.worker == m.worker
    ensures Counted(n)
  {
  }

  lemma ResetCounted(log: Log, routed: map<int, Routed>, w: SessionWorker, u: int, record: Routed)
    requires CommitsCovered(log, routed, w)
    ensures CommitsCovered(log.(resets := log.resets + multiset{u}), routed[u := record], w)
  {
  }

  /** What a router step does to the events: it opens one, or settles one it was routing. */
  lemma StepRouterResets(m: Machine, now: int)
    requires RouterOwned(m.router, m.db.inbound, m.db.routed) && ResetsCovered(m.log, m.db.inbound, m.router)
    ensures var n := StepRouter(m, now);
      ResetsCovered(n.log, n.db.inbound, n.router)
  {
    hide StepRouter, RouterOwned;
    RouterOpen(m);
    StepRouterFrame(m, now);
  }

  lemma RouterOpen(m: Machine)
    requires RouterOwned(m.router, m.db.inbound, m.db.routed)
    ensures m.router.RouterBusy? ==> m.router.update in m.db.inbound && !IsProcessed(m.db.inbound, m.router.update)
  {
  }

  lemma StepRouterCounted(m: Machine, now: int)
    requires Shaped(m) && Counted(m)
    ensures Counted(StepRouter(m, now))
  {
    hide RowsShaped, RowsOwned, BusShaped, QueueShaped, WorkerOwned, TaskerOwned, TurnsBalanced, CommitsCovered, ResetsCovered, RouterOwned;
    hide StepRouter;
    var n := StepRouter(m, now);
    StepRouterFrame(m, now);
    StepRouterResets(m, now);
    TurnsBalancedBy(m.log, n.log, m.worker);
    if m.router.RouterBusy? && m.router.todo.PutRouted? {
      ResetCounted(m.log, m.db.routed, m.worker, m.router.update, m.router.todo.record);
      CommitsCoveredBy(m.log.(resets := n.log.resets), n.log, n.db.routed, m.worker);
    } else {
      CommitsCoveredBy(m.log, n.log, m.db.routed, m.worker);
    }
  }

  lemma FailRouterCounted(m: Machine)
    requires Counted(m)
    ensures Counted(FailRouter(m)) && Counted(StopRouter(m))
  {
    hide TurnsBalanced, CommitsCovered;
    TurnsBalancedBy(m.log, FailRouter(m).log, m.worker);
    TurnsBalancedBy(m.log, StopRouter(m).log, m.worker);
    CommitsCoveredBy(m.log, FailRouter(m).log, m.db.routed, m.worker);
    CommitsCoveredBy(m.log, StopRouter(m).log, m.db.routed, m.worker);
  }

  lemma TurnsBalancedBy(a: Log, b: Log, w: SessionWorker)
    requires TurnsBalanced(a, w) && a.turned == b.turned && a.committed == b.committed && a.turnLost == b.turnLost
    ensures TurnsBalanced(b, w)
  {
  }

  lemma CommitsCoveredBy(a: Log, b: Log, routed: map<int, Routed>, w: SessionWorker)
    requires CommitsCovered(a, routed, w) && a.committed == b.committed && a.resets == b.resets
    ensures CommitsCovered(b, routed, w)
  {
  }

  lemma BeginRouterCounted(m: Machine, i: nat, a: RouterInput)
    requires Shaped(m) && Counted(m)
    ensures Counted(BeginRouter(m, i, a))
  {
    hide Shaped, BeginRouter, TurnsBalanced, CommitsCovered, ResetsCovered;
    BeginRouterFrame(m, i, a);
    var n := BeginRouter(m, i, a);
    TurnsBalancedBy(m.log, n.log, m.worker);
    CommitsCoveredBy(m.log, n.log, m.db.routed, m.worker);
    ResetsCoveredBy(m.log, n.log, m.db.inbound, m.router, n.router);
  }

  /** The router may change as long as it is not past a routed event's write. */
  lemma ResetsCoveredBy(a: Log, b: Log, inbound: map<int, Inbound>, r: Router, q: Router)
    requires ResetsCovered(a, inbound, r) && a.resets == b.resets && a.routerLost == b.routerLost
    requires q == r || r.RouterIdle?
    ensures ResetsCovered(b, inbound, q)
  {
    forall u
      ensures b.resets[u] <= b.routerLost[u] + One(IsProcessed(inbound, u) || IsRoutingOn(q, u))
    {
      assert a.resets[u] <= a.routerLost[u] + One(IsProcessed(inbound, u) || IsRoutingOn(r, u));
    }
  }

  lemma BeginTurnCounted(m: Machine, i: nat)
    requires Counted(m)
    ensures Counted(BeginTurn(m, i))
  {
    hide Hears, ResetsCovered;
  }

  /** Completing an event being worked on. */
  lemma CommitCounted(log: Log, routed: map<int, Routed>, w: SessionWorker, record: Routed, next: SessionWorker)
    requires CommitsCovered(log, routed, w) && w.SessionBusy? && w.stage.Completing? && w.update in routed
    requires record.status.RoutedCompleted? && next.SessionBusy? && next.stage.Closing?
    ensures CommitsCovered(log.(committed := log.committed + multiset{w.update}), routed[w.update := record], next)
  {
  }

  lemma CommitBalanced(log: Log, w: SessionWorker, next: SessionWorker)
    requires TurnsBalanced(log, w) && w.SessionBusy? && w.stage.Completing? && next.SessionBusy? && next.stage.Closing?
    ensures TurnsBalanced(log.(committed := log.committed + multiset{w.update}), next)
  {
    assert IsTurningOn(w, w.update);
  }

  predicate IsNextStage(w: SessionWorker, next: SessionWorker) {
    && (next.SessionIdle? || (w.SessionBusy? && next.SessionBusy? && next.update == w.update && !w.stage.Closing?))
    && (w.SessionBusy? && IsTurning(w.stage) <==> next.SessionBusy? && IsTurning(next.stage))
  }

  /** Stages that differ neither in what they count nor in what they are about. */
  lemma NextStageCounted(a: Log, b: Log, routed: map<int, Routed>, w: SessionWorker, next: SessionWorker)
    requires TurnsBalanced(a, w) && CommitsCovered(a, routed, w)
    requires b == a.(posted := b.posted) && IsNextStage(w, next)
    ensures TurnsBalanced(b, next) && CommitsCovered(b, routed, next)
  {
    forall u
      ensures IsTurningOn(w, u) == IsTurningOn(next, u)
    {
    }
  }

  lemma StepTurnCounted(m: Machine, now: int)
    requires Counted(m) && WorkerOwned(m.worker, m.db.routed)
    ensures Counted(StepTurn(m, now))
  {
    hide ResetsCovered, TurnsBalanced, CommitsCovered, StepTurn;
    var n := StepTurn(m, now);
    StepTurnFrame(m, now);
    ResetsCoveredBy(m.log, n.log, m.db.inbound, m.router, m.router);
    if m.worker.SessionBusy? && m.worker.stage.Completing? {
      CommitCounted(m.log, m.db.routed, m.worker, m.worker.record.(status := RoutedCompleted, publishedAt := Some(now)), n.worker);
      CommitBalanced(m.log, m.worker, n.worker);
      CommitsCoveredBy(m.log.(committed := n.log.committed), n.log, n.db.routed, n.worker);
      TurnsBalancedBy(m.log.(committed := n.log.committed), n.log, n.worker);
    } else {
      StepTurnStages(m, now);
      NextStageCounted(m.log, n.log, m.db.routed, m.worker, n.worker);
    }
  }

  /** Where a step leaves the call, when it is not the one that completes the event. */
  lemma StepTurnStages(m: Machine, now: int)
    requires !(m.worker.SessionBusy? && m.worker.stage.Completing?)
    ensures IsNextStage(m.worker, StepTurn(m, now).worker)
  {
    hide Post, PutTask;
  }

  lemma TurnBalanced(log: Log, w: SessionWorker, next: SessionWorker)
    requires TurnsBalanced(log, w) && w.SessionBusy? && w.stage.Thinking?
    requires next.SessionBusy? && next.update == w.update && next.stage.Emitting?
    ensures TurnsBalanced(log.(turned := log.turned + multiset{w.update}), next)
  {
  }

  lemma TakeTurnCounted(m: Machine, run: Option<string>)
    requires Counted(m)
    ensures Counted(TakeTurn(m, run))
  {
    hide ResetsCovered, TurnsBalanced, CommitsCovered, MessageText;
    var n := TakeTurn(m, run);
    TakeTurnFrame(m, run);
    ResetsCoveredBy(m.log, n.log, m.db.inbound, m.router, m.router);
    if m.worker.SessionBusy? && m.worker.stage.Thinking? {
      if n.worker.SessionIdle? {
        NextStageCounted(m.log, n.log, m.db.routed, m.worker, n.worker);
      } else {
        TurnBalanced(m.log, m.worker, n.worker);
        TurnsBalancedBy(m.log.(turned := m.log.turned + multiset{m.worker.update}), n.log, n.worker);
        StillCovered(m.log, n.log, m.db.routed, m.worker, n.worker);
      }
    }
  }

  lemma StillCovered(a: Log, b: Log, routed: map<int, Routed>, w: SessionWorker, next: SessionWorker)
    requires CommitsCovered(a, routed, w) && b.committed == a.committed && b.resets == a.resets
    requires next.SessionIdle? || (w.SessionBusy? && next.SessionBusy? && next.update == w.update && !w.stage.Closing?)
    ensures CommitsCovered(b, routed, next)
  {
  }

  lemma StopTurnCounted(m: Machine)
    requires Counted(m)
    ensures Counted(StopTurn(m))
  {
    hide ResetsCovered, CommitsCovered;
    var n := StopTurn(m);
    ResetsCoveredBy(m.log, n.log, m.db.inbound, m.router, m.router);
    StillCovered(m.log, n.log, m.db.routed, m.worker, n.worker);
  }

  lemma ReceiveCounted(m: Machine, u: int, sourceId: string, operatorId: Option<string>, payload: Json.Json)
    requires Counted(m)
    ensures Counted(Receive(m, u, sourceId, operatorId, payload))
  {
    hide TurnsBalanced, CommitsCovered;
    var n := Receive(m, u, sourceId, operatorId, payload);
    TurnsBalancedBy(m.log, n.log, m.worker);
    CommitsCoveredBy(m.log, n.log, m.db.routed, m.worker);
  }

  /** Steps of the other workers and producers touch nothing that is counted. */
  lemma AsideCounted(m: Machine, s: Step)
    requires Counted(m) && IsAside(s)
    ensures Counted(Do(m, s))
  {
    hide Counted, Do;
    AsideFrame(m, s);
    SameCounted(m, Do(m, s));
  }

  lemma StepCounted(m: Machine, s: Step)
    requires Shaped(m) && Counted(m)
    ensures Counted(Do(m, s))
  {
    hide Counted, Ask, Receive, PostInput, CreateTask, Claim, Publish, MarkPublication, StopPublisher, BeginRouter, StepRouter, FailRouter, StopRouter;
    hide BeginTurn, StepTurn, TakeTurn, StopTurn, BeginTask, StepTask, RunJob, StopTask, DeliverOutput, DeliverResult, Follow;
    match s
    case DoReceive(u, sourceId, operatorId, payload) => ReceiveCounted(m, u, sourceId, operatorId, payload);
    case DoBeginRouter(i, input) => BeginRouterCounted(m, i, input);
    case DoStepRouter(now) => StepRouterCounted(m, now);
    case DoFailRouter => FailRouterCounted(m);
    case DoStopRouter => FailRouterCounted(m);
    case DoBeginTurn(i) => BeginTurnCounted(m, i);
    case DoStepTurn(now) => StepTurnCounted(m, now);
    case DoTakeTurn(run) => TakeTurnCounted(m, run);
    case DoStopTurn => StopTurnCounted(m);
    case _ => AsideCounted(m, s);
  }

  lemma {:induction false} RunCounted(run: Execution)
    requires IsExecution(run)
    ensures Counted(End(run))
    decreases |run.steps|
  {
    hide Do, Shaped, Counted, IsExecution;
    if run.steps == [] {
      StartCounted(run);
    } else {
      var before, s := LastStep(run);
      RunCounted(before);
      RunShaped(before);
      StepCounted(End(before), s);
    }
  }

  lemma StartCounted(run: Execution)
    requires IsExecution(run) && run.steps == []
    ensures Counted(End(run))
  {
    hide Do;
  }

  /**
    Over every run, the turns taken for an event number at most one, plus one for each router
    call cut short behind its first write and each session call cut short behind its turn.
   */
  lemma TurnsBounded(run: Execution, u: int)
    requires IsExecution(run)
    ensures End(run).log.turned[u] <= 1 + End(run).log.routerLost[u] + End(run).log.turnLost[u]
  {
    hide IsExecution;
    RunCounted(run);
    var m := End(run);
    assert m.log.resets[u] <= m.log.routerLost[u] + One(IsProcessed(m.db.inbound, u) || IsRoutingOn(m.router, u));
  }

  predicate IsCompleted(m: Machine, u: int) {
    u in m.db.routed && m.db.routed[u].status.RoutedCompleted?
  }

  lemma RoutedWasReset(log: Log, routed: map<int, Routed>, w: SessionWorker, u: int)
    requires CommitsCovered(log, routed, w) && u in routed
    ensures log.resets[u] >= 1
  {
  }

  lemma StepRouterReopens(m: Machine, now: int, u: int)
    requires RouterOwned(m.router, m.db.inbound, m.db.routed) && Counted(m)
    requires IsCompleted(m, u) && !IsCompleted(StepRouter(m, now), u)
    ensures m.log.routerLost[u] > 0
  {
    hide TurnsBalanced, CommitsCovered, StepRouter;
    StepRouterFrame(m, now);
    assert m.log.resets[u] >= 1 by { RoutedWasReset(m.log, m.db.routed, m.worker, u); }
  }

  lemma StepTurnCompletes(m: Machine, now: int, u: int)
    requires IsCompleted(m, u)
    ensures IsCompleted(StepTurn(m, now), u)
  {
    hide StepTurn;
    StepTurnFrame(m, now);
  }

  /** A completed event is made pending again only after a router call on it was cut short. */
  lemma OnlyLossReopens(m: Machine, s: Step, u: int)
    requires Shaped(m) && Counted(m) && IsCompleted(m, u) && !IsCompleted(Do(m, s), u)
    ensures m.log.routerLost[u] > 0
  {
    hide Counted, Ask, Receive, PostInput, BeginRouter, StepRouter, FailRouter, StopRouter, BeginTurn, StepTurn, TakeTurn, StopTurn;
    hide CreateTask, Claim, Publish, MarkPublication, StopPublisher, BeginTask, StepTask, RunJob, StopTask, DeliverOutput, DeliverResult, Follow;
    hide RowsShaped, RowsOwned, BusShaped, QueueShaped, WorkerOwned, TaskerOwned;
    match s
    case DoReceive(v, sourceId, operatorId, payload) => ReceiveFrame(m, v, sourceId, operatorId, payload);
    case DoBeginRouter(i, input) => BeginRouterFrame(m, i, input);
    case DoStepRouter(now) => StepRouterReopens(m, now, u);
    case DoFailRouter => FailRouterFrame(m);
    case DoStopRouter => FailRouterFrame(m);
    case DoBeginTurn(i) => BeginTurnFrame(m, i);
    case DoStepTurn(now) => StepTurnCompletes(m, now, u);
    case DoTakeTurn(run) => TakeTurnFrame(m, run);
    case DoStopTurn => TakeTurnFrame(m, None);
    case _ => AsideFrame(m, s);
  }

  /** Losses are only ever added. */
  lemma LossesGrow(m: Machine, s: Step, u: int)
    ensures m.log.routerLost[u] <= Do(m, s).log.routerLost[u]
  {
    hide Ask, Receive, PostInput, BeginRouter, StepRouter, FailRouter, StopRouter, BeginTurn, StepTurn, TakeTurn, StopTurn;
    hide CreateTask, Claim, Publish, MarkPublication, StopPublisher, BeginTask, StepTask, RunJob, StopTask, DeliverOutput, DeliverResult, Follow;
    match s
    case DoReceive(v, sourceId, operatorId, payload) => ReceiveFrame(m, v, sourceId, operatorId, payload);
    case DoBeginRouter(i, input) => BeginRouterFrame(m, i, input);
    case DoStepRouter(now) => StepRouterFrame(m, now);
    case DoFailRouter => FailRouterFrame(m);
    case DoStopRouter => FailRouterFrame(m);
    case DoBeginTurn(i) => BeginTurnFrame(m, i);
    case DoStepTurn(now) => StepTurnFrame(m, now);
    case DoTakeTurn(run) => TakeTurnFrame(m, run);
    case DoStopTurn => TakeTurnFrame(m, None);
    case _ => AsideFrame(m, s);
  }

  /** As long as no router call on it is cut short, a completed event stays completed, whatever is redelivered. */
  lemma {:induction false} CompletedStays(run: Execution, n: nat, u: int)
    requires IsExecution(run) && n <= |run.steps| && IsCompleted(run.states[n], u)
    requires End(run).log.routerLost[u] == 0
    ensures IsCompleted(End(run), u)
    decreases |run.steps|
  {
    hide Do, Shaped, Counted, IsCompleted;
    if n < |run.steps| {
      var before, s := LastStep(run);
      hide IsExecution;
      LossesGrow(End(before), s, u);
      CompletedStays(before, n, u);
      RunShaped(before);
      RunCounted(before);
      if !IsCompleted(End(run), u) {
        OnlyLossReopens(End(before), s, u);
      }
    }
  }

  /** A crash or a failed write in a call on an event. */
  predicate CutsShort(s: Step) {
    s.DoFailRouter? || s.DoStopRouter? || s.DoStopTurn?
  }

  lemma LosslessStep(m: Machine, s: Step)
    requires !CutsShort(s)
    ensures Do(m, s).log.routerLost == m.log.routerLost && Do(m, s).log.turnLost == m.log.turnLost
  {
    hide Ask, Receive, PostInput, BeginRouter, StepRouter, FailRouter, StopRouter, BeginTurn, StepTurn, TakeTurn, StopTurn;
    hide CreateTask, Claim, Publish, MarkPublication, StopPublisher, BeginTask, StepTask, RunJob, StopTask, DeliverOutput, DeliverResult, Follow;
    match s
    case DoReceive(v, sourceId, operatorId, payload) => ReceiveFrame(m, v, sourceId, operatorId, payload);
    case DoBeginRouter(i, input) => BeginRouterFrame(m, i, input);
    case DoStepRouter(now) => StepRouterParts(m, now);
    case DoBeginTurn(i) => BeginTurnFrame(m, i);
    case DoStepTurn(now) => StepTurnParts(m, now);
    case DoTakeTurn(run) => TakeTurnFrame(m, run);
    case _ => AsideFrame(m, s);
  }

  lemma {:induction false} LosslessRun(run: Execution)
    requires IsExecution(run) && forall s | s in run.steps :: !CutsShort(s)
    ensures End(run).log.routerLost == multiset{} && End(run).log.turnLost == multiset{}
    decreases |run.steps|
  {
    hide Do;
    if run.steps != [] {
      var before, s := LastStep(run);
      hide IsExecution;
      LosslessRun(before);
      LosslessStep(End(before), s);
    }
  }

  /**
    When no call is cut short, an event gets one turn at most, however often its messages are
    delivered and in whatever order the workers move; and once completed it stays completed.
   */
  lemma OneTurn(run: Execution, n: nat, u: int)
    requires IsExecution(run) && forall s | s in run.steps :: !CutsShort(s)
    requires n <= |run.steps|
    ensures End(run).log.turned[u] <= 1
    ensures IsCompleted(run.states[n], u) ==> IsCompleted(End(run), u)
  {
    hide IsExecution, IsCompleted;
    ExecutionStates(run);
    LosslessRun(run);
    TurnsBounded(run, u);
    if IsCompleted(run.states[n], u) {
      CompletedStays(run, n, u);
    }
  }
}
