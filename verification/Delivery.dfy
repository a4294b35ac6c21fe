/** Sending an output to the routes of its session, and a task's result to its followers. */
module Delivery {
  import opened Text
  import opened Ids
  import opened Records
  import opened OutputRoutes

  /** Why the target may not have the output of a session; none when it may. */
  function SessionTrouble(t: Target, session: string, agent: string): Option<Trouble> {
    if t.allowedSessions.Malformed? then Some(ListMalformed)
    else if t.allowedSessions.value != [] && session !in t.allowedSessions.value then Some(SessionRefused)
    else if t.allowedAgents.Malformed? then Some(ListMalformed)
    else if t.allowedAgents.value != [] && agent !in t.allowedAgents.value then Some(AgentRefused)
    else None
  }

  predicate Names(list: seq<string>, id: Option<string>) {
    id.Some? && id.value in list
  }

  function TaskTrouble(t: Target, task: Task): Option<Trouble> {
    if t.allowedSessions.Malformed? then Some(ListMalformed)
    else if t.allowedSessions.value != [] && task.sourceSession.None? then Some(NoSourceSession)
    else if t.allowedSessions.value != [] && task.sourceSession.value !in t.allowedSessions.value then Some(SessionRefused)
    else if t.allowedAgents.Malformed? then Some(ListMalformed)
    else if t.allowedAgents.value != [] && !Names(t.allowedAgents.value, task.owner) && !Names(t.allowedAgents.value, task.executor)
    then Some(AgentRefused)
    else None
  }

  /** A list of allowed ids lets one through: it is well-formed, and empty or names it. */
  predicate IsOpenTo(list: Parsed<seq<string>>, id: string) {
    list.Parsed? && (list.value == [] || id in list.value)
  }

  predicate Admits(t: Target, session: string, agent: string) {
    IsOpenTo(t.allowedSessions, session) && IsOpenTo(t.allowedAgents, agent)
  }

  /** A task's result may go where its source session and its owner or its executor may. */
  predicate AdmitsTask(t: Target, task: Task) {
    && t.allowedSessions.Parsed? && t.allowedAgents.Parsed?
    && (t.allowedSessions.value == [] || exists s | s in t.allowedSessions.value :: task.sourceSession == Some(s))
    && (t.allowedAgents.value == [] || exists a | a in t.allowedAgents.value :: task.owner == Some(a) || task.executor == Some(a))
  }

  /** There is no trouble exactly when both lists let the output through. */
  lemma NoTroubleIff(t: Target, session: string, agent: string, task: Task)
    ensures SessionTrouble(t, session, agent) == None <==> Admits(t, session, agent)
    ensures TaskTrouble(t, task) == None <==> AdmitsTask(t, task)
  {
    if TaskTrouble(t, task) == None {
      if t.allowedSessions.value != [] {
        assert task.sourceSession.value in t.allowedSessions.value;
      }
      if t.allowedAgents.value != [] && !Names(t.allowedAgents.value, task.owner) {
        assert task.executor.value in t.allowedAgents.value;
      }
    }
  }

  predicate AlreadyDelivered(r: Route, t: Transcript) {
    r.deliveredId == Some(t.id) || (r.deliveredAt.Some? && r.deliveredAt.value >= t.createdAt)
  }

  function BoundedLine(text: string, most: nat): string {
    var line := Join(Words(text), " ");
    if |line| <= most then line else line[..most] + "..."
  }

  function OrElse(text: Option<string>, other: string): string {
    if text.Some? then text.value else other
  }

  /** The text for one route; none when the route only wants errors and there is none. */
  function OutputText(session: string, route: Route, target: Target, transcript: Transcript, run: Run): Option<string> {
    var format := if IsBlank(route.format) then target.format else route.format;
    if format == "status_only" then Some("Session " + session + " produced a new assistant response.")
    else if format == "summary" then
      Some("Session " + session + " assistant response:\n" + BoundedLine(transcript.content, 700))
    else if format == "errors_only" then
      if run.status == "failed" || run.status == "cancelled"
      then Some("Session " + session + " failed: " + OrElse(run.error, "unknown error"))
      else None
    else Some(transcript.content)
  }

  function StatusText(s: TaskStatus): string {
    match s
    case Queued => "queued"
    case Running => "running"
    case WaitingDependency => "waiting_dependency"
    case Completed => "completed"
    case Failed => "failed"
    case Cancelled => "cancelled"
    case Blocked => "blocked"
  }

  function Line(name: string, text: Option<string>): seq<string> {
    if text.Some? then ["- " + name + ": " + text.value] else []
  }

  function Indented(lines: seq<string>): seq<string> {
    seq(|lines|, i requires 0 <= i < |lines| => "  " + lines[i])
  }

  function ResultLines(id: string, task: Task): seq<string> {
    ["Task result:", "- id: " + id, "- status: " + StatusText(task.status), "- kind: " + task.kind]
    + Line("source_session_id", task.sourceSession)
    + Line("executor_agent_id", task.executor)
    + Line("error", task.error)
    + (if task.result.Some? then ["- result_ref_json:"] + Indented(task.result.value) else [])
  }

  function ResultText(id: string, task: Task, target: Target): Option<string> {
    var status := StatusText(task.status);
    if target.format == "status_only" then Some("Task " + id + " finished with status " + status + ".")
    else if target.format == "summary" then Some("Task " + id + " " + status + " (" + task.kind + ")")
    else if target.format == "errors_only" then
      if task.status.Failed? || task.status.Blocked? || task.status.Cancelled?
      then Some("Task " + id + " finished with status " + status + ": " + OrElse(task.error, "no error detail"))
      else None
    else Some(Join(ResultLines(id, task), "\n"))
  }

  /** What is to become of one recipient. */
  datatype Verdict = Passed | Refused(trouble: Trouble) | Sendable(text: string)

  /** One session output: the event, its session, and the transcript and run it is rendered from. */
  datatype Outgoing = Outgoing(event: EventKey, session: string, agent: string, transcript: Transcript, runId: string, run: Run)

  function RouteVerdict(targets: map<string, Target>, out: Outgoing, r: Route): (v: Verdict)
    ensures v.Sendable? ==> r.target in targets
  {
    if AlreadyDelivered(r, out.transcript) then Passed
    else if r.target !in targets then Refused(TargetMissing)
    else
      var target := targets[r.target];
      var trouble := SessionTrouble(target, out.session, out.agent);
      if trouble.Some? then Refused(trouble.value)
      else
        match OutputText(out.session, r, target, out.transcript, out.run)
        case None => Passed
        case Some(text) => Sendable(text)
  }

  predicate IsOpenFor(targets: map<string, Target>, out: Outgoing, r: Route) {
    r.target in targets && Admits(targets[r.target], out.session, out.agent)
  }

  /**
    A text goes out on a route exactly when the transcript is still due there, the target is
    known and admits the output, and the route's format gives that text; a failure is noted
    exactly when it is due and the target is unknown or does not admit it.
   */
  lemma VerdictIff(targets: map<string, Target>, out: Outgoing, r: Route, text: string)
    ensures var v := RouteVerdict(targets, out, r);
      && (v == Sendable(text) <==>
            && !AlreadyDelivered(r, out.transcript) && IsOpenFor(targets, out, r)
            && OutputText(out.session, r, targets[r.target], out.transcript, out.run) == Some(text))
      && (v.Refused? <==> !AlreadyDelivered(r, out.transcript) && !IsOpenFor(targets, out, r))
  {
    hide AlreadyDelivered, SessionTrouble, Admits, OutputText;
    if r.target in targets {
      OutputAdmitted(targets[r.target], out.session, out.agent);
    }
  }

  /** A text handed over to a target; `committed` when the route's watermark was then raised. */
  datatype Send = Send(routeId: string, route: Route, target: Target, out: Outgoing, text: string, committed: bool)

  /** How far a delivery call has come; `budget` is the number of its writes that will still succeed. */
  datatype Dispatch = Dispatch(
    routes: map<string, Route>,
    deliveries: map<string, Records.Delivery>,
    sends: seq<Send>,
    budget: nat,
    delivered: nat,
    failed: nat,
    skipped: nat,
    stopped: bool)

  function DeliveryId(event: EventKey, target: string): string {
    "delivery-" + EventId(event) + "-" + target
  }

  function RecordFailure(d: Dispatch, event: EventKey, target: string, trouble: Trouble, now: int): Dispatch {
    if d.budget == 0 then d.(stopped := true)
    else d.(deliveries := d.deliveries[DeliveryId(event, target) := Records.Delivery(Some(trouble), now)],
            budget := d.budget - 1, failed := d.failed + 1)
  }

  function Raised(r: Route, t: Transcript, now: int): Route {
    r.(deliveredAt := Some(t.createdAt), deliveredId := Some(t.id), updatedAt := now)
  }

  /** The target has the text; now the delivery record and the watermark are to be written. */
  function RecordSend(d: Dispatch, out: Outgoing, id: string, r: Route, target: Target, text: string, now: int): Dispatch {
    var sent := d.(sends := d.sends + [Send(id, r, target, out, text, d.budget >= 2)]);
    var deliveries := d.deliveries[DeliveryId(out.event, r.target) := Records.Delivery(None, now)];
    if d.budget == 0 then sent.(stopped := true)
    else if d.budget == 1 then sent.(deliveries := deliveries, budget := 0, stopped := true)
    else sent.(deliveries := deliveries, routes := d.routes[id := Raised(r, out.transcript, now)],
               budget := d.budget - 2, delivered := d.delivered + 1)
  }

  /** One route of the listing, as it was when the call began; `accepts` when its target takes the text. */
  function DeliverTo(targets: map<string, Target>, out: Outgoing, d: Dispatch, id: string, r: Route, accepts: bool, now: int): Dispatch {
    if d.stopped then d
    else
      match RouteVerdict(targets, out, r)
      case Passed => d.(skipped := d.skipped + 1)
      case Refused(trouble) => RecordFailure(d, out.event, r.target, trouble, now)
      case Sendable(text) =>
        if accepts then RecordSend(d, out, id, r, targets[r.target], text, now)
        else RecordFailure(d, out.event, r.target, SendFailed, now)
  }

  /** The first `n` routes of the listing, one after the other. */
  function DeliverToFirst(targets: map<string, Target>, out: Outgoing, d: Dispatch, routes: map<string, Route>,
                          listing: seq<string>, n: nat, accepts: set<string>, now: int): Dispatch
    requires n <= |listing| && forall id | id in listing :: id in routes
  {
    if n == 0 then d
    else
      var id := listing[n - 1];
      DeliverTo(targets, out, DeliverToFirst(targets, out, d, routes, listing, n - 1, accepts, now),
                id, routes[id], id in accepts, now)
  }

  predicate IsListing(routes: map<string, Route>, session: string, listing: seq<string>) {
    && (forall id | id in listing :: id in routes && routes[id].enabled && routes[id].session == session)
    && (forall id | id in routes && routes[id].enabled && routes[id].session == session :: id in listing)
    && AreDistinct(listing)
  }

  /**
    What the log of sends says of the routes: a committed send lies below its route's watermark,
    and every later send on that route is of a transcript created strictly later.
   */
  predicate SendsInOrder(routes: map<string, Route>, sends: seq<Send>) {
    && (forall i | 0 <= i < |sends| && sends[i].committed ::
          sends[i].routeId in routes && NoFurther(Some(sends[i].out.transcript.createdAt), routes[sends[i].routeId].deliveredAt))
    && (forall i, j | 0 <= i < j < |sends| && sends[i].routeId == sends[j].routeId && sends[i].committed ::
          sends[i].out.transcript.createdAt < sends[j].out.transcript.createdAt)
  }

  lemma SendsStayInOrder(before: map<string, Route>, after: map<string, Route>, sends: seq<Send>)
    requires SendsInOrder(before, sends) && RoutesAdvance(before, after)
    ensures SendsInOrder(after, sends)
  {
  }

  /** A send that was due is later than all that were committed on its route before. */
  lemma DueSendIsLater(routes: map<string, Route>, sends: seq<Send>, s: Send)
    requires SendsInOrder(routes, sends)
    requires s.routeId in routes && routes[s.routeId] == s.route && !AlreadyDelivered(s.route, s.out.transcript)
    requires !s.committed
    ensures SendsInOrder(routes, sends + [s])
  {
    var all := sends + [s];
    forall i, j | 0 <= i < j < |all| && all[i].routeId == all[j].routeId && all[i].committed
      ensures all[i].out.transcript.createdAt < all[j].out.transcript.createdAt
    {
      assert all[i] == sends[i];
      assert j < |sends| ==> all[j] == sends[j];
    }
  }

  lemma CommittedSend(routes: map<string, Route>, sends: seq<Send>, s: Send, now: int)
    requires SendsInOrder(routes, sends)
    requires s.routeId in routes && routes[s.routeId] == s.route && !AlreadyDelivered(s.route, s.out.transcript)
    requires s.committed
    ensures var after := routes[s.routeId := Raised(s.route, s.out.transcript, now)];
      SendsInOrder(after, sends + [s]) && RoutesAdvance(routes, after)
  {
    hide SendsInOrder;
    var after := routes[s.routeId := Raised(s.route, s.out.transcript, now)];
    assert RoutesAdvance(routes, after);
    DueSendIsLater(routes, sends, s.(committed := false));
    SendsStayInOrder(routes, after, sends + [s.(committed := false)]);
    CommitLast(after, sends, s);
  }

  lemma CommitLast(routes: map<string, Route>, sends: seq<Send>, s: Send)
    requires SendsInOrder(routes, sends + [s.(committed := false)]) && s.committed
    requires s.routeId in routes && NoFurther(Some(s.out.transcript.createdAt), routes[s.routeId].deliveredAt)
    ensures SendsInOrder(routes, sends + [s])
  {
    var open := sends + [s.(committed := false)];
    var all := sends + [s];
    forall i | 0 <= i < |all|
      ensures all[i].routeId == open[i].routeId && all[i].out == open[i].out
      ensures i < |sends| ==> all[i] == open[i] == sends[i]
    {
    }
  }

  /** What one route of the listing leaves alone, and what it may do to its own. */
  predicate IsDeliveryStep(targets: map<string, Target>, out: Outgoing, d: Dispatch, e: Dispatch, id: string, r: Route) {
    && (forall k | k in d.routes && k != id :: k in e.routes && e.routes[k] == d.routes[k])
    && (forall k | k in e.routes :: k in d.routes || k == id)
    && e.budget <= d.budget && (d.stopped ==> e == d)
    && (e.sends == d.sends || (|e.sends| == |d.sends| + 1 && e.sends[..|d.sends|] == d.sends
                               && IsSendOn(targets, out, e.sends[|d.sends|], id, r)))
  }

  /** A send is made only when it was due, the target exists and admits it, with the text for that route. */
  predicate IsSendOn(targets: map<string, Target>, out: Outgoing, s: Send, id: string, r: Route) {
    && s.routeId == id && s.route == r && s.out == out && !AlreadyDelivered(r, out.transcript)
    && r.target in targets && s.target == targets[r.target]
    && Admits(s.target, out.session, out.agent)
    && OutputText(out.session, r, s.target, out.transcript, out.run) == Some(s.text)
  }

  lemma DeliverToSteps(targets: map<string, Target>, out: Outgoing, d: Dispatch, id: string, r: Route, accepts: bool, now: int)
    ensures IsDeliveryStep(targets, out, d, DeliverTo(targets, out, d, id, r, accepts, now), id, r)
  {
    hide AlreadyDelivered, SessionTrouble, Admits, OutputText, DeliveryId;
    if r.target in targets {
      OutputAdmitted(targets[r.target], out.session, out.agent);
    }
  }

  lemma OutputAdmitted(t: Target, session: string, agent: string)
    ensures SessionTrouble(t, session, agent) == None <==> Admits(t, session, agent)
  {
  }

  lemma ResultAdmitted(t: Target, task: Task)
    ensures TaskTrouble(t, task) == None ==> AdmitsTask(t, task)
  {
    hide AdmitsTask, TaskTrouble, Admits, SessionTrouble;
    NoTroubleIff(t, "", "", task);
  }

  lemma DeliverToKeeps(targets: map<string, Target>, out: Outgoing, d: Dispatch, id: string, r: Route, accepts: bool, now: int)
    requires SendsInOrder(d.routes, d.sends) && (d.stopped || (id in d.routes && d.routes[id] == r))
    ensures var e := DeliverTo(targets, out, d, id, r, accepts, now);
      && SendsInOrder(e.routes, e.sends) && RoutesAdvance(d.routes, e.routes)
      && (WatermarksWhole(d.routes) ==> WatermarksWhole(e.routes))
  {
    hide AlreadyDelivered, SessionTrouble, OutputText, DeliveryId, SendsInOrder, IsSendOn;
    NoAdvance(d.routes);
    if !d.stopped && accepts {
      match RouteVerdict(targets, out, r)
      case Sendable(text) =>
        var s := Send(id, r, targets[r.target], out, text, d.budget >= 2);
        if s.committed {
          CommittedSend(d.routes, d.sends, s, now);
        } else {
          DueSendIsLater(d.routes, d.sends, s);
        }
      case _ =>
    }
  }

  /** What is noted when an output does not reach a target. */
  predicate IsWhyNot(trouble: Trouble, targets: map<string, Target>, target: string, session: string, agent: string) {
    match trouble
    case TargetMissing => target !in targets
    case ListMalformed => target in targets
      && (targets[target].allowedSessions.Malformed?
          || (IsOpenTo(targets[target].allowedSessions, session) && targets[target].allowedAgents.Malformed?))
    case SessionRefused => target in targets
      && targets[target].allowedSessions.Parsed? && !IsOpenTo(targets[target].allowedSessions, session)
    case AgentRefused => target in targets
      && IsOpenTo(targets[target].allowedSessions, session) && targets[target].allowedAgents.Parsed? && !IsOpenTo(targets[target].allowedAgents, agent)
    case SendFailed => target in targets && Admits(targets[target], session, agent)
    case NoSourceSession => false
  }

  /** What a route of a call that is not cut short is left with: nothing new, a failure and why, or a send and the raised watermark. */
  lemma RouteTold(targets: map<string, Target>, out: Outgoing, d: Dispatch, id: string, r: Route, accepts: bool, now: int)
    requires !d.stopped && d.budget >= 2
    ensures var e := DeliverTo(targets, out, d, id, r, accepts, now);
      var key := "delivery-" + EventId(out.event) + "-" + r.target;
      || (e == d.(skipped := d.skipped + 1)
          && (AlreadyDelivered(r, out.transcript)
              || (IsOpenFor(targets, out, r) && OutputText(out.session, r, targets[r.target], out.transcript, out.run) == None)))
      || (exists why ::
            && IsWhyNot(why, targets, r.target, out.session, out.agent) && (why.SendFailed? ==> !accepts)
            && e == d.(deliveries := d.deliveries[key := Records.Delivery(Some(why), now)], budget := d.budget - 1, failed := d.failed + 1))
      || (accepts && IsOpenFor(targets, out, r) && |e.sends| == |d.sends| + 1
          && e == d.(sends := e.sends, deliveries := d.deliveries[key := Records.Delivery(None, now)],
                     routes := d.routes[id := r.(deliveredAt := Some(out.transcript.createdAt), deliveredId := Some(out.transcript.id), updatedAt := now)],
                     budget := d.budget - 2, delivered := d.delivered + 1))
  {
    hide AlreadyDelivered, OutputText, SessionTrouble, IsWhyNot, Admits;
    var e := DeliverTo(targets, out, d, id, r, accepts, now);
    WhyNot(targets, out, r);
    match RouteVerdict(targets, out, r)
    case Passed =>
    case Refused(trouble) => assert e == RecordFailure(d, out.event, r.target, trouble, now);
    case Sendable(text) =>
      assert !accepts ==> e == RecordFailure(d, out.event, r.target, SendFailed, now);
  }

  lemma WhyNot(targets: map<string, Target>, out: Outgoing, r: Route)
    ensures var v := RouteVerdict(targets, out, r);
      && (v.Refused? ==> IsWhyNot(v.trouble, targets, r.target, out.session, out.agent) && !v.trouble.SendFailed?)
      && (v.Sendable? ==> IsOpenFor(targets, out, r) && IsWhyNot(SendFailed, targets, r.target, out.session, out.agent))
      && (v.Passed? && !AlreadyDelivered(r, out.transcript) ==>
            IsOpenFor(targets, out, r) && OutputText(out.session, r, targets[r.target], out.transcript, out.run) == None)
  {
    hide AlreadyDelivered, OutputText;
  }

  predicate AreDistinct(listing: seq<string>) {
    forall i, j | 0 <= i < j < |listing| :: listing[i] != listing[j]
  }

  /** The sends of a call: the log is extended, and each is a due send on its own listed route. */
  predicate AreSendsOf(targets: map<string, Target>, out: Outgoing, routes: map<string, Route>, listing: seq<string>, n: nat,
                       before: seq<Send>, after: seq<Send>)
    requires n <= |listing| && forall id | id in listing :: id in routes
  {
    && |before| <= |after| && after[..|before|] == before
    && forall i | |before| <= i < |after| ::
         after[i].routeId in listing[..n] && after[i].routeId in listing
         && IsSendOn(targets, out, after[i], after[i].routeId, routes[after[i].routeId])
  }

  lemma SendsOfExtend(targets: map<string, Target>, out: Outgoing, routes: map<string, Route>, listing: seq<string>, n: nat,
                      start: seq<Send>, before: seq<Send>, after: seq<Send>)
    requires 0 < n <= |listing| && forall id | id in listing :: id in routes
    requires AreSendsOf(targets, out, routes, listing, n - 1, start, before)
    requires after == before || (|after| == |before| + 1 && after[..|before|] == before
                                 && IsSendOn(targets, out, after[|before|], listing[n - 1], routes[listing[n - 1]]))
    ensures AreSendsOf(targets, out, routes, listing, n, start, after)
  {
    hide IsSendOn;
    assert listing[..n] == listing[..n - 1] + [listing[n - 1]];
    assert after[..|start|] == before[..|start|];
    forall i | |start| <= i < |after|
      ensures after[i].routeId in listing[..n] && after[i].routeId in listing
      ensures IsSendOn(targets, out, after[i], after[i].routeId, routes[after[i].routeId])
    {
      if i < |before| {
        assert after[i] == before[i];
      } else {
        SendOnIsOn(targets, out, after[i], listing[n - 1], routes[listing[n - 1]]);
      }
    }
  }

  lemma SendOnIsOn(targets: map<string, Target>, out: Outgoing, s: Send, id: string, r: Route)
    requires IsSendOn(targets, out, s, id, r)
    ensures s.routeId == id && s.route == r && s.out == out
  {
  }

  /** A call leaves routes it has not come to as they were, and its sends are due sends on listed routes. */
  lemma {:induction false} CallSteps(targets: map<string, Target>, out: Outgoing, d: Dispatch, routes: map<string, Route>,
                                     listing: seq<string>, n: nat, accepts: set<string>, now: int)
    requires n <= |listing| && (forall id | id in listing :: id in routes) && AreDistinct(listing)
    requires d.routes == routes
    ensures var e := DeliverToFirst(targets, out, d, routes, listing, n, accepts, now);
      && (forall i | n <= i < |listing| :: listing[i] in e.routes && e.routes[listing[i]] == routes[listing[i]])
      && e.routes.Keys == routes.Keys && e.budget <= d.budget
      && AreSendsOf(targets, out, routes, listing, n, d.sends, e.sends)
  {
    hide DeliverTo, IsSendOn;
    if n > 0 {
      CallSteps(targets, out, d, routes, listing, n - 1, accepts, now);
      var before := DeliverToFirst(targets, out, d, routes, listing, n - 1, accepts, now);
      var id := listing[n - 1];
      var e := DeliverTo(targets, out, before, id, routes[id], id in accepts, now);
      DeliverToSteps(targets, out, before, id, routes[id], id in accepts, now);
      DeliverToKeepsRoute(targets, out, before, id, routes[id], id in accepts, now);
      SendsOfExtend(targets, out, routes, listing, n, d.sends, before.sends, e.sends);
    }
  }

  lemma DeliverToKeepsRoute(targets: map<string, Target>, out: Outgoing, d: Dispatch, id: string, r: Route, accepts: bool, now: int)
    requires id in d.routes
    ensures id in DeliverTo(targets, out, d, id, r, accepts, now).routes
  {
    hide AlreadyDelivered, SessionTrouble, OutputText, DeliveryId;
  }

  /** However many of its writes succeed, a call keeps the sends in order and never lowers a watermark. */
  lemma {:induction false} CallKeeps(targets: map<string, Target>, out: Outgoing, d: Dispatch, routes: map<string, Route>,
                                     listing: seq<string>, n: nat, accepts: set<string>, now: int)
    requires n <= |listing| && (forall id | id in listing :: id in routes) && AreDistinct(listing)
    requires d.routes == routes && SendsInOrder(routes, d.sends)
    ensures var e := DeliverToFirst(targets, out, d, routes, listing, n, accepts, now);
      && SendsInOrder(e.routes, e.sends) && RoutesAdvance(routes, e.routes)
      && (WatermarksWhole(routes) ==> WatermarksWhole(e.routes))
  {
    hide DeliverTo, SendsInOrder, RoutesAdvance, WatermarksWhole, AreSendsOf;
    if n == 0 {
      NoAdvance(routes);
    } else {
      CallSteps(targets, out, d, routes, listing, n - 1, accepts, now);
      CallKeeps(targets, out, d, routes, listing, n - 1, accepts, now);
      var before := DeliverToFirst(targets, out, d, routes, listing, n - 1, accepts, now);
      var id := listing[n - 1];
      DeliverToKeeps(targets, out, before, id, routes[id], id in accepts, now);
      AdvanceTransitive(routes, before.routes, DeliverTo(targets, out, before, id, routes[id], id in accepts, now).routes);
    }
  }

  lemma DeliverToCounts(targets: map<string, Target>, out: Outgoing, d: Dispatch, id: string, r: Route, accepts: bool, now: int)
    ensures var e := DeliverTo(targets, out, d, id, r, accepts, now);
      && (d.stopped ==> e == d)
      && (!e.stopped ==> e.delivered + e.failed + e.skipped == d.delivered + d.failed + d.skipped + 1)
      && (!e.stopped ==> |e.sends| - |d.sends| == e.delivered - d.delivered)
      && (!e.stopped && |e.sends| > |d.sends| ==> e.sends[|d.sends|].committed)
      && (d.budget >= 2 && !d.stopped ==> !e.stopped && e.budget + 2 >= d.budget)
  {
    hide AlreadyDelivered, SessionTrouble, OutputText, DeliveryId;
  }

  /**
    A call that is not cut short accounts for every listed route, and what it counts as
    delivered is what it sent, each time with the watermark raised. Two writes for each
    route are enough for it not to be cut short.
   */
  lemma {:induction false} CallCounts(targets: map<string, Target>, out: Outgoing, d: Dispatch, routes: map<string, Route>,
                                      listing: seq<string>, n: nat, accepts: set<string>, now: int)
    requires n <= |listing| && (forall id | id in listing :: id in routes) && AreDistinct(listing)
    requires d.routes == routes && !d.stopped && d.delivered == d.failed == d.skipped == 0
    ensures var e := DeliverToFirst(targets, out, d, routes, listing, n, accepts, now);
      && (!e.stopped ==> e.delivered + e.failed + e.skipped == n && |e.sends| == |d.sends| + e.delivered)
      && (!e.stopped ==> forall i | |d.sends| <= i < |e.sends| :: e.sends[i].committed)
      && (d.budget >= 2 * n ==> !e.stopped && e.budget >= d.budget - 2 * n)
  {
    hide DeliverTo, IsSendOn;
    if n > 0 {
      CallSteps(targets, out, d, routes, listing, n - 1, accepts, now);
      CallCounts(targets, out, d, routes, listing, n - 1, accepts, now);
      var before := DeliverToFirst(targets, out, d, routes, listing, n - 1, accepts, now);
      var id := listing[n - 1];
      var e := DeliverTo(targets, out, before, id, routes[id], id in accepts, now);
      DeliverToCounts(targets, out, before, id, routes[id], id in accepts, now);
      DeliverToSteps(targets, out, before, id, routes[id], id in accepts, now);
      assert e.sends[..|before.sends|] == before.sends;
    }
  }
}
