/** The two delivery calls as they are written, loops over routes and over followers. */
module DeliveryCall {
  import opened Text
  import opened Ids
  import opened Records
  import opened Machine
  import opened EventStore
  import D = Delivery
  import F = Followers

  datatype Report = Report(delivered: nat, failed: nat, skipped: nat)

  // Session outputs

  /** Once a write has failed the rest of the routes is not come to. */
  lemma {:induction false} StoppedStays(targets: map<string, Target>, out: D.Outgoing, d: D.Dispatch, routes: map<string, Route>,
                                        listing: seq<string>, i: nat, n: nat, accepts: set<string>, now: int)
    requires i <= n <= |listing| && forall id | id in listing :: id in routes
    requires D.DeliverToFirst(targets, out, d, routes, listing, i, accepts, now).stopped
    ensures D.DeliverToFirst(targets, out, d, routes, listing, n, accepts, now)
         == D.DeliverToFirst(targets, out, d, routes, listing, i, accepts, now)
    decreases n
  {
    hide D.RouteVerdict, D.RecordSend, D.RecordFailure;
    if i < n {
      StoppedStays(targets, out, d, routes, listing, i, n - 1, accepts, now);
    }
  }

  /** One route, with the two or three writes that it takes. */
  method DeliverRoute(store: Store, out: D.Outgoing, id: string, r: Route, accepts: bool, now: int, ghost d: D.Dispatch)
    returns (sent: seq<D.Send>, verdict: D.Verdict, ok: bool, delivered: bool)
    requires !d.stopped && d.routes == store.routes && d.deliveries == store.deliveries && d.budget == store.writes
    modifies store`routes, store`deliveries, store`writes, store`spare
    ensures var e := D.DeliverTo(store.world.targets, out, d, id, r, accepts, now);
      && store.routes == e.routes && store.deliveries == e.deliveries && ok == !e.stopped
      && (ok ==> store.writes == e.budget)
      && e.sends == d.sends + sent
      && (ok ==> e.delivered == d.delivered + (if delivered then 1 else 0))
      && (ok ==> e.skipped == d.skipped + (if verdict.Passed? then 1 else 0))
      && (ok ==> e.failed == d.failed + (if !delivered && !verdict.Passed? then 1 else 0))
    ensures delivered ==> !verdict.Passed?
  {
    hide D.RouteVerdict, D.DeliveryId;
    verdict := D.RouteVerdict(store.world.targets, out, r);
    sent, ok, delivered := [], true, false;
    match verdict {
      case Passed =>
      case Refused(trouble) =>
        ok := store.PutEventDelivery(D.DeliveryId(out.event, r.target), Delivery(Some(trouble), now));
      case Sendable(text) =>
        if !accepts {
          ok := store.PutEventDelivery(D.DeliveryId(out.event, r.target), Delivery(Some(SendFailed), now));
          return;
        }
        sent := [D.Send(id, r, store.world.targets[r.target], out, text, store.writes >= 2)];
        ok := store.PutEventDelivery(D.DeliveryId(out.event, r.target), Delivery(None, now));
        if ok {
          ok := store.PutSessionOutputRoute(id, D.Raised(r, out.transcript, now));
        }
        delivered := true;
    }
  }

  /** The dispatch that a call on `out` begins with. */
  function Fresh(db: Db, sends: seq<D.Send>, writes: nat): D.Dispatch {
    D.Dispatch(db.routes, db.deliveries, sends, writes, 0, 0, 0, false)
  }

  method DeliverToRoutes(store: Store, out: D.Outgoing, listing: seq<string>, accepts: set<string>, now: int, ghost before: seq<D.Send>)
    returns (sent: seq<D.Send>, report: Report, ok: bool)
    requires forall id | id in listing :: id in store.routes
    requires D.AreDistinct(listing)
    modifies store`routes, store`deliveries, store`writes, store`spare
    ensures var e := D.DeliverToFirst(old(store.world.targets), out, Fresh(old(store.View()), before, old(store.writes)),
                                      old(store.routes), listing, |listing|, accepts, now);
      && store.routes == e.routes && store.deliveries == e.deliveries && before + sent == e.sends && ok == !e.stopped
      && (ok ==> report == Report(e.delivered, e.failed, e.skipped) && store.writes == e.budget)
  {
    hide D.DeliverTo, D.AreDistinct;
    var routes := store.routes;
    ghost var targets := store.world.targets;
    ghost var start := Fresh(store.View(), before, store.writes);
    sent, ok := [], true;
    var delivered, failed, skipped := 0, 0, 0;
    for i := 0 to |listing|
      invariant store.world.targets == targets
      invariant D.DeliverToFirst(targets, out, start, routes, listing, i, accepts, now)
             == D.Dispatch(store.routes, store.deliveries, before + sent, store.writes, delivered, failed, skipped, false)
    {
      ghost var d := D.DeliverToFirst(targets, out, start, routes, listing, i, accepts, now);
      var id := listing[i];
      var more, verdict, written, was := DeliverRoute(store, out, id, routes[id], id in accepts, now, d);
      assert before + sent + more == before + (sent + more);
      sent := sent + more;
      if !written {
        StoppedStays(targets, out, start, routes, listing, i + 1, |listing|, accepts, now);
        ok, report := false, Report(delivered, failed, skipped);
        return;
      }
      if was {
        delivered := delivered + 1;
      } else if verdict.Passed? {
        skipped := skipped + 1;
      } else {
        failed := failed + 1;
      }
    }
    report := Report(delivered, failed, skipped);
  }

  datatype Outcome = Refused(error: DeliveryError) | Ended(report: Report) | StoreFailed

  /** The machine's delivery of an output, told of its event instead of a message. */
  function Deliver(m: Machine, event: EventKey, listing: seq<string>, accepts: set<string>, writes: nat, now: int): Machine {
    match OutgoingOf(m.db, event)
    case Refused(_) => m
    case Ready(out) =>
      if !D.IsListing(m.db.routes, out.session, listing) then m
      else
        var d := D.DeliverToFirst(m.db.world.targets, out, Fresh(m.db, m.log.sends, writes), m.db.routes, listing, |listing|, accepts, now);
        m.(db := m.db.(routes := d.routes, deliveries := d.deliveries), log := m.log.(sends := d.sends))
  }

  lemma DeliverIsStep(m: Machine, i: nat, listing: seq<string>, accepts: set<string>, writes: nat, now: int)
    requires Hears(m, i, EventBus.DELIVERY_FILTER) && m.bus[i].payload.kind.OutputCreated?
    ensures DeliverOutput(m, i, listing, accepts, writes, now) == Deliver(m, m.bus[i].payload.event, listing, accepts, writes, now)
  {
    hide Hears, OutgoingOf, D.DeliverToFirst, D.IsListing;
  }

  method DeliverSessionOutputEvent(store: Store, event: EventKey, accepts: set<string>, now: int, ghost m: Machine)
    returns (sent: seq<D.Send>, outcome: Outcome, ghost listing: seq<string>)
    requires m.db == store.View()
    modifies store
    ensures var n := Deliver(m, event, listing, accepts, old(store.writes), now);
      store.View() == n.db && m.log.sends + sent == n.log.sends
    ensures outcome.Refused? <==> OutgoingOf(m.db, event).Refused?
    ensures outcome.Refused? ==> outcome.error == OutgoingOf(m.db, event).error
    ensures outcome.Ended? ==>
      && IsOrderedListing(m.db.routes, OutgoingOf(m.db, event).value.session, listing)
      && outcome.report.delivered + outcome.report.failed + outcome.report.skipped == |listing|
      && outcome.report.delivered == |sent| && forall i | 0 <= i < |sent| :: sent[i].committed
    ensures outcome.StoreFailed? ==> old(store.writes) < 2 * |listing|
  {
    hide OutgoingOf, D.DeliverToFirst, D.IsListing, D.AreDistinct;
    sent, listing := [], [];
    var found := OutgoingOf(Db(store.inbound, store.routed, store.rows, store.tasks, store.routes, store.followers, store.deliveries, store.world), event);
    match found {
      case Refused(error) => outcome := Outcome.Refused(error);
      case Ready(out) =>
        var routes := store.ListEnabledSessionOutputRoutes(out.session);
        listing := routes;
        ListingFits(store.routes, out.session, routes);
        ghost var start := Fresh(store.View(), m.log.sends, store.writes);
        D.CallCounts(store.world.targets, out, start, store.routes, routes, |routes|, accepts, now);
        CallExtends(store.world.targets, out, start, store.routes, routes, accepts, now);
        var report, ok;
        sent, report, ok := DeliverToRoutes(store, out, routes, accepts, now, m.log.sends);
        outcome := if ok then Ended(report) else StoreFailed;
    }
  }

  lemma CallExtends(targets: map<string, Target>, out: D.Outgoing, d: D.Dispatch, routes: map<string, Route>,
                    listing: seq<string>, accepts: set<string>, now: int)
    requires (forall id | id in listing :: id in routes) && D.AreDistinct(listing) && d.routes == routes
    ensures var e := D.DeliverToFirst(targets, out, d, routes, listing, |listing|, accepts, now);
      |d.sends| <= |e.sends| && e.sends[..|d.sends|] == d.sends
  {
    hide D.IsSendOn, D.DeliverToFirst;
    D.CallSteps(targets, out, d, routes, listing, |listing|, accepts, now);
  }

  lemma ListingFits(routes: map<string, Route>, session: string, listing: seq<string>)
    requires IsOrderedListing(routes, session, listing)
    ensures D.IsListing(routes, session, listing) && D.AreDistinct(listing) && forall id | id in listing :: id in routes
  {
  }

  // Task results

  lemma {:induction false} RelayStoppedStays(targets: map<string, Target>, event: EventKey, t: TaskKey, record: Task, x: F.Relay,
                                             followers: map<string, Follower>, listing: seq<string>, i: nat, n: nat, accepts: set<string>, now: int)
    requires i <= n <= |listing| && forall id | id in listing :: id in followers
    requires F.RelayToFirst(targets, event, t, record, x, followers, listing, i, accepts, now).stopped
    ensures F.RelayToFirst(targets, event, t, record, x, followers, listing, n, accepts, now)
         == F.RelayToFirst(targets, event, t, record, x, followers, listing, i, accepts, now)
    decreases n
  {
    hide F.FollowerVerdict, F.RecordOutcome;
    if i < n {
      RelayStoppedStays(targets, event, t, record, x, followers, listing, i, n - 1, accepts, now);
    }
  }

  method RecordFollower(store: Store, event: EventKey, id: string, f: Follower, trouble: Option<Trouble>, now: int, ghost x: F.Relay) returns (ok: bool)
    requires x.followers == store.followers && x.deliveries == store.deliveries && x.budget == store.writes && !x.stopped
    modifies store`followers, store`deliveries, store`writes, store`spare
    ensures var y := F.RecordOutcome(x, event, id, f, trouble, now);
      && store.followers == y.followers && store.deliveries == y.deliveries && ok == !y.stopped && (ok ==> store.writes == y.budget)
  {
    hide D.DeliveryId;
    ok := store.PutEventDelivery(D.DeliveryId(event, f.target), Delivery(trouble, now));
    if ok {
      ok := store.PutTaskFollower(id, F.Noted(f, trouble, now));
    }
  }

  method DeliverFollower(store: Store, event: EventKey, t: TaskKey, record: Task, id: string, f: Follower, accepts: bool, now: int, ghost x: F.Relay)
    returns (sent: seq<F.Notice>, verdict: D.Verdict, ok: bool, delivered: bool)
    requires x.followers == store.followers && x.deliveries == store.deliveries && x.budget == store.writes && !x.stopped
    modifies store`followers, store`deliveries, store`writes, store`spare
    ensures var y := F.RelayTo(store.world.targets, event, t, record, x, id, f, accepts, now);
      && store.followers == y.followers && store.deliveries == y.deliveries && ok == !y.stopped
      && (ok ==> store.writes == y.budget)
      && y.notices == x.notices + sent
      && (ok ==> y.delivered == x.delivered + (if delivered then 1 else 0))
      && (ok ==> y.skipped == x.skipped + (if verdict.Passed? then 1 else 0))
      && (ok ==> y.failed == x.failed + (if !delivered && !verdict.Passed? then 1 else 0))
    ensures delivered ==> !verdict.Passed?
  {
    hide F.FollowerVerdict, F.RecordOutcome, F.Noted;
    verdict := F.FollowerVerdict(store.world.targets, t, record, f);
    sent, ok, delivered := [], true, false;
    match verdict {
      case Passed =>
      case Refused(trouble) =>
        F.OutcomeSteps(x, event, id, f, Some(trouble), now);
        ok := RecordFollower(store, event, id, f, Some(trouble), now, x);
      case Sendable(text) =>
        if !accepts {
          F.OutcomeSteps(x, event, id, f, Some(SendFailed), now);
          ok := RecordFollower(store, event, id, f, Some(SendFailed), now, x);
          return;
        }
        sent := [F.Notice(id, f, store.world.targets[f.target], record, text, store.writes >= 2)];
        ghost var noticed := x.(notices := x.notices + sent);
        F.OutcomeSteps(noticed, event, id, f, None, now);
        ok := RecordFollower(store, event, id, f, None, now, noticed);
        delivered := true;
    }
  }

  function FreshRelay(db: Db, notices: seq<F.Notice>, writes: nat): F.Relay {
    F.Relay(db.followers, db.deliveries, notices, writes, 0, 0, 0, false)
  }

  method DeliverToFollowers(store: Store, event: EventKey, t: TaskKey, record: Task, listing: seq<string>, accepts: set<string>, now: int,
                            ghost before: seq<F.Notice>)
    returns (sent: seq<F.Notice>, report: Report, ok: bool)
    requires forall id | id in listing :: id in store.followers
    modifies store`followers, store`deliveries, store`writes, store`spare
    ensures var y := F.RelayToFirst(old(store.world.targets), event, t, record, FreshRelay(old(store.View()), before, old(store.writes)),
                                    old(store.followers), listing, |listing|, accepts, now);
      && store.followers == y.followers && store.deliveries == y.deliveries && before + sent == y.notices && ok == !y.stopped
      && (ok ==> report == Report(y.delivered, y.failed, y.skipped) && store.writes == y.budget)
  {
    hide F.RelayTo;
    var followers := store.followers;
    ghost var targets := store.world.targets;
    ghost var start := FreshRelay(store.View(), before, store.writes);
    sent, ok := [], true;
    var delivered, failed, skipped := 0, 0, 0;
    for i := 0 to |listing|
      invariant store.world.targets == targets
      invariant F.RelayToFirst(targets, event, t, record, start, followers, listing, i, accepts, now)
             == F.Relay(store.followers, store.deliveries, before + sent, store.writes, delivered, failed, skipped, false)
    {
      ghost var x := F.RelayToFirst(targets, event, t, record, start, followers, listing, i, accepts, now);
      var id := listing[i];
      var more, verdict, written, was := DeliverFollower(store, event, t, record, id, followers[id], id in accepts, now, x);
      assert before + sent + more == before + (sent + more);
      sent := sent + more;
      if !written {
        RelayStoppedStays(targets, event, t, record, start, followers, listing, i + 1, |listing|, accepts, now);
        ok, report := false, Report(delivered, failed, skipped);
        return;
      }
      if was {
        delivered := delivered + 1;
      } else if verdict.Passed? {
        skipped := skipped + 1;
      } else {
        failed := failed + 1;
      }
    }
    report := Report(delivered, failed, skipped);
  }

  /** The machine's delivery of a result, told of its event instead of a message. */
  function Relay(m: Machine, event: EventKey, listing: seq<string>, accepts: set<string>, writes: nat, now: int): Machine {
    match ResultOf(m.db, event)
    case Refused(_) => m
    case Ready(t) =>
      if !F.IsFollowerListing(m.db.followers, t, listing) then m
      else
        var x := F.RelayToFirst(m.db.world.targets, m.db.rows[RowOf(event)].payload.event, t, m.db.tasks[t],
                                FreshRelay(m.db, m.log.notices, writes), m.db.followers, listing, |listing|, accepts, now);
        m.(db := m.db.(followers := x.followers, deliveries := x.deliveries), log := m.log.(notices := x.notices))
  }

  lemma RelayIsStep(m: Machine, i: nat, listing: seq<string>, accepts: set<string>, writes: nat, now: int)
    requires Hears(m, i, EventBus.TASK_FILTER) && IsResultKind(m.bus[i].payload.kind)
    ensures DeliverResult(m, i, listing, accepts, writes, now) == Relay(m, m.bus[i].payload.event, listing, accepts, writes, now)
  {
    hide Hears, F.RelayToFirst, F.IsFollowerListing;
  }

  method DeliverTaskResultEvent(store: Store, event: EventKey, accepts: set<string>, now: int, ghost m: Machine)
    returns (sent: seq<F.Notice>, outcome: Outcome, ghost listing: seq<string>)
    requires m.db == store.View() && F.NoticedOnce(m.db.followers, m.log.notices)
    modifies store
    ensures var n := Relay(m, event, listing, accepts, old(store.writes), now);
      store.View() == n.db && m.log.notices + sent == n.log.notices
    ensures outcome.Refused? <==> ResultOf(m.db, event).Refused?
    ensures outcome.Refused? ==> outcome.error == ResultOf(m.db, event).error
    ensures outcome.Ended? ==>
      && F.IsFollowerListing(m.db.followers, ResultOf(m.db, event).value, listing)
      && outcome.report.delivered + outcome.report.failed + outcome.report.skipped == |listing|
      && outcome.report.delivered == |sent| && forall i | 0 <= i < |sent| :: sent[i].committed
    ensures outcome.StoreFailed? ==> old(store.writes) < 2 * |listing|
  {
    hide F.RelayToFirst, F.NoticedOnce;
    sent, listing := [], [];
    var found := ResultOf(Db(store.inbound, store.routed, store.rows, store.tasks, store.routes, store.followers, store.deliveries, store.world), event);
    match found {
      case Refused(error) => outcome := Outcome.Refused(error);
      case Ready(t) =>
        var followers := store.ListEnabledTaskFollowers(t);
        listing := followers;
        ghost var start := FreshRelay(store.View(), m.log.notices, store.writes);
        var inner, record := store.rows[RowOf(event)].payload.event, store.tasks[t];
        F.RelayCounts(store.world.targets, inner, t, record, start, store.followers, followers, |followers|, accepts, now);
        RelayExtends(store.world.targets, inner, t, record, start, store.followers, followers, accepts, now);
        var report, ok;
        sent, report, ok := DeliverToFollowers(store, inner, t, record, followers, accepts, now, m.log.notices);
        outcome := if ok then Ended(report) else StoreFailed;
    }
  }

  lemma RelayExtends(targets: map<string, Target>, event: EventKey, t: TaskKey, record: Task, x: F.Relay, followers: map<string, Follower>,
                     listing: seq<string>, accepts: set<string>, now: int)
    requires (forall id | id in listing :: id in followers) && D.AreDistinct(listing) && x.followers == followers
    requires F.NoticedOnce(followers, x.notices)
    ensures var y := F.RelayToFirst(targets, event, t, record, x, followers, listing, |listing|, accepts, now);
      |x.notices| <= |y.notices| && y.notices[..|x.notices|] == x.notices
  {
    hide F.IsNoticeTo, F.RelayToFirst, F.NoticedOnce;
    F.RelayKeeps(targets, event, t, record, x, followers, listing, |listing|, accepts, now);
  }
}
