/** Handing the result of a task to its followers, each at most once. */
module Followers {
  import opened Text
  import opened Ids
  import opened Records
  import opened Delivery

  /** A result handed over to a follower; `committed` when that was then recorded. */
  datatype Notice = Notice(followerId: string, follower: Follower, target: Target, record: Task, text: string, committed: bool)

  datatype Relay = Relay(
    followers: map<string, Follower>,
    deliveries: map<string, Records.Delivery>,
    notices: seq<Notice>,
    budget: nat,
    delivered: nat,
    failed: nat,
    skipped: nat,
    stopped: bool)

  function FollowerVerdict(targets: map<string, Target>, task: TaskKey, record: Task, f: Follower): (v: Verdict)
    ensures v.Sendable? ==> f.target in targets
  {
    if f.deliveredAt.Some? then Passed
    else if f.target !in targets then Refused(TargetMissing)
    else
      var trouble := TaskTrouble(targets[f.target], record);
      if trouble.Some? then Refused(trouble.value)
      else
        match ResultText(TaskId(task), record, targets[f.target])
        case None => Passed
        case Some(text) => Sendable(text)
  }

  function Noted(f: Follower, trouble: Option<Trouble>, now: int): Follower {
    f.(updatedAt := now, error := trouble, deliveredAt := if trouble.None? then Some(now) else f.deliveredAt)
  }

  /** The two writes that record what became of a follower. */
  function RecordOutcome(x: Relay, event: EventKey, id: string, f: Follower, trouble: Option<Trouble>, now: int): Relay {
    var deliveries := x.deliveries[DeliveryId(event, f.target) := Records.Delivery(trouble, now)];
    if x.budget == 0 then x.(stopped := true)
    else if x.budget == 1 then x.(deliveries := deliveries, budget := 0, stopped := true)
    else x.(deliveries := deliveries, followers := x.followers[id := Noted(f, trouble, now)], budget := x.budget - 2,
            delivered := if trouble.None? then x.delivered + 1 else x.delivered,
            failed := if trouble.None? then x.failed else x.failed + 1)
  }

  /** One follower of the listing, as it was when the call began. */
  function RelayTo(targets: map<string, Target>, event: EventKey, task: TaskKey, record: Task, x: Relay,
                   id: string, f: Follower, accepts: bool, now: int): Relay {
    if x.stopped then x
    else
      match FollowerVerdict(targets, task, record, f)
      case Passed => x.(skipped := x.skipped + 1)
      case Refused(trouble) => RecordOutcome(x, event, id, f, Some(trouble), now)
      case Sendable(text) =>
        if accepts then
          RecordOutcome(x.(notices := x.notices + [Notice(id, f, targets[f.target], record, text, x.budget >= 2)]),
                        event, id, f, None, now)
        else RecordOutcome(x, event, id, f, Some(SendFailed), now)
  }

  function RelayToFirst(targets: map<string, Target>, event: EventKey, task: TaskKey, record: Task, x: Relay,
                        followers: map<string, Follower>, listing: seq<string>, n: nat, accepts: set<string>, now: int): Relay
    requires n <= |listing| && forall id | id in listing :: id in followers
  {
    if n == 0 then x
    else
      var id := listing[n - 1];
      RelayTo(targets, event, task, record,
              RelayToFirst(targets, event, task, record, x, followers, listing, n - 1, accepts, now),
              id, followers[id], id in accepts, now)
  }

  predicate IsFollowerListing(followers: map<string, Follower>, task: TaskKey, listing: seq<string>) {
    && (forall id | id in listing :: id in followers && followers[id].enabled && followers[id].task == task)
    && (forall id | id in followers && followers[id].enabled && followers[id].task == task :: id in listing)
    && AreDistinct(listing)
  }

  /** A recorded notice marks its follower for good, and nothing is handed to that follower after it. */
  predicate NoticedOnce(followers: map<string, Follower>, notices: seq<Notice>) {
    && (forall i | 0 <= i < |notices| && notices[i].committed ::
          notices[i].followerId in followers && followers[notices[i].followerId].deliveredAt.Some?)
    && (forall i, j | 0 <= i < j < |notices| && notices[i].followerId == notices[j].followerId :: !notices[i].committed)
  }

  /** A follower once marked as served stays so. */
  predicate FollowersAdvance(before: map<string, Follower>, after: map<string, Follower>) {
    forall id | id in before :: id in after && (before[id].deliveredAt.Some? ==> after[id].deliveredAt.Some?)
  }

  lemma StillNoticedOnce(before: map<string, Follower>, after: map<string, Follower>, notices: seq<Notice>)
    requires NoticedOnce(before, notices) && FollowersAdvance(before, after)
    ensures NoticedOnce(after, notices)
  {
  }

  /** Nothing recorded precedes a notice to a follower not yet served. */
  lemma NoticeAdded(before: map<string, Follower>, after: map<string, Follower>, notices: seq<Notice>, s: Notice)
    requires NoticedOnce(before, notices) && FollowersAdvance(before, after)
    requires s.followerId in before && before[s.followerId].deliveredAt.None?
    requires s.committed ==> s.followerId in after && after[s.followerId].deliveredAt.Some?
    ensures NoticedOnce(after, notices + [s])
  {
    var all := notices + [s];
    forall i, j | 0 <= i < j < |all| && all[i].followerId == all[j].followerId
      ensures !all[i].committed
    {
      assert all[i] == notices[i];
      assert j < |notices| ==> all[j] == notices[j];
    }
    forall i | 0 <= i < |all| && all[i].committed
      ensures all[i].followerId in after && after[all[i].followerId].deliveredAt.Some?
    {
      assert i < |notices| ==> all[i] == notices[i];
    }
  }

  /** A result is handed over only to a listed follower not yet served, whose target exists and admits it. */
  predicate IsNoticeTo(targets: map<string, Target>, task: TaskKey, record: Task, s: Notice, id: string, f: Follower) {
    && s.followerId == id && s.follower == f && s.record == record && f.deliveredAt.None?
    && f.target in targets && s.target == targets[f.target]
    && AdmitsTask(s.target, record)
    && ResultText(TaskId(task), record, s.target) == Some(s.text)
  }

  /** What recording an outcome changes: at most the follower's own record, which stays served. */
  lemma OutcomeSteps(x: Relay, event: EventKey, id: string, f: Follower, trouble: Option<Trouble>, now: int)
    ensures var y := RecordOutcome(x, event, id, f, trouble, now);
      && y.notices == x.notices && y.budget <= x.budget
      && (y.followers == x.followers || y.followers == x.followers[id := Noted(f, trouble, now)])
      && (y.stopped <==> x.stopped || x.budget < 2)
      && (x.budget >= 2 ==> y.followers == x.followers[id := Noted(f, trouble, now)] && y.budget + 2 == x.budget)
      && (x.budget >= 2 ==> y.skipped == x.skipped && y.delivered + y.failed == x.delivered + x.failed + 1)
      && (x.budget >= 2 ==> y.delivered - x.delivered == if trouble.None? then 1 else 0)
  {
    hide DeliveryId;
  }

  lemma FollowerPut(followers: map<string, Follower>, id: string, f: Follower, trouble: Option<Trouble>, now: int)
    requires id in followers && followers[id] == f
    ensures var after := followers[id := Noted(f, trouble, now)];
      after.Keys == followers.Keys && FollowersAdvance(followers, after)
  {
  }

  lemma RelayToSteps(targets: map<string, Target>, event: EventKey, task: TaskKey, record: Task, x: Relay,
                     id: string, f: Follower, accepts: bool, now: int)
    requires x.stopped || (id in x.followers && x.followers[id] == f)
    ensures var y := RelayTo(targets, event, task, record, x, id, f, accepts, now);
      && (forall k | k in x.followers && k != id :: k in y.followers && y.followers[k] == x.followers[k])
      && y.followers.Keys == x.followers.Keys && y.budget <= x.budget && (x.stopped ==> y == x)
      && FollowersAdvance(x.followers, y.followers)
      && (y.notices == x.notices || (|y.notices| == |x.notices| + 1 && y.notices[..|x.notices|] == x.notices
                                     && IsNoticeTo(targets, task, record, y.notices[|x.notices|], id, f)))
  {
    hide TaskTrouble, AdmitsTask, ResultText, RecordOutcome, Noted, FollowersAdvance;
    Unchanged(x.followers);
    if !x.stopped {
      match FollowerVerdict(targets, task, record, f)
      case Passed =>
      case Refused(trouble) =>
        FollowerPut(x.followers, id, f, Some(trouble), now);
        OutcomeSteps(x, event, id, f, Some(trouble), now);
      case Sendable(text) =>
        ResultAdmitted(targets[f.target], record);
        var noticed := x.(notices := x.notices + [Notice(id, f, targets[f.target], record, text, x.budget >= 2)]);
        var trouble := if accepts then None else Some(SendFailed);
        FollowerPut(x.followers, id, f, trouble, now);
        OutcomeSteps(if accepts then noticed else x, event, id, f, trouble, now);
    }
  }

  /** What is noted when a result does not reach a follower's target. */
  predicate IsWhyNoResult(trouble: Trouble, targets: map<string, Target>, target: string, t: Task) {
    match trouble
    case TargetMissing => target !in targets
    case ListMalformed => target in targets
      && (targets[target].allowedSessions.Malformed?
          || (MayComeFrom(targets[target], t) && targets[target].allowedAgents.Malformed?))
    case NoSourceSession => target in targets
      && targets[target].allowedSessions.Parsed? && targets[target].allowedSessions.value != [] && t.sourceSession.None?
    case SessionRefused => target in targets
      && targets[target].allowedSessions.Parsed? && t.sourceSession.Some? && !IsOpenTo(targets[target].allowedSessions, t.sourceSession.value)
    case AgentRefused => target in targets
      && MayComeFrom(targets[target], t) && targets[target].allowedAgents.Parsed? && !AdmitsTask(targets[target], t)
    case SendFailed => target in targets && AdmitsTask(targets[target], t)
  }

  predicate MayComeFrom(target: Target, t: Task) {
    target.allowedSessions.Parsed?
    && (target.allowedSessions.value == [] || exists s | s in target.allowedSessions.value :: t.sourceSession == Some(s))
  }

  lemma WhyNoResult(targets: map<string, Target>, task: TaskKey, record: Task, f: Follower)
    ensures var v := FollowerVerdict(targets, task, record, f);
      && (v.Refused? ==> IsWhyNoResult(v.trouble, targets, f.target, record) && !v.trouble.SendFailed?)
      && (v.Sendable? ==> IsWhyNoResult(SendFailed, targets, f.target, record))
      && (v.Passed? ==> f.deliveredAt.Some? || (f.target in targets && ResultText(TaskId(task), record, targets[f.target]) == None))
  {
    hide ResultText;
    if f.target in targets {
      NoTroubleIff(targets[f.target], "", "", record);
    }
  }

  /** What a follower of a call that is not cut short is left with: nothing new, a failure and why, or its one result. */
  lemma FollowerTold(targets: map<string, Target>, event: EventKey, task: TaskKey, record: Task, x: Relay,
                     id: string, f: Follower, accepts: bool, now: int)
    requires !x.stopped && x.budget >= 2
    ensures var y := RelayTo(targets, event, task, record, x, id, f, accepts, now);
      var key := "delivery-" + EventId(event) + "-" + f.target;
      || (y == x.(skipped := x.skipped + 1)
          && (f.deliveredAt.Some? || (f.target in targets && ResultText(TaskId(task), record, targets[f.target]) == None)))
      || (exists why ::
            && IsWhyNoResult(why, targets, f.target, record) && (why.SendFailed? ==> !accepts)
            && y == x.(deliveries := x.deliveries[key := Records.Delivery(Some(why), now)],
                       followers := x.followers[id := f.(updatedAt := now, error := Some(why))],
                       budget := x.budget - 2, failed := x.failed + 1))
      || (accepts && |y.notices| == |x.notices| + 1
          && y == x.(notices := y.notices, deliveries := x.deliveries[key := Records.Delivery(None, now)],
                     followers := x.followers[id := f.(updatedAt := now, error := None, deliveredAt := Some(now))],
                     budget := x.budget - 2, delivered := x.delivered + 1))
  {
    hide FollowerVerdict, ResultText, IsWhyNoResult, AdmitsTask;
    var y := RelayTo(targets, event, task, record, x, id, f, accepts, now);
    WhyNoResult(targets, task, record, f);
    match FollowerVerdict(targets, task, record, f)
    case Passed =>
    case Refused(trouble) => assert y == RecordOutcome(x, event, id, f, Some(trouble), now);
    case Sendable(text) =>
      assert !accepts ==> y == RecordOutcome(x, event, id, f, Some(SendFailed), now);
  }

  lemma Unchanged(followers: map<string, Follower>)
    ensures FollowersAdvance(followers, followers)
  {
  }

  lemma RelayToKeeps(targets: map<string, Target>, event: EventKey, task: TaskKey, record: Task, x: Relay,
                     id: string, f: Follower, accepts: bool, now: int)
    requires x.stopped || (id in x.followers && x.followers[id] == f)
    requires NoticedOnce(x.followers, x.notices)
    ensures var y := RelayTo(targets, event, task, record, x, id, f, accepts, now);
      NoticedOnce(y.followers, y.notices)
  {
    hide NoticedOnce, TaskTrouble, ResultText, DeliveryId, IsNoticeTo, FollowersAdvance;
    RelayToSteps(targets, event, task, record, x, id, f, accepts, now);
    var y := RelayTo(targets, event, task, record, x, id, f, accepts, now);
    if y.notices == x.notices {
      StillNoticedOnce(x.followers, y.followers, x.notices);
    } else {
      NoticeAdded(x.followers, y.followers, x.notices, y.notices[|x.notices|]);
      assert y.notices == x.notices + [y.notices[|x.notices|]];
    }
  }

  lemma RelayToCounts(targets: map<string, Target>, event: EventKey, task: TaskKey, record: Task, x: Relay,
                      id: string, f: Follower, accepts: bool, now: int)
    ensures var y := RelayTo(targets, event, task, record, x, id, f, accepts, now);
      && (x.stopped ==> y == x)
      && (!y.stopped ==> y.delivered + y.failed + y.skipped == x.delivered + x.failed + x.skipped + 1)
      && (!y.stopped ==> |y.notices| - |x.notices| == y.delivered - x.delivered)
      && (!y.stopped && |y.notices| > |x.notices| ==> y.notices[|x.notices|].committed)
      && (x.budget >= 2 && !x.stopped ==> !y.stopped && y.budget + 2 >= x.budget)
  {
    hide TaskTrouble, ResultText, RecordOutcome, Noted;
    if !x.stopped {
      match FollowerVerdict(targets, task, record, f)
      case Passed =>
      case Refused(trouble) =>
        OutcomeSteps(x, event, id, f, Some(trouble), now);
      case Sendable(text) =>
        var noticed := x.(notices := x.notices + [Notice(id, f, targets[f.target], record, text, x.budget >= 2)]);
        OutcomeSteps(if accepts then noticed else x, event, id, f, if accepts then None else Some(SendFailed), now);
    }
  }

  /** A call's notices: the log is extended, and each goes to its own listed follower. */
  predicate AreNoticesOf(targets: map<string, Target>, task: TaskKey, record: Task, followers: map<string, Follower>,
                         listing: seq<string>, before: seq<Notice>, after: seq<Notice>)
    requires forall id | id in listing :: id in followers
  {
    && |before| <= |after| && after[..|before|] == before
    && forall i | |before| <= i < |after| ::
         after[i].followerId in listing
         && IsNoticeTo(targets, task, record, after[i], after[i].followerId, followers[after[i].followerId])
  }

  lemma NoticesExtend(targets: map<string, Target>, task: TaskKey, record: Task, followers: map<string, Follower>,
                      listing: seq<string>, n: nat, start: seq<Notice>, before: seq<Notice>, after: seq<Notice>)
    requires n < |listing| && forall id | id in listing :: id in followers
    requires AreNoticesOf(targets, task, record, followers, listing, start, before)
    requires after == before || (|after| == |before| + 1 && after[..|before|] == before
                                 && IsNoticeTo(targets, task, record, after[|before|], listing[n], followers[listing[n]]))
    ensures AreNoticesOf(targets, task, record, followers, listing, start, after)
  {
    hide TaskTrouble, ResultText;
    assert after[..|start|] == before[..|start|];
    forall i | |start| <= i < |after|
      ensures after[i].followerId in listing
      ensures IsNoticeTo(targets, task, record, after[i], after[i].followerId, followers[after[i].followerId])
    {
      if i < |before| {
        assert after[i] == before[i];
      }
    }
  }

  /** However many of its writes succeed, a call serves no follower that was served before. */
  lemma {:induction false} RelayKeeps(targets: map<string, Target>, event: EventKey, task: TaskKey, record: Task, x: Relay,
                                      followers: map<string, Follower>, listing: seq<string>, n: nat, accepts: set<string>, now: int)
    requires n <= |listing| && (forall id | id in listing :: id in followers) && AreDistinct(listing)
    requires x.followers == followers && NoticedOnce(followers, x.notices)
    ensures var y := RelayToFirst(targets, event, task, record, x, followers, listing, n, accepts, now);
      && (forall i | n <= i < |listing| :: listing[i] in y.followers && y.followers[listing[i]] == followers[listing[i]])
      && y.followers.Keys == followers.Keys && FollowersAdvance(followers, y.followers)
      && NoticedOnce(y.followers, y.notices)
      && AreNoticesOf(targets, task, record, followers, listing, x.notices, y.notices)
  {
    hide RelayTo, NoticedOnce, IsNoticeTo;
    if n > 0 {
      RelayKeeps(targets, event, task, record, x, followers, listing, n - 1, accepts, now);
      var before := RelayToFirst(targets, event, task, record, x, followers, listing, n - 1, accepts, now);
      var id := listing[n - 1];
      var y := RelayTo(targets, event, task, record, before, id, followers[id], id in accepts, now);
      RelayToSteps(targets, event, task, record, before, id, followers[id], id in accepts, now);
      RelayToKeeps(targets, event, task, record, before, id, followers[id], id in accepts, now);
      NoticesExtend(targets, task, record, followers, listing, n - 1, x.notices, before.notices, y.notices);
    }
  }

  lemma {:induction false} RelayCounts(targets: map<string, Target>, event: EventKey, task: TaskKey, record: Task, x: Relay,
                                       followers: map<string, Follower>, listing: seq<string>, n: nat, accepts: set<string>, now: int)
    requires n <= |listing| && (forall id | id in listing :: id in followers) && AreDistinct(listing)
    requires x.followers == followers && NoticedOnce(followers, x.notices)
    requires !x.stopped && x.delivered == x.failed == x.skipped == 0
    ensures var y := RelayToFirst(targets, event, task, record, x, followers, listing, n, accepts, now);
      && (!y.stopped ==> y.delivered + y.failed + y.skipped == n && |y.notices| == |x.notices| + y.delivered)
      && (!y.stopped ==> forall i | |x.notices| <= i < |y.notices| :: y.notices[i].committed)
      && (x.budget >= 2 * n ==> !y.stopped && y.budget >= x.budget - 2 * n)
  {
    hide RelayTo, NoticedOnce, IsNoticeTo, FollowersAdvance;
    if n > 0 {
      RelayKeeps(targets, event, task, record, x, followers, listing, n - 1, accepts, now);
      RelayCounts(targets, event, task, record, x, followers, listing, n - 1, accepts, now);
      var before := RelayToFirst(targets, event, task, record, x, followers, listing, n - 1, accepts, now);
      var id := listing[n - 1];
      var y := RelayTo(targets, event, task, record, before, id, followers[id], id in accepts, now);
      RelayToCounts(targets, event, task, record, before, id, followers[id], id in accepts, now);
      RelayToSteps(targets, event, task, record, before, id, followers[id], id in accepts, now);
      assert y.notices[..|before.notices|] == before.notices;
    }
  }
}
