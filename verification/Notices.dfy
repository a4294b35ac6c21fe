/** No follower of a task is served twice but for a call cut short. */
module Notices {
  import opened Ids
  import opened Text
  import opened Records
  import opened Machine
  import opened Frames
  import F = Followers
  import E = EventBus

  predicate Noticed(m: Machine) {
    F.NoticedOnce(m.db.followers, m.log.notices)
  }

  lemma DeliverResultNoticed(m: Machine, i: nat, listing: seq<string>, accepts: set<string>, budget: nat, now: int)
    requires Noticed(m)
    ensures Noticed(DeliverResult(m, i, listing, accepts, budget, now))
  {
    hide Hears, ResultOf, F.RelayToFirst, F.NoticedOnce, RowOf, IsResultKind;
    HearsLength(m, i, E.TASK_FILTER);
    if Hears(m, i, E.TASK_FILTER) && ResultOf(m.db, m.bus[i].payload.event).Ready? {
      var t := ResultOf(m.db, m.bus[i].payload.event).value;
      ResultFound(m.db, m.bus[i].payload.event);
      if F.IsFollowerListing(m.db.followers, t, listing) {
        F.RelayKeeps(m.db.world.targets, m.db.rows[RowOf(m.bus[i].payload.event)].payload.event, t, m.db.tasks[t],
                     F.Relay(m.db.followers, m.db.deliveries, m.log.notices, budget, 0, 0, 0, false),
                     m.db.followers, listing, |listing|, accepts, now);
      }
    }
  }

  lemma ResultFound(db: Db, event: EventKey)
    requires ResultOf(db, event).Ready?
    ensures RowOf(event) in db.rows && ResultOf(db, event).value in db.tasks
  {
  }

  lemma HearsLength(m: Machine, i: nat, filter: string)
    ensures Hears(m, i, filter) ==> i < |m.bus|
  {
  }

  lemma FollowNoticed(m: Machine, id: string, f: Follower)
    requires Noticed(m)
    ensures Noticed(Follow(m, id, f))
  {
    hide F.NoticedOnce;
    F.StillNoticedOnce(m.db.followers, Follow(m, id, f).db.followers, m.log.notices);
  }

  lemma StepNoticed(m: Machine, s: Step)
    requires Noticed(m)
    ensures Noticed(Do(m, s))
  {
    hide F.NoticedOnce, Ask, Receive, PostInput, CreateTask, Claim, Publish, MarkPublication, StopPublisher, BeginRouter, StepRouter, FailRouter, StopRouter;
    hide BeginTurn, StepTurn, TakeTurn, StopTurn, BeginTask, StepTask, RunJob, StopTask, DeliverOutput, DeliverResult, Follow;
    if s.DoDeliverResult? {
      DeliverResultNoticed(m, s.i, s.listing, s.accepts, s.budget, s.now);
    } else if s.DoFollow? {
      FollowNoticed(m, s.id, s.follower);
    } else {
      DeliveryPartsKept(m, s);
    }
  }

  lemma {:induction false} RunNoticed(run: Execution)
    requires IsExecution(run)
    ensures Noticed(End(run))
    decreases |run.steps|
  {
    hide Do;
    if run.steps != [] {
      var before, s := LastStep(run);
      hide IsExecution, Noticed;
      RunNoticed(before);
      StepNoticed(End(before), s);
    }
  }

  /** The notices to a follower, and those among them that were not recorded. */
  function NoticesTo(notices: seq<F.Notice>, id: string): nat {
    if notices == [] then 0
    else NoticesTo(notices[..|notices| - 1], id) + if notices[|notices| - 1].followerId == id then 1 else 0
  }

  function LostTo(notices: seq<F.Notice>, id: string): nat {
    if notices == [] then 0
    else LostTo(notices[..|notices| - 1], id)
         + if notices[|notices| - 1].followerId == id && !notices[|notices| - 1].committed then 1 else 0
  }

  predicate IsRecordedTo(notices: seq<F.Notice>, id: string) {
    exists i | 0 <= i < |notices| :: notices[i].followerId == id && notices[i].committed
  }

  lemma {:induction false} OneRecorded(followers: map<string, Follower>, notices: seq<F.Notice>, id: string)
    requires F.NoticedOnce(followers, notices)
    ensures NoticesTo(notices, id) == LostTo(notices, id) + if IsRecordedTo(notices, id) then 1 else 0
  {
    if notices != [] {
      var before := notices[..|notices| - 1];
      forall i | 0 <= i < |before|
        ensures before[i] == notices[i]
      {
      }
      OneRecorded(followers, before, id);
      if IsRecordedTo(before, id) {
        var i :| 0 <= i < |before| && before[i].followerId == id && before[i].committed;
        assert notices[i] == before[i];
        assert IsRecordedTo(notices, id);
      } else if IsRecordedTo(notices, id) {
        var i :| 0 <= i < |notices| && notices[i].followerId == id && notices[i].committed;
        assert i == |before|;
      }
    }
  }

  /**
    Over every run a follower is handed a result at most once, plus once for every hand-over
    that was then not recorded; and one recorded is the last there ever is.
   */
  lemma NoticesBounded(run: Execution, id: string)
    requires IsExecution(run)
    ensures var m := End(run);
      && NoticesTo(m.log.notices, id) <= 1 + LostTo(m.log.notices, id)
      && (IsRecordedTo(m.log.notices, id) ==> id in m.db.followers && m.db.followers[id].deliveredAt.Some?)
  {
    hide IsExecution;
    RunNoticed(run);
    OneRecorded(End(run).db.followers, End(run).log.notices, id);
  }
}
