/** The life of a connector, as the marks that starting, running, failing and stopping leave. */
module McpRegistry {
  import opened Text

  const U32_MAX := 0xFFFF_FFFF

  datatype State = Stopped | Starting | Running | Failed

  datatype Status = Status(
    state: State,
    pid: Option<nat>,
    startedAt: Option<int>,
    stoppedAt: Option<int>,
    lastError: Option<string>,
    restartCount: nat)

  const FRESH := Status(Stopped, None, None, None, None, 0)

  datatype Mark = MarkStarting(now: int) | MarkRunning(now: int, pid: Option<nat>) | MarkFailed(now: int, error: string) | MarkStopped(now: int)

  function SaturatingAdd(n: nat): nat {
    if n < U32_MAX then n + 1 else U32_MAX
  }

  function Apply(s: Status, mark: Mark): Status {
    match mark
    case MarkStarting(now) =>
      var again := s.startedAt.Some? || s.lastError.Some? || s.restartCount > 0;
      Status(Starting, None, Some(now), None, None, if again then SaturatingAdd(s.restartCount) else s.restartCount)
    case MarkRunning(now, pid) => Status(Running, pid, Some(now), None, None, s.restartCount)
    case MarkFailed(now, error) => s.(state := Failed, pid := None, stoppedAt := Some(now), lastError := Some(error))
    case MarkStopped(now) => s.(state := Stopped, pid := None, stoppedAt := Some(now))
  }

  /** The status of one connector after its marks, the last one last. */
  function After(marks: seq<Mark>): Status {
    if marks == [] then FRESH else Apply(After(marks[..|marks| - 1]), marks[|marks| - 1])
  }

  function StateOf(mark: Mark): State {
    match mark
    case MarkStarting(_) => Starting
    case MarkRunning(_, _) => Running
    case MarkFailed(_, _) => Failed
    case MarkStopped(_) => Stopped
  }

  predicate IsAlive(mark: Mark) {
    mark.MarkStarting? || mark.MarkRunning?
  }

  lemma LastMark(marks: seq<Mark>)
    requires marks != []
    ensures var s := After(marks).state;
      s == StateOf(marks[|marks| - 1]) && (s.Starting? || s.Running? <==> IsAlive(marks[|marks| - 1]))
  {
  }

  /** What the status tells right behind a mark. */
  lemma MarkTold(marks: seq<Mark>, mark: Mark)
    ensures var before, s := After(marks), After(marks + [mark]);
      match mark
      case MarkStarting(now) => s.state.Starting? && s.pid == None && s.startedAt == Some(now) && s.stoppedAt == None && s.lastError == None
      case MarkRunning(now, pid) => s == Status(Running, pid, Some(now), None, None, before.restartCount)
      case MarkFailed(now, error) => s == Status(Failed, None, before.startedAt, Some(now), Some(error), before.restartCount)
      case MarkStopped(now) => s == Status(Stopped, None, before.startedAt, Some(now), before.lastError, before.restartCount)
  {
    assert (marks + [mark])[..|marks|] == marks;
  }

  function Starts(marks: seq<Mark>): nat {
    if marks == [] then 0 else Starts(marks[..|marks| - 1]) + if marks[|marks| - 1].MarkStarting? then 1 else 0
  }

  /** A connector runs or fails only once it was started: it is its own worker, or starting it, that says so. */
  predicate IsLegal(marks: seq<Mark>) {
    forall i | 0 <= i < |marks| && (marks[i].MarkRunning? || marks[i].MarkFailed?) :: Starts(marks[..i]) > 0
  }

  /** Whatever the order of marks: a process id means running, and an error means failed or stopped. */
  lemma {:induction false} PidMeansRunning(marks: seq<Mark>)
    ensures var s := After(marks);
      (s.pid.Some? ==> s.state.Running?) && (s.lastError.Some? ==> s.state.Failed? || s.state.Stopped?)
  {
    if marks != [] {
      PidMeansRunning(marks[..|marks| - 1]);
    }
  }

  function AtMostMax(n: nat): nat {
    if n < U32_MAX then n else U32_MAX
  }

  lemma LegalSoFar(marks: seq<Mark>)
    requires marks != []
    ensures var before := marks[..|marks| - 1];
      var last := marks[|marks| - 1];
      IsLegal(marks) <==> IsLegal(before) && (last.MarkRunning? || last.MarkFailed? ==> Starts(before) > 0)
  {
    hide Starts;
    var before := marks[..|marks| - 1];
    assert forall i | 0 <= i < |before| :: before[i] == marks[i] && before[..i] == marks[..i];
  }

  /** The restart count, where a run or a failure before the first start makes that start count as well. */
  lemma {:induction false} StartsCounted(marks: seq<Mark>)
    ensures var s := After(marks);
      var starts := Starts(marks);
      if !IsLegal(marks) then
        s.restartCount == AtMostMax(starts) && (s.startedAt.Some? || s.lastError.Some?)
      else if starts == 0 then
        s.restartCount == 0 && s.startedAt.None? && s.lastError.None?
      else
        s.startedAt.Some? && s.restartCount == AtMostMax(starts - 1)
  {
    if marks != [] {
      hide IsLegal;
      LegalSoFar(marks);
      StartsCounted(marks[..|marks| - 1]);
    }
  }

  /**
    The restart count is the number of starts but one, up to the greatest 32-bit number, exactly
    when no run or failure is marked before the first start, or the count is at its greatest anyway.
   */
  lemma RestartsCounted(marks: seq<Mark>)
    requires Starts(marks) > 0
    ensures After(marks).restartCount == AtMostMax(Starts(marks) - 1) <==> IsLegal(marks) || Starts(marks) > U32_MAX
  {
    StartsCounted(marks);
  }

  /** Else it is the number of starts: the first one counts as a restart. */
  lemma EarlyMarkMiscounts(marks: seq<Mark>)
    ensures !IsLegal(marks) ==> After(marks).restartCount == AtMostMax(Starts(marks))
    ensures IsLegal(marks) && Starts(marks) == 0 ==> After(marks).restartCount == 0
  {
    StartsCounted(marks);
  }

  /** A connector's marks after a start that others mark in the middle of, and that fails with an error. */
  function StartMarks(before: seq<Mark>, now: int, between: seq<Mark>, error: Option<string>): (marks: seq<Mark>)
    ensures marks != []
  {
    var all := before + [MarkStarting(now)] + between;
    if error.None? then all else all + [MarkFailed(now, error.value)]
  }

  /** The registry: statuses, and the connectors that have a worker or a discovery. */
  class Registry {
    var statuses: map<string, Status>
    var workers: set<string>
    var discoveries: set<string>
    ghost var marks: map<string, seq<Mark>>

    /** Every status is what its marks make of it. */
    ghost predicate Valid()
      reads this
    {
      statuses.Keys == marks.Keys && forall id | id in statuses :: statuses[id] == After(marks[id])
    }

    ghost function MarksOf(id: string): seq<Mark>
      reads this
    {
      if id in marks then marks[id] else []
    }

    constructor ()
      ensures Valid() && statuses == map[] && workers == {} && discoveries == {}
    {
      statuses, workers, discoveries, marks := map[], {}, {}, map[];
    }

    method Put(id: string, mark: Mark)
      requires Valid()
      modifies this`statuses, this`marks
      ensures Valid() && statuses.Keys == old(statuses.Keys) + {id}
      ensures marks == old(marks)[id := old(MarksOf(id)) + [mark]]
      ensures statuses[id] == Apply(if id in old(statuses) then old(statuses)[id] else FRESH, mark)
      ensures forall other | other in old(statuses) && other != id :: other in statuses && statuses[other] == old(statuses)[other]
    {
      ghost var before := MarksOf(id);
      var status := if id in statuses then statuses[id] else FRESH;
      statuses := statuses[id := Apply(status, mark)];
      marks := marks[id := before + [mark]];
      assert (before + [mark])[..|before|] == before;
    }

    method MarkRunning(id: string, now: int, pid: Option<nat>)
      requires Valid()
      modifies this`statuses, this`marks
      ensures Valid() && marks == old(marks)[id := old(MarksOf(id)) + [Mark.MarkRunning(now, pid)]]
    {
      Put(id, Mark.MarkRunning(now, pid));
    }

    method MarkFailed(id: string, now: int, error: string)
      requires Valid()
      modifies this
      ensures Valid() && marks == old(marks)[id := old(MarksOf(id)) + [Mark.MarkFailed(now, error)]]
      ensures workers == old(workers) - {id} && discoveries == old(discoveries) - {id}
    {
      workers, discoveries := workers - {id}, discoveries - {id};
      Put(id, Mark.MarkFailed(now, error));
    }

    method MarkStopped(id: string, now: int)
      requires Valid()
      modifies this
      ensures Valid() && marks == old(marks)[id := old(MarksOf(id)) + [Mark.MarkStopped(now)]]
      ensures workers == old(workers) - {id} && discoveries == old(discoveries) - {id}
    {
      workers, discoveries := workers - {id}, discoveries - {id};
      Put(id, Mark.MarkStopped(now));
    }

    method MarkStarting(id: string, now: int)
      requires Valid()
      modifies this`statuses, this`marks
      ensures Valid() && marks == old(marks)[id := old(MarksOf(id)) + [Mark.MarkStarting(now)]]
      ensures statuses[id].state.Starting? && statuses[id].pid.None?
    {
      Put(id, Mark.MarkStarting(now));
    }

    predicate IsUp(id: string)
      reads this
    {
      id in workers && id in statuses && (statuses[id].state.Starting? || statuses[id].state.Running?)
    }

    /** One mark, as the connector's own thread or an operator makes it. */
    method Take(id: string, mark: Mark)
      requires Valid()
      modifies this
      ensures Valid() && marks == old(marks)[id := old(MarksOf(id)) + [mark]]
      ensures workers <= old(workers) && forall other | other in old(workers) && other != id :: other in workers
    {
      match mark
      case MarkStarting(now) => MarkStarting(id, now);
      case MarkRunning(now, pid) => MarkRunning(id, now, pid);
      case MarkFailed(now, error) => MarkFailed(id, now, error);
      case MarkStopped(now) => MarkStopped(id, now);
    }

    method TakeAll(id: string, them: seq<Mark>)
      requires Valid() && id in marks
      modifies this
      ensures Valid() && marks == old(marks)[id := old(marks)[id] + them]
    {
      hide After, Apply;
      assert marks[id] + them[..0] == marks[id];
      for i := 0 to |them|
        invariant Valid() && marks == old(marks)[id := old(marks)[id] + them[..i]]
      {
        Take(id, them[i]);
        assert old(marks)[id] + them[..i] + [them[i]] == old(marks)[id] + them[..i + 1];
      }
      assert them[..|them|] == them;
    }

    /**
      A start. The lock is not held while the starter is at work, nor between its parts, so
      the new worker and others may set marks before the worker is entered: `between` are
      those marks. A worker that has failed by then is entered all the same, and is not up.
     */
    method EnsureStarted(id: string, now: int, between: seq<Mark>, error: Option<string>)
      requires Valid()
      modifies this
      ensures Valid()
      ensures old(IsUp(id)) ==> marks == old(marks) && statuses == old(statuses) && workers == old(workers)
      ensures !old(IsUp(id)) ==> marks == old(marks)[id := StartMarks(old(MarksOf(id)), now, between, error)]
      ensures !old(IsUp(id)) ==> (IsUp(id) <==> error.None? && IsAlive(marks[id][|marks[id]| - 1]))
      ensures !old(IsUp(id)) ==> (id in workers <==> error.None?)
    {
      hide After, Apply, IsAlive, StateOf;
      if !IsUp(id) {
        StartMarking(id, now, between, error);
        if error.None? {
          workers := workers + {id};
        }
        LastMark(marks[id]);
      }
    }

    /** All the marks of a start. */
    method StartMarking(id: string, now: int, between: seq<Mark>, error: Option<string>)
      requires Valid()
      modifies this
      ensures Valid() && marks == old(marks)[id := StartMarks(old(MarksOf(id)), now, between, error)]
      ensures marks[id] != [] && (error.Some? ==> id !in workers)
    {
      hide After, Apply;
      MarkStarting(id, now);
      TakeAll(id, between);
      if error.Some? {
        MarkFailed(id, now, error.value);
      }
    }

    method EnsureStopped(id: string, now: int)
      requires Valid()
      modifies this
      ensures Valid() && !IsUp(id) && marks == old(marks)[id := old(MarksOf(id)) + [Mark.MarkStopped(now)]]
      ensures workers == old(workers) - {id} && discoveries == old(discoveries) - {id} && statuses[id].state.Stopped?
    {
      workers := workers - {id};
      MarkStopped(id, now);
    }
  }

  /** What the lemmas say of marks they say of every registry reached by its methods. */
  lemma StatusesSound(r: Registry, id: string)
    requires r.Valid() && id in r.statuses
    ensures var s := r.statuses[id];
      (s.pid.Some? ==> s.state.Running?) && (s.lastError.Some? ==> s.state.Failed? || s.state.Stopped?)
    ensures Starts(r.marks[id]) > 0 ==>
      (r.statuses[id].restartCount == AtMostMax(Starts(r.marks[id]) - 1)
       <==> IsLegal(r.marks[id]) || Starts(r.marks[id]) > U32_MAX)
  {
    PidMeansRunning(r.marks[id]);
    if Starts(r.marks[id]) > 0 {
      RestartsCounted(r.marks[id]);
    }
  }
}
