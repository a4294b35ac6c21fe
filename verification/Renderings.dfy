/** What is sent reads: the text of every send and of every notice, said by its route's or target's format. */
module Renderings {
  import opened Text
  import opened Ids
  import opened Records
  import opened Machine
  import opened Frames
  import opened Traces
  import D = Delivery
  import F = Followers
  import E = EventBus
  import N = Notices

  // Words and lines

  predicate IsAllWhite(s: string) {
    forall i | 0 <= i < |s| :: IsWhite(s[i])
  }

  predicate IsInk(s: string) {
    s != "" && forall i | 0 <= i < |s| :: !IsWhite(s[i])
  }

  /** A text is blank exactly when it is white space. */
  lemma BlankIff(s: string)
    ensures IsBlank(s) <==> IsAllWhite(s)
  {
    var t := TrimStart(s);
    var u := TrimEnd(t);
    if u != "" {
      assert t[0] == s[|s| - |t|];
    }
  }

  /** The words of a text: white space around and between them, and none within. */
  ghost predicate AreWordsOf(s: string, words: seq<string>)
    decreases |words|
  {
    if words == [] then IsAllWhite(s)
    else
      exists i, j | 0 <= i < j <= |s| ::
        && IsAllWhite(s[..i]) && s[i..j] == words[0] && IsInk(words[0]) && (j == |s| || IsWhite(s[j]))
        && AreWordsOf(s[j..], words[1..])
  }

  lemma {:induction false} WordLenInk(s: string)
    ensures var n := WordLen(s);
      (forall i | 0 <= i < n :: !IsWhite(s[i])) && (n < |s| ==> IsWhite(s[n]))
  {
    if s != "" && !IsWhite(s[0]) {
      WordLenInk(s[1..]);
      var n := WordLen(s[1..]);
      forall i | 0 <= i < n + 1 ensures !IsWhite(s[i]) {
        if i > 0 { assert s[i] == s[1..][i - 1]; }
      }
      assert n < |s[1..]| ==> s[n + 1] == s[1..][n];
    }
  }

  lemma FirstWord(s: string, i: nat, j: nat, words: seq<string>)
    requires i < j <= |s| && IsAllWhite(s[..i]) && words != [] && s[i..j] == words[0] && IsInk(words[0])
    requires (j == |s| || IsWhite(s[j])) && AreWordsOf(s[j..], words[1..])
    ensures AreWordsOf(s, words)
  {
    hide IsAllWhite, IsInk, IsWhite;
  }

  lemma WordsStep(s: string)
    requires TrimStart(s) != ""
    ensures var t := TrimStart(s); Words(s) == [t[..WordLen(t)]] + Words(t[WordLen(t)..])
  {
    hide IsWhite;
  }

  /** The first word of a text that is not blank, behind its white space. */
  lemma WordsUnfold(s: string) returns (i: nat, j: nat)
    requires TrimStart(s) != ""
    ensures i < j <= |s| && IsAllWhite(s[..i]) && IsInk(s[i..j]) && (j == |s| || IsWhite(s[j]))
    ensures Words(s) == [s[i..j]] + Words(s[j..])
  {
    hide IsWhite, WordLen, Words, TrimStart;
    var t := TrimStart(s);
    i := |s| - |t|;
    WordLenInk(t);
    var n := WordLen(t);
    j := i + n;
    WordsStep(s);
    assert s[i..j] == t[..n] && s[j..] == t[n..];
    assert j < |s| ==> s[j] == t[n];
  }

  lemma {:induction false} WordsAreWords(s: string)
    ensures AreWordsOf(s, Words(s))
    decreases |s|
  {
    hide AreWordsOf, IsWhite, IsAllWhite, IsInk, Words;
    if TrimStart(s) == "" {
      BlankWords(s);
      NoWords(s);
    } else {
      var i, j := WordsUnfold(s);
      WordsAreWords(s[j..]);
      var words := [s[i..j]] + Words(s[j..]);
      assert words[1..] == Words(s[j..]);
      FirstWord(s, i, j, words);
    }
  }

  lemma BlankWords(s: string)
    requires TrimStart(s) == ""
    ensures Words(s) == [] && IsAllWhite(s)
  {
    hide IsWhite;
  }

  lemma NoWords(s: string)
    requires IsAllWhite(s)
    ensures AreWordsOf(s, [])
  {
  }

  /** A line of the text's words, cut behind so many characters. */
  ghost predicate IsShortLine(text: string, most: nat, line: string) {
    exists words: seq<string> :: AreWordsOf(text, words)
      && var whole := Join(words, " ");
         if |whole| <= most then line == whole else |line| == most + 3 && line[..most] == whole[..most] && line[most..] == "..."
  }

  lemma BoundedIsShort(text: string, most: nat)
    ensures IsShortLine(text, most, D.BoundedLine(text, most))
  {
    hide AreWordsOf, Words, Join;
    WordsAreWords(text);
    var whole := Join(Words(text), " ");
    if |whole| > most {
      assert D.BoundedLine(text, most) == whole[..most] + "...";
    }
  }

  // Session outputs

  /** The route's format, or the target's where the route's is white space. */
  predicate IsFormatOf(format: string, r: Route, t: Target) {
    if IsAllWhite(r.format) then format == t.format else format == r.format
  }

  /** What the text of an output says in a format. */
  ghost predicate IsOutputText(format: string, session: string, t: Transcript, run: Run, text: string) {
    if format == "status_only" then text == "Session " + session + " produced a new assistant response."
    else if format == "summary" then
      exists line :: IsShortLine(t.content, 700, line) && text == "Session " + session + " assistant response:\n" + line
    else if format == "errors_only" then
      (run.status == "failed" || run.status == "cancelled")
      && text == "Session " + session + " failed: " + (match run.error case Some(error) => error case None => "unknown error")
    else text == t.content
  }

  /** Every format has a text, but for errors where there is none. */
  lemma OutputTextIs(session: string, r: Route, target: Target, t: Transcript, run: Run, format: string)
    requires IsFormatOf(format, r, target)
    ensures var text := D.OutputText(session, r, target, t, run);
      && (text.Some? ==> IsOutputText(format, session, t, run, text.value))
      && (text.None? <==> format == "errors_only" && run.status != "failed" && run.status != "cancelled")
  {
    hide IsShortLine, D.BoundedLine, IsAllWhite, IsBlank;
    BlankIff(r.format);
    BoundedIsShort(t.content, 700);
  }

  /**
    Over every run: each text sent is that of its route's format, from the run and what the assistant
    wrote in it; and that was due: it was not the one last delivered, and was created later.
   */
  lemma TextSent(run: Execution, i: nat, format: string)
    requires IsExecution(run) && i < |End(run).log.sends|
    requires var s := End(run).log.sends[i]; IsFormatOf(format, s.route, s.target)
    ensures var s := End(run).log.sends[i];
      && IsOutputText(format, s.out.session, s.out.transcript, s.out.run, s.text)
      && s.out.transcript.kind == "assistant" && s.out.transcript.session == s.out.session && s.out.transcript.run == Some(s.out.runId)
      && s.route.deliveredId != Some(s.out.transcript.id)
      && (match s.route.deliveredAt case Some(at) => at < s.out.transcript.createdAt case None => true)
  {
    hide IsExecution, IsRead, IsOutputText, D.OutputText, D.Admits, IsFormatOf;
    var s := End(run).log.sends[i];
    var n := SendMade(run, i);
    ReadWritten(run.states[n].db, s.out.event.update, s.out);
    OutputTextIs(s.out.session, s.route, s.target, s.out.transcript, s.out.run, format);
  }

  lemma ReadWritten(db: Db, u: int, out: D.Outgoing)
    requires IsRead(db, u, out)
    ensures out.transcript.kind == "assistant" && out.transcript.session == out.session && out.transcript.run == Some(out.runId)
  {
    hide IsOutputOf;
  }

  /** A due transcript goes out on an open route in every format, but in that for errors only when the run failed or was cancelled. */
  lemma SentIff(targets: map<string, Target>, out: D.Outgoing, r: Route, format: string)
    requires !D.AlreadyDelivered(r, out.transcript) && D.IsOpenFor(targets, out, r) && IsFormatOf(format, r, targets[r.target])
    ensures D.RouteVerdict(targets, out, r).Sendable?
       <==> (format == "errors_only" ==> out.run.status == "failed" || out.run.status == "cancelled")
  {
    hide D.AlreadyDelivered, D.Admits, D.OutputText, D.RouteVerdict, IsFormatOf, IsOutputText;
    OutputTextIs(out.session, r, targets[r.target], out.transcript, out.run, format);
    var text := D.OutputText(out.session, r, targets[r.target], out.transcript, out.run);
    var v := D.RouteVerdict(targets, out, r);
    D.VerdictIff(targets, out, r, if text.Some? then text.value else "");
    if v.Sendable? {
      D.VerdictIff(targets, out, r, v.text);
    }
  }

  // Results of tasks

  /** How a status is written. */
  function Word(s: TaskStatus): string {
    if s == Failed then "failed" else if s == Completed then "completed" else if s == Cancelled then "cancelled"
    else if s == Blocked then "blocked" else if s == Running then "running" else if s == Queued then "queued" else "waiting_dependency"
  }

  /** One line for a value that is there, and none for one that is not. */
  function LineIf(heading: string, v: Option<string>): seq<string> {
    match v
    case None => []
    case Some(text) => [heading + text]
  }

  /** The lines of a result in full: what is there of it, in this order. */
  ghost predicate AreResultLines(lines: seq<string>, id: string, t: Task) {
    exists result: seq<string> ::
      && (t.result.None? ==> result == [])
      && (t.result.Some? ==> |result| == 1 + |t.result.value| && result[0] == "- result_ref_json:"
                             && forall k | 0 <= k < |t.result.value| :: result[k + 1] == "  " + t.result.value[k])
      && lines == ["Task result:", "- id: " + id, "- status: " + Word(t.status), "- kind: " + t.kind]
                  + LineIf("- source_session_id: ", t.sourceSession) + LineIf("- executor_agent_id: ", t.executor)
                  + LineIf("- error: ", t.error) + result
  }

  ghost predicate IsResultText(format: string, id: string, t: Task, text: string) {
    if format == "status_only" then text == "Task " + id + " finished with status " + Word(t.status) + "."
    else if format == "summary" then text == "Task " + id + " " + Word(t.status) + " (" + t.kind + ")"
    else if format == "errors_only" then
      (t.status == Failed || t.status == Blocked || t.status == Cancelled)
      && text == "Task " + id + " finished with status " + Word(t.status) + ": "
                 + (match t.error case Some(error) => error case None => "no error detail")
    else exists lines :: AreResultLines(lines, id, t) && text == Join(lines, "\n")
  }

  lemma LinesAlike(name: string, v: Option<string>)
    ensures D.Line(name, v) == LineIf("- " + name + ": ", v)
  {
  }

  lemma Headings()
    ensures "- " + "source_session_id" + ": " == "- source_session_id: " && "- " + "executor_agent_id" + ": " == "- executor_agent_id: "
    ensures "- " + "error" + ": " == "- error: "
  {
  }

  lemma ResultLinesAre(id: string, t: Task)
    ensures AreResultLines(D.ResultLines(id, t), id, t)
  {
    hide D.Line, LineIf, Word, D.StatusText, D.ResultLines, AreResultLines;
    var result := if t.result.Some? then ["- result_ref_json:"] + D.Indented(t.result.value) else [];
    ResultLinesParts(id, t, result);
    AreLines(D.ResultLines(id, t), id, t, result);
  }

  lemma ResultLinesParts(id: string, t: Task, result: seq<string>)
    requires result == if t.result.Some? then ["- result_ref_json:"] + D.Indented(t.result.value) else []
    ensures D.ResultLines(id, t)
         == ["Task result:", "- id: " + id, "- status: " + Word(t.status), "- kind: " + t.kind]
            + LineIf("- source_session_id: ", t.sourceSession) + LineIf("- executor_agent_id: ", t.executor)
            + LineIf("- error: ", t.error) + result
  {
    hide D.Line, LineIf, Word, D.StatusText, D.Indented;
    WordAlike(t.status);
    Headings();
    LinesAlike("source_session_id", t.sourceSession);
    LinesAlike("executor_agent_id", t.executor);
    LinesAlike("error", t.error);
  }

  lemma AreLines(lines: seq<string>, id: string, t: Task, result: seq<string>)
    requires result == if t.result.Some? then ["- result_ref_json:"] + D.Indented(t.result.value) else []
    requires lines == ["Task result:", "- id: " + id, "- status: " + Word(t.status), "- kind: " + t.kind]
                      + LineIf("- source_session_id: ", t.sourceSession) + LineIf("- executor_agent_id: ", t.executor)
                      + LineIf("- error: ", t.error) + result
    ensures AreResultLines(lines, id, t)
  {
    hide LineIf, Word;
  }

  lemma WordAlike(s: TaskStatus)
    ensures D.StatusText(s) == Word(s)
  {
  }

  lemma ResultTextIs(id: string, t: Task, target: Target)
    ensures var text := D.ResultText(id, t, target);
      && (text.Some? ==> IsResultText(target.format, id, t, text.value))
      && (text.None? <==> target.format == "errors_only" && t.status != Failed && t.status != Blocked && t.status != Cancelled)
  {
    hide AreResultLines, D.ResultLines, Join;
    ResultLinesAre(id, t);
  }

  /** A result handed over for a stored task, from the target and the task as they were stored. */
  predicate IsHandedOver(m: Machine, t: TaskKey, s: F.Notice) {
    && t in m.db.tasks && s.followerId in m.db.followers && m.db.followers[s.followerId].task == t
    && m.db.followers[s.followerId].enabled
    && F.IsNoticeTo(m.db.world.targets, t, m.db.tasks[t], s, s.followerId, m.db.followers[s.followerId])
  }

  predicate AreHandedOver(m: Machine, n: Machine) {
    && |m.log.notices| <= |n.log.notices| && n.log.notices[..|m.log.notices|] == m.log.notices
    && forall i | |m.log.notices| <= i < |n.log.notices| :: IsHandedOver(m, n.log.notices[i].follower.task, n.log.notices[i])
  }

  lemma RelayHandsOver(m: Machine, i: nat, listing: seq<string>, accepts: set<string>, budget: nat, now: int)
    requires N.Noticed(m)
    ensures AreHandedOver(m, DeliverResult(m, i, listing, accepts, budget, now))
  {
    hide Hears, ResultOf, F.RelayToFirst, F.NoticedOnce, RowOf, IsResultKind, F.IsNoticeTo, F.AreNoticesOf;
    N.HearsLength(m, i, E.TASK_FILTER);
    if Hears(m, i, E.TASK_FILTER) && ResultOf(m.db, m.bus[i].payload.event).Ready? && IsResultKind(m.bus[i].payload.kind) {
      var t := ResultOf(m.db, m.bus[i].payload.event).value;
      N.ResultFound(m.db, m.bus[i].payload.event);
      if F.IsFollowerListing(m.db.followers, t, listing) {
        F.RelayKeeps(m.db.world.targets, m.db.rows[RowOf(m.bus[i].payload.event)].payload.event, t, m.db.tasks[t],
                     F.Relay(m.db.followers, m.db.deliveries, m.log.notices, budget, 0, 0, 0, false),
                     m.db.followers, listing, |listing|, accepts, now);
        NoticesHandedOver(m, t, listing, DeliverResult(m, i, listing, accepts, budget, now));
      }
    }
  }

  lemma NoticesHandedOver(m: Machine, t: TaskKey, listing: seq<string>, n: Machine)
    requires t in m.db.tasks && F.IsFollowerListing(m.db.followers, t, listing)
    requires F.AreNoticesOf(m.db.world.targets, t, m.db.tasks[t], m.db.followers, listing, m.log.notices, n.log.notices)
    ensures AreHandedOver(m, n)
  {
    hide F.IsNoticeTo;
    forall i | |m.log.notices| <= i < |n.log.notices|
      ensures IsHandedOver(m, n.log.notices[i].follower.task, n.log.notices[i])
    {
      var s := n.log.notices[i];
      NoticeFollower(m.db.world.targets, t, m.db.tasks[t], s, s.followerId, m.db.followers[s.followerId]);
    }
  }

  lemma NoticeFollower(targets: map<string, Target>, task: TaskKey, record: Task, s: F.Notice, id: string, f: Follower)
    requires F.IsNoticeTo(targets, task, record, s, id, f)
    ensures s.follower == f
  {
  }

  lemma StepHandsOver(m: Machine, s: Step)
    requires N.Noticed(m)
    ensures if s.DoDeliverResult? then AreHandedOver(m, Do(m, s)) else Do(m, s).log.notices == m.log.notices
  {
    hide AreHandedOver, N.Noticed, Ask, Receive, PostInput, CreateTask, Claim, Publish, MarkPublication, StopPublisher, BeginRouter, StepRouter, FailRouter, StopRouter;
    hide BeginTurn, StepTurn, TakeTurn, StopTurn, BeginTask, StepTask, RunJob, StopTask, DeliverOutput, DeliverResult, RoutesKept;
    if s.DoDeliverResult? {
      RelayHandsOver(m, s.i, s.listing, s.accepts, s.budget, s.now);
    } else {
      DeliveryPartsKept(m, s);
    }
  }

  /** Every notice was handed over at some step of the run. */
  lemma {:induction false} NoticeMade(run: Execution, i: nat) returns (n: nat)
    requires IsExecution(run) && i < |End(run).log.notices|
    ensures n < |run.steps| && n < |run.states| && run.steps[n].DoDeliverResult?
    ensures var s := End(run).log.notices[i]; IsHandedOver(run.states[n], s.follower.task, s)
    decreases |run.steps|
  {
    hide Do, IsExecution, IsHandedOver, N.Noticed;
    ExecutionStates(run);
    if run.steps == [] {
      StartSilent(run);
    } else {
      var before, s := LastStep(run);
      N.RunNoticed(before);
      StepHandsOver(End(before), s);
      var had := End(before).log.notices;
      if i < |had| {
        n := NoticeMade(before, i);
        assert End(run).log.notices[..|had|][i] == End(run).log.notices[i];
      } else {
        n := |run.steps| - 1;
      }
    }
  }

  lemma StartSilent(run: Execution)
    requires IsExecution(run) && run.steps == []
    ensures End(run).log.notices == []
  {
    hide Do;
  }

  /** Over every run: each notice reads as its target's format says of the task as it was stored. */
  lemma NoticeReads(run: Execution, i: nat)
    requires IsExecution(run) && i < |End(run).log.notices|
    ensures var s := End(run).log.notices[i];
      IsResultText(s.target.format, TaskId(s.follower.task), s.record, s.text)
  {
    hide IsExecution, IsResultText, D.ResultText, D.AdmitsTask, TaskId;
    var s := End(run).log.notices[i];
    var n := NoticeMade(run, i);
    ResultTextIs(TaskId(s.follower.task), s.record, s.target);
  }
}
