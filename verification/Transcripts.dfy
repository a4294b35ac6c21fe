/** The latest transcript of a session or a run: the greatest by creation time, then by id. */
module Transcripts {
  import opened Text
  import opened Records

  /** Character by character, as the program compares texts. */
  predicate TextLe(a: string, b: string) {
    a == "" || (b != "" && (a[0] < b[0] || (a[0] == b[0] && TextLe(a[1..], b[1..]))))
  }

  lemma {:induction false} TextLeTotal(a: string, b: string)
    ensures TextLe(a, b) || TextLe(b, a)
  {
    if a != "" && b != "" && a[0] == b[0] {
      TextLeTotal(a[1..], b[1..]);
    }
  }

  lemma {:induction false} TextLeTransitive(a: string, b: string, c: string)
    requires TextLe(a, b) && TextLe(b, c)
    ensures TextLe(a, c)
  {
    if a != "" && a[0] == b[0] == c[0] {
      TextLeTransitive(a[1..], b[1..], c[1..]);
    }
  }

  lemma {:induction false} TextLeAntisymmetric(a: string, b: string)
    requires TextLe(a, b) && TextLe(b, a)
    ensures a == b
  {
    if a != "" {
      TextLeAntisymmetric(a[1..], b[1..]);
      assert [a[0]] + a[1..] == [b[0]] + b[1..];
    }
  }

  predicate NoLater(a: Transcript, b: Transcript) {
    a.createdAt < b.createdAt || (a.createdAt == b.createdAt && TextLe(a.id, b.id))
  }

  lemma NoLaterTransitive(a: Transcript, b: Transcript, c: Transcript)
    requires NoLater(a, b) && NoLater(b, c)
    ensures NoLater(a, c)
  {
    if a.createdAt == b.createdAt == c.createdAt {
      TextLeTransitive(a.id, b.id, c.id);
    }
  }

  lemma NoLaterTotal(a: Transcript, b: Transcript)
    ensures NoLater(a, b) || NoLater(b, a)
  {
    TextLeTotal(a.id, b.id);
  }

  predicate IsAssistantOf(t: Transcript, session: string, run: string) {
    t.session == session && t.kind == "assistant" && t.run == Some(run)
  }

  function AssistantOf(ts: seq<Transcript>, session: string, run: string): (found: seq<Transcript>)
    ensures forall t :: t in found <==> t in ts && IsAssistantOf(t, session, run)
  {
    if ts == [] then []
    else (if IsAssistantOf(ts[0], session, run) then [ts[0]] else []) + AssistantOf(ts[1..], session, run)
  }

  function OfSession(ts: seq<Transcript>, session: string): (found: seq<Transcript>)
    ensures forall t :: t in found <==> t in ts && t.session == session
  {
    if ts == [] then []
    else (if ts[0].session == session then [ts[0]] else []) + OfSession(ts[1..], session)
  }

  function Latest(ts: seq<Transcript>): Option<Transcript> {
    if ts == [] then None
    else
      match Latest(ts[1..])
      case None => Some(ts[0])
      case Some(t) => if NoLater(ts[0], t) then Some(t) else Some(ts[0])
  }

  predicate IsLatest(ts: seq<Transcript>, t: Transcript) {
    t in ts && forall u | u in ts :: NoLater(u, t)
  }

  lemma {:induction false} LatestIsLatest(ts: seq<Transcript>)
    ensures Latest(ts).None? <==> ts == []
    ensures Latest(ts).Some? ==> IsLatest(ts, Latest(ts).value)
  {
    if ts != [] {
      LatestIsLatest(ts[1..]);
      NoLaterTotal(ts[0], ts[0]);
      forall u | u in ts
        ensures NoLater(u, Latest(ts).value)
      {
        if Latest(ts[1..]).Some? {
          var t := Latest(ts[1..]).value;
          NoLaterTotal(ts[0], t);
          if u in ts[1..] && Latest(ts).value == ts[0] {
            NoLaterTransitive(u, t, ts[0]);
          }
        }
      }
    }
  }

  /** Only the transcripts matter, not the order in which the store lists them. */
  lemma LatestUnique(ts: seq<Transcript>, us: seq<Transcript>)
    requires forall t :: t in ts <==> t in us
    requires forall t, u | t in ts && u in ts && t.id == u.id :: t == u
    ensures Latest(ts) == Latest(us)
  {
    LatestIsLatest(ts);
    LatestIsLatest(us);
    assert us == [] || us[0] in ts;
    assert ts == [] || ts[0] in us;
    if ts != [] {
      var t, u := Latest(ts).value, Latest(us).value;
      TextLeAntisymmetricIf(t.id, u.id);
    }
  }

  lemma TextLeAntisymmetricIf(a: string, b: string)
    ensures TextLe(a, b) && TextLe(b, a) ==> a == b
  {
    if TextLe(a, b) && TextLe(b, a) {
      TextLeAntisymmetric(a, b);
    }
  }

  /** Picking the latest in one pass over the list. */
  method LatestAssistantTranscript(ts: seq<Transcript>, session: string, run: string) returns (latest: Option<Transcript>)
    ensures latest == Latest(AssistantOf(ts, session, run))
  {
    latest := None;
    var i := |ts|;
    while i > 0
      invariant 0 <= i <= |ts|
      invariant latest == Latest(AssistantOf(ts[i..], session, run))
    {
      i := i - 1;
      assert ts[i..][1..] == ts[i + 1..];
      ghost var rest := AssistantOf(ts[i + 1..], session, run);
      if IsAssistantOf(ts[i], session, run) {
        assert ([ts[i]] + rest)[1..] == rest;
        if latest.None? || !NoLater(ts[i], latest.value) {
          latest := Some(ts[i]);
        }
      } else {
        assert AssistantOf(ts[i..], session, run) == rest;
      }
    }
  }
}
