/** One pass of the publisher as it is written, against the machine's steps. */
module PublisherCall {
  import opened Ids
  import opened Records
  import opened Machine
  import opened EventStore

  /** The rest of a pass run through without anyone in between, until `writes` runs out. */
  function Finish(m: Machine, outcomes: seq<Publication>, now: int, writes: nat): Machine
    decreases |outcomes|
  {
    if m.publisher.PublisherIdle? || m.publisher.queue == [] || outcomes == [] then m
    else if writes == 0 then StopPublisher(Publish(m, outcomes[0]))
    else Finish(MarkPublication(Publish(m, outcomes[0]), now), outcomes[1..], now, writes - 1)
  }

  /** One row of the queue: published or not, and marked. */
  lemma OneRow(m: Machine, outcome: Publication, now: int)
    requires m.publisher.PublisherBusy? && m.publisher.sending.Unsent? && m.publisher.queue != []
    ensures var head := m.publisher.queue[0];
      var sent := Publish(m, outcome);
      var marked := MarkPublication(sent, now);
      && sent.db == m.db && sent.bus == (if outcome.Rejected? then m.bus else m.bus + [Message(head.row, head.payload)])
      && marked.bus == sent.bus
      && marked.publisher == (if |m.publisher.queue| == 1 then PublisherIdle else PublisherBusy(m.publisher.queue[1..], Unsent))
      && marked.db == m.db.(rows := MarkRow(m.db.rows, head, if outcome.Accepted? then SentOk else SentFailed, now))
  {
    hide MarkedRow;
  }

  /** Marking a row by its id; a row that is gone is not brought back. */
  function MarkRow(rows: map<RowKey, Row>, c: Claimed, sending: Sending, now: int): map<RowKey, Row> {
    if c.row in rows then rows[c.row := MarkedRow(rows[c.row], sending, c.attempts, now)] else rows
  }

  /** How long a row waits behind a failed publication, by the number of its attempts. */
  predicate IsWait(attempts: nat, seconds: int) {
    && (attempts <= 1 ==> seconds == 1) && (attempts == 2 ==> seconds == 2) && (attempts == 3 ==> seconds == 4)
    && (attempts == 4 ==> seconds == 8) && (attempts == 5 ==> seconds == 16) && (attempts >= 6 ==> seconds == 32)
  }

  lemma WaitIs(attempts: nat)
    ensures IsWait(attempts, RetryDelay(attempts))
  {
    if attempts < 6 {
      RetryDelayDoubles(1);
      RetryDelayDoubles(2);
      RetryDelayDoubles(3);
      RetryDelayDoubles(4);
    } else {
      RetryDelayDoubles(attempts);
    }
  }

  /** A row that is sent is published for good; any other waits, longer with each attempt, and keeps all else. */
  lemma RowMarked(rows: map<RowKey, Row>, c: Claimed, outcome: Publication, now: int)
    ensures var after := MarkRow(rows, c, if outcome.Accepted? then SentOk else SentFailed, now);
      && after.Keys == rows.Keys && (forall k | k in rows && k != c.row :: after[k] == rows[k])
      && (c.row in rows ==>
            if outcome.Accepted? then after[c.row] == rows[c.row].(status := RowPublished)
            else after[c.row] == rows[c.row].(status := RowPending, due := after[c.row].due) && IsWait(c.attempts, after[c.row].due - now))
  {
    hide RetryDelay, IsWait;
    WaitIs(c.attempts);
  }

  /** A row as it is first written is due at once, and untried. */
  lemma FreshIsDue(payload: Envelope, now: int)
    ensures IsDue(NewRow(payload, now), now) && NewRow(payload, now).attempts == 0 && NewRow(payload, now).payload == payload
  {
  }

  /**
    What a claim takes: of the pending rows whose time has come, all but those of the latest
    times, of which it leaves some only when it is full. Each is tried once more, and no other row is touched.
   */
  lemma RowsClaimed(rows: map<RowKey, Row>, keys: seq<RowKey>, now: int, k: RowKey)
    requires IsClaim(rows, keys, now) && k in rows
    ensures |keys| <= 64
    ensures var due := rows[k].status == RowPending && rows[k].due <= now;
      && (k in keys ==> due && ClaimRows(rows, keys)[k] == rows[k].(status := RowPublishing, attempts := rows[k].attempts + 1))
      && (k !in keys ==> ClaimRows(rows, keys)[k] == rows[k] && (due ==> |keys| == 64 && forall j | j in keys :: rows[j].due <= rows[k].due))
  {
    if k in keys {
      var i :| 0 <= i < |keys| && keys[i] == k;
    }
  }

  lemma FinishStops(m: Machine, outcomes: seq<Publication>, now: int)
    requires m.publisher.PublisherBusy? && m.publisher.queue != [] && outcomes != []
    ensures Finish(m, outcomes, now, 0) == StopPublisher(Publish(m, outcomes[0]))
    ensures StopPublisher(Publish(m, outcomes[0])).db == Publish(m, outcomes[0]).db
    ensures StopPublisher(Publish(m, outcomes[0])).bus == Publish(m, outcomes[0]).bus
  {
    hide Publish, MarkPublication;
  }

  lemma FinishSteps(m: Machine, outcomes: seq<Publication>, now: int, writes: nat)
    requires m.publisher.PublisherBusy? && m.publisher.queue != [] && outcomes != [] && writes > 0
    ensures Finish(m, outcomes, now, writes) == Finish(MarkPublication(Publish(m, outcomes[0]), now), outcomes[1..], now, writes - 1)
  {
    hide Publish, MarkPublication;
  }

  lemma FinishEnds(m: Machine, outcomes: seq<Publication>, now: int, writes: nat)
    requires m.publisher.PublisherIdle?
    ensures Finish(m, outcomes, now, writes) == m
  {
    hide Publish, MarkPublication;
  }

  lemma ClaimParts(m: Machine, keys: seq<RowKey>, now: int)
    requires m.publisher.PublisherIdle? && keys != [] && IsClaim(m.db.rows, keys, now)
    ensures Claim(m, keys, now) == m.(db := m.db.(rows := ClaimRows(m.db.rows, keys)), publisher := PublisherBusy(Queue(m.db.rows, keys), Unsent))
  {
    hide IsClaim, ClaimRows;
  }

  /** `keys` are the rows that the store claims, and `outcomes` what publishing each comes to. */
  method PublishPendingOutboxOnce(store: Store, keys: seq<RowKey>, outcomes: seq<Publication>, now: int, start: seq<Message>, ghost m: Machine)
    returns (bus: seq<Message>, claimed: nat)
    requires m.publisher.PublisherIdle? && m.db == store.View() && m.bus == start
    requires IsClaim(store.rows, keys, now) && |outcomes| == |keys|
    modifies store
    ensures var n := if old(store.writes) == 0 then m else Finish(Claim(m, keys, now), outcomes, now, old(store.writes) - 1);
      store.View() == n.db && bus == n.bus
    ensures claimed == if old(store.writes) == 0 then 0 else |keys|
  {
    hide Finish, Claim, IsClaim, ClaimRows, Publish, MarkPublication, MarkRow;
    bus, claimed := start, 0;
    var outboxes := QueueOf(store, keys, now);
    var updated := ClaimRows(store.rows, keys);
    ghost var first := store.writes;
    var ok := store.UpdateEventOutbox(updated);
    if !ok {
      return;
    }
    claimed := |keys|;
    if keys == [] {
      NothingClaimed(m, updated, outcomes, now, store.writes);
      return;
    }
    ClaimParts(m, keys, now);
    bus := PublishClaimed(store, outboxes, outcomes, now, bus, Claim(m, keys, now));
  }

  lemma NothingClaimed(m: Machine, updated: map<RowKey, Row>, outcomes: seq<Publication>, now: int, writes: nat)
    requires m.publisher.PublisherIdle? && updated == ClaimRows(m.db.rows, [])
    ensures updated == m.db.rows && Claim(m, [], now) == m && Finish(m, outcomes, now, writes) == m
  {
    hide IsClaim;
    FinishEnds(m, outcomes, now, writes);
  }

  method QueueOf(store: Store, keys: seq<RowKey>, now: int) returns (outboxes: seq<Claimed>)
    requires IsClaim(store.rows, keys, now)
    ensures (forall k | k in keys :: k in store.rows) && outboxes == Queue(store.rows, keys)
  {
    outboxes := Queue(store.rows, keys);
  }

  method PublishClaimed(store: Store, outboxes: seq<Claimed>, outcomes: seq<Publication>, now: int, start: seq<Message>, ghost m: Machine)
    returns (bus: seq<Message>)
    requires m.db == store.View() && m.bus == start && m.publisher == PublisherBusy(outboxes, Unsent) && outboxes != []
    requires |outcomes| == |outboxes|
    modifies store
    ensures var n := Finish(m, outcomes, now, old(store.writes));
      store.View() == n.db && bus == n.bus
  {
    hide Finish, Publish, MarkPublication, StopPublisher, MarkRow;
    bus := start;
    ghost var n := m;
    ghost var writes := store.writes;
    for i := 0 to |outboxes|
      invariant n.db == store.View() && n.bus == bus
      invariant n.publisher == if i == |outboxes| then PublisherIdle else PublisherBusy(outboxes[i..], Unsent)
      invariant Finish(m, outcomes, now, writes) == Finish(n, outcomes[i..], now, store.writes)
    {
      var outbox := outboxes[i];
      ghost var before := store.writes;
      assert outboxes[i..][0] == outbox && outcomes[i..][0] == outcomes[i];
      assert outboxes[i..][1..] == outboxes[i + 1..] && outcomes[i..][1..] == outcomes[i + 1..];
      OneRow(n, outcomes[i], now);
      if !outcomes[i].Rejected? {
        bus := bus + [Message(outbox.row, outbox.payload)];
      }
      var updated := MarkRow(store.rows, outbox, if outcomes[i].Accepted? then SentOk else SentFailed, now);
      var ok := store.UpdateEventOutbox(updated);
      if !ok {
        FinishStops(n, outcomes[i..], now);
        return;
      }
      FinishSteps(n, outcomes[i..], now, before);
      n := MarkPublication(Publish(n, outcomes[i]), now);
    }
    FinishEnds(n, outcomes[|outboxes|..], now, store.writes);
  }

  /** A pass run through is a run of the machine, so what holds of every run holds of it. */
  lemma {:induction false} FinishIsRun(run: Execution, outcomes: seq<Publication>, now: int, writes: nat) returns (more: Execution)
    requires IsExecution(run)
    ensures IsExecution(more) && run.steps <= more.steps && run.states <= more.states
    ensures End(more) == Finish(End(run), outcomes, now, writes)
    decreases |outcomes|
  {
    hide Do, Publish, MarkPublication, StopPublisher, IsExecution;
    ExecutionStates(run);
    var m := End(run);
    if m.publisher.PublisherIdle? || m.publisher.queue == [] || outcomes == [] {
      more := run;
    } else {
      var next := if writes == 0 then DoStopPublisher else DoMarkPublication(now);
      AppendIsExecution(run, DoPublish(outcomes[0]));
      var published := Append(run, DoPublish(outcomes[0]));
      ExecutionStates(published);
      AppendIsExecution(published, next);
      PublisherSteps(m, DoPublish(outcomes[0]));
      PublisherSteps(Publish(m, outcomes[0]), next);
      more := Append(published, next);
      if writes > 0 {
        more := FinishIsRun(more, outcomes[1..], now, writes - 1);
      }
    }
  }

  lemma PublisherSteps(m: Machine, s: Step)
    ensures s.DoPublish? ==> Do(m, s) == Publish(m, s.publication)
    ensures s.DoMarkPublication? ==> Do(m, s) == MarkPublication(m, s.now)
    ensures s.DoStopPublisher? ==> Do(m, s) == StopPublisher(m)
  {
    hide Publish, MarkPublication, StopPublisher;
  }
}
