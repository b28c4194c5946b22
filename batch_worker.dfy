/**
 * One invocation of the background worker (api/worker.js:4-82): pick a
 * campaign that is due, move it from 'pending' to 'sending', and either send
 * up to five of its pending messages or, when none remain, mark it
 * 'completed'.
 *
 * The SMS provider is an oracle: `replies[t]` is what `provider.send`
 * returns for the t-th message of the batch. Database failures are an oracle
 * too: `okWrites` is the number of UPDATE statements that succeed before one
 * throws, which ends the invocation with status 500 and keeps every earlier
 * write; `readsOk` says whether the connection and the campaign query
 * succeed. Assigning a message a key another message already holds is the
 * other way an UPDATE throws (the primary key is unique).
 */
module BatchWorker {
  import opened Wrappers
  import opened CampaignStore

  /** `LIMIT 5` on the pending-message query (api/worker.js:37). */
  const BatchSize: nat := 5

  /** What `provider.send` resolves to: `{success: true, id}` or `{success: false, error}`. */
  datatype Outcome = Accepted(id: string) | Refused(error: string)

  /** One entry of the `results` array (api/worker.js:68). */
  datatype Delivery = Delivery(phone: string, success: bool)

  /** The worker's responses: the two early 200s, the batch report, and the 500 of the catch block. */
  datatype Reply = NoActive | CampaignCompleted | Processed(results: seq<Delivery>) | WorkerError

  datatype StepResult = StepResult(store: Store, reply: Reply)

  /** The campaign query's condition (api/worker.js:14-15). */
  predicate Eligible(c: Campaign, now: int) {
    (c.status == Pending || c.status == Sending) && c.scheduledAt <= now
  }

  predicate AnyEligible(cs: seq<Campaign>, now: int) {
    exists k :: 0 <= k < |cs| && Eligible(cs[k], now)
  }

  /** The pending-message query (api/worker.js:33-38), taken in store order. */
  function Batch(msgs: seq<Message>, cid: string): (b: seq<nat>)
    ensures |b| == if |Queue(msgs, cid)| < BatchSize then |Queue(msgs, cid)| else BatchSize
    ensures b == Queue(msgs, cid)[..|b|]
  {
    var q := Queue(msgs, cid);
    if |q| <= BatchSize then q else q[..BatchSize]
  }

  /** The message row after the provider's reply has been recorded (api/worker.js:53-57, 60-64). */
  function Settle(msg: Message, reply: Outcome, now: int): (x: Message)
    ensures x.campaignId == msg.campaignId && x.phone == msg.phone && x.content == msg.content
    ensures x.status == (if reply.Accepted? then Sent else Failed)
    ensures reply.Accepted? ==> x.id == reply.id && x.sentAt == Some(now) && x.errorMessage == msg.errorMessage
    ensures reply.Refused? ==> x.errorMessage == Some(reply.error) && x.id == msg.id && x.sentAt == msg.sentAt
  {
    match reply
    case Accepted(id) => msg.(status := Sent, sentAt := Some(now), id := id)
    case Refused(error) => msg.(status := Failed, errorMessage := Some(error))
  }

  /** The database after one message's two UPDATEs; `ok` is false when one of them threw. */
  datatype Turn = Turn(store: Store, ok: bool, left: nat)

  function Deliver(st: Store, k: nat, m: nat, reply: Outcome, now: int, left: nat): (t: Turn)
    requires k < |st.campaigns| && m < |st.messages|
    ensures |t.store.campaigns| == |st.campaigns| && |t.store.messages| == |st.messages|
  {
    match reply
    case Accepted(id) =>
      if left == 0 || IdTaken(st.messages, m, id) then Turn(st, false, 0)
      else if left == 1 then Turn(MarkSent(st, m, id, now), false, 0)
      else Turn(CountSent(MarkSent(st, m, id, now), k), true, left - 2)
    case Refused(error) =>
      if left == 0 then Turn(st, false, 0)
      else if left == 1 then Turn(MarkFailed(st, m, error), false, 0)
      else Turn(CountFailed(MarkFailed(st, m, error), k), true, left - 2)
  }

  predicate Increasing(batch: seq<nat>) {
    forall t, u :: 0 <= t < u < |batch| ==> batch[t] < batch[u]
  }

  predicate InRange(batch: seq<nat>, n: nat) {
    forall t :: 0 <= t < |batch| ==> batch[t] < n
  }

  /** The loop over the batch (api/worker.js:49-72), from its j-th message on. */
  function Process(st: Store, k: nat, batch: seq<nat>, j: nat, replies: seq<Outcome>, now: int,
                   left: nat, done: seq<Delivery>): (r: StepResult)
    requires k < |st.campaigns| && j <= |batch| <= |replies| && InRange(batch, |st.messages|)
    ensures |r.store.campaigns| == |st.campaigns| && |r.store.messages| == |st.messages|
    decreases |batch| - j
  {
    if j == |batch| then StepResult(st, Processed(done))
    else
      var t := Deliver(st, k, batch[j], replies[j], now, left);
      if !t.ok then StepResult(t.store, WorkerError)
      else Process(t.store, k, batch, j + 1, replies, now, t.left,
                   done + [Delivery(st.messages[batch[j]].phone, replies[j].Accepted?)])
  }

  /** The store after the 'pending' to 'sending' UPDATE, which only a pending campaign gets. */
  function Opened(st: Store, k: nat): (st1: Store)
    requires k < |st.campaigns|
    ensures st1.messages == st.messages && |st1.campaigns| == |st.campaigns|
    ensures st1.campaigns[k].id == st.campaigns[k].id
    ensures st1.campaigns[k]
            == st.campaigns[k].(status := if st.campaigns[k].status == Pending then Sending else st.campaigns[k].status)
  {
    if st.campaigns[k].status == Pending then WithStatus(st, k, Sending) else st
  }

  /** The UPDATEs still allowed to succeed once the status UPDATE, if any, has used one. */
  function WritesLeft(status: CampaignStatus, okWrites: nat): nat
    requires !(status == Pending && okWrites == 0)
  {
    if status == Pending then okWrites - 1 else okWrites
  }

  /** The invocation once campaign `k` has been selected (api/worker.js:23-77). */
  function StepAt(st: Store, k: nat, now: int, replies: seq<Outcome>, okWrites: nat): (r: StepResult)
    requires k < |st.campaigns| && |replies| >= BatchSize
    ensures |r.store.campaigns| == |st.campaigns| && |r.store.messages| == |st.messages|
  {
    var c := st.campaigns[k];
    if c.status == Pending && okWrites == 0 then StepResult(st, WorkerError)
    else
      var st1 := Opened(st, k);
      var left := WritesLeft(c.status, okWrites);
      var batch := Batch(st1.messages, c.id);
      if batch == [] then
        if left == 0 then StepResult(st1, WorkerError)
        else StepResult(WithStatus(st1, k, Completed), CampaignCompleted)
      else Process(st1, k, batch, 0, replies, now, left, [])
  }

  // ---- one message --------------------------------------------------------

  /**
   * One message's turn: the row is either untouched or settled as the reply
   * says; the matching counter moves only when both writes went through.
   */
  lemma DeliverFacts(st: Store, k: nat, m: nat, reply: Outcome, now: int, left: nat)
    requires k < |st.campaigns| && m < |st.messages|
    ensures var t := Deliver(st, k, m, reply, now, left);
            && |t.store.campaigns| == |st.campaigns|
            && (forall i :: 0 <= i < |st.campaigns| && i != k ==> t.store.campaigns[i] == st.campaigns[i])
            && (t.store.messages == st.messages || t.store.messages == st.messages[m := Settle(st.messages[m], reply, now)])
            && (t.ok ==> t.store.messages == st.messages[m := Settle(st.messages[m], reply, now)] && t.left == left - 2)
            && (t.ok <==> left >= 2 && !(reply.Accepted? && IdTaken(st.messages, m, reply.id)))
            && var c, d := st.campaigns[k], t.store.campaigns[k];
               && d == c.(sentCount := d.sentCount, failedCount := d.failedCount)
               && d.sentCount == c.sentCount + (if t.ok && reply.Accepted? then 1 else 0)
               && d.failedCount == c.failedCount + (if t.ok && reply.Refused? then 1 else 0)
  {
  }

  /** When the row was pending and its campaign is `k`, a turn keeps the store valid. */
  lemma DeliverKeepsValid(st: Store, k: nat, m: nat, reply: Outcome, now: int, left: nat)
    requires StoreValid(st) && k < |st.campaigns| && m < |st.messages|
    requires st.messages[m].status == Queued && st.messages[m].campaignId == st.campaigns[k].id
    ensures StoreValid(Deliver(st, k, m, reply, now, left).store)
  {
    var x := Settle(st.messages[m], reply, now);
    var t := st.(messages := st.messages[m := x]);
    if left >= 1 && !(reply.Accepted? && IdTaken(st.messages, m, reply.id)) {
      SettleKeepsValid(st, k, m, x);
      if left >= 2 {
        BumpKeepsValid(t, k);
      }
      match reply {
        case Accepted(id) => assert MarkSent(st, m, id, now) == t;
        case Refused(error) => assert MarkFailed(st, m, error) == t;
      }
    }
  }

  // ---- the batch loop -----------------------------------------------------

  /**
   * The first `p` messages of the batch from `j` on are settled as their
   * replies say, and every other message is as it was.
   */
  predicate Applied(before: seq<Message>, after: seq<Message>, batch: seq<nat>, replies: seq<Outcome>,
                    j: nat, p: nat, now: int)
    requires j <= p <= |batch| <= |replies| && InRange(batch, |before|)
  {
    && |after| == |before|
    && (forall t :: j <= t < p ==> after[batch[t]] == Settle(before[batch[t]], replies[t], now))
    && (forall m :: 0 <= m < |before| && m !in batch[j..p] ==> after[m] == before[m])
  }

  /** How many of `replies[j..n]` are successes. */
  function Accepts(replies: seq<Outcome>, j: nat, n: nat): nat
    requires j <= n <= |replies|
    decreases n - j
  {
    if j == n then 0 else (if replies[j].Accepted? then 1 else 0) + Accepts(replies, j + 1, n)
  }

  /**
   * The loop settles a prefix of the batch and nothing else. Only campaign
   * `k`'s counters move, each only upward, together by at most one per
   * message; a batch that runs to the end settles every message and moves
   * the counters by exactly its successes and its failures.
   */
  lemma {:induction false} ProcessShape(st: Store, k: nat, batch: seq<nat>, j: nat, replies: seq<Outcome>,
                                        now: int, left: nat, done: seq<Delivery>)
    requires k < |st.campaigns| && j <= |batch| <= |replies| && InRange(batch, |st.messages|) && Increasing(batch)
    ensures var r := Process(st, k, batch, j, replies, now, left, done);
            var c, d := st.campaigns[k], r.store.campaigns[k];
            && (r.reply.Processed? || r.reply == WorkerError)
            && |r.store.campaigns| == |st.campaigns|
            && (forall i :: 0 <= i < |st.campaigns| && i != k ==> r.store.campaigns[i] == st.campaigns[i])
            && d == c.(sentCount := d.sentCount, failedCount := d.failedCount)
            && c.sentCount <= d.sentCount && c.failedCount <= d.failedCount
            && d.sentCount + d.failedCount <= c.sentCount + c.failedCount + (|batch| - j)
            && (exists p :: j <= p <= |batch| && Applied(st.messages, r.store.messages, batch, replies, j, p, now))
            && (r.reply.Processed? ==>
                  && Applied(st.messages, r.store.messages, batch, replies, j, |batch|, now)
                  && d.sentCount == c.sentCount + Accepts(replies, j, |batch|)
                  && d.sentCount + d.failedCount == c.sentCount + c.failedCount + (|batch| - j))
    decreases |batch| - j
  {
    var r := Process(st, k, batch, j, replies, now, left, done);
    if j == |batch| {
      assert Applied(st.messages, r.store.messages, batch, replies, j, j, now);
    } else {
      var m := batch[j];
      var t := Deliver(st, k, m, replies[j], now, left);
      DeliverFacts(st, k, m, replies[j], now, left);
      if !t.ok {
        if t.store.messages == st.messages {
          assert Applied(st.messages, r.store.messages, batch, replies, j, j, now);
        } else {
          assert batch[j..j + 1] == [m];
          assert Applied(st.messages, r.store.messages, batch, replies, j, j + 1, now);
        }
      } else {
        var done' := done + [Delivery(st.messages[m].phone, replies[j].Accepted?)];
        ProcessShape(t.store, k, batch, j + 1, replies, now, t.left, done');
        assert r == Process(t.store, k, batch, j + 1, replies, now, t.left, done');
        var p :| j + 1 <= p <= |batch| && Applied(t.store.messages, r.store.messages, batch, replies, j + 1, p, now);
        AppliedCons(st.messages, t.store.messages, r.store.messages, batch, replies, j, p, now);
        if r.reply.Processed? {
          AppliedCons(st.messages, t.store.messages, r.store.messages, batch, replies, j, |batch|, now);
        }
      }
    }
  }

  /** Settling `batch[j]` and then a prefix from `j + 1` settles a prefix from `j`. */
  lemma AppliedCons(before: seq<Message>, mid: seq<Message>, after: seq<Message>, batch: seq<nat>,
                    replies: seq<Outcome>, j: nat, p: nat, now: int)
    requires j < p <= |batch| <= |replies| && InRange(batch, |before|) && Increasing(batch)
    requires mid == before[batch[j] := Settle(before[batch[j]], replies[j], now)]
    requires Applied(mid, after, batch, replies, j + 1, p, now)
    ensures Applied(before, after, batch, replies, j, p, now)
  {
    forall t | j <= t < p
      ensures after[batch[t]] == Settle(before[batch[t]], replies[t], now)
    {
      if t > j {
        assert batch[j] < batch[t];
      } else {
        assert batch[j] !in batch[j + 1..p] by {
          forall u | j + 1 <= u < p ensures batch[u] != batch[j] { assert batch[j] < batch[u]; }
        }
      }
    }
    forall m | 0 <= m < |before| && m !in batch[j..p]
      ensures after[m] == before[m]
    {
      assert batch[j] in batch[j..p];
      assert m !in batch[j + 1..p] by {
        forall u | j + 1 <= u < p ensures batch[u] != m { assert batch[u] in batch[j..p]; }
      }
    }
  }

  /** The report lists the batch's phones in order, each with whether its send succeeded. */
  lemma {:induction false} ProcessReport(st: Store, k: nat, batch: seq<nat>, j: nat, replies: seq<Outcome>,
                                         now: int, left: nat, done: seq<Delivery>)
    requires k < |st.campaigns| && j <= |batch| <= |replies| && InRange(batch, |st.messages|) && Increasing(batch)
    ensures var r := Process(st, k, batch, j, replies, now, left, done);
            r.reply.Processed? ==>
              && |r.reply.results| == |done| + (|batch| - j)
              && r.reply.results[..|done|] == done
              && forall t :: j <= t < |batch| ==>
                   r.reply.results[|done| + (t - j)] == Delivery(st.messages[batch[t]].phone, replies[t].Accepted?)
    decreases |batch| - j
  {
    if j < |batch| {
      var m := batch[j];
      var t := Deliver(st, k, m, replies[j], now, left);
      DeliverFacts(st, k, m, replies[j], now, left);
      if t.ok {
        var done' := done + [Delivery(st.messages[m].phone, replies[j].Accepted?)];
        ProcessReport(t.store, k, batch, j + 1, replies, now, t.left, done');
        var r := Process(st, k, batch, j, replies, now, left, done);
        if r.reply.Processed? {
          assert r.reply.results[..|done'|] == done';
          assert r.reply.results[..|done|] == done'[..|done|];
          forall u | j + 1 <= u < |batch|
            ensures t.store.messages[batch[u]].phone == st.messages[batch[u]].phone
          {
            assert batch[j] < batch[u];
          }
        }
      }
    }
  }

  /** The loop keeps the store valid when every message it may touch is a pending one of campaign `k`. */
  lemma {:induction false} ProcessKeepsValid(st: Store, k: nat, batch: seq<nat>, j: nat, replies: seq<Outcome>,
                                             now: int, left: nat, done: seq<Delivery>)
    requires StoreValid(st) && k < |st.campaigns| && j <= |batch| <= |replies|
    requires InRange(batch, |st.messages|) && Increasing(batch)
    requires forall t :: j <= t < |batch| ==>
               st.messages[batch[t]].status == Queued && st.messages[batch[t]].campaignId == st.campaigns[k].id
    ensures StoreValid(Process(st, k, batch, j, replies, now, left, done).store)
    decreases |batch| - j
  {
    if j < |batch| {
      var m := batch[j];
      var t := Deliver(st, k, m, replies[j], now, left);
      DeliverFacts(st, k, m, replies[j], now, left);
      DeliverKeepsValid(st, k, m, replies[j], now, left);
      if t.ok {
        forall u | j + 1 <= u < |batch|
          ensures t.store.messages[batch[u]] == st.messages[batch[u]]
        {
          assert batch[j] < batch[u];
        }
        ProcessKeepsValid(t.store, k, batch, j + 1, replies, now, t.left,
                          done + [Delivery(st.messages[m].phone, replies[j].Accepted?)]);
      }
    }
  }

  /** A batch that runs to the end settles all its messages: the campaign's queue shrinks by the batch. */
  lemma {:induction false} ProcessDrains(st: Store, k: nat, batch: seq<nat>, j: nat, replies: seq<Outcome>,
                                         now: int, left: nat, done: seq<Delivery>)
    requires k < |st.campaigns| && j <= |batch| <= |replies| && InRange(batch, |st.messages|) && Increasing(batch)
    requires forall t :: j <= t < |batch| ==>
               st.messages[batch[t]].status == Queued && st.messages[batch[t]].campaignId == st.campaigns[k].id
    ensures var r := Process(st, k, batch, j, replies, now, left, done);
            var cid := st.campaigns[k].id;
            r.reply.Processed? ==>
              && Count(r.store.messages, cid) == Count(st.messages, cid)
              && |Queue(r.store.messages, cid)| == |Queue(st.messages, cid)| - (|batch| - j)
    decreases |batch| - j
  {
    if j < |batch| {
      var m := batch[j];
      var t := Deliver(st, k, m, replies[j], now, left);
      DeliverFacts(st, k, m, replies[j], now, left);
      if t.ok {
        var cid := st.campaigns[k].id;
        SettleCounts(st.messages, m, Settle(st.messages[m], replies[j], now), cid);
        forall u | j + 1 <= u < |batch|
          ensures t.store.messages[batch[u]] == st.messages[batch[u]]
        {
          assert batch[j] < batch[u];
        }
        assert t.store.campaigns[k].id == cid;
        ProcessDrains(t.store, k, batch, j + 1, replies, now, t.left,
                      done + [Delivery(st.messages[m].phone, replies[j].Accepted?)]);
      }
    }
  }

  // ---- the invocation -----------------------------------------------------

  /** The batch the step works on is the campaign's first pending messages, at most five. */
  lemma BatchFacts(msgs: seq<Message>, cid: string)
    ensures var b := Batch(msgs, cid);
            && InRange(b, |msgs|) && Increasing(b) && |b| <= BatchSize
            && forall t :: 0 <= t < |b| ==> msgs[b[t]].status == Queued && msgs[b[t]].campaignId == cid
  {
  }

  /** A step that finds pending messages runs the batch loop on them. */
  lemma StepRunsBatch(st: Store, k: nat, now: int, replies: seq<Outcome>, okWrites: nat)
    requires k < |st.campaigns| && |replies| >= BatchSize
    requires !(st.campaigns[k].status == Pending && okWrites == 0)
    requires Batch(st.messages, st.campaigns[k].id) != []
    ensures StepAt(st, k, now, replies, okWrites)
            == Process(Opened(st, k), k, Batch(st.messages, st.campaigns[k].id), 0, replies, now,
                       WritesLeft(st.campaigns[k].status, okWrites), [])
  {
  }

  /** A step that processes a batch found one: the campaign was not blocked and had pending messages. */
  lemma ProcessedHadBatch(st: Store, k: nat, now: int, replies: seq<Outcome>, okWrites: nat)
    requires k < |st.campaigns| && |replies| >= BatchSize
    requires StepAt(st, k, now, replies, okWrites).reply.Processed?
    ensures !(st.campaigns[k].status == Pending && okWrites == 0)
    ensures Batch(st.messages, st.campaigns[k].id) != []
  {
  }

  /** A step changes only the selected campaign, and of it only the status and the counters. */
  lemma StepCampaignFrame(st: Store, k: nat, now: int, replies: seq<Outcome>, okWrites: nat)
    requires k < |st.campaigns| && |replies| >= BatchSize
    ensures var r := StepAt(st, k, now, replies, okWrites);
            var c, d := st.campaigns[k], r.store.campaigns[k];
            && (forall i :: 0 <= i < |st.campaigns| && i != k ==> r.store.campaigns[i] == st.campaigns[i])
            && d == c.(status := d.status, sentCount := d.sentCount, failedCount := d.failedCount)
  {
    var c := st.campaigns[k];
    if !(c.status == Pending && okWrites == 0) {
      var st1 := if c.status == Pending then WithStatus(st, k, Sending) else st;
      var left := if c.status == Pending then okWrites - 1 else okWrites;
      var b := Batch(st1.messages, c.id);
      BatchFacts(st1.messages, c.id);
      if b != [] {
        ProcessShape(st1, k, b, 0, replies, now, left, []);
      }
    }
  }

  /**
   * A step changes at most five messages, each a pending message of the
   * selected campaign, each settled as its reply says; a message already
   * 'sent' or 'failed' is never rewritten.
   */
  lemma StepMessageFrame(st: Store, k: nat, now: int, replies: seq<Outcome>, okWrites: nat)
    requires k < |st.campaigns| && |replies| >= BatchSize
    ensures var r := StepAt(st, k, now, replies, okWrites);
            var b := Batch(st.messages, st.campaigns[k].id);
            && |b| <= BatchSize
            && (forall m :: 0 <= m < |st.messages| && m !in b ==> r.store.messages[m] == st.messages[m])
            && (forall t :: 0 <= t < |b| ==>
                  && st.messages[b[t]].status == Queued && st.messages[b[t]].campaignId == st.campaigns[k].id
                  && (r.store.messages[b[t]] == st.messages[b[t]]
                      || r.store.messages[b[t]] == Settle(st.messages[b[t]], replies[t], now)))
  {
    var c := st.campaigns[k];
    var r := StepAt(st, k, now, replies, okWrites);
    var b := Batch(st.messages, c.id);
    BatchFacts(st.messages, c.id);
    if !(c.status == Pending && okWrites == 0) && b != [] {
      var st1 := Opened(st, k);
      var left := WritesLeft(c.status, okWrites);
      StepRunsBatch(st, k, now, replies, okWrites);
      ProcessShape(st1, k, b, 0, replies, now, left, []);
      var p :| 0 <= p <= |b| && Applied(st.messages, r.store.messages, b, replies, 0, p, now);
      AppliedFrame(st.messages, r.store.messages, b, replies, p, now);
    } else {
      StepWithoutBatch(st, k, now, replies, okWrites);
    }
  }

  /** A step that finds no batch to run writes no message. */
  lemma StepWithoutBatch(st: Store, k: nat, now: int, replies: seq<Outcome>, okWrites: nat)
    requires k < |st.campaigns| && |replies| >= BatchSize
    requires (st.campaigns[k].status == Pending && okWrites == 0) || Batch(st.messages, st.campaigns[k].id) == []
    ensures StepAt(st, k, now, replies, okWrites).store.messages == st.messages
  {
  }

  /** A settled prefix leaves the rest of the batch, and every message outside it, as it was. */
  lemma AppliedFrame(before: seq<Message>, after: seq<Message>, b: seq<nat>, replies: seq<Outcome>, p: nat, now: int)
    requires p <= |b| <= |replies| && InRange(b, |before|) && Increasing(b)
    requires Applied(before, after, b, replies, 0, p, now)
    ensures forall m :: 0 <= m < |before| && m !in b ==> after[m] == before[m]
    ensures forall t :: 0 <= t < |b| ==>
              after[b[t]] == before[b[t]] || after[b[t]] == Settle(before[b[t]], replies[t], now)
  {
    assert b[0..p] <= b;
    forall t | 0 <= t < |b|
      ensures after[b[t]] == before[b[t]] || after[b[t]] == Settle(before[b[t]], replies[t], now)
    {
      if t >= p {
        assert b[t] !in b[0..p] by {
          forall u | 0 <= u < p ensures b[u] != b[t] { assert b[u] < b[t]; }
        }
      }
    }
  }

  /** Corollary: 'sent' and 'failed' are final. */
  lemma SettledIsFinal(st: Store, k: nat, now: int, replies: seq<Outcome>, okWrites: nat, m: nat)
    requires k < |st.campaigns| && |replies| >= BatchSize && m < |st.messages| && st.messages[m].status != Queued
    ensures StepAt(st, k, now, replies, okWrites).store.messages[m] == st.messages[m]
  {
    StepMessageFrame(st, k, now, replies, okWrites);
  }

  lemma StatusPreservesQueue(st: Store, k: nat)
    requires k < |st.campaigns|
    ensures forall s :: WithStatus(st, k, s).messages == st.messages
  {
  }

  /**
   * The selected campaign leaves 'pending' before any message is touched:
   * whenever a step changed a message, the campaign is now 'sending'.
   */
  lemma SendingBeforeMessages(st: Store, k: nat, now: int, replies: seq<Outcome>, okWrites: nat)
    requires k < |st.campaigns| && |replies| >= BatchSize && Eligible(st.campaigns[k], now)
    ensures var r := StepAt(st, k, now, replies, okWrites);
            && (r.store.messages != st.messages ==> r.store.campaigns[k].status == Sending)
            && (r.reply != WorkerError ==> r.store.campaigns[k].status != Pending)
  {
    var c := st.campaigns[k];
    if !(c.status == Pending && okWrites == 0) {
      var st1 := if c.status == Pending then WithStatus(st, k, Sending) else st;
      var left := if c.status == Pending then okWrites - 1 else okWrites;
      var b := Batch(st1.messages, c.id);
      BatchFacts(st1.messages, c.id);
      if b != [] {
        ProcessShape(st1, k, b, 0, replies, now, left, []);
      }
    }
  }

  /**
   * A step completes the campaign exactly when it has no pending message left
   * (and the UPDATEs go through); completing changes its status and nothing
   * else, so completion always comes on a call that sends nothing.
   */
  lemma CompletesOnlyWhenEmpty(st: Store, k: nat, now: int, replies: seq<Outcome>, okWrites: nat)
    requires k < |st.campaigns| && |replies| >= BatchSize
    ensures var r := StepAt(st, k, now, replies, okWrites);
            var c := st.campaigns[k];
            && (r.reply == CampaignCompleted <==>
                  Queue(st.messages, c.id) == [] && okWrites >= (if c.status == Pending then 2 else 1))
            && (r.reply == CampaignCompleted ==>
                  r.store == st.(campaigns := st.campaigns[k := c.(status := Completed)]))
  {
    var c := st.campaigns[k];
    if !(c.status == Pending && okWrites == 0) {
      var st1 := if c.status == Pending then WithStatus(st, k, Sending) else st;
      var left := if c.status == Pending then okWrites - 1 else okWrites;
      var b := Batch(st1.messages, c.id);
      BatchFacts(st1.messages, c.id);
      if b != [] {
        ProcessShape(st1, k, b, 0, replies, now, left, []);
      }
    }
  }

  /**
   * A step that reports a batch processed it all: `sent_count` and
   * `failed_count` rise by its successes and its failures, so their sum
   * rises by `results.length`, which is the batch's size.
   */
  lemma ProcessedCounts(st: Store, k: nat, now: int, replies: seq<Outcome>, okWrites: nat)
    requires k < |st.campaigns| && |replies| >= BatchSize
    ensures var r := StepAt(st, k, now, replies, okWrites);
            var c, d := st.campaigns[k], r.store.campaigns[k];
            var b := Batch(st.messages, c.id);
            r.reply.Processed? ==>
              && 1 <= |r.reply.results| == |b| <= BatchSize
              && d.sentCount == c.sentCount + Accepts(replies, 0, |b|)
              && d.sentCount + d.failedCount == c.sentCount + c.failedCount + |r.reply.results|
  {
    var c := st.campaigns[k];
    if !(c.status == Pending && okWrites == 0) {
      var st1 := if c.status == Pending then WithStatus(st, k, Sending) else st;
      var left := if c.status == Pending then okWrites - 1 else okWrites;
      var b := Batch(st1.messages, c.id);
      BatchFacts(st1.messages, c.id);
      if b != [] {
        ProcessShape(st1, k, b, 0, replies, now, left, []);
        ProcessReport(st1, k, b, 0, replies, now, left, []);
      }
    }
  }

  /**
   * The report of a processed batch holds one entry per message, in order,
   * with its phone and whether its send succeeded, and every message of the
   * batch is settled as its reply says.
   */
  lemma ProcessedReport(st: Store, k: nat, now: int, replies: seq<Outcome>, okWrites: nat)
    requires k < |st.campaigns| && |replies| >= BatchSize
    ensures var r := StepAt(st, k, now, replies, okWrites);
            var b := Batch(st.messages, st.campaigns[k].id);
            r.reply.Processed? ==>
              && |r.reply.results| == |b|
              && forall t :: 0 <= t < |b| ==>
                   && r.store.messages[b[t]] == Settle(st.messages[b[t]], replies[t], now)
                   && r.reply.results[t] == Delivery(st.messages[b[t]].phone, replies[t].Accepted?)
  {
    var r := StepAt(st, k, now, replies, okWrites);
    if r.reply.Processed? {
      ProcessedHadBatch(st, k, now, replies, okWrites);
      var c := st.campaigns[k];
      var b := Batch(st.messages, c.id);
      var st1 := Opened(st, k);
      var left := WritesLeft(c.status, okWrites);
      StepRunsBatch(st, k, now, replies, okWrites);
      BatchFacts(st.messages, c.id);
      ProcessShape(st1, k, b, 0, replies, now, left, []);
      ProcessReportFromStart(st1, k, b, replies, now, left);
    }
  }

  /** The report of a full run from the first message, entry by entry. */
  lemma ProcessReportFromStart(st: Store, k: nat, batch: seq<nat>, replies: seq<Outcome>, now: int, left: nat)
    requires k < |st.campaigns| && |batch| <= |replies| && InRange(batch, |st.messages|) && Increasing(batch)
    ensures var r := Process(st, k, batch, 0, replies, now, left, []);
            r.reply.Processed? ==>
              && |r.reply.results| == |batch|
              && forall t :: 0 <= t < |batch| ==>
                   r.reply.results[t] == Delivery(st.messages[batch[t]].phone, replies[t].Accepted?)
  {
    var r := Process(st, k, batch, 0, replies, now, left, []);
    ProcessReport(st, k, batch, 0, replies, now, left, []);
    if r.reply.Processed? {
      forall t | 0 <= t < |batch|
        ensures r.reply.results[t] == Delivery(st.messages[batch[t]].phone, replies[t].Accepted?)
      {
        assert r.reply.results[0 + (t - 0)] == r.reply.results[t];
      }
    }
  }

  /**
   * A failing write ends the step but keeps what was written before it: the
   * settled messages are a prefix of the batch, and the counters rose by at
   * most one per settled message.
   */
  lemma AbortKeepsWrites(st: Store, k: nat, now: int, replies: seq<Outcome>, okWrites: nat)
    requires k < |st.campaigns| && |replies| >= BatchSize
    ensures var r := StepAt(st, k, now, replies, okWrites);
            var c, d := st.campaigns[k], r.store.campaigns[k];
            var b := Batch(st.messages, c.id);
            r.reply == WorkerError ==>
              exists p :: 0 <= p <= |b| && Applied(st.messages, r.store.messages, b, replies, 0, p, now)
                          && d.sentCount + d.failedCount <= c.sentCount + c.failedCount + p
  {
    var r := StepAt(st, k, now, replies, okWrites);
    var c := st.campaigns[k];
    var b := Batch(st.messages, c.id);
    BatchFacts(st.messages, c.id);
    if c.status == Pending && okWrites == 0 {
      assert Applied(st.messages, r.store.messages, b, replies, 0, 0, now);
    } else {
      var st1 := if c.status == Pending then WithStatus(st, k, Sending) else st;
      var left := if c.status == Pending then okWrites - 1 else okWrites;
      if b == [] {
        assert Applied(st.messages, r.store.messages, b, replies, 0, 0, now);
      } else {
        AbortPrefix(st1, k, b, 0, replies, now, left, []);
      }
    }
  }

  /** Inside the loop: an aborted run settled some prefix and counted each settled message at most once. */
  lemma {:induction false} AbortPrefix(st: Store, k: nat, batch: seq<nat>, j: nat, replies: seq<Outcome>,
                                       now: int, left: nat, done: seq<Delivery>)
    requires k < |st.campaigns| && j <= |batch| <= |replies| && InRange(batch, |st.messages|) && Increasing(batch)
    ensures var r := Process(st, k, batch, j, replies, now, left, done);
            var c, d := st.campaigns[k], r.store.campaigns[k];
            exists p :: j <= p <= |batch| && Applied(st.messages, r.store.messages, batch, replies, j, p, now)
                        && d.sentCount + d.failedCount <= c.sentCount + c.failedCount + (p - j)
    decreases |batch| - j
  {
    var r := Process(st, k, batch, j, replies, now, left, done);
    if j == |batch| {
      assert Applied(st.messages, r.store.messages, batch, replies, j, j, now);
    } else {
      var m := batch[j];
      var t := Deliver(st, k, m, replies[j], now, left);
      DeliverFacts(st, k, m, replies[j], now, left);
      if !t.ok {
        assert r.store == t.store;
        var c, d := st.campaigns[k], r.store.campaigns[k];
        assert d.sentCount + d.failedCount == c.sentCount + c.failedCount;
        if t.store.messages == st.messages {
          assert Applied(st.messages, r.store.messages, batch, replies, j, j, now);
          assert Process(st, k, batch, j, replies, now, left, done) == r;
        } else {
          assert batch[j..j + 1] == [m];
          assert Applied(st.messages, r.store.messages, batch, replies, j, j + 1, now);
          assert d.sentCount + d.failedCount <= c.sentCount + c.failedCount + (j + 1 - j);
        }
      } else {
        var done' := done + [Delivery(st.messages[m].phone, replies[j].Accepted?)];
        AbortPrefix(t.store, k, batch, j + 1, replies, now, t.left, done');
        var p :| j + 1 <= p <= |batch| && Applied(t.store.messages, r.store.messages, batch, replies, j + 1, p, now)
                 && r.store.campaigns[k].sentCount + r.store.campaigns[k].failedCount
                    <= t.store.campaigns[k].sentCount + t.store.campaigns[k].failedCount + (p - (j + 1));
        AppliedCons(st.messages, t.store.messages, r.store.messages, batch, replies, j, p, now);
      }
    }
  }

  /** Every step, whatever it meets, leaves a valid store valid. */
  lemma StepKeepsValid(st: Store, k: nat, now: int, replies: seq<Outcome>, okWrites: nat)
    requires StoreValid(st) && k < |st.campaigns| && |replies| >= BatchSize
    ensures StoreValid(StepAt(st, k, now, replies, okWrites).store)
  {
    var c := st.campaigns[k];
    if !(c.status == Pending && okWrites == 0) {
      var st1 := if c.status == Pending then WithStatus(st, k, Sending) else st;
      var left := if c.status == Pending then okWrites - 1 else okWrites;
      if c.status == Pending {
        StatusKeepsValid(st, k, Sending);
      }
      var b := Batch(st1.messages, c.id);
      BatchFacts(st1.messages, c.id);
      if b == [] {
        StatusKeepsValid(st1, k, Completed);
      } else {
        ProcessKeepsValid(st1, k, b, 0, replies, now, left, []);
      }
    }
  }

  /**
   * With the invariant kept by campaign creation and by every step, no
   * campaign ever counts more sent and failed messages than it announced.
   */
  lemma StepWithinTotal(st: Store, k: nat, now: int, replies: seq<Outcome>, okWrites: nat, i: nat)
    requires StoreValid(st) && k < |st.campaigns| && |replies| >= BatchSize && i < |st.campaigns|
    ensures var d := StepAt(st, k, now, replies, okWrites).store.campaigns[i];
            d.sentCount + d.failedCount <= d.total
  {
    StepKeepsValid(st, k, now, replies, okWrites);
    CountersWithinTotal(StepAt(st, k, now, replies, okWrites).store, i);
  }

  // ---- draining a campaign ------------------------------------------------

  /** Enough successful UPDATEs for a whole step: the status change and two per message. */
  const Ample: nat := 1 + 2 * BatchSize

  /**
   * The ids the provider returns for the t-th messages, j <= t < n, are
   * held by no message of the store and by no other of these replies.
   */
  predicate FreshIds(msgs: seq<Message>, replies: seq<Outcome>, j: nat, n: nat)
    requires j <= n <= |replies|
  {
    && (forall t, m :: j <= t < n && 0 <= m < |msgs| && replies[t].Accepted? ==> msgs[m].id != replies[t].id)
    && (forall t, u :: j <= t < u < n && replies[t].Accepted? && replies[u].Accepted? ==> replies[t].id != replies[u].id)
  }

  /**
   * Without database failures and with fresh provider ids, a step on a
   * campaign with pending messages processes min(5, pending) of them,
   * counts each success and each failure once, and leaves the campaign
   * 'sending' and still due; with none pending it completes the campaign.
   */
  lemma StepShrinks(st: Store, k: nat, now: int, replies: seq<Outcome>)
    requires k < |st.campaigns| && Eligible(st.campaigns[k], now)
    requires |replies| >= BatchSize && FreshIds(st.messages, replies, 0, BatchSize)
    ensures var r := StepAt(st, k, now, replies, Ample);
            var c := st.campaigns[k];
            var n := |Queue(st.messages, c.id)|;
            && |r.store.campaigns| == |st.campaigns| && r.store.campaigns[k].id == c.id
            && (n == 0 ==> r.reply == CampaignCompleted)
            && (n > 0 ==> && r.reply.Processed?
                          && |r.reply.results| == (if n < BatchSize then n else BatchSize)
                          && (forall t :: 0 <= t < |r.reply.results| ==> r.reply.results[t].success == replies[t].Accepted?)
                          && r.store.campaigns[k].sentCount == c.sentCount + Accepts(replies, 0, |r.reply.results|)
                          && r.store.campaigns[k].sentCount + r.store.campaigns[k].failedCount
                             == c.sentCount + c.failedCount + |r.reply.results|
                          && |Queue(r.store.messages, c.id)| == n - |r.reply.results|
                          && r.store.campaigns[k].status == Sending
                          && Eligible(r.store.campaigns[k], now))
  {
    var c := st.campaigns[k];
    var b := Batch(st.messages, c.id);
    BatchFacts(st.messages, c.id);
    if b != [] {
      StepRunsBatch(st, k, now, replies, Ample);
      FullBatch(Opened(st, k), k, b, replies, now, WritesLeft(c.status, Ample));
    }
  }

  /** The batch loop run from the start with ample writes and fresh ids reports and counts the whole batch. */
  lemma FullBatch(st: Store, k: nat, b: seq<nat>, replies: seq<Outcome>, now: int, left: nat)
    requires k < |st.campaigns| && |b| <= BatchSize <= |replies| && InRange(b, |st.messages|) && Increasing(b)
    requires left >= 2 * |b| && FreshIds(st.messages, replies, 0, BatchSize)
    requires forall t :: 0 <= t < |b| ==>
               st.messages[b[t]].status == Queued && st.messages[b[t]].campaignId == st.campaigns[k].id
    ensures var r := Process(st, k, b, 0, replies, now, left, []);
            var c, d := st.campaigns[k], r.store.campaigns[k];
            && r.reply.Processed? && |r.reply.results| == |b|
            && (forall t :: 0 <= t < |b| ==> r.reply.results[t].success == replies[t].Accepted?)
            && d == c.(sentCount := d.sentCount, failedCount := d.failedCount)
            && d.sentCount == c.sentCount + Accepts(replies, 0, |b|)
            && d.sentCount + d.failedCount == c.sentCount + c.failedCount + |b|
            && |Queue(r.store.messages, c.id)| == |Queue(st.messages, c.id)| - |b|
  {
    assert FreshIds(st.messages, replies, 0, |b|);
    RunsThrough(st, k, b, 0, replies, now, left, []);
    ProcessShape(st, k, b, 0, replies, now, left, []);
    ProcessReport(st, k, b, 0, replies, now, left, []);
    ProcessDrains(st, k, b, 0, replies, now, left, []);
  }

  /** With enough writes and fresh provider ids, the loop never aborts. */
  lemma {:induction false} RunsThrough(st: Store, k: nat, batch: seq<nat>, j: nat, replies: seq<Outcome>, now: int,
                                       left: nat, done: seq<Delivery>)
    requires k < |st.campaigns| && j <= |batch| <= |replies| && InRange(batch, |st.messages|)
    requires left >= 2 * (|batch| - j) && FreshIds(st.messages, replies, j, |batch|)
    ensures Process(st, k, batch, j, replies, now, left, done).reply.Processed?
    decreases |batch| - j
  {
    if j < |batch| {
      var m := batch[j];
      var t := Deliver(st, k, m, replies[j], now, left);
      DeliverFacts(st, k, m, replies[j], now, left);
      FreshAfterSettle(st.messages, m, replies, j, |batch|, now);
      RunsThrough(t.store, k, batch, j + 1, replies, now, t.left,
                  done + [Delivery(st.messages[m].phone, replies[j].Accepted?)]);
    }
  }

  /** A fresh reply is not taken, and settling with it keeps the later replies fresh. */
  lemma FreshAfterSettle(msgs: seq<Message>, m: nat, replies: seq<Outcome>, j: nat, n: nat, now: int)
    requires m < |msgs| && j < n <= |replies| && FreshIds(msgs, replies, j, n)
    ensures replies[j].Accepted? ==> !IdTaken(msgs, m, replies[j].id)
    ensures FreshIds(msgs[m := Settle(msgs[m], replies[j], now)], replies, j + 1, n)
  {
    var after := msgs[m := Settle(msgs[m], replies[j], now)];
    forall t, i | j + 1 <= t < n && 0 <= i < |after| && replies[t].Accepted?
      ensures after[i].id != replies[t].id
    {
      if i != m || replies[j].Refused? {
        assert after[i].id == msgs[i].id;
      }
    }
  }

  /** The batch sizes of successive calls on a campaign with n pending messages. */
  function BatchPlan(n: nat): seq<nat>
    decreases n
  {
    if n == 0 then [] else
      var size := if n < BatchSize then n else BatchSize;
      [size] + BatchPlan(n - size)
  }

  function Sum(s: seq<nat>): nat {
    if s == [] then 0 else s[0] + Sum(s[1..])
  }

  /** ceil(n/5) calls; all but the last one take a full batch of 5; together they take all n. */
  lemma {:induction false} BatchPlanShape(n: nat)
    ensures var plan := BatchPlan(n);
            && |plan| == (n + BatchSize - 1) / BatchSize
            && Sum(plan) == n
            && forall t :: 0 <= t < |plan| ==> 1 <= plan[t] <= BatchSize && (t < |plan| - 1 ==> plan[t] == BatchSize)
    decreases n
  {
    if n > 0 {
      var size := if n < BatchSize then n else BatchSize;
      BatchPlanShape(n - size);
      var plan := BatchPlan(n);
      assert plan[1..] == BatchPlan(n - size);
    }
  }

  /** Twelve pending messages are sent as 5, 5 and 2. */
  lemma TwelveInThreeBatches()
    ensures BatchPlan(12) == [5, 5, 2]
  {
    assert BatchPlan(2) == [2] by { assert BatchPlan(0) == []; }
    assert BatchPlan(7) == [5] + BatchPlan(2);
  }

  /** No id that `replies` issues is issued again by any of the `later` calls. */
  predicate Apart(replies: seq<Outcome>, later: seq<seq<Outcome>>) {
    forall i, t, u ::
      0 <= i < |later| && 0 <= t < |replies| && 0 <= u < |later[i]| && replies[t].Accepted? && later[i][u].Accepted?
      ==> replies[t].id != later[i][u].id
  }

  /**
   * Ids fresh across a sequence of calls: no id the provider returns in any
   * of them is held by a message of the store, and no two replies share one.
   */
  predicate FreshStream(msgs: seq<Message>, calls: seq<seq<Outcome>>)
    decreases |calls|
  {
    || calls == []
    || (FreshIds(msgs, calls[0], 0, |calls[0]|) && Apart(calls[0], calls[1..]) && FreshStream(msgs, calls[1..]))
  }

  /**
   * The replies of successive calls that keep hitting campaign `k` (the
   * only due campaign, say) while the database does not fail; `calls[i]`
   * is what the provider answers in the i-th call. The run ends with the
   * first call that does not process a batch, or when the calls run out.
   */
  function Drain(st: Store, k: nat, now: int, calls: seq<seq<Outcome>>): seq<Reply>
    requires k < |st.campaigns| && forall i :: 0 <= i < |calls| ==> |calls[i]| >= BatchSize
    decreases |calls|
  {
    if calls == [] then []
    else
      var r := StepAt(st, k, now, calls[0], Ample);
      if r.reply.Processed? then [r.reply] + Drain(r.store, k, now, calls[1..]) else [r.reply]
  }

  /** One reply per batch of the plan, each the size of its batch, and then "completed". */
  predicate FollowsPlan(replies: seq<Reply>, plan: seq<nat>) {
    && |replies| == |plan| + 1
    && replies[|plan|] == CampaignCompleted
    && forall t :: 0 <= t < |plan| ==> replies[t].Processed? && |replies[t].results| == plan[t]
  }

  /**
   * Draining a campaign with n pending messages, given ceil(n/5) + 1 calls
   * or more whose provider ids are fresh, takes the calls of `BatchPlan(n)`,
   * each reporting its batch, and then one more call that reports the
   * campaign completed.
   */
  lemma {:induction false} DrainFollowsPlan(st: Store, k: nat, now: int, calls: seq<seq<Outcome>>)
    requires k < |st.campaigns| && Eligible(st.campaigns[k], now)
    requires forall i :: 0 <= i < |calls| ==> |calls[i]| >= BatchSize
    requires |calls| > (|Queue(st.messages, st.campaigns[k].id)| + BatchSize - 1) / BatchSize
    requires FreshStream(st.messages, calls)
    ensures FollowsPlan(Drain(st, k, now, calls), BatchPlan(|Queue(st.messages, st.campaigns[k].id)|))
    decreases |calls|
  {
    var n := |Queue(st.messages, st.campaigns[k].id)|;
    DrainStep(st, k, now, calls);
    if n > 0 {
      var r := StepAt(st, k, now, calls[0], Ample);
      DrainFollowsPlan(r.store, k, now, calls[1..]);
      PlanStep(r.reply, Drain(r.store, k, now, calls[1..]), n, |Queue(r.store.messages, r.store.campaigns[k].id)|);
    }
  }

  /** No campaign other than k is due. */
  predicate OnlyDue(cs: seq<Campaign>, k: nat, now: int) {
    k < |cs| && forall i :: 0 <= i < |cs| && i != k ==> !Eligible(cs[i], now)
  }

  /**
   * When k is the only due campaign, the campaign query can return only k,
   * and after a call on k no other campaign has become due; so successive
   * `Work` calls keep picking k while it stays due, which makes `Drain` the
   * run of the handler itself.
   */
  lemma OnlyDueCampaign(st: Store, k: nat, now: int, replies: seq<Outcome>, okWrites: nat)
    requires |replies| >= BatchSize && OnlyDue(st.campaigns, k, now) && Eligible(st.campaigns[k], now)
    ensures AnyEligible(st.campaigns, now)
    ensures forall p :: 0 <= p < |st.campaigns| && Eligible(st.campaigns[p], now) ==> p == k
    ensures OnlyDue(StepAt(st, k, now, replies, okWrites).store.campaigns, k, now)
  {
    StepCampaignFrame(st, k, now, replies, okWrites);
  }

  /** A processed call followed by a run that follows the plan for what it left follows the plan for n. */
  lemma PlanStep(head: Reply, rest: seq<Reply>, n: nat, m: nat)
    requires n > 0 && head.Processed? && |head.results| == (if n < BatchSize then n else BatchSize)
    requires m == n - |head.results| && FollowsPlan(rest, BatchPlan(m))
    ensures FollowsPlan([head] + rest, BatchPlan(n))
  {
    assert BatchPlan(n) == [|head.results|] + BatchPlan(m);
    PlanCons(head, rest, |head.results|, BatchPlan(m));
  }

  /**
   * The first call of a drain: it completes a campaign without pending
   * messages, and otherwise processes a batch and leaves the campaign due,
   * its queue shorter by the batch, and the later calls' ids fresh.
   */
  lemma DrainStep(st: Store, k: nat, now: int, calls: seq<seq<Outcome>>)
    requires k < |st.campaigns| && Eligible(st.campaigns[k], now)
    requires calls != [] && forall i :: 0 <= i < |calls| ==> |calls[i]| >= BatchSize
    requires FreshStream(st.messages, calls)
    ensures var r := StepAt(st, k, now, calls[0], Ample);
            var n := |Queue(st.messages, st.campaigns[k].id)|;
            && (n == 0 ==> Drain(st, k, now, calls) == [CampaignCompleted])
            && (n > 0 ==> && r.reply.Processed? && |r.reply.results| == (if n < BatchSize then n else BatchSize)
                          && Drain(st, k, now, calls) == [r.reply] + Drain(r.store, k, now, calls[1..])
                          && k < |r.store.campaigns| && Eligible(r.store.campaigns[k], now)
                          && |Queue(r.store.messages, r.store.campaigns[k].id)| == n - |r.reply.results|
                          && (n - |r.reply.results| + BatchSize - 1) / BatchSize == (n + BatchSize - 1) / BatchSize - 1
                          && FreshStream(r.store.messages, calls[1..]))
  {
    FreshHead(st.messages, calls);
    StepShrinks(st, k, now, calls[0]);
    var r := StepAt(st, k, now, calls[0], Ample);
    if r.reply.Processed? {
      StepIds(st, k, now, calls[0], Ample);
      StreamAfterStep(st.messages, r.store.messages, calls[0], calls[1..]);
    }
  }

  /** Fresh ids across the calls are fresh for the first call. */
  lemma FreshHead(msgs: seq<Message>, calls: seq<seq<Outcome>>)
    requires calls != [] && |calls[0]| >= BatchSize && FreshStream(msgs, calls)
    ensures FreshIds(msgs, calls[0], 0, BatchSize)
  {
    assert FreshIds(msgs, calls[0], 0, |calls[0]|);
  }

  /** Every message keeps its id or takes one that `replies` issues. */
  predicate IdsFrom(before: seq<Message>, after: seq<Message>, replies: seq<Outcome>) {
    && |after| == |before|
    && forall m :: 0 <= m < |before| ==>
         || after[m].id == before[m].id
         || exists t :: 0 <= t < |replies| && replies[t].Accepted? && after[m].id == replies[t].id
  }

  /** After a step every message keeps its id or carries one the provider returned in that step. */
  lemma StepIds(st: Store, k: nat, now: int, replies: seq<Outcome>, okWrites: nat)
    requires k < |st.campaigns| && |replies| >= BatchSize
    ensures IdsFrom(st.messages, StepAt(st, k, now, replies, okWrites).store.messages, replies)
  {
    var r := StepAt(st, k, now, replies, okWrites);
    var b := Batch(st.messages, st.campaigns[k].id);
    StepMessageFrame(st, k, now, replies, okWrites);
    forall m | 0 <= m < |st.messages| && r.store.messages[m].id != st.messages[m].id
      ensures exists t :: 0 <= t < |replies| && replies[t].Accepted? && r.store.messages[m].id == replies[t].id
    {
      var t :| 0 <= t < |b| && b[t] == m;
      assert r.store.messages[m] == Settle(st.messages[m], replies[t], now);
    }
  }

  /** Later calls whose ids were fresh, and apart from the ids a step issued, stay fresh after it. */
  lemma {:induction false} StreamAfterStep(before: seq<Message>, after: seq<Message>, first: seq<Outcome>,
                                           later: seq<seq<Outcome>>)
    requires IdsFrom(before, after, first) && Apart(first, later) && FreshStream(before, later)
    ensures FreshStream(after, later)
    decreases |later|
  {
    if later != [] {
      forall t, m | 0 <= t < |later[0]| && 0 <= m < |after| && later[0][t].Accepted?
        ensures after[m].id != later[0][t].id
      {
        if after[m].id != before[m].id {
          var u :| 0 <= u < |first| && first[u].Accepted? && after[m].id == first[u].id;
        }
      }
      forall i, t, u | 0 <= i < |later[1..]| && 0 <= t < |first| && 0 <= u < |later[1..][i]|
        && first[t].Accepted? && later[1..][i][u].Accepted?
        ensures first[t].id != later[1..][i][u].id
      {
        assert later[1..][i] == later[i + 1];
      }
      StreamAfterStep(before, after, first, later[1..]);
    }
  }

  /** One more processed call in front of a run that follows a plan follows the longer plan. */
  lemma PlanCons(head: Reply, rest: seq<Reply>, size: nat, later: seq<nat>)
    requires head.Processed? && |head.results| == size && FollowsPlan(rest, later)
    ensures FollowsPlan([head] + rest, [size] + later)
  {
    var calls, plan := [head] + rest, [size] + later;
    forall t | 0 <= t < |plan|
      ensures calls[t].Processed? && |calls[t].results| == plan[t]
    {
      if t > 0 {
        assert calls[t] == rest[t - 1] && plan[t] == later[t - 1];
      }
    }
  }

  // ---- the handler --------------------------------------------------------

  /**
   * `handler` (api/worker.js:4-82) against the in-memory database. `picked`
   * is the campaign the query returned, which the SQL leaves to the database
   * to choose among the due ones. `readsOk` is false when `db.connect()` or
   * the campaign SELECT throws (api/worker.js:9-17), which the catch block
   * answers with a 500 before anything is written.
   */
  method Work(db: Database, now: int, replies: seq<Outcome>, okWrites: nat, readsOk: bool)
    returns (reply: Reply, picked: Option<nat>)
    requires |replies| >= BatchSize
    modifies db
    ensures !readsOk ==> reply == WorkerError && picked.None? && db.State() == old(db.State())
    ensures readsOk ==> (picked.None? <==> !AnyEligible(old(db.campaigns), now))
    ensures readsOk && picked.None? ==> reply == NoActive && db.State() == old(db.State())
    ensures picked.Some? ==>
              && picked.value < |old(db.campaigns)| && Eligible(old(db.campaigns)[picked.value], now)
              && StepResult(db.State(), reply) == StepAt(old(db.State()), picked.value, now, replies, okWrites)
  {
    if !readsOk {
      return WorkerError, None;
    }
    if !AnyEligible(db.campaigns, now) {
      return NoActive, None;
    }
    var k :| 0 <= k < |db.campaigns| && Eligible(db.campaigns[k], now);
    reply := Serve(db, k, now, replies, okWrites);
    picked := Some(k);
  }

  /** The handler from the selected campaign on (api/worker.js:23-77). */
  method Serve(db: Database, k: nat, now: int, replies: seq<Outcome>, okWrites: nat) returns (reply: Reply)
    requires k < |db.campaigns| && |replies| >= BatchSize
    modifies db
    ensures StepResult(db.State(), reply) == StepAt(old(db.State()), k, now, replies, okWrites)
  {
    ghost var st := db.State();
    var c := db.campaigns[k];
    var left := okWrites;
    if c.status == Pending {
      if left == 0 {
        return WorkerError;
      }
      db.SetStatus(k, Sending);
      left := left - 1;
    }
    assert db.State() == Opened(st, k) && left == WritesLeft(c.status, okWrites);
    var batch := Batch(db.messages, c.id);
    if batch == [] {
      if left == 0 {
        return WorkerError;
      }
      db.SetStatus(k, Completed);
      return CampaignCompleted;
    }
    BatchFacts(db.messages, c.id);
    StepRunsBatch(st, k, now, replies, okWrites);
    reply := SendBatch(db, k, batch, replies, now, left);
  }

  /** The loop over the batch (api/worker.js:47-77). */
  method SendBatch(db: Database, k: nat, batch: seq<nat>, replies: seq<Outcome>, now: int, left: nat)
    returns (reply: Reply)
    requires k < |db.campaigns| && |batch| <= |replies| && InRange(batch, |db.messages|)
    modifies db
    ensures StepResult(db.State(), reply) == Process(old(db.State()), k, batch, 0, replies, now, left, [])
  {
    ghost var goal := Process(db.State(), k, batch, 0, replies, now, left, []);
    var results: seq<Delivery> := [];
    var budget := left;
    var j := 0;
    while j < |batch|
      invariant j <= |batch| && k < |db.campaigns| && |db.messages| == |old(db.messages)|
      invariant Process(db.State(), k, batch, j, replies, now, budget, results) == goal
    {
      var phone := db.messages[batch[j]].phone;
      var ok;
      ok, budget := SendOne(db, k, batch[j], replies[j], now, budget);
      if !ok {
        return WorkerError;
      }
      results := results + [Delivery(phone, replies[j].Accepted?)];
      j := j + 1;
    }
    return Processed(results);
  }

  /** One message: the provider call's reply, then the message UPDATE and the counter UPDATE. */
  method SendOne(db: Database, k: nat, m: nat, reply: Outcome, now: int, left: nat) returns (ok: bool, rest: nat)
    requires k < |db.campaigns| && m < |db.messages|
    modifies db
    ensures Turn(db.State(), ok, rest) == Deliver(old(db.State()), k, m, reply, now, left)
  {
    match reply {
      case Accepted(id) =>
        if left == 0 || IdTaken(db.messages, m, id) {
          return false, 0;
        }
        db.SetSent(m, id, now);
        if left == 1 {
          return false, 0;
        }
        db.BumpSent(k);
      case Refused(error) =>
        if left == 0 {
          return false, 0;
        }
        db.SetFailed(m, error);
        if left == 1 {
          return false, 0;
        }
        db.BumpFailed(k);
    }
    return true, left - 2;
  }
}
