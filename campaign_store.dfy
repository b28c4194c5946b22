/**
 * The two tables the serverless API works on (api/init-db.js), held in
 * memory: campaigns and messages as sequences of records in insertion
 * order, the writes the handlers issue as functions on a `Store` value, and
 * the invariant those writes keep. Timestamps are integers.
 */
module CampaignStore {
  import opened Wrappers

  /** `campaigns.status`: 'pending', 'sending', 'completed' or 'paused'. */
  datatype CampaignStatus = Pending | Sending | Completed | Paused

  /** `messages.status`: 'pending' (here `Queued`), 'sent' or 'failed'. */
  datatype MessageStatus = Queued | Sent | Failed

  datatype Campaign = Campaign(
    id: string, name: string, template: string, providerType: string, providerConfig: string,
    status: CampaignStatus, total: nat, sentCount: nat, failedCount: nat, scheduledAt: int)

  datatype Message = Message(
    id: string, campaignId: string, phone: string, content: string,
    status: MessageStatus, errorMessage: Option<string>, sentAt: Option<int>)

  datatype Store = Store(campaigns: seq<Campaign>, messages: seq<Message>)

  // ---- counting a campaign's messages ---------------------------------------

  /** The messages that belong to campaign `cid`. */
  function Count(msgs: seq<Message>, cid: string): nat {
    if msgs == [] then 0
    else Count(msgs[..|msgs| - 1], cid) + (if msgs[|msgs| - 1].campaignId == cid then 1 else 0)
  }

  /** Those of them that reached 'sent' or 'failed'. */
  function Settled(msgs: seq<Message>, cid: string): nat {
    if msgs == [] then 0
    else Settled(msgs[..|msgs| - 1], cid)
         + (if msgs[|msgs| - 1].campaignId == cid && msgs[|msgs| - 1].status != Queued then 1 else 0)
  }

  /**
   * The positions of campaign `cid`'s 'pending' messages, in store order: the
   * rows `WHERE campaign_id = cid AND status = 'pending'` hands back.
   */
  function Queue(msgs: seq<Message>, cid: string): (q: seq<nat>)
    ensures forall t :: 0 <= t < |q| ==> q[t] < |msgs| && msgs[q[t]].campaignId == cid && msgs[q[t]].status == Queued
    ensures forall t, u :: 0 <= t < u < |q| ==> q[t] < q[u]
    ensures forall m :: 0 <= m < |msgs| && msgs[m].campaignId == cid && msgs[m].status == Queued ==> m in q
  {
    if msgs == [] then []
    else
      var last := |msgs| - 1;
      Queue(msgs[..last], cid) + (if msgs[last].campaignId == cid && msgs[last].status == Queued then [last] else [])
  }

  /** Every message of a campaign is either still pending or settled. */
  lemma {:induction false} CountSplit(msgs: seq<Message>, cid: string)
    ensures Count(msgs, cid) == |Queue(msgs, cid)| + Settled(msgs, cid)
  {
    if msgs != [] {
      CountSplit(msgs[..|msgs| - 1], cid);
    }
  }

  /** Appending a message of another campaign, or any appended message, as counted. */
  lemma AppendCounts(msgs: seq<Message>, x: Message, cid: string)
    ensures Count(msgs + [x], cid) == Count(msgs, cid) + (if x.campaignId == cid then 1 else 0)
    ensures Settled(msgs + [x], cid) == Settled(msgs, cid) + (if x.campaignId == cid && x.status != Queued then 1 else 0)
  {
    assert (msgs + [x])[..|msgs|] == msgs;
  }

  /**
   * Settling one pending message moves it, for its own campaign, from the
   * queue to the settled ones; no other campaign's counts move.
   */
  lemma {:induction false} SettleCounts(msgs: seq<Message>, m: nat, x: Message, cid: string)
    requires m < |msgs| && msgs[m].status == Queued && x.status != Queued && x.campaignId == msgs[m].campaignId
    ensures Count(msgs[m := x], cid) == Count(msgs, cid)
    ensures Settled(msgs[m := x], cid) == Settled(msgs, cid) + (if cid == x.campaignId then 1 else 0)
    ensures |Queue(msgs[m := x], cid)| == |Queue(msgs, cid)| - (if cid == x.campaignId then 1 else 0)
  {
    var last := |msgs| - 1;
    var upd := msgs[m := x];
    if m == last {
      assert upd[..last] == msgs[..last];
    } else {
      assert upd[..last] == msgs[..last][m := x];
      SettleCounts(msgs[..last], m, x, cid);
    }
  }

  // ---- the invariant the database keeps --------------------------------------

  function CampaignIds(cs: seq<Campaign>): (ids: seq<string>)
    ensures |ids| == |cs| && forall i :: 0 <= i < |cs| ==> ids[i] == cs[i].id
  {
    seq(|cs|, i requires 0 <= i < |cs| => cs[i].id)
  }

  predicate DistinctCampaigns(cs: seq<Campaign>) {
    forall i, j :: 0 <= i < j < |cs| ==> cs[i].id != cs[j].id
  }

  predicate DistinctMessages(msgs: seq<Message>) {
    forall i, j :: 0 <= i < j < |msgs| ==> msgs[i].id != msgs[j].id
  }

  /** Every message refers to a campaign of the store (the foreign key). */
  predicate Linked(cs: seq<Campaign>, msgs: seq<Message>) {
    forall m :: 0 <= m < |msgs| ==> msgs[m].campaignId in CampaignIds(cs)
  }

  /**
   * A campaign's counters never pass its settled messages, and it holds no
   * more messages than it announced.
   */
  predicate Balanced(c: Campaign, msgs: seq<Message>) {
    c.sentCount + c.failedCount <= Settled(msgs, c.id) && Count(msgs, c.id) <= c.total
  }

  predicate AllBalanced(cs: seq<Campaign>, msgs: seq<Message>) {
    forall i :: 0 <= i < |cs| ==> Balanced(cs[i], msgs)
  }

  /** Primary keys are unique, messages reference campaigns, counters are bounded. */
  predicate StoreValid(st: Store) {
    && DistinctCampaigns(st.campaigns) && DistinctMessages(st.messages)
    && Linked(st.campaigns, st.messages) && AllBalanced(st.campaigns, st.messages)
  }

  /** In a valid store, `sent_count + failed_count <= total_messages` for every campaign. */
  lemma CountersWithinTotal(st: Store, i: nat)
    requires StoreValid(st) && i < |st.campaigns|
    ensures st.campaigns[i].sentCount + st.campaigns[i].failedCount <= st.campaigns[i].total
  {
    assert Balanced(st.campaigns[i], st.messages);
    CountSplit(st.messages, st.campaigns[i].id);
  }

  // ---- the writes ------------------------------------------------------------

  /** `UPDATE campaigns SET status = s WHERE id = campaigns[k].id`. */
  function WithStatus(st: Store, k: nat, s: CampaignStatus): (t: Store)
    requires k < |st.campaigns|
    ensures t.messages == st.messages && |t.campaigns| == |st.campaigns|
    ensures t.campaigns[k] == st.campaigns[k].(status := s)
    ensures forall i :: 0 <= i < |st.campaigns| && i != k ==> t.campaigns[i] == st.campaigns[i]
  {
    st.(campaigns := st.campaigns[k := st.campaigns[k].(status := s)])
  }

  /** `UPDATE campaigns SET sent_count = sent_count + 1 WHERE id = campaigns[k].id`. */
  function CountSent(st: Store, k: nat): (t: Store)
    requires k < |st.campaigns|
    ensures t.messages == st.messages && |t.campaigns| == |st.campaigns|
    ensures t.campaigns[k] == st.campaigns[k].(sentCount := st.campaigns[k].sentCount + 1)
    ensures forall i :: 0 <= i < |st.campaigns| && i != k ==> t.campaigns[i] == st.campaigns[i]
  {
    st.(campaigns := st.campaigns[k := st.campaigns[k].(sentCount := st.campaigns[k].sentCount + 1)])
  }

  /** `UPDATE campaigns SET failed_count = failed_count + 1 WHERE id = campaigns[k].id`. */
  function CountFailed(st: Store, k: nat): (t: Store)
    requires k < |st.campaigns|
    ensures t.messages == st.messages && |t.campaigns| == |st.campaigns|
    ensures t.campaigns[k] == st.campaigns[k].(failedCount := st.campaigns[k].failedCount + 1)
    ensures forall i :: 0 <= i < |st.campaigns| && i != k ==> t.campaigns[i] == st.campaigns[i]
  {
    st.(campaigns := st.campaigns[k := st.campaigns[k].(failedCount := st.campaigns[k].failedCount + 1)])
  }

  /** Some message other than the one at `m` already has primary key `id`. */
  predicate IdTaken(msgs: seq<Message>, m: nat, id: string) {
    exists j :: 0 <= j < |msgs| && j != m && msgs[j].id == id
  }

  /** `UPDATE messages SET status = 'sent', sent_at = now, id = id WHERE id = messages[m].id`. */
  function MarkSent(st: Store, m: nat, id: string, now: int): (t: Store)
    requires m < |st.messages|
    ensures t.campaigns == st.campaigns && |t.messages| == |st.messages|
    ensures t.messages[m] == st.messages[m].(status := Sent, sentAt := Some(now), id := id)
    ensures forall j :: 0 <= j < |st.messages| && j != m ==> t.messages[j] == st.messages[j]
  {
    st.(messages := st.messages[m := st.messages[m].(status := Sent, sentAt := Some(now), id := id)])
  }

  /** `UPDATE messages SET status = 'failed', error_message = error WHERE id = messages[m].id`. */
  function MarkFailed(st: Store, m: nat, error: string): (t: Store)
    requires m < |st.messages|
    ensures t.campaigns == st.campaigns && |t.messages| == |st.messages|
    ensures t.messages[m] == st.messages[m].(status := Failed, errorMessage := Some(error))
    ensures forall j :: 0 <= j < |st.messages| && j != m ==> t.messages[j] == st.messages[j]
  {
    st.(messages := st.messages[m := st.messages[m].(status := Failed, errorMessage := Some(error))])
  }

  /** `INSERT INTO campaigns`: the new row goes last. */
  function AddCampaign(st: Store, c: Campaign): (t: Store)
    ensures t.messages == st.messages && t.campaigns == st.campaigns + [c]
  {
    st.(campaigns := st.campaigns + [c])
  }

  /** `INSERT INTO messages`: the new row goes last. */
  function AddMessage(st: Store, x: Message): (t: Store)
    ensures t.campaigns == st.campaigns && t.messages == st.messages + [x]
  {
    st.(messages := st.messages + [x])
  }

  // ---- the writes keep the invariant -----------------------------------------

  /** Changing a campaign's status keeps the store valid. */
  lemma StatusKeepsValid(st: Store, k: nat, s: CampaignStatus)
    requires StoreValid(st) && k < |st.campaigns|
    ensures StoreValid(WithStatus(st, k, s))
  {
    var t := WithStatus(st, k, s);
    assert CampaignIds(t.campaigns) == CampaignIds(st.campaigns);
    forall i | 0 <= i < |t.campaigns|
      ensures Balanced(t.campaigns[i], t.messages)
    {
      assert Balanced(st.campaigns[i], st.messages);
    }
  }

  /** Settling a pending message of campaign `k` keeps the store valid and leaves room in `k`'s counters. */
  lemma SettleKeepsValid(st: Store, k: nat, m: nat, x: Message)
    requires StoreValid(st) && k < |st.campaigns| && m < |st.messages|
    requires st.messages[m].status == Queued && st.messages[m].campaignId == st.campaigns[k].id
    requires x.status != Queued && x.campaignId == st.messages[m].campaignId
    requires x.id == st.messages[m].id || !IdTaken(st.messages, m, x.id)
    ensures var t := st.(messages := st.messages[m := x]);
            && StoreValid(t)
            && st.campaigns[k].sentCount + st.campaigns[k].failedCount < Settled(t.messages, st.campaigns[k].id)
  {
    var t := st.(messages := st.messages[m := x]);
    SettleKeepsKeys(st.messages, m, x);
    forall j | 0 <= j < |t.messages|
      ensures t.messages[j].campaignId in CampaignIds(t.campaigns)
    {
      assert st.messages[j].campaignId in CampaignIds(st.campaigns);
    }
    forall i | 0 <= i < |t.campaigns|
      ensures Balanced(t.campaigns[i], t.messages)
    {
      assert Balanced(st.campaigns[i], st.messages);
      SettleCounts(st.messages, m, x, t.campaigns[i].id);
    }
    assert Balanced(st.campaigns[k], st.messages);
    SettleCounts(st.messages, m, x, st.campaigns[k].id);
  }

  /** Giving the message at `m` a key no other message holds keeps message keys unique. */
  lemma SettleKeepsKeys(msgs: seq<Message>, m: nat, x: Message)
    requires DistinctMessages(msgs) && m < |msgs|
    requires x.id == msgs[m].id || !IdTaken(msgs, m, x.id)
    ensures DistinctMessages(msgs[m := x])
  {
    var upd := msgs[m := x];
    forall i, j | 0 <= i < j < |upd|
      ensures upd[i].id != upd[j].id
    {
      if i == m && x.id != msgs[m].id {
        assert !(j != m && msgs[j].id == x.id);
      } else if j == m && x.id != msgs[m].id {
        assert !(i != m && msgs[i].id == x.id);
      }
    }
  }

  /** With room in campaign `k`'s counters, bumping either of them keeps the store valid. */
  lemma BumpKeepsValid(t: Store, k: nat)
    requires StoreValid(t) && k < |t.campaigns|
    requires t.campaigns[k].sentCount + t.campaigns[k].failedCount < Settled(t.messages, t.campaigns[k].id)
    ensures StoreValid(CountSent(t, k)) && StoreValid(CountFailed(t, k))
  {
    var u, w := CountSent(t, k), CountFailed(t, k);
    assert CampaignIds(u.campaigns) == CampaignIds(t.campaigns);
    assert CampaignIds(w.campaigns) == CampaignIds(t.campaigns);
    forall i | 0 <= i < |t.campaigns|
      ensures Balanced(u.campaigns[i], u.messages) && Balanced(w.campaigns[i], w.messages)
    {
      assert Balanced(t.campaigns[i], t.messages);
    }
  }

  /**
   * The in-memory database: the two tables as fields that the handlers'
   * writes reassign.
   */
  class Database {
    var campaigns: seq<Campaign>
    var messages: seq<Message>

    function State(): Store
      reads this
    {
      Store(campaigns, messages)
    }

    /** A freshly initialised database has two empty tables. */
    constructor ()
      ensures State() == Store([], []) && StoreValid(State())
    {
      campaigns := [];
      messages := [];
    }

    method SetStatus(k: nat, s: CampaignStatus)
      requires k < |campaigns|
      modifies this
      ensures State() == WithStatus(old(State()), k, s)
    {
      campaigns := campaigns[k := campaigns[k].(status := s)];
    }

    method BumpSent(k: nat)
      requires k < |campaigns|
      modifies this
      ensures State() == CountSent(old(State()), k)
    {
      campaigns := campaigns[k := campaigns[k].(sentCount := campaigns[k].sentCount + 1)];
    }

    method BumpFailed(k: nat)
      requires k < |campaigns|
      modifies this
      ensures State() == CountFailed(old(State()), k)
    {
      campaigns := campaigns[k := campaigns[k].(failedCount := campaigns[k].failedCount + 1)];
    }

    method SetSent(m: nat, id: string, now: int)
      requires m < |messages|
      modifies this
      ensures State() == MarkSent(old(State()), m, id, now)
    {
      messages := messages[m := messages[m].(status := Sent, sentAt := Some(now), id := id)];
    }

    method SetFailed(m: nat, error: string)
      requires m < |messages|
      modifies this
      ensures State() == MarkFailed(old(State()), m, error)
    {
      messages := messages[m := messages[m].(status := Failed, errorMessage := Some(error))];
    }

    method InsertCampaign(c: Campaign)
      modifies this
      ensures State() == AddCampaign(old(State()), c)
    {
      campaigns := campaigns + [c];
    }

    method InsertMessage(x: Message)
      modifies this
      ensures State() == AddMessage(old(State()), x)
    {
      messages := messages + [x];
    }
  }
}
