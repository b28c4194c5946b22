/**
 * Creating a campaign (api/create-campaign.js:3-46): validate the request,
 * insert the campaign row, then insert one pending message row per entry of
 * `messages`, in order, without a transaction.
 *
 * A request field JavaScript would see as `undefined` is `None`. The keys
 * `gen_random_uuid()` hands out are parameters (`campaignId`, `messageIds`),
 * as is the current time `now`. Database failures are an oracle: `okWrites`
 * INSERTs succeed, the next one throws. An INSERT also throws when a
 * NOT NULL column would receive `undefined` (api/init-db.js:11-14, 29-30).
 */
module CampaignCreation {
  import opened Wrappers
  import opened CampaignStore

  /** One element of `request.body.messages`. */
  datatype Entry = Entry(to: Option<string>, content: Option<string>)

  /** The parts of the request the handler reads; `providerConfig` is its JSON text. */
  datatype Request = Request(
    verb: string, name: Option<string>, template: Option<string>, providerType: Option<string>,
    providerConfig: Option<string>, scheduledAt: Option<int>, messages: Option<seq<Entry>>)

  /** 405, 400, the 500 of the catch block, and the 200 carrying the new campaign's id. */
  datatype Response = NotAllowed | NoMessages | CreateError | Created(campaignId: string)

  datatype CreateResult = CreateResult(store: Store, response: Response)

  const Post: string := "POST"

  /** The NOT NULL columns of the campaign row all receive a value. */
  predicate CampaignComplete(req: Request) {
    req.name.Some? && req.template.Some? && req.providerType.Some? && req.providerConfig.Some?
  }

  predicate EntryComplete(e: Entry) {
    e.to.Some? && e.content.Some?
  }

  /**
   * The campaign row: status 'pending' and both counters 0 by the column
   * defaults, `total_messages` the number of entries, and `scheduled_at`
   * the supplied time when there is one and `now` otherwise.
   */
  function NewCampaign(req: Request, id: string, now: int, n: nat): (c: Campaign)
    requires CampaignComplete(req)
    ensures c.id == id && c.status == Pending && c.sentCount == 0 && c.failedCount == 0 && c.total == n
    ensures c.scheduledAt == (if req.scheduledAt.Some? then req.scheduledAt.value else now)
    ensures c.name == req.name.value && c.template == req.template.value
    ensures c.providerType == req.providerType.value && c.providerConfig == req.providerConfig.value
  {
    Campaign(id, req.name.value, req.template.value, req.providerType.value, req.providerConfig.value,
             Pending, n, 0, 0, req.scheduledAt.GetOr(now))
  }

  /** The message row for one entry: status 'pending', no error, not yet sent. */
  function NewMessage(cid: string, e: Entry, id: string): (x: Message)
    requires EntryComplete(e)
    ensures x.id == id && x.campaignId == cid && x.phone == e.to.value && x.content == e.content.value
    ensures x.status == Queued && x.errorMessage.None? && x.sentAt.None?
  {
    Message(id, cid, e.to.value, e.content.value, Queued, None, None)
  }

  /** The rows for entries `j..p`, in order. */
  function Rows(cid: string, entries: seq<Entry>, ids: seq<string>, j: nat, p: nat): (rows: seq<Message>)
    requires j <= p <= |entries| <= |ids| && forall t :: j <= t < p ==> EntryComplete(entries[t])
    ensures |rows| == p - j
    ensures forall t :: j <= t < p ==> rows[t - j] == NewMessage(cid, entries[t], ids[t])
    decreases p - j
  {
    if j == p then [] else [NewMessage(cid, entries[j], ids[j])] + Rows(cid, entries, ids, j + 1, p)
  }

  /** The insertion loop (api/create-campaign.js:31-36), from entry j on. */
  function Insert(st: Store, cid: string, entries: seq<Entry>, ids: seq<string>, j: nat, left: nat): CreateResult
    requires j <= |entries| <= |ids|
    decreases |entries| - j
  {
    if j == |entries| then CreateResult(st, Created(cid))
    else if left == 0 || !EntryComplete(entries[j]) then CreateResult(st, CreateError)
    else Insert(AddMessage(st, NewMessage(cid, entries[j], ids[j])), cid, entries, ids, j + 1, left - 1)
  }

  /** `handler` (api/create-campaign.js:3-46). */
  function CreateSpec(st: Store, req: Request, now: int, campaignId: string, messageIds: seq<string>,
                      okWrites: nat): CreateResult
    requires req.messages.Some? ==> |messageIds| >= |req.messages.value|
  {
    if req.verb != Post then CreateResult(st, NotAllowed)
    else if req.messages.None? || req.messages.value == [] then CreateResult(st, NoMessages)
    else if okWrites == 0 || !CampaignComplete(req) then CreateResult(st, CreateError)
    else
      var entries := req.messages.value;
      Insert(AddCampaign(st, NewCampaign(req, campaignId, now, |entries|)), campaignId, entries, messageIds, 0, okWrites - 1)
  }

  // ---- what the handler promises ------------------------------------------

  /** Anything but a POST is refused with 405 and writes nothing. */
  lemma RejectsOtherVerbs(st: Store, req: Request, now: int, campaignId: string, messageIds: seq<string>, okWrites: nat)
    requires req.messages.Some? ==> |messageIds| >= |req.messages.value|
    requires req.verb != Post
    ensures CreateSpec(st, req, now, campaignId, messageIds, okWrites) == CreateResult(st, NotAllowed)
  {
  }

  /** A POST without messages, or with an empty list, is refused with 400 and writes nothing. */
  lemma RejectsNoMessages(st: Store, req: Request, now: int, campaignId: string, messageIds: seq<string>, okWrites: nat)
    requires req.messages.Some? ==> |messageIds| >= |req.messages.value|
    requires req.verb == Post && (req.messages.None? || req.messages.value == [])
    ensures CreateSpec(st, req, now, campaignId, messageIds, okWrites) == CreateResult(st, NoMessages)
  {
  }

  /** The loop either inserts every remaining row and answers with the id, or stops after a prefix. */
  lemma {:induction false} InsertShape(st: Store, cid: string, entries: seq<Entry>, ids: seq<string>, j: nat, left: nat)
    requires j <= |entries| <= |ids|
    ensures var r := Insert(st, cid, entries, ids, j, left);
            && r.store.campaigns == st.campaigns
            && (r.response == Created(cid) || r.response == CreateError)
            && (r.response == Created(cid) <==>
                  left >= |entries| - j && forall t :: j <= t < |entries| ==> EntryComplete(entries[t]))
            && exists p :: j <= p <= |entries| && (forall t :: j <= t < p ==> EntryComplete(entries[t]))
                           && (r.response == Created(cid) ==> p == |entries|)
                           && (r.response == CreateError ==> p < |entries|)
                           && r.store.messages == st.messages + Rows(cid, entries, ids, j, p)
    decreases |entries| - j
  {
    var r := Insert(st, cid, entries, ids, j, left);
    if j == |entries| {
      assert r.store.messages == st.messages + Rows(cid, entries, ids, j, j);
    } else if left == 0 || !EntryComplete(entries[j]) {
      assert r.store.messages == st.messages + Rows(cid, entries, ids, j, j);
    } else {
      var x := NewMessage(cid, entries[j], ids[j]);
      var st1 := AddMessage(st, x);
      InsertShape(st1, cid, entries, ids, j + 1, left - 1);
      assert r == Insert(st1, cid, entries, ids, j + 1, left - 1);
      var p :| j + 1 <= p <= |entries| && (forall t :: j + 1 <= t < p ==> EntryComplete(entries[t]))
               && (r.response == Created(cid) ==> p == |entries|)
               && (r.response == CreateError ==> p < |entries|)
               && r.store.messages == st1.messages + Rows(cid, entries, ids, j + 1, p);
      RowsCons(cid, entries, ids, j, p);
      MessagesAssoc(st.messages, [x], Rows(cid, entries, ids, j + 1, p));
    }
  }

  lemma RowsCons(cid: string, entries: seq<Entry>, ids: seq<string>, j: nat, p: nat)
    requires j < p <= |entries| <= |ids| && forall t :: j <= t < p ==> EntryComplete(entries[t])
    ensures Rows(cid, entries, ids, j, p) == [NewMessage(cid, entries[j], ids[j])] + Rows(cid, entries, ids, j + 1, p)
  {
  }

  lemma MessagesAssoc(a: seq<Message>, b: seq<Message>, c: seq<Message>)
    ensures (a + b) + c == a + (b + c)
  {
  }

  /**
   * A request answered with `Created` added exactly one campaign, last, with
   * the defaults and the given id, and one pending message per entry, in
   * order; the answer carries the new id. It is answered so exactly when it
   * is a complete POST with messages and every INSERT goes through.
   */
  lemma CreatedShape(st: Store, req: Request, now: int, campaignId: string, messageIds: seq<string>, okWrites: nat)
    requires req.messages.Some? ==> |messageIds| >= |req.messages.value|
    ensures var r := CreateSpec(st, req, now, campaignId, messageIds, okWrites);
            && (r.response.Created? <==>
                  && req.verb == Post && req.messages.Some? && req.messages.value != [] && CampaignComplete(req)
                  && okWrites >= 1 + |req.messages.value|
                  && forall t :: 0 <= t < |req.messages.value| ==> EntryComplete(req.messages.value[t]))
            && (r.response.Created? ==>
                  && r.response.campaignId == campaignId
                  && var entries := req.messages.value;
                     && r.store.campaigns == st.campaigns + [NewCampaign(req, campaignId, now, |entries|)]
                     && r.store.messages == st.messages + Rows(campaignId, entries, messageIds, 0, |entries|))
  {
    if req.verb == Post && req.messages.Some? && req.messages.value != [] && okWrites != 0 && CampaignComplete(req) {
      var entries := req.messages.value;
      InsertShape(AddCampaign(st, NewCampaign(req, campaignId, now, |entries|)), campaignId, entries, messageIds, 0, okWrites - 1);
    }
  }

  /**
   * There is no transaction: a failure after the campaign row was written
   * leaves that row and the message rows of a prefix of the entries in
   * place.
   */
  lemma FailureKeepsPrefix(st: Store, req: Request, now: int, campaignId: string, messageIds: seq<string>, okWrites: nat)
    requires req.messages.Some? ==> |messageIds| >= |req.messages.value|
    requires req.verb == Post && req.messages.Some? && req.messages.value != []
    requires okWrites >= 1 && CampaignComplete(req)
    ensures var r := CreateSpec(st, req, now, campaignId, messageIds, okWrites);
            var entries := req.messages.value;
            r.response == CreateError ==>
              && r.store.campaigns == st.campaigns + [NewCampaign(req, campaignId, now, |entries|)]
              && exists p :: 0 <= p < |entries| && (forall t :: 0 <= t < p ==> EntryComplete(entries[t]))
                             && r.store.messages == st.messages + Rows(campaignId, entries, messageIds, 0, p)
  {
    var entries := req.messages.value;
    var st1 := AddCampaign(st, NewCampaign(req, campaignId, now, |entries|));
    InsertShape(st1, campaignId, entries, messageIds, 0, okWrites - 1);
  }

  // ---- creation keeps the store valid --------------------------------------

  function MessageIds(msgs: seq<Message>): (ids: seq<string>)
    ensures |ids| == |msgs| && forall m :: 0 <= m < |msgs| ==> ids[m] == msgs[m].id
  {
    seq(|msgs|, m requires 0 <= m < |msgs| => msgs[m].id)
  }

  /** The keys handed out are new and pairwise different. */
  predicate KeysFresh(msgs: seq<Message>, ids: seq<string>, j: nat, n: nat)
    requires j <= n <= |ids|
  {
    && (forall t :: j <= t < n ==> ids[t] !in MessageIds(msgs))
    && (forall t, u :: j <= t < u < n ==> ids[t] != ids[u])
  }

  lemma {:induction false} CountAbsent(msgs: seq<Message>, cid: string)
    requires forall m :: 0 <= m < |msgs| ==> msgs[m].campaignId != cid
    ensures Count(msgs, cid) == 0
  {
    if msgs != [] {
      CountAbsent(msgs[..|msgs| - 1], cid);
    }
  }

  /** Inserting a campaign with a new key and zero counters keeps the store valid. */
  lemma AddCampaignKeepsValid(st: Store, c: Campaign)
    requires StoreValid(st) && c.id !in CampaignIds(st.campaigns) && c.sentCount == 0 && c.failedCount == 0
    ensures StoreValid(AddCampaign(st, c)) && Count(st.messages, c.id) == 0
  {
    var t := AddCampaign(st, c);
    assert CampaignIds(t.campaigns) == CampaignIds(st.campaigns) + [c.id];
    forall m | 0 <= m < |st.messages|
      ensures st.messages[m].campaignId != c.id
    {
      assert st.messages[m].campaignId in CampaignIds(st.campaigns);
    }
    CountAbsent(st.messages, c.id);
    forall i | 0 <= i < |t.campaigns|
      ensures Balanced(t.campaigns[i], t.messages)
    {
      if i < |st.campaigns| {
        assert Balanced(st.campaigns[i], st.messages);
      }
    }
    forall i, j | 0 <= i < j < |t.campaigns|
      ensures t.campaigns[i].id != t.campaigns[j].id
    {
      if j == |st.campaigns| {
        assert CampaignIds(st.campaigns)[i] == t.campaigns[i].id;
      }
    }
  }

  /**
   * Inserting a pending message with a new key for the campaign at `k`,
   * while that campaign has fewer messages than announced, keeps the store
   * valid.
   */
  lemma AddMessageKeepsValid(st: Store, k: nat, x: Message)
    requires StoreValid(st) && k < |st.campaigns| && x.campaignId == st.campaigns[k].id && x.status == Queued
    requires x.id !in MessageIds(st.messages) && Count(st.messages, x.campaignId) < st.campaigns[k].total
    ensures StoreValid(AddMessage(st, x))
    ensures Count(AddMessage(st, x).messages, x.campaignId) == Count(st.messages, x.campaignId) + 1
  {
    var t := AddMessage(st, x);
    AppendCounts(st.messages, x, x.campaignId);
    forall i, j | 0 <= i < j < |t.messages|
      ensures t.messages[i].id != t.messages[j].id
    {
      if j == |st.messages| {
        assert MessageIds(st.messages)[i] == t.messages[i].id;
      }
    }
    assert CampaignIds(st.campaigns)[k] == x.campaignId;
    forall i | 0 <= i < |t.campaigns|
      ensures Balanced(t.campaigns[i], t.messages)
    {
      assert Balanced(st.campaigns[i], st.messages);
      AppendCounts(st.messages, x, st.campaigns[i].id);
      if i != k {
        assert st.campaigns[i].id != st.campaigns[k].id;
      }
    }
  }

  /** The loop keeps the store valid while the campaign's announced total has room for every entry. */
  lemma {:induction false} InsertKeepsValid(st: Store, k: nat, entries: seq<Entry>, ids: seq<string>, j: nat, left: nat)
    requires StoreValid(st) && k < |st.campaigns| && j <= |entries| <= |ids|
    requires st.campaigns[k].total == |entries| && Count(st.messages, st.campaigns[k].id) <= j
    requires KeysFresh(st.messages, ids, j, |entries|)
    ensures StoreValid(Insert(st, st.campaigns[k].id, entries, ids, j, left).store)
    decreases |entries| - j
  {
    var cid := st.campaigns[k].id;
    if j < |entries| && left != 0 && EntryComplete(entries[j]) {
      var x := NewMessage(cid, entries[j], ids[j]);
      AddMessageKeepsValid(st, k, x);
      var st1 := AddMessage(st, x);
      assert MessageIds(st1.messages) == MessageIds(st.messages) + [x.id];
      InsertKeepsValid(st1, k, entries, ids, j + 1, left - 1);
    }
  }

  /** Creation with new keys keeps the store valid, so every campaign's counters stay within its total. */
  lemma CreateKeepsValid(st: Store, req: Request, now: int, campaignId: string, messageIds: seq<string>, okWrites: nat)
    requires req.messages.Some? ==> |messageIds| >= |req.messages.value|
    requires StoreValid(st) && campaignId !in CampaignIds(st.campaigns)
    requires req.messages.Some? ==> KeysFresh(st.messages, messageIds, 0, |req.messages.value|)
    ensures StoreValid(CreateSpec(st, req, now, campaignId, messageIds, okWrites).store)
  {
    if req.verb == Post && req.messages.Some? && req.messages.value != [] && okWrites != 0 && CampaignComplete(req) {
      var entries := req.messages.value;
      var c := NewCampaign(req, campaignId, now, |entries|);
      AddCampaignKeepsValid(st, c);
      var st1 := AddCampaign(st, c);
      assert st1.campaigns[|st.campaigns|] == c;
      InsertKeepsValid(st1, |st.campaigns|, entries, messageIds, 0, okWrites - 1);
    }
  }

  // ---- the handler ----------------------------------------------------------

  /** `handler` (api/create-campaign.js:3-46) against the in-memory database. */
  method Create(db: Database, req: Request, now: int, campaignId: string, messageIds: seq<string>, okWrites: nat)
    returns (response: Response)
    requires req.messages.Some? ==> |messageIds| >= |req.messages.value|
    modifies db
    ensures CreateResult(db.State(), response) == CreateSpec(old(db.State()), req, now, campaignId, messageIds, okWrites)
  {
    if req.verb != Post {
      return NotAllowed;
    }
    if req.messages.None? || req.messages.value == [] {
      return NoMessages;
    }
    if okWrites == 0 || !CampaignComplete(req) {
      return CreateError;
    }
    var entries := req.messages.value;
    db.InsertCampaign(NewCampaign(req, campaignId, now, |entries|));
    response := InsertAll(db, campaignId, entries, messageIds, okWrites - 1);
  }

  /** The insertion loop (api/create-campaign.js:31-41). */
  method InsertAll(db: Database, cid: string, entries: seq<Entry>, ids: seq<string>, left: nat)
    returns (response: Response)
    requires |entries| <= |ids|
    modifies db
    ensures CreateResult(db.State(), response) == Insert(old(db.State()), cid, entries, ids, 0, left)
  {
    ghost var goal := Insert(db.State(), cid, entries, ids, 0, left);
    var budget := left;
    var j := 0;
    while j < |entries|
      invariant j <= |entries| && Insert(db.State(), cid, entries, ids, j, budget) == goal
    {
      if budget == 0 || !EntryComplete(entries[j]) {
        return CreateError;
      }
      db.InsertMessage(NewMessage(cid, entries[j], ids[j]));
      budget := budget - 1;
      j := j + 1;
    }
    return Created(cid);
  }
}
