/**
 * The offline synchronisation manager of lib/offline-sync.ts.
 *
 * The manager keeps an in-memory FIFO queue of create/update/delete
 * operations and mirrors it into a durable store. The same store holds one
 * record store per data table and a `lastSync` metadata entry. A sync pass
 * replays a snapshot of the queue against the server, one request per item,
 * and only one pass runs at a time.
 *
 * The durable store (IndexedDB) is the value `Disk`. The server is a scripted
 * stream of replies, `network`; a reply missing from it is a rejected fetch.
 * Fresh queue-item ids and timestamps are parameters.
 */
module OfflineSync {
  import opened Common

  datatype SyncType = Create | Update | Delete

  /** A stored record: its `id` property (None when it has none) and its other properties. */
  datatype Record = Record(id: Option<string>, fields: map<string, string>)

  datatype SyncQueueItem = SyncQueueItem(
    id: string,
    kind: SyncType,
    table: string,
    data: Record,
    timestamp: int,
    retryCount: int,
    maxRetries: int)

  /**
   * The durable store: every data store maps record ids to records, the
   * queue store maps item ids to items, and `lastSync` is the metadata entry.
   */
  datatype Disk = Disk(
    stores: map<string, map<string, Record>>,
    queue: map<string, SyncQueueItem>,
    lastSync: Option<int>)

  /** The object stores created for application data. */
  const DataStores: set<string> := {"complianceItems", "documents", "notifications", "forms"}
  const QueueStore := "syncQueue"
  const MetadataStore := "metadata"

  /** The stores that hold application records (the other two hold queue items and metadata). */
  predicate RecordTable(table: string) {
    table != QueueStore && table != MetadataStore
  }

  /** Every record has an `id`, the key path of the data stores and of the queue store. */
  predicate AllHaveIds(rs: seq<Record>) {
    forall i :: 0 <= i < |rs| ==> rs[i].id.Some?
  }

  /** Every record has a `key`, the key path of the metadata store. */
  predicate AllHaveKeys(rs: seq<Record>) {
    forall i :: 0 <= i < |rs| ==> "key" in rs[i].fields
  }

  /** Whether every put of saveOfflineData into an existing store succeeds. */
  predicate StoreAccepts(table: string, rs: seq<Record>) {
    ((table in DataStores || table == QueueStore) && AllHaveIds(rs))
    || (table == MetadataStore && AllHaveKeys(rs))
  }

  /**
   * What getAll returns from one store: records from a data store, queue
   * items from the queue store, or the times of the metadata store's
   * `lastSync` entry. An empty array is written `RecordRows([])`.
   */
  datatype Listing = RecordRows(records: seq<Record>) | QueueRows(items: seq<SyncQueueItem>) | MetadataRows(times: seq<int>)

  ghost predicate KeyedById(m: map<string, Record>) {
    forall k :: k in m ==> m[k].id == Some(k)
  }

  /** The schema that the database upgrade handler creates: every record sits under its own id. */
  ghost predicate DiskValid(d: Disk) {
    d.stores.Keys == DataStores
    && (forall t :: t in d.stores ==> KeyedById(d.stores[t]))
    && (forall k :: k in d.queue ==> d.queue[k].id == k)
  }

  // ---------------------------------------------------------------------
  // Listing a store (IDBObjectStore.getAll)
  // ---------------------------------------------------------------------

  /** ks names, in order and without repetition, the keys under which m holds the elements of r. */
  ghost predicate ListedBy<V>(r: seq<V>, m: map<string, V>, ks: seq<string>) {
    |ks| == |r| && Distinct(ks)
    && (forall i :: 0 <= i < |r| ==> ks[i] in m && m[ks[i]] == r[i])
    && (forall k :: k in m ==> k in ks)
  }

  /** r lists every entry of m exactly once, in some order. */
  ghost predicate Lists<V>(r: seq<V>, m: map<string, V>) {
    |r| == |m| && exists ks :: ListedBy(r, m, ks)
  }

  /** The values of a store, one per key. */
  method ListValues<V>(m: map<string, V>) returns (r: seq<V>)
    ensures Lists(r, m)
  {
    r := [];
    ghost var ks: seq<string> := [];
    var todo := m.Keys;
    while todo != {}
      invariant todo <= m.Keys
      invariant |r| + |todo| == |m|
      invariant |ks| == |r| && Distinct(ks)
      invariant forall i :: 0 <= i < |r| ==> ks[i] in m && ks[i] !in todo && m[ks[i]] == r[i]
      invariant forall k :: k in m && k !in todo ==> k in ks
      decreases |todo|
    {
      var k :| k in todo;
      r := r + [m[k]];
      ks := ks + [k];
      todo := todo - {k};
    }
    assert ListedBy(r, m, ks);
  }

  // ---------------------------------------------------------------------
  // Writing records (the puts of saveOfflineData)
  // ---------------------------------------------------------------------

  /**
   * The puts into one store, in order: the store afterwards and whether every
   * put succeeded. A record without an id makes `put` throw, so the puts
   * after it are never issued.
   */
  function PutAll(m: map<string, Record>, rs: seq<Record>): (r: (map<string, Record>, bool))
    ensures KeyedById(m) ==> KeyedById(r.0)
    ensures r.1 <==> AllHaveIds(rs)
    decreases |rs|
  {
    if rs == [] then (m, true)
    else match rs[0].id
      case None => (m, false)
      case Some(k) => PutAll(m[k := rs[0]], rs[1..])
  }

  /** After the puts, an id holds the last record written under it. */
  lemma {:induction false} PutAllLastWins(m: map<string, Record>, rs: seq<Record>, i: int)
    requires forall j :: 0 <= j < |rs| ==> rs[j].id.Some?
    requires 0 <= i < |rs|
    requires forall j :: i < j < |rs| ==> rs[j].id != rs[i].id
    ensures rs[i].id.value in PutAll(m, rs).0
    ensures PutAll(m, rs).0[rs[i].id.value] == rs[i]
    decreases |rs|
  {
    var k := rs[0].id.value;
    if i == 0 {
      PutAllKeepsOthers(m[k := rs[0]], rs[1..], k);
    } else {
      PutAllLastWins(m[k := rs[0]], rs[1..], i - 1);
    }
  }

  /** An id none of the records carries keeps its old entry (or its absence). */
  lemma {:induction false} PutAllKeepsOthers(m: map<string, Record>, rs: seq<Record>, k: string)
    requires forall j :: 0 <= j < |rs| ==> rs[j].id != Some(k)
    ensures k in PutAll(m, rs).0 <==> k in m
    ensures k in m ==> PutAll(m, rs).0[k] == m[k]
    decreases |rs|
  {
    if rs != [] && rs[0].id.Some? {
      PutAllKeepsOthers(m[rs[0].id.value := rs[0]], rs[1..], k);
    }
  }

  // ---------------------------------------------------------------------
  // Requests (syncItem)
  // ---------------------------------------------------------------------

  datatype Verb = POST | PUT | DELETE

  datatype Request = Request(verb: Verb, path: string, body: Option<Record>)

  /** The server's answer to a request: an HTTP status, or a rejected fetch. */
  datatype Reply = Status(code: int) | NetworkError

  /** `response.ok`: a 2xx status. */
  predicate Succeeded(r: Reply) {
    r.Status? && 200 <= r.code <= 299
  }

  function Endpoint(table: string): string {
    "/api/compliance/" + table
  }

  /** The record's id as a template literal prints it; a missing id prints as "undefined". */
  function IdText(r: Record): string {
    match r.id
    case Some(s) => s
    case None => "undefined"
  }

  /** The request syncItem sends for a queue item. */
  function SyncRequest(item: SyncQueueItem): (r: Request)
    ensures r.verb == POST <==> item.kind == Create
    ensures r.verb == PUT <==> item.kind == Update
    ensures r.body.Some? <==> item.kind != Delete
    ensures r.body.Some? ==> r.body.value == item.data
    ensures IsPrefix(Endpoint(item.table), r.path)
    ensures r.verb == POST ==> r.path == Endpoint(item.table)
    ensures r.verb != POST ==> r.path == Endpoint(item.table) + "/" + IdText(item.data)
  {
    match item.kind
    case Create => Request(POST, Endpoint(item.table), Some(item.data))
    case Update => Request(PUT, Endpoint(item.table) + "/" + IdText(item.data), Some(item.data))
    case Delete => Request(DELETE, Endpoint(item.table) + "/" + IdText(item.data), None)
  }

  /** The request determines the operation, and a create request the table and payload as well. */
  lemma SameRequestSameOperation(a: SyncQueueItem, b: SyncQueueItem)
    requires SyncRequest(a) == SyncRequest(b)
    ensures a.kind == b.kind
    ensures a.kind != Delete ==> a.data == b.data
    ensures a.kind == Create ==> a.table == b.table
  {
    if a.kind == Create {
      var p := "/api/compliance/";
      assert Endpoint(a.table)[|p|..] == a.table;
      assert Endpoint(b.table)[|p|..] == b.table;
    }
  }

  // ---------------------------------------------------------------------
  // The queue as a value
  // ---------------------------------------------------------------------

  function Ids(q: seq<SyncQueueItem>): (r: seq<string>)
    ensures |r| == |q|
    ensures forall i :: 0 <= i < |q| ==> r[i] == q[i].id
  {
    seq(|q|, i requires 0 <= i < |q| => q[i].id)
  }

  ghost predicate UniqueIds(q: seq<SyncQueueItem>) {
    Distinct(Ids(q))
  }

  /** The first queued item with this id. */
  function Lookup(q: seq<SyncQueueItem>, id: string): (r: Option<SyncQueueItem>)
    ensures r.Some? ==> r.value in q && r.value.id == id
    ensures r.None? <==> id !in Ids(q)
  {
    if q == [] then None
    else
      assert Ids(q) == [q[0].id] + Ids(q[1..]);
      if q[0].id == id then Some(q[0]) else Lookup(q[1..], id)
  }

  /** With unique ids, looking up an item's id finds that item. */
  lemma {:induction false} LookupAt(q: seq<SyncQueueItem>, i: int)
    requires UniqueIds(q) && 0 <= i < |q|
    ensures Lookup(q, q[i].id) == Some(q[i])
  {
    if i > 0 {
      assert Ids(q)[0] != Ids(q)[i];
      assert Ids(q)[1..] == Ids(q[1..]);
      DistinctTail(Ids(q));
      LookupAt(q[1..], i - 1);
    }
  }

  /** removeSyncQueueItem's filter. */
  function RemoveById(q: seq<SyncQueueItem>, id: string): (r: seq<SyncQueueItem>)
    ensures forall x :: x in r <==> x in q && x.id != id
  {
    Filter(q, (it: SyncQueueItem) => it.id != id)
  }

  function Bump(item: SyncQueueItem): SyncQueueItem {
    item.(retryCount := item.retryCount + 1)
  }

  /** `item.retryCount++` on the queued object with this id. */
  function BumpRetry(q: seq<SyncQueueItem>, id: string): (r: seq<SyncQueueItem>)
    ensures |r| == |q|
    ensures forall i :: 0 <= i < |q| ==> r[i] == if q[i].id == id then Bump(q[i]) else q[i]
  {
    Map(q, (it: SyncQueueItem) => if it.id == id then Bump(it) else it)
  }

  /** An attempt ends the item's stay in the queue: it succeeded, or it has used up its retries. */
  predicate Leaves(item: SyncQueueItem, ok: bool) {
    ok || item.retryCount + 1 >= item.maxRetries
  }

  /** The queue after one attempt of the loop body of processSyncQueue. */
  function AfterAttempt(q: seq<SyncQueueItem>, item: SyncQueueItem, ok: bool): seq<SyncQueueItem> {
    if Leaves(item, ok) then RemoveById(q, item.id) else BumpRetry(q, item.id)
  }

  /** What becomes of one item after an attempt: gone, or back with one more retry counted. */
  function Fate(item: SyncQueueItem, ok: bool): (r: Option<SyncQueueItem>)
    ensures r.None? <==> Leaves(item, ok)
    ensures r.Some? ==> r.value == item.(retryCount := item.retryCount + 1)
  {
    if Leaves(item, ok) then None else Some(Bump(item))
  }

  /** An attempt on the item with this id, if it is still queued. */
  function Step(q: seq<SyncQueueItem>, id: string, ok: bool): seq<SyncQueueItem> {
    match Lookup(q, id)
    case None => q
    case Some(item) => AfterAttempt(q, item, ok)
  }

  /** A whole pass over the snapshot ids, with the outcome of each attempt. */
  function Pass(q: seq<SyncQueueItem>, ids: seq<string>, oks: seq<bool>): seq<SyncQueueItem>
    requires |ids| == |oks|
    decreases |ids|
  {
    if ids == [] then q else Pass(Step(q, ids[0], oks[0]), ids[1..], oks[1..])
  }

  lemma {:induction false} IdsOfRemove(q: seq<SyncQueueItem>, id: string)
    ensures Ids(RemoveById(q, id)) == Filter(Ids(q), (k: string) => k != id)
  {
    if q != [] {
      IdsOfRemove(q[1..], id);
      assert Ids(q)[1..] == Ids(q[1..]);
      var rest := RemoveById(q[1..], id);
      if q[0].id != id {
        assert RemoveById(q, id) == [q[0]] + rest;
        assert Ids([q[0]] + rest) == [q[0].id] + Ids(rest);
      } else {
        assert RemoveById(q, id) == rest;
      }
    }
  }

  lemma IdsOfBump(q: seq<SyncQueueItem>, id: string)
    ensures Ids(BumpRetry(q, id)) == Ids(q)
  {
  }

  /** The ids after removeSyncQueueItem: those before, less the removed one. */
  lemma RemoveIds(q: seq<SyncQueueItem>, id: string)
    ensures forall k :: k in Ids(RemoveById(q, id)) <==> k in Ids(q) && k != id
    ensures UniqueIds(q) ==> UniqueIds(RemoveById(q, id))
  {
    IdsOfRemove(q, id);
    if UniqueIds(q) {
      FilterKeepsDistinct(Ids(q), (k: string) => k != id);
    }
  }

  /** Appending an item with a fresh id keeps the ids unique. */
  lemma AppendFresh(q: seq<SyncQueueItem>, x: SyncQueueItem)
    requires UniqueIds(q) && x.id !in Ids(q)
    ensures Ids(q + [x]) == Ids(q) + [x.id]
    ensures UniqueIds(q + [x])
  {
    assert Ids(q + [x]) == Ids(q) + [x.id];
  }

  /** The ids after an attempt: those before, less the attempted one if it left. */
  lemma IdsAfterAttempt(q: seq<SyncQueueItem>, item: SyncQueueItem, ok: bool)
    ensures IsSubsequence(Ids(AfterAttempt(q, item, ok)), Ids(q))
    ensures UniqueIds(q) ==> UniqueIds(AfterAttempt(q, item, ok))
    ensures forall k :: k in Ids(AfterAttempt(q, item, ok)) <==> k in Ids(q) && !(k == item.id && Leaves(item, ok))
  {
    if Leaves(item, ok) {
      IdsOfRemove(q, item.id);
      FilterIsSubsequence(Ids(q), (k: string) => k != item.id);
      if UniqueIds(q) {
        FilterKeepsDistinct(Ids(q), (k: string) => k != item.id);
      }
    } else {
      IdsOfBump(q, item.id);
      SubsequenceReflexive(Ids(q));
    }
  }

  lemma {:induction false} LookupRemove(q: seq<SyncQueueItem>, id: string, x: string)
    ensures Lookup(RemoveById(q, id), x) == if x == id then None else Lookup(q, x)
  {
    if q != [] {
      LookupRemove(q[1..], id, x);
      if q[0].id != id {
        assert RemoveById(q, id) == [q[0]] + RemoveById(q[1..], id);
        assert ([q[0]] + RemoveById(q[1..], id))[1..] == RemoveById(q[1..], id);
      }
    }
  }

  lemma {:induction false} LookupBump(q: seq<SyncQueueItem>, id: string, x: string)
    ensures Lookup(BumpRetry(q, id), x)
         == if x != id then Lookup(q, x)
            else match Lookup(q, x) case None => None case Some(it) => Some(Bump(it))
  {
    if q != [] {
      LookupBump(q[1..], id, x);
      assert BumpRetry(q, id)[1..] == BumpRetry(q[1..], id);
    }
  }

  /** One attempt changes only the attempted id's entry, as its Fate says. */
  lemma LookupStep(q: seq<SyncQueueItem>, id: string, ok: bool, x: string)
    ensures Lookup(Step(q, id, ok), x)
         == if x != id then Lookup(q, x)
            else match Lookup(q, id) case None => None case Some(it) => Fate(it, ok)
  {
    match Lookup(q, id)
    case None =>
    case Some(it) =>
      if Leaves(it, ok) {
        LookupRemove(q, id, x);
      } else {
        LookupBump(q, id, x);
      }
  }

  /** Ids the pass does not attempt keep their entries. */
  lemma {:induction false} PassKeepsOthers(q: seq<SyncQueueItem>, ids: seq<string>, oks: seq<bool>, x: string)
    requires |ids| == |oks| && x !in ids
    ensures Lookup(Pass(q, ids, oks), x) == Lookup(q, x)
    decreases |ids|
  {
    if ids != [] {
      LookupStep(q, ids[0], oks[0], x);
      PassKeepsOthers(Step(q, ids[0], oks[0]), ids[1..], oks[1..], x);
    }
  }

  /**
   * Each snapshot id is attempted once: after the pass its item is gone if
   * the attempt succeeded or used up the retries, and otherwise it is still
   * queued with one more retry counted.
   */
  lemma {:induction false} PassFate(q: seq<SyncQueueItem>, ids: seq<string>, oks: seq<bool>, j: int)
    requires |ids| == |oks| && Distinct(ids) && 0 <= j < |ids|
    requires Lookup(q, ids[j]).Some?
    ensures Lookup(Pass(q, ids, oks), ids[j]) == Fate(Lookup(q, ids[j]).value, oks[j])
    decreases |ids|
  {
    DistinctTail(ids);
    var q1 := Step(q, ids[0], oks[0]);
    assert Pass(q, ids, oks) == Pass(q1, ids[1..], oks[1..]);
    LookupStep(q, ids[0], oks[0], ids[j]);
    if j == 0 {
      PassKeepsOthers(q1, ids[1..], oks[1..], ids[0]);
    } else {
      assert ids[j] != ids[0];
      assert ids[j] == ids[1..][j - 1] && oks[j] == oks[1..][j - 1];
      assert Lookup(q1, ids[j]) == Lookup(q, ids[j]);
      PassFate(q1, ids[1..], oks[1..], j - 1);
    }
  }

  /** A pass only deletes items: the ids keep their relative order and stay unique. */
  lemma {:induction false} PassIds(q: seq<SyncQueueItem>, ids: seq<string>, oks: seq<bool>)
    requires |ids| == |oks|
    ensures IsSubsequence(Ids(Pass(q, ids, oks)), Ids(q))
    ensures UniqueIds(q) ==> UniqueIds(Pass(q, ids, oks))
    decreases |ids|
  {
    if ids == [] {
      SubsequenceReflexive(Ids(q));
    } else {
      var q1 := Step(q, ids[0], oks[0]);
      if Lookup(q, ids[0]).Some? {
        IdsAfterAttempt(q, Lookup(q, ids[0]).value, oks[0]);
      } else {
        SubsequenceReflexive(Ids(q));
      }
      PassIds(q1, ids[1..], oks[1..]);
      SubsequenceTransitive(Ids(Pass(q1, ids[1..], oks[1..])), Ids(q1), Ids(q));
    }
  }

  lemma LookupAppend(q: seq<SyncQueueItem>, x: SyncQueueItem, id: string)
    requires x.id != id
    ensures Lookup(q + [x], id) == Lookup(q, id)
  {
    if q != [] {
      assert (q + [x])[1..] == q[1..] + [x];
      LookupAppend(q[1..], x, id);
    }
  }

  lemma StepAppend(q: seq<SyncQueueItem>, x: SyncQueueItem, id: string, ok: bool)
    requires x.id != id
    ensures Step(q + [x], id, ok) == Step(q, id, ok) + [x]
  {
    LookupAppend(q, x, id);
    match Lookup(q, id)
    case None =>
    case Some(it) =>
      assert it.id == id;
      if Leaves(it, ok) {
        FilterAppend(q, [x], (e: SyncQueueItem) => e.id != id);
      } else {
        assert BumpRetry(q + [x], id) == BumpRetry(q, id) + [x];
      }
  }

  /** An item queued behind the snapshot is not attempted and stays at the end, unchanged. */
  lemma {:induction false} PassAppend(q: seq<SyncQueueItem>, ids: seq<string>, oks: seq<bool>, x: SyncQueueItem)
    requires |ids| == |oks| && x.id !in ids
    ensures Pass(q + [x], ids, oks) == Pass(q, ids, oks) + [x]
    decreases |ids|
  {
    if ids != [] {
      StepAppend(q, x, ids[0], oks[0]);
      PassAppend(Step(q, ids[0], oks[0]), ids[1..], oks[1..], x);
    }
  }

  /** When every attempt succeeds, the pass empties the queue it snapshotted. */
  lemma AllSucceeded(q: seq<SyncQueueItem>, oks: seq<bool>)
    requires UniqueIds(q) && |oks| == |q|
    requires forall i :: 0 <= i < |oks| ==> oks[i]
    ensures Pass(q, Ids(q), oks) == []
  {
    var r := Pass(q, Ids(q), oks);
    PassIds(q, Ids(q), oks);
    if r != [] {
      assert r[0].id in Ids(r);
      SubsequenceMembers(Ids(r), Ids(q), r[0].id);
      var j :| 0 <= j < |q| && Ids(q)[j] == r[0].id;
      LookupAt(q, j);
      PassFate(q, Ids(q), oks, j);
      assert false;
    }
  }

  /** A pass over a one-item queue whose attempt fails. */
  lemma FailedPassOfOne(it: SyncQueueItem)
    ensures Pass([it], Ids([it]), [false]) == if it.retryCount + 1 >= it.maxRetries then [] else [Bump(it)]
  {
    assert Ids([it]) == [it.id];
    assert BumpRetry([it], it.id) == [Bump(it)];
  }

  /** k passes over a one-item queue, every attempt failing. */
  function FailedPasses(q: seq<SyncQueueItem>, k: nat): seq<SyncQueueItem>
    decreases k
  {
    if k == 0 || q == [] then q
    else FailedPasses(Pass(q, Ids(q), seq(|q|, _ => false)), k - 1)
  }

  /**
   * A new item (retryCount 0) whose every attempt fails is retried maxRetries
   * times: it is still queued after k < maxRetries failed passes, with
   * retryCount k, and it is gone after maxRetries of them, so no further
   * pass starts for it.
   */
  lemma {:induction false} RetriesThenAbandons(it: SyncQueueItem, k: nat)
    requires it.retryCount == 0 && 1 <= it.maxRetries && k <= it.maxRetries
    ensures FailedPasses([it], k) == if k < it.maxRetries then [it.(retryCount := k)] else []
    decreases k
  {
    if k > 0 {
      RetriesThenAbandons(it, k - 1);
      var x := it.(retryCount := k - 1);
      assert FailedPasses([it], k - 1) == [x];
      FailedPassesLast([it], k);
      FailedPassOfOne(x);
      assert seq(1, _ => false) == [false];
    }
  }

  /** The last of k failed passes, peeled off the end. */
  lemma {:induction false} FailedPassesLast(q: seq<SyncQueueItem>, k: nat)
    requires k > 0
    ensures var p := FailedPasses(q, k - 1);
      FailedPasses(q, k) == if p == [] then [] else Pass(p, Ids(p), seq(|p|, _ => false))
    decreases k
  {
    if k > 1 && q != [] {
      FailedPassesLast(Pass(q, Ids(q), seq(|q|, _ => false)), k - 1);
    }
  }

  // ---------------------------------------------------------------------
  // The manager
  // ---------------------------------------------------------------------

  /** `item.maxRetries || 3`: an absent or zero maximum becomes 3. */
  function DefaultMaxRetries(m: Option<int>): (r: int)
    ensures r != 0
    ensures m == None || m == Some(0) ==> r == 3
    ensures m.Some? && m.value != 0 ==> r == m.value
  {
    match m
    case Some(v) => if v != 0 then v else 3
    case None => 3
  }

  /** The item addToSyncQueue builds from the caller's fields, a fresh id and the current time. */
  function NewItem(kind: SyncType, table: string, data: Record, maxRetries: Option<int>, id: string, now: int): (r: SyncQueueItem)
    ensures r.id == id && r.kind == kind && r.table == table && r.data == data && r.timestamp == now
    ensures r.retryCount == 0 && r.maxRetries != 0
  {
    SyncQueueItem(id, kind, table, data, now, 0, DefaultMaxRetries(maxRetries))
  }

  /** The reply to the next request; with no scripted reply left, fetch rejects. */
  function FirstReply(net: seq<Reply>): Reply {
    if net == [] then NetworkError else net[0]
  }

  function Rest(net: seq<Reply>, n: nat): seq<Reply> {
    if n <= |net| then net[n..] else []
  }

  /** Whether each of the next n requests succeeds. */
  function Outcomes(net: seq<Reply>, n: nat): (r: seq<bool>)
    ensures |r| == n
    ensures forall i :: 0 <= i < n ==> r[i] == (i < |net| && Succeeded(net[i]))
  {
    seq(n, i requires 0 <= i < n => i < |net| && Succeeded(net[i]))
  }

  lemma RestStep(net: seq<Reply>, i: nat)
    ensures Succeeded(FirstReply(Rest(net, i))) == (i < |net| && Succeeded(net[i]))
    ensures Rest(Rest(net, i), 1) == Rest(net, i + 1)
  {
  }

  /** The snapshot ids that a pass took out of the queue. */
  function RemovedIds(before: seq<SyncQueueItem>, after: seq<SyncQueueItem>): set<string> {
    set k | k in Ids(before) && k !in Ids(after)
  }

  /** The durable store after a pass: each item that left the queue is deleted from the queue store. */
  function AfterPassDisk(d: Disk, open: bool, before: seq<SyncQueueItem>, after: seq<SyncQueueItem>): Disk {
    if open then d.(queue := d.queue - RemovedIds(before, after)) else d
  }

  /** The data stores after clearOfflineData. */
  function EmptyStores(): (r: map<string, map<string, Record>>)
    ensures r.Keys == DataStores
    ensures forall t :: t in r ==> r[t] == map[]
  {
    map t | t in DataStores :: map[]
  }

  /** One attempt of a pass, seen from the rest of the pass. */
  lemma PassUnfold(q: seq<SyncQueueItem>, ids: seq<string>, oks: seq<bool>, item: SyncQueueItem)
    requires |ids| == |oks| && ids != [] && Lookup(q, ids[0]) == Some(item)
    ensures Pass(AfterAttempt(q, item, oks[0]), ids[1..], oks[1..]) == Pass(q, ids, oks)
  {
  }

  /** The durable queue store after one more attempt of a pass. */
  lemma AfterPassDiskStep(d: Disk, open: bool, q0: seq<SyncQueueItem>, q: seq<SyncQueueItem>, item: SyncQueueItem, ok: bool)
    requires item.id in Ids(q0)
    ensures var d1 := AfterPassDisk(d, open, q0, q);
      AfterPassDisk(d, open, q0, AfterAttempt(q, item, ok))
      == if open && Leaves(item, ok) then d1.(queue := d1.queue - {item.id}) else d1
  {
    IdsAfterAttempt(q, item, ok);
    var q1 := AfterAttempt(q, item, ok);
    if open {
      if Leaves(item, ok) {
        assert RemovedIds(q0, q1) == RemovedIds(q0, q) + {item.id};
        assert d.queue - RemovedIds(q0, q1) == (d.queue - RemovedIds(q0, q)) - {item.id};
      } else {
        assert RemovedIds(q0, q1) == RemovedIds(q0, q);
      }
    }
  }

  /**
   * A pass that started from queue q0, durable store d0 and reply stream
   * net0 has sent the requests so far, one per snapshot item in order; q,
   * pend, running, net and d are the manager's queue, unattempted ids, pass
   * flag, reply stream and durable store now, and the rest of the pass will
   * give the queue the whole pass gives.
   */
  ghost predicate PassValues(q0: seq<SyncQueueItem>, d0: Disk, net0: seq<Reply>, requests: seq<Request>,
                             q: seq<SyncQueueItem>, pend: seq<string>, running: bool, net: seq<Reply>, d: Disk, open: bool)
  {
    var i := |requests|;
    var oks := Outcomes(net0, |q0|);
    UniqueIds(q0) && i <= |q0|
    && pend == Ids(q0)[i..]
    && (running <==> i < |q0|)
    && Pass(q, pend, oks[i..]) == Pass(q0, Ids(q0), oks)
    && (forall k :: k in pend ==> Lookup(q, k) == Lookup(q0, k))
    && (forall j :: 0 <= j < i ==> requests[j] == SyncRequest(q0[j]))
    && net == Rest(net0, i)
    && d == AfterPassDisk(d0, open, q0, q)
    && IsSubsequence(Ids(q), Ids(q0))
  }

  /** PassValues from its conjuncts, each stated on its own. */
  lemma PassValuesIntro(q0: seq<SyncQueueItem>, d0: Disk, net0: seq<Reply>, requests: seq<Request>,
                        q: seq<SyncQueueItem>, pend: seq<string>, running: bool, net: seq<Reply>, d: Disk, open: bool)
    requires UniqueIds(q0) && |requests| <= |q0|
    requires pend == Ids(q0)[|requests|..]
    requires running <==> |requests| < |q0|
    requires Pass(q, pend, Outcomes(net0, |q0|)[|requests|..]) == Pass(q0, Ids(q0), Outcomes(net0, |q0|))
    requires forall k :: k in pend ==> Lookup(q, k) == Lookup(q0, k)
    requires forall j :: 0 <= j < |requests| ==> requests[j] == SyncRequest(q0[j])
    requires net == Rest(net0, |requests|)
    requires d == AfterPassDisk(d0, open, q0, q)
    requires IsSubsequence(Ids(q), Ids(q0))
    ensures PassValues(q0, d0, net0, requests, q, pend, running, net, d, open)
  {
  }

  /** The entries of the unattempted ids after one attempt: the attempted one is gone from them, the others keep theirs. */
  lemma AttemptKeepsLookups(q0: seq<SyncQueueItem>, q: seq<SyncQueueItem>, pend: seq<string>, item: SyncQueueItem, ok: bool)
    requires pend != [] && Distinct(pend) && Lookup(q, pend[0]) == Some(item)
    requires forall k :: k in pend ==> Lookup(q, k) == Lookup(q0, k)
    ensures forall k :: k in pend[1..] ==> Lookup(AfterAttempt(q, item, ok), k) == Lookup(q0, k)
  {
    DistinctTail(pend);
    forall k | k in pend[1..]
      ensures Lookup(AfterAttempt(q, item, ok), k) == Lookup(q0, k)
    {
      LookupStep(q, pend[0], ok, k);
    }
  }

  /** The next unattempted id of a pass on course finds the next snapshot item. */
  lemma NextItem(q0: seq<SyncQueueItem>, q: seq<SyncQueueItem>, pend: seq<string>, i: nat)
    requires UniqueIds(q0) && i < |q0| && pend == Ids(q0)[i..]
    requires forall k :: k in pend ==> Lookup(q, k) == Lookup(q0, k)
    ensures pend != [] && Lookup(q, pend[0]) == Some(q0[i])
  {
    assert pend[0] == Ids(q0)[i] && pend[0] in pend;
    LookupAt(q0, i);
  }

  /** After the next attempt, the rest of the pass still gives what the whole pass gives. */
  lemma PassAdvance(q0: seq<SyncQueueItem>, q: seq<SyncQueueItem>, pend: seq<string>, oks: seq<bool>, i: nat, item: SyncQueueItem)
    requires |oks| == |q0| && i < |oks| && |pend| == |oks| - i && Lookup(q, pend[0]) == Some(item)
    requires Pass(q, pend, oks[i..]) == Pass(q0, Ids(q0), oks)
    ensures Pass(AfterAttempt(q, item, oks[i]), pend[1..], oks[i + 1..]) == Pass(q0, Ids(q0), oks)
  {
    assert oks[i..][0] == oks[i] && oks[i..][1..] == oks[i + 1..];
    PassUnfold(q, pend, oks[i..], item);
  }

  /** The next attempt of a pass on course is at its next snapshot item, and keeps the pass on course. */
  lemma AttemptStep(q0: seq<SyncQueueItem>, d0: Disk, net0: seq<Reply>, requests: seq<Request>,
                    q: seq<SyncQueueItem>, pend: seq<string>, net: seq<Reply>, d: Disk, open: bool)
    requires PassValues(q0, d0, net0, requests, q, pend, true, net, d, open)
    requires UniqueIds(q) && Distinct(pend)
    ensures var item := q0[|requests|];
      var ok := Succeeded(FirstReply(net));
      var q1 := AfterAttempt(q, item, ok);
      Lookup(q, pend[0]) == Some(item)
      && PassValues(q0, d0, net0, requests + [SyncRequest(item)], q1, pend[1..], pend[1..] != [], Rest(net, 1),
                    if open && Leaves(item, ok) then d.(queue := d.queue - {item.id}) else d, open)
  {
    var i := |requests|;
    var oks := Outcomes(net0, |q0|);
    var item := q0[i];
    var ok := Succeeded(FirstReply(net));
    NextItem(q0, q, pend, i);
    RestStep(net0, i);
    assert ok == oks[i];
    PassAdvance(q0, q, pend, oks, i, item);
    AfterPassDiskStep(d0, open, q0, q, item, ok);
    var q1 := AfterAttempt(q, item, ok);
    IdsAfterAttempt(q, item, ok);
    SubsequenceTransitive(Ids(q1), Ids(q), Ids(q0));
    AttemptKeepsLookups(q0, q, pend, item, ok);
    assert pend[1..] == Ids(q0)[i + 1..];
    PassValuesIntro(q0, d0, net0, requests + [SyncRequest(item)], q1, pend[1..], pend[1..] != [], Rest(net, 1),
                    if open && Leaves(item, ok) then d.(queue := d.queue - {item.id}) else d, open);
  }

  class OfflineSyncManager {
    /** Whether initDB has completed, so that `db` is set. */
    var dbOpen: bool
    var disk: Disk
    var syncQueue: seq<SyncQueueItem>
    var isOnline: bool
    var syncInProgress: bool
    /** The ids of the running pass's snapshot that are not yet attempted, in queue order. */
    var pending: seq<string>
    /** The replies the server will give to the next requests, in order. */
    var network: seq<Reply>
    /** Every item addToSyncQueue has appended since construction, in order, whatever became of it. */
    ghost var pushed: seq<SyncQueueItem>

    ghost predicate Valid()
      reads this
    {
      UniqueIds(syncQueue)
      && (syncInProgress <==> pending != [])
      && Distinct(pending)
      && (forall k :: k in pending ==> k in Ids(syncQueue))
      && DiskValid(disk)
    }

    /** The manager as an import creates it: initDB still pending, so loadSyncQueue finds no database. */
    constructor(online: bool, persisted: Disk, server: seq<Reply>)
      requires DiskValid(persisted)
      ensures Valid()
      ensures !dbOpen && disk == persisted && syncQueue == []
      ensures isOnline == online && !syncInProgress && network == server && pushed == []
    {
      dbOpen := false;
      disk := persisted;
      syncQueue := [];
      isOnline := online;
      syncInProgress := false;
      pending := [];
      network := server;
      pushed := [];
      new;
      LoadSyncQueue();
    }

    /** initDB's success callback: the database handle becomes available. */
    method OpenDatabase()
      requires Valid()
      modifies this
      ensures Valid() && dbOpen
      ensures disk == old(disk) && syncQueue == old(syncQueue) && isOnline == old(isOnline)
      ensures syncInProgress == old(syncInProgress) && pending == old(pending) && network == old(network)
      ensures pushed == old(pushed)
    {
      dbOpen := true;
    }

    /** loadSyncQueue: with a database, the queue becomes the contents of the queue store. */
    method LoadSyncQueue()
      requires Valid() && !syncInProgress
      modifies this
      ensures Valid()
      ensures !old(dbOpen) ==> syncQueue == old(syncQueue)
      ensures old(dbOpen) ==> Lists(syncQueue, disk.queue)
      ensures dbOpen == old(dbOpen) && disk == old(disk) && isOnline == old(isOnline)
      ensures !syncInProgress && pending == old(pending) && network == old(network) && pushed == old(pushed)
    {
      if !dbOpen {
        return;
      }
      syncQueue := ListValues(disk.queue);
      ghost var ks :| ListedBy(syncQueue, disk.queue, ks);
      assert Ids(syncQueue) == ks;
    }

    /** The `online` listener: set the flag, then try a pass. */
    method HandleOnline() returns (requests: seq<Request>)
      requires Valid()
      modifies this
      ensures Valid() && isOnline && dbOpen == old(dbOpen) && pushed == old(pushed)
      ensures old(syncInProgress) || old(syncQueue) == [] ==>
        requests == [] && syncQueue == old(syncQueue) && disk == old(disk) && network == old(network)
        && pending == old(pending) && syncInProgress == old(syncInProgress)
      ensures !old(syncInProgress) && old(syncQueue) != [] ==>
        var n := |old(syncQueue)|;
        requests == Map(old(syncQueue), SyncRequest)
        && syncQueue == Pass(old(syncQueue), Ids(old(syncQueue)), Outcomes(old(network), n))
        && network == Rest(old(network), n)
        && disk == AfterPassDisk(old(disk), dbOpen, old(syncQueue), syncQueue)
        && !syncInProgress
    {
      isOnline := true;
      requests := ProcessSyncQueue();
    }

    /** The `offline` listener: only the flag changes. */
    method HandleOffline()
      modifies this
      ensures !isOnline
      ensures dbOpen == old(dbOpen) && disk == old(disk) && syncQueue == old(syncQueue)
      ensures syncInProgress == old(syncInProgress) && pending == old(pending) && network == old(network)
      ensures pushed == old(pushed)
    {
      isOnline := false;
    }

    /**
     * saveOfflineData: put the records into the table's store, then record
     * the time of the save. A table that names no store makes the transaction
     * throw before any put. Records put into the queue store or the metadata
     * store are not kept by the model: that store's contents afterwards are
     * left open, and only whether the puts succeed and the `lastSync` entry
     * written after them are stated.
     */
    method SaveOfflineData(table: string, records: seq<Record>, now: int) returns (ok: bool)
      requires Valid()
      modifies this
      ensures Valid()
      ensures !old(dbOpen) ==> ok && disk == old(disk)
      ensures old(dbOpen) ==> (ok <==> StoreAccepts(table, records))
      ensures old(dbOpen) && table in DataStores ==>
        var p := PutAll(old(disk).stores[table], records);
        ok == p.1
        && disk == old(disk).(stores := old(disk).stores[table := p.0],
                              lastSync := if p.1 then Some(now) else old(disk).lastSync)
      ensures old(dbOpen) && table == QueueStore ==>
        disk.stores == old(disk.stores) && disk.lastSync == if ok then Some(now) else old(disk).lastSync
      ensures old(dbOpen) && table == MetadataStore ==>
        disk.stores == old(disk.stores) && disk.queue == old(disk.queue) && (ok ==> disk.lastSync == Some(now))
      ensures old(dbOpen) && RecordTable(table) && table !in DataStores ==> !ok && disk == old(disk)
      ensures dbOpen == old(dbOpen) && syncQueue == old(syncQueue) && isOnline == old(isOnline)
      ensures syncInProgress == old(syncInProgress) && pending == old(pending) && network == old(network)
      ensures pushed == old(pushed)
    {
      if !dbOpen {
        return true;
      }
      if table == QueueStore || table == MetadataStore {
        ok := StoreAccepts(table, records);
        if ok {
          disk := disk.(lastSync := Some(now));
        }
        return;
      }
      if table !in DataStores {
        return false;
      }
      var p := PutAll(disk.stores[table], records);
      ok := p.1;
      disk := disk.(stores := disk.stores[table := p.0]);
      if ok {
        disk := disk.(lastSync := Some(now));
      }
    }

    /** getOfflineData: every entry of the table's store, or a rejection for an unknown store. */
    method GetOfflineData(table: string) returns (r: Option<Listing>)
      requires Valid()
      ensures !dbOpen ==> r == Some(RecordRows([]))
      ensures dbOpen && table in DataStores ==> r.Some? && r.value.RecordRows? && Lists(r.value.records, disk.stores[table])
      ensures dbOpen && table == QueueStore ==> r.Some? && r.value.QueueRows? && Lists(r.value.items, disk.queue)
      ensures dbOpen && table == MetadataStore ==>
        r.Some? && r.value.MetadataRows?
        && (r.value.times == [] <==> disk.lastSync.None?)
        && forall t :: t in r.value.times ==> disk.lastSync == Some(t)
      ensures dbOpen && RecordTable(table) && table !in DataStores ==> r == None
    {
      if !dbOpen {
        return Some(RecordRows([]));
      }
      if table == QueueStore {
        var items := ListValues(disk.queue);
        return Some(QueueRows(items));
      }
      if table == MetadataStore {
        return Some(MetadataRows(if disk.lastSync.Some? then [disk.lastSync.value] else []));
      }
      if table !in DataStores {
        return None;
      }
      var listing := ListValues(disk.stores[table]);
      r := Some(RecordRows(listing));
    }

    /** The snapshot item the running pass attempts next. */
    function InFlight(): (item: SyncQueueItem)
      requires Valid() && syncInProgress
      reads this
      ensures item in syncQueue && item.id == pending[0]
    {
      assert pending[0] in pending;
      Lookup(syncQueue, pending[0]).value
    }

    /** addToSyncQueue: append a new item, persist it, and start a pass when online. */
    method AddToSyncQueue(kind: SyncType, table: string, data: Record, maxRetries: Option<int>, id: string, now: int)
      returns (requests: seq<Request>)
      requires Valid() && id !in Ids(syncQueue)
      modifies this
      ensures Valid() && isOnline == old(isOnline) && dbOpen == old(dbOpen)
      ensures var item := NewItem(kind, table, data, maxRetries, id, now);
        var q1 := old(syncQueue) + [item];
        var d1 := if old(dbOpen) then old(disk).(queue := old(disk).queue[id := item]) else old(disk);
        if old(isOnline) && !old(syncInProgress) then
          requests == Map(q1, SyncRequest)
          && syncQueue == Pass(q1, Ids(q1), Outcomes(old(network), |q1|))
          && network == Rest(old(network), |q1|)
          && disk == AfterPassDisk(d1, dbOpen, q1, syncQueue)
          && !syncInProgress
        else
          requests == [] && syncQueue == q1 && disk == d1 && network == old(network)
          && pending == old(pending) && syncInProgress == old(syncInProgress)
      ensures forall k :: k in Ids(syncQueue) ==> k in Ids(old(syncQueue)) || k == id
      ensures disk.stores == old(disk.stores) && disk.lastSync == old(disk.lastSync)
      ensures pushed == old(pushed) + [NewItem(kind, table, data, maxRetries, id, now)]
    {
      var item := NewItem(kind, table, data, maxRetries, id, now);
      AppendFresh(syncQueue, item);
      var q1 := syncQueue + [item];
      syncQueue := q1;
      pushed := pushed + [item];
      if dbOpen {
        disk := disk.(queue := disk.queue[id := item]);
      }
      if isOnline {
        requests := ProcessSyncQueue();
      } else {
        requests := [];
      }
      if k :| k in Ids(syncQueue) && !(k in Ids(old(syncQueue)) || k == id) {
        SubsequenceMembers(Ids(syncQueue), Ids(q1), k);
        assert false;
      }
    }

    /** processSyncQueue's guard (line 148): not already running, online, and something queued. */
    predicate PassStarts()
      reads this
    {
      !syncInProgress && isOnline && syncQueue != []
    }

    /** The start of processSyncQueue: the guard, the flag, and the snapshot. */
    method StartSyncPass()
      requires Valid()
      modifies this
      ensures Valid()
      ensures old(PassStarts()) ==> syncInProgress && pending == Ids(syncQueue)
      ensures !old(PassStarts()) ==> pending == old(pending) && syncInProgress == old(syncInProgress)
      ensures syncQueue == old(syncQueue) && disk == old(disk) && isOnline == old(isOnline)
      ensures dbOpen == old(dbOpen) && network == old(network) && pushed == old(pushed)
    {
      if syncInProgress || !isOnline || |syncQueue| == 0 {
        return;
      }
      syncInProgress := true;
      pending := Ids(syncQueue);
    }

    /** removeSyncQueueItem: filter the item out of the queue and delete its durable copy. */
    method RemoveSyncQueueItem(id: string)
      requires Valid() && id !in pending
      modifies this
      ensures Valid()
      ensures syncQueue == RemoveById(old(syncQueue), id)
      ensures disk == if dbOpen then old(disk).(queue := old(disk).queue - {id}) else old(disk)
      ensures dbOpen == old(dbOpen) && isOnline == old(isOnline)
      ensures syncInProgress == old(syncInProgress) && pending == old(pending) && network == old(network)
      ensures pushed == old(pushed)
    {
      RemoveIds(syncQueue, id);
      syncQueue := RemoveById(syncQueue, id);
      if dbOpen {
        disk := disk.(queue := disk.queue - {id});
      }
    }

    /**
     * One iteration of processSyncQueue's loop: send the request for the next
     * snapshot item and act on the reply. Success removes the item; failure
     * counts a retry on the queued item and removes it once the retries are
     * used up. The durable copy is deleted with the item and otherwise left
     * as it is. The pass ends after its last item.
     */
    method CompleteAttempt() returns (request: Request)
      requires Valid() && syncInProgress
      modifies this
      ensures Valid()
      ensures var item := old(InFlight());
        var ok := Succeeded(FirstReply(old(network)));
        request == SyncRequest(item)
        && syncQueue == AfterAttempt(old(syncQueue), item, ok)
        && disk == if dbOpen && Leaves(item, ok) then old(disk).(queue := old(disk).queue - {item.id}) else old(disk)
      ensures pending == old(pending)[1..] && syncInProgress == (pending != [])
      ensures network == Rest(old(network), 1) && isOnline == old(isOnline) && dbOpen == old(dbOpen)
      ensures pushed == old(pushed)
    {
      var item := InFlight();
      request := SyncRequest(item);
      var reply := FirstReply(network);
      network := Rest(network, 1);
      DistinctTail(pending);
      pending := pending[1..];
      syncInProgress := pending != [];
      if Leaves(item, Succeeded(reply)) {
        RemoveSyncQueueItem(item.id);
      } else {
        IdsOfBump(syncQueue, item.id);
        syncQueue := BumpRetry(syncQueue, item.id);
      }
    }

    /** A pass that started from queue q0, durable store d0 and reply stream net0 is on course. */
    ghost predicate PassState(q0: seq<SyncQueueItem>, d0: Disk, net0: seq<Reply>, requests: seq<Request>)
      reads this
    {
      Valid() && PassValues(q0, d0, net0, requests, syncQueue, pending, syncInProgress, network, disk, dbOpen)
    }

    /** One loop iteration of processSyncQueue keeps the pass on course. */
    method AttemptInPass(ghost q0: seq<SyncQueueItem>, ghost d0: Disk, ghost net0: seq<Reply>, requests: seq<Request>)
      returns (more: seq<Request>)
      requires PassState(q0, d0, net0, requests) && syncInProgress
      modifies this
      ensures PassState(q0, d0, net0, more) && |more| == |requests| + 1
      ensures isOnline == old(isOnline) && dbOpen == old(dbOpen) && pushed == old(pushed)
    {
      AttemptStep(q0, d0, net0, requests, syncQueue, pending, network, disk, dbOpen);
      var req := CompleteAttempt();
      more := requests + [req];
    }

    /** processSyncQueue: when the guard lets it start, one attempt per snapshot item, in order. */
    method ProcessSyncQueue() returns (requests: seq<Request>)
      requires Valid()
      modifies this
      ensures Valid() && isOnline == old(isOnline) && dbOpen == old(dbOpen)
      ensures !old(PassStarts()) ==>
        requests == [] && syncQueue == old(syncQueue) && disk == old(disk) && network == old(network)
        && pending == old(pending) && syncInProgress == old(syncInProgress)
      ensures old(PassStarts()) ==>
        var n := |old(syncQueue)|;
        requests == Map(old(syncQueue), SyncRequest)
        && syncQueue == Pass(old(syncQueue), Ids(old(syncQueue)), Outcomes(old(network), n))
        && network == Rest(old(network), n)
        && disk == AfterPassDisk(old(disk), dbOpen, old(syncQueue), syncQueue)
        && !syncInProgress
      ensures IsSubsequence(Ids(syncQueue), Ids(old(syncQueue)))
      ensures pushed == old(pushed)
    {
      if !PassStarts() {
        SubsequenceReflexive(Ids(syncQueue));
        return [];
      }
      ghost var q0 := syncQueue;
      ghost var net0 := network;
      ghost var d0 := disk;
      StartSyncPass();
      SubsequenceReflexive(Ids(q0));
      requests := [];
      while syncInProgress
        invariant PassState(q0, d0, net0, requests)
        invariant isOnline == old(isOnline) && dbOpen == old(dbOpen) && pushed == old(pushed)
        decreases |q0| - |requests|
      {
        requests := AttemptInPass(q0, d0, net0, requests);
      }
      assert requests == Map(q0, SyncRequest);
    }

    /** getLastSyncTime: the stored time, or 0 without a database or a stored time. */
    function GetLastSyncTime(): (t: int)
      reads this
      ensures !dbOpen ==> t == 0
      ensures dbOpen ==> t == disk.lastSync.GetOr(0)
    {
      if !dbOpen then 0 else disk.lastSync.GetOr(0)
    }

    function GetSyncQueueLength(): (n: nat)
      reads this
      ensures n == |syncQueue|
    {
      |syncQueue|
    }

    predicate IsOffline()
      reads this
    {
      !isOnline
    }

    /** clearOfflineData: empty the four data stores and the queue store; metadata and memory are kept. */
    method ClearOfflineData()
      requires Valid()
      modifies this
      ensures Valid()
      ensures old(dbOpen) ==> disk == Disk(EmptyStores(), map[], old(disk).lastSync)
      ensures !old(dbOpen) ==> disk == old(disk)
      ensures GetSyncQueueLength() == old(GetSyncQueueLength())
      ensures dbOpen == old(dbOpen) && syncQueue == old(syncQueue) && isOnline == old(isOnline)
      ensures syncInProgress == old(syncInProgress) && pending == old(pending) && network == old(network)
      ensures pushed == old(pushed)
    {
      if dbOpen {
        disk := Disk(EmptyStores(), map[], disk.lastSync);
      }
    }
  }

  /**
   * A page load as written: the manager is built, initDB then succeeds, but
   * loadSyncQueue already ran before it did, so the queue left in the
   * durable store by the previous session is not in memory.
   */
  method RestartAsWritten(online: bool, persisted: Disk, server: seq<Reply>) returns (queued: nat)
    requires DiskValid(persisted) && persisted.queue != map[]
    ensures queued == 0 && queued < |persisted.queue|
  {
    var m := new OfflineSyncManager(online, persisted, server);
    m.OpenDatabase();
    queued := m.GetSyncQueueLength();
  }

  /**
   * A page load that reads the queue back once the database is open: the
   * in-memory queue holds exactly the persisted items, one per stored key.
   */
  method RestartWithReload(online: bool, persisted: Disk, server: seq<Reply>) returns (queue: seq<SyncQueueItem>)
    requires DiskValid(persisted)
    ensures Lists(queue, persisted.queue)
    ensures |queue| == |persisted.queue|
  {
    var m := new OfflineSyncManager(online, persisted, server);
    m.OpenDatabase();
    m.LoadSyncQueue();
    queue := m.syncQueue;
  }
}
