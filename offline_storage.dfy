/**
 * The useOfflineStorage hook of hooks/use-offline-storage.ts. It keeps one
 * table's records in component state, loads them once from the offline
 * store, and writes changes through to the store and the sync queue of the
 * shared OfflineSyncManager.
 */
module OfflineStorage {
  import opened Common
  import opened OfflineSync

  /** saveData's argument: a single record or an array of them. */
  datatype SaveArg = One(record: Record) | Many(records: seq<Record>)

  /** `Array.isArray(newData) ? newData : [newData]`. */
  function Records(arg: SaveArg): (rs: seq<Record>)
    ensures arg.One? ==> rs == [arg.record]
    ensures arg.Many? ==> rs == arg.records
  {
    match arg
    case One(r) => [r]
    case Many(rs) => rs
  }

  /** Array.prototype.findIndex on `item.id === id`: the first matching index, or -1. */
  function FindIndex(s: seq<Record>, id: Option<string>): (i: int)
    ensures -1 <= i < |s|
    ensures i >= 0 ==> s[i].id == id && forall j :: 0 <= j < i ==> s[j].id != id
    ensures i == -1 ==> forall j :: 0 <= j < |s| ==> s[j].id != id
  {
    if s == [] then -1
    else if s[0].id == id then 0
    else
      var k := FindIndex(s[1..], id);
      if k < 0 then -1 else k + 1
  }

  /** The setData updater of saveData for a single record. */
  function Upsert(prev: seq<Record>, r: Record): seq<Record> {
    var i := FindIndex(prev, r.id);
    if i >= 0 then prev[i := r] else prev + [r]
  }

  /** A record whose id is already present replaces the first record with that id, in place. */
  lemma UpsertReplacesFirst(prev: seq<Record>, r: Record, i: int)
    requires 0 <= i < |prev| && prev[i].id == r.id
    requires forall j :: 0 <= j < i ==> prev[j].id != r.id
    ensures |Upsert(prev, r)| == |prev|
    ensures Upsert(prev, r)[i] == r
    ensures forall j :: 0 <= j < |prev| && j != i ==> Upsert(prev, r)[j] == prev[j]
  {
  }

  /** A record with an id not yet present is appended. */
  lemma UpsertAppends(prev: seq<Record>, r: Record)
    requires forall j :: 0 <= j < |prev| ==> prev[j].id != r.id
    ensures Upsert(prev, r) == prev + [r]
  {
  }

  /** Saving the same record twice is saving it once. */
  lemma UpsertIdempotent(prev: seq<Record>, r: Record)
    ensures Upsert(Upsert(prev, r), r) == Upsert(prev, r)
    ensures r in Upsert(prev, r)
  {
    var i := FindIndex(prev, r.id);
    var next := Upsert(prev, r);
    if i >= 0 {
      UpsertReplacesFirst(next, r, i);
      assert Upsert(next, r) == next;
    } else {
      assert next[|prev|] == r;
      UpsertReplacesFirst(next, r, |prev|);
      assert Upsert(next, r) == next;
    }
  }

  /** The state after saveData: an array replaces everything, a single record is upserted. */
  function SavedState(prev: seq<Record>, arg: SaveArg): seq<Record> {
    match arg
    case Many(rs) => rs
    case One(r) => Upsert(prev, r)
  }

  /** The setData updater of deleteData. */
  function RemoveRecord(prev: seq<Record>, id: string): (next: seq<Record>)
    ensures forall x :: x in next <==> x in prev && x.id != Some(id)
    ensures IsSubsequence(next, prev)
  {
    FilterIsSubsequence(prev, (x: Record) => x.id != Some(id));
    Filter(prev, (x: Record) => x.id != Some(id))
  }

  /** Deleting an id no record carries leaves the list as it is. */
  lemma RemoveAbsent(prev: seq<Record>, id: string)
    requires forall j :: 0 <= j < |prev| ==> prev[j].id != Some(id)
    ensures RemoveRecord(prev, id) == prev
  {
    FilterAll(prev, (x: Record) => x.id != Some(id));
  }

  /** A JavaScript-truthy id: present and not the empty string. */
  predicate TruthyId(r: Record) {
    r.id.Some? && r.id.value != ""
  }

  /** `item.id ? "update" : "create"`. */
  function KindFor(r: Record): (k: SyncType)
    ensures k == Update <==> TruthyId(r)
    ensures k != Delete
  {
    if TruthyId(r) then Update else Create
  }

  /** The queue items saveData adds for its records, one per record, in order. */
  function QueueItemsFor(table: string, rs: seq<Record>, ids: seq<string>, now: int): (items: seq<SyncQueueItem>)
    requires |ids| == |rs|
    ensures |items| == |rs|
    ensures forall i :: 0 <= i < |rs| ==>
      items[i].data == rs[i] && items[i].id == ids[i] && items[i].table == table
      && items[i].kind == KindFor(rs[i]) && items[i].maxRetries == 3 && items[i].retryCount == 0
  {
    seq(|rs|, i requires 0 <= i < |rs| => NewItem(KindFor(rs[i]), table, rs[i], Some(3), ids[i], now))
  }

  class OfflineStorageHook {
    const manager: OfflineSyncManager
    const table: string
    var data: seq<Record>
    var isLoading: bool
    var isOnline: bool

    ghost predicate Valid()
      reads this, manager
    {
      manager.Valid()
    }

    /** The hook's initial state, before its effect has run. */
    constructor(manager: OfflineSyncManager, table: string, initialData: seq<Record>, online: bool)
      requires manager.Valid()
      ensures Valid() && this.manager == manager && this.table == table
      ensures data == initialData && isLoading && isOnline == online
    {
      this.manager := manager;
      this.table := table;
      data := initialData;
      isLoading := true;
      isOnline := online;
    }

    /**
     * loadOfflineData: a non-empty stored table replaces the state; loading
     * ends either way. The state holds records, so the queue items or
     * metadata entries that the two other stores list are not taken over.
     */
    method Load()
      requires Valid()
      modifies this
      ensures Valid() && !isLoading && isOnline == old(isOnline)
      ensures !manager.dbOpen
        || (RecordTable(table) && (table !in DataStores || manager.disk.stores[table] == map[]))
        ==> data == old(data)
      ensures manager.dbOpen && table in DataStores && manager.disk.stores[table] != map[] ==>
        Lists(data, manager.disk.stores[table])
    {
      var r := manager.GetOfflineData(table);
      if r.Some? && r.value.RecordRows? && |r.value.records| > 0 {
        data := r.value.records;
      }
      isLoading := false;
    }

    /** handleOnlineStatus. */
    method SetOnline(online: bool)
      modifies this
      ensures isOnline == online && data == old(data) && isLoading == old(isLoading)
    {
      isOnline := online;
    }

    /**
     * saveData: update the state, write the records to the offline store, and
     * then enqueue one create or update per record, in order, online or not.
     * A rejected write ends the call before anything is enqueued.
     */
    method SaveData(arg: SaveArg, ids: seq<string>, now: int) returns (stored: bool)
      requires Valid()
      requires |ids| == |Records(arg)| && Distinct(ids)
      requires forall k :: k in ids ==> k !in Ids(manager.syncQueue)
      modifies this, manager
      ensures Valid() && isLoading == old(isLoading) && isOnline == old(isOnline)
      ensures data == SavedState(old(data), arg)
      ensures stored <==> !old(manager.dbOpen) || StoreAccepts(table, Records(arg))
      ensures old(manager.dbOpen) && table in DataStores ==>
        manager.disk.stores == old(manager.disk.stores)[table := PutAll(old(manager.disk.stores)[table], Records(arg)).0]
      ensures !old(manager.dbOpen) || table !in DataStores ==> manager.disk.stores == old(manager.disk.stores)
      ensures !stored ==> manager.syncQueue == old(manager.syncQueue) && manager.pushed == old(manager.pushed)
      ensures stored ==> manager.pushed == old(manager.pushed) + QueueItemsFor(table, Records(arg), ids, now)
      ensures stored && !old(manager.isOnline) ==>
        manager.syncQueue == old(manager.syncQueue) + QueueItemsFor(table, Records(arg), ids, now)
      ensures forall k :: k in Ids(manager.syncQueue) ==> k in Ids(old(manager.syncQueue)) || k in ids
    {
      var rs := Records(arg);
      data := SavedState(data, arg);
      stored := manager.SaveOfflineData(table, rs, now);
      if !stored {
        return;
      }
      EnqueueAll(rs, ids, now);
    }

    /** The forEach of saveData: one addToSyncQueue per record, in order. */
    method EnqueueAll(rs: seq<Record>, ids: seq<string>, now: int)
      requires manager.Valid()
      requires |ids| == |rs| && Distinct(ids)
      requires forall k :: k in ids ==> k !in Ids(manager.syncQueue)
      modifies manager
      ensures manager.Valid()
      ensures manager.isOnline == old(manager.isOnline) && manager.dbOpen == old(manager.dbOpen)
      ensures manager.disk.stores == old(manager.disk.stores)
      ensures manager.pushed == old(manager.pushed) + QueueItemsFor(table, rs, ids, now)
      ensures !manager.isOnline ==> manager.syncQueue == old(manager.syncQueue) + QueueItemsFor(table, rs, ids, now)
      ensures forall k :: k in Ids(manager.syncQueue) ==> k in Ids(old(manager.syncQueue)) || k in ids
    {
      ghost var q0 := manager.syncQueue;
      var i := 0;
      while i < |rs|
        invariant 0 <= i <= |rs|
        invariant manager.Valid()
        invariant manager.isOnline == old(manager.isOnline) && manager.dbOpen == old(manager.dbOpen)
        invariant manager.disk.stores == old(manager.disk.stores)
        invariant forall j :: i <= j < |ids| ==> ids[j] !in Ids(manager.syncQueue)
        invariant forall k :: k in Ids(manager.syncQueue) ==> k in Ids(q0) || k in ids[..i]
        invariant manager.pushed == old(manager.pushed) + QueueItemsFor(table, rs[..i], ids[..i], now)
        invariant !manager.isOnline ==> manager.syncQueue == q0 + QueueItemsFor(table, rs[..i], ids[..i], now)
      {
        assert ids[i] in ids[i..];
        Enqueue(rs[i], ids[i], now);
        forall j | i + 1 <= j < |ids|
          ensures ids[j] !in Ids(manager.syncQueue)
        {
          assert ids[j] != ids[i];
        }
        assert ids[..i + 1] == ids[..i] + [ids[i]];
        assert rs[..i + 1] == rs[..i] + [rs[i]];
        assert QueueItemsFor(table, rs[..i + 1], ids[..i + 1], now)
            == QueueItemsFor(table, rs[..i], ids[..i], now) + [NewItem(KindFor(rs[i]), table, rs[i], Some(3), ids[i], now)];
        i := i + 1;
      }
      assert rs[..i] == rs && ids[..i] == ids;
    }

    /** One addToSyncQueue of saveData, for a record with a fresh id. */
    method Enqueue(r: Record, id: string, now: int)
      requires manager.Valid() && id !in Ids(manager.syncQueue)
      modifies manager
      ensures manager.Valid()
      ensures manager.isOnline == old(manager.isOnline) && manager.dbOpen == old(manager.dbOpen)
      ensures manager.disk.stores == old(manager.disk.stores)
      ensures manager.pushed == old(manager.pushed) + [NewItem(KindFor(r), table, r, Some(3), id, now)]
      ensures !manager.isOnline ==> manager.syncQueue == old(manager.syncQueue) + [NewItem(KindFor(r), table, r, Some(3), id, now)]
      ensures forall k :: k in Ids(manager.syncQueue) ==> k in Ids(old(manager.syncQueue)) || k == id
    {
      var _ := manager.AddToSyncQueue(KindFor(r), table, r, Some(3), id, now);
    }

    /** deleteData: drop the records with this id from the state and enqueue one delete of `{id}`. */
    method DeleteData(id: string, freshId: string, now: int)
      requires Valid() && freshId !in Ids(manager.syncQueue)
      modifies this, manager
      ensures Valid() && isLoading == old(isLoading) && isOnline == old(isOnline)
      ensures data == RemoveRecord(old(data), id)
      ensures manager.disk.stores == old(manager.disk.stores)
      ensures manager.pushed == old(manager.pushed) + [NewItem(Delete, table, Record(Some(id), map[]), Some(3), freshId, now)]
      ensures !old(manager.isOnline) ==>
        manager.syncQueue == old(manager.syncQueue) + [NewItem(Delete, table, Record(Some(id), map[]), Some(3), freshId, now)]
    {
      data := RemoveRecord(data, id);
      var _ := manager.AddToSyncQueue(Delete, table, Record(Some(id), map[]), Some(3), freshId, now);
    }

    /** refresh: the loading flag is raised and lowered again; the data is not reloaded. */
    method Refresh()
      modifies this
      ensures !isLoading && data == old(data) && isOnline == old(isOnline)
    {
      isLoading := true;
      isLoading := false;
    }
  }
}
