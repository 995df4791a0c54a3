/** The registry of queues: one queue object per identifier, each the only user
    of the column family of that name. */
module KueueManager {
  import opened KeyCodec
  import opened QueueStore
  import opened Kueue

  lemma ValuesLess(m: map<string, KueueImpl>, id: string)
    requires id in m
    ensures m.Values == (m - {id}).Values + {m[id]}
  {
    forall q | q in m.Values
      ensures q in (m - {id}).Values + {m[id]}
    {
      var k :| k in m && m[k] == q;
      assert k != id ==> (m - {id})[k] == q;
    }
  }

  class KueueManagerImpl {
    var store: StoreImpl?
    var queues: map<string, KueueImpl>
    /** The queue objects that have been deleted. */
    var deleted: set<KueueImpl>

    ghost function Footprint(): set<object>
      reads this
    {
      (if store == null then {} else {store}) + (set id | id in queues :: queues[id])
    }

    predicate IsOpen()
      reads this, store
    {
      store != null && store.open
    }

    /** Every queue is registered under the name of its family and exists. */
    ghost predicate Valid()
      reads this, Footprint()
    {
      && (!IsOpen() ==> queues == map[])
      && (forall id :: id in queues ==>
            queues[id].store == store && queues[id].kind == id && queues[id] !in deleted)
    }

    /** A store that failed to open is closed and dropped. */
    constructor (impl: StoreImpl)
      ensures Valid() && store == (if impl.open then impl else null) && queues == map[] && deleted == {}
    {
      store := if impl.open then impl else null;
      queues, deleted := map[], {};
    }

    /** The same object for the same identifier as long as the manager is open;
        a new queue, with the indices read back from the store, for a new one;
        null and Closed after close. `vals` is what the family is known to hold. */
    method Get(id: string, ioKind: int, min: Lookup, max: Lookup, ghost vals: seq<Bytes>)
      returns (status: int, queue: KueueImpl?)
      requires Valid()
      modifies this`queues, store
      ensures Valid() && store == old(store) && IsOpen() == old(IsOpen())
      ensures !IsOpen() ==> status == CLOSED && queue == null && unchanged(this) && (store != null ==> unchanged(store))
      ensures IsOpen() ==> status == OK && queue != null && queues == old(queues)[id := queue]
      ensures IsOpen() && id in old(queues) ==> queue == old(queues)[id] && unchanged(store)
      ensures IsOpen() && id !in old(queues) ==>
                && fresh(queue) && queue.totalPuts == 0 && queue.totalTakes == 0 && queue.contents == vals
                && store.families == (if id !in old(store.families) && ioKind == OK
                                      then old(store.families)[id := map[]] else old(store.families))
                && if id in store.families && min.code == OK && max.code == OK
                   then ReadBack(store.families[id], min, max,
                                 Indices(queue.minKey, queue.maxKey, queue.count, queue.isValid))
                   else !queue.isValid
    {
      if !IsOpen() {
        return CLOSED, null;
      }
      if id in queues {
        return OK, queues[id];
      }
      var made := new KueueImpl(store, id, ioKind, min, max, vals);
      queues := queues[id := made];
      return OK, made;
    }

    method DeleteQueues()
      modifies this`deleted
      ensures deleted == old(deleted) + queues.Values
    {
      var rest := queues;
      while rest != map[]
        invariant deleted + rest.Values == old(deleted) + queues.Values
        decreases |rest|
      {
        var id :| id in rest;
        deleted := deleted + {rest[id]};
        ValuesLess(rest, id);
        rest := rest - {id};
      }
    }

    /** Deletes the queue objects one by one, then the store. */
    method Close()
      requires Valid()
      modifies this, store
      ensures Valid() && !IsOpen() && queues == map[]
      ensures store == (if old(IsOpen()) then null else old(store))
      ensures deleted == old(deleted) + old(queues).Values
      ensures old(store) != null ==> old(store).families == old(store.families) && !old(store).open
    {
      if IsOpen() {
        DeleteQueues();
        queues := map[];
        store.open := false;
        store := null;
      }
    }
  }
}
