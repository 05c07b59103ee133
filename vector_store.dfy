/**
 * The hosted encrypted vector service, seen from the client SDK: a set of named
 * indexes, each bound at creation to one encryption key and holding a map from
 * item id to (vector, metadata). Encryption and similarity ranking belong to the
 * service and are not modelled; what is modelled is which calls succeed, what
 * they leave in the store, and the log of calls the service has received.
 */
module VectorStore {
  import opened Wrappers
  import opened Records

  /** What the service stores under one item id. */
  datatype Entry = Entry(vector: Vector, metadata: Metadata)

  /** A remote index: the key it was created with and its items. */
  datatype RemoteIndex = RemoteIndex(key: Key, items: map<string, Entry>)

  /** A loaded index as the client holds it: the index name and the key it was opened with. */
  datatype IndexHandle = IndexHandle(name: string, key: Key)

  /** One query result; the service may leave out either field. */
  datatype Hit = Hit(id: Option<string>, metadata: Option<Metadata>)

  /** One request received by the service. */
  datatype Call =
    | GenerateKeyCall(key: Key)
    | ListIndexesCall
    | CreateIndexCall(name: string, key: Key)
    | LoadIndexCall(name: string, key: Key)
    | DeleteIndexCall(name: string)
    | UpsertCall(handle: IndexHandle, items: seq<UpsertItem>)
    | QueryCall(handle: IndexHandle, vector: Vector, topK: nat)

  function Min(a: nat, b: nat): nat {
    if a <= b then a else b
  }

  function EntryOf(item: UpsertItem): Entry {
    Entry(item.vector, item.metadata)
  }

  /** The ids a batch writes. */
  function Ids(items: seq<UpsertItem>): set<string> {
    set i | 0 <= i < |items| :: items[i].id
  }

  /** The items of an index after an upsert batch: each item, in batch order, overwrites the entry under its id. */
  function Upserted(store: map<string, Entry>, items: seq<UpsertItem>): map<string, Entry>
    decreases |items|
  {
    if items == [] then store
    else Upserted(store[items[0].id := EntryOf(items[0])], items[1..])
  }

  lemma IdsCons(items: seq<UpsertItem>)
    requires items != []
    ensures Ids(items) == {items[0].id} + Ids(items[1..])
  {
  }

  /** An upsert adds exactly the batch's ids to the index's ids. */
  lemma {:induction false} UpsertedKeys(store: map<string, Entry>, items: seq<UpsertItem>)
    ensures Upserted(store, items).Keys == store.Keys + Ids(items)
    decreases |items|
  {
    if items != [] {
      UpsertedKeys(store[items[0].id := EntryOf(items[0])], items[1..]);
      IdsCons(items);
    }
  }

  /** An entry whose id the batch does not mention is left as it was. */
  lemma {:induction false} UpsertedUntouched(store: map<string, Entry>, items: seq<UpsertItem>, id: string)
    requires id !in Ids(items)
    ensures id in Upserted(store, items) <==> id in store
    ensures id in store ==> Upserted(store, items)[id] == store[id]
    decreases |items|
  {
    if items != [] {
      IdsCons(items);
      UpsertedUntouched(store[items[0].id := EntryOf(items[0])], items[1..], id);
    }
  }

  /** Last write wins: the item of a batch that no later item overrides is what the index holds under its id. */
  lemma {:induction false} UpsertedLastWins(store: map<string, Entry>, items: seq<UpsertItem>, i: nat)
    requires i < |items|
    requires forall j :: i < j < |items| ==> items[j].id != items[i].id
    ensures items[i].id in Upserted(store, items)
    ensures Upserted(store, items)[items[i].id] == EntryOf(items[i])
    decreases |items|
  {
    var next := store[items[0].id := EntryOf(items[0])];
    if i == 0 {
      forall x | x in Ids(items[1..]) ensures x != items[0].id {
        var j :| 0 <= j < |items[1..]| && items[1..][j].id == x;
        assert items[j + 1].id == x;
      }
      UpsertedUntouched(next, items[1..], items[0].id);
    } else {
      forall j | i - 1 < j < |items[1..]| ensures items[1..][j].id != items[1..][i - 1].id {
        assert items[1..][j] == items[j + 1];
      }
      UpsertedLastWins(next, items[1..], i - 1);
    }
  }

  /** A batch of distinct new ids grows the index by exactly the batch's length. */
  lemma {:induction false} UpsertedSize(store: map<string, Entry>, items: seq<UpsertItem>)
    requires DistinctItemIds(items)
    requires Ids(items) !! store.Keys
    ensures |Upserted(store, items)| == |store| + |items|
    decreases |items|
  {
    if items != [] {
      var next := store[items[0].id := EntryOf(items[0])];
      IdsCons(items);
      assert items[0].id !in store;
      assert |next| == |store| + 1;
      forall x | x in Ids(items[1..]) ensures x !in next {
        var j :| 0 <= j < |items[1..]| && items[1..][j].id == x;
        assert items[j + 1].id == x;
      }
      assert DistinctItemIds(items[1..]) by {
        forall a, b | 0 <= a < b < |items[1..]| ensures items[1..][a].id != items[1..][b].id {
          assert items[1..][a] == items[a + 1] && items[1..][b] == items[b + 1];
        }
      }
      UpsertedSize(next, items[1..]);
    }
  }

  /**
   * The client SDK together with the service behind it. `indexes` is the
   * service's state, `log` the requests it has received, oldest first.
   */
  class CyborgClient {
    var indexes: map<string, RemoteIndex>
    var log: seq<Call>

    constructor(indexes: map<string, RemoteIndex>)
      ensures this.indexes == indexes && log == []
    {
      this.indexes := indexes;
      log := [];
    }

    /** `handle` names an index that exists and was created with the handle's key. */
    ghost predicate Opens(handle: IndexHandle)
      reads this
    {
      handle.name in indexes && indexes[handle.name].key == handle.key
    }

    /** `generate_key`: random key bytes, chosen by the service. */
    method GenerateKey() returns (key: Key)
      modifies this`log
      ensures log == old(log) + [GenerateKeyCall(key)]
    {
      key := *;
      log := log + [GenerateKeyCall(key)];
    }

    /** `list_indexes`: the names of the existing indexes. */
    method ListIndexes() returns (names: set<string>)
      modifies this`log
      ensures names == indexes.Keys
      ensures log == old(log) + [ListIndexesCall]
    {
      names := indexes.Keys;
      log := log + [ListIndexesCall];
    }

    /** `create_index`: a fresh, empty index bound to `key`; an index of the same name is replaced. */
    method CreateIndex(name: string, key: Key) returns (handle: IndexHandle)
      modifies this
      ensures handle == IndexHandle(name, key) && Opens(handle)
      ensures indexes == old(indexes)[name := RemoteIndex(key, map[])]
      ensures log == old(log) + [CreateIndexCall(name, key)]
    {
      indexes := indexes[name := RemoteIndex(key, map[])];
      handle := IndexHandle(name, key);
      log := log + [CreateIndexCall(name, key)];
    }

    /**
     * `load_index`: fails (None) when the index is missing or was created with
     * another key, and may fail for any other reason; it succeeds only with
     * the index's own key.
     */
    method LoadIndex(name: string, key: Key) returns (handle: Option<IndexHandle>)
      modifies this`log
      ensures (name !in indexes || indexes[name].key != key) ==> handle == None
      ensures handle.Some? ==> handle.value == IndexHandle(name, key) && Opens(handle.value)
      ensures log == old(log) + [LoadIndexCall(name, key)]
    {
      var otherFailure: bool := *;
      if name in indexes && indexes[name].key == key && !otherFailure {
        handle := Some(IndexHandle(name, key));
      } else {
        handle := None;
      }
      log := log + [LoadIndexCall(name, key)];
    }

    /** `delete_index`: fails (false) when the index is missing, and may fail for any other reason. */
    method DeleteIndex(name: string) returns (deleted: bool)
      modifies this
      ensures deleted ==> name in old(indexes) && indexes == old(indexes) - {name}
      ensures !deleted ==> indexes == old(indexes)
      ensures log == old(log) + [DeleteIndexCall(name)]
    {
      var otherFailure: bool := *;
      deleted := name in indexes && !otherFailure;
      if deleted {
        indexes := indexes - {name};
      }
      log := log + [DeleteIndexCall(name)];
    }

    /** `index.upsert(items)`: writes the batch into the handle's index. */
    method Upsert(handle: IndexHandle, items: seq<UpsertItem>)
      requires Opens(handle)
      modifies this
      ensures indexes == old(indexes)[handle.name := RemoteIndex(handle.key, Upserted(old(indexes)[handle.name].items, items))]
      ensures log == old(log) + [UpsertCall(handle, items)]
    {
      indexes := indexes[handle.name := RemoteIndex(handle.key, Upserted(indexes[handle.name].items, items))];
      log := log + [UpsertCall(handle, items)];
    }

    /**
     * `index.query(...)`: `min(topK, size)` distinct stored items with their
     * metadata. Which items rank first is the service's similarity ranking,
     * left unspecified here.
     */
    method Query(handle: IndexHandle, vector: Vector, topK: nat) returns (hits: seq<Hit>)
      requires Opens(handle)
      modifies this`log
      ensures var stored := indexes[handle.name].items;
        && |hits| == Min(topK, |stored|)
        && (forall i :: 0 <= i < |hits| ==>
              hits[i].id.Some? && hits[i].id.value in stored && hits[i].metadata == Some(stored[hits[i].id.value].metadata))
        && (forall i, j :: 0 <= i < j < |hits| ==> hits[i].id != hits[j].id)
      ensures log == old(log) + [QueryCall(handle, vector, topK)]
    {
      var stored := indexes[handle.name].items;
      var remaining := stored.Keys;
      hits := [];
      while |hits| < topK && remaining != {}
        invariant remaining <= stored.Keys
        invariant |hits| + |remaining| == |stored.Keys|
        invariant |hits| <= topK
        invariant forall i :: 0 <= i < |hits| ==>
          hits[i].id.Some? && hits[i].id.value in stored && hits[i].id.value !in remaining
          && hits[i].metadata == Some(stored[hits[i].id.value].metadata)
        invariant forall i, j :: 0 <= i < j < |hits| ==> hits[i].id != hits[j].id
        decreases remaining
      {
        var id :| id in remaining;
        hits := hits + [Hit(Some(id), Some(stored[id].metadata))];
        remaining := remaining - {id};
      }
      log := log + [QueryCall(handle, vector, topK)];
    }
  }
}
