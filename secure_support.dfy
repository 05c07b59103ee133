/**
 * The indexer behind the support assistant: it owns the encryption key (read
 * from, or generated into, the key file), a single cached handle on the index
 * `support_tickets`, and the transitions between "no handle", "index loaded"
 * and "index recreated after a failed load". Tickets are embedded and upserted
 * in one batch; search results are reshaped for the UI.
 */
module SecureSupport {
  import opened Wrappers
  import opened Records
  import opened VectorStore
  import opened LocalDisk

  /** The one index the indexer manages. */
  const IndexName: string := "support_tickets"
  /** The ticket file a recovery re-indexes from. */
  const TicketsPath: string := "tickets.json"
  /** `search`'s default number of results. */
  const DefaultTopK: nat := 3

  /** Errors `load_tickets` raises: the missing file, and the per-ticket average over an empty list. */
  datatype Error = FileNotFound(path: string) | ZeroDivision

  /** The reshaped search result: `{'ids': [[...]], 'metadata': [[...]]}`. */
  datatype Formatted = Formatted(ids: seq<seq<string>>, metadata: seq<seq<Metadata>>)

  // ---------------------------------------------------------------------------
  // Upsert items

  function MetadataOf(t: Ticket): Metadata {
    map["text" := t.text, "category" := t.category]
  }

  function ItemFor(t: Ticket, embed: string -> Vector): UpsertItem {
    UpsertItem(t.id, embed(t.text), MetadataOf(t))
  }

  /** The upsert batch for a ticket list, one item per ticket, built front to back. */
  function ItemsFor(tickets: seq<Ticket>, embed: string -> Vector): (items: seq<UpsertItem>)
    ensures |items| == |tickets|
    decreases |tickets|
  {
    if tickets == [] then []
    else ItemsFor(tickets[..|tickets| - 1], embed) + [ItemFor(tickets[|tickets| - 1], embed)]
  }

  /** The batch has one item per ticket; item `i` carries ticket `i`'s id, the embedding of its text, and exactly its text and category as metadata. */
  lemma {:induction false} ItemsForAt(tickets: seq<Ticket>, embed: string -> Vector, i: nat)
    requires i < |tickets|
    ensures var item := ItemsFor(tickets, embed)[i];
      && item.id == tickets[i].id
      && item.vector == embed(tickets[i].text)
      && item.metadata.Keys == {"text", "category"}
      && item.metadata["text"] == tickets[i].text
      && item.metadata["category"] == tickets[i].category
    decreases |tickets|
  {
    var n := |tickets| - 1;
    if i < n {
      ItemsForAt(tickets[..n], embed, i);
    } else if n > 0 {
      ItemsForAt(tickets[..n], embed, 0);
    }
  }

  /** Distinct ticket ids give a batch with distinct item ids. */
  lemma ItemsForDistinct(tickets: seq<Ticket>, embed: string -> Vector)
    requires DistinctIds(tickets)
    ensures DistinctItemIds(ItemsFor(tickets, embed))
  {
    forall i, j | 0 <= i < j < |ItemsFor(tickets, embed)|
      ensures ItemsFor(tickets, embed)[i].id != ItemsFor(tickets, embed)[j].id
    {
      ItemsForAt(tickets, embed, i);
      ItemsForAt(tickets, embed, j);
    }
  }

  /** The batch writes exactly the tickets' ids. */
  lemma ItemsForIds(tickets: seq<Ticket>, embed: string -> Vector)
    ensures Ids(ItemsFor(tickets, embed)) == set t | t in tickets :: t.id
  {
    var items := ItemsFor(tickets, embed);
    forall x | x in Ids(items) ensures x in set t | t in tickets :: t.id {
      var i :| 0 <= i < |items| && items[i].id == x;
      ItemsForAt(tickets, embed, i);
    }
    forall t | t in tickets ensures t.id in Ids(items) {
      var i :| 0 <= i < |tickets| && tickets[i] == t;
      ItemsForAt(tickets, embed, i);
    }
  }

  /** Ticket `i` is the last one of the list with its id. */
  predicate LastWithId(tickets: seq<Ticket>, i: nat)
    requires i < |tickets|
  {
    forall j :: i < j < |tickets| ==> tickets[j].id != tickets[i].id
  }

  /** After upserting a ticket batch, every ticket not overridden later in the list is stored under its id with its embedding and metadata. */
  lemma TicketsStored(store: map<string, Entry>, tickets: seq<Ticket>, embed: string -> Vector, i: nat)
    requires i < |tickets| && LastWithId(tickets, i)
    ensures tickets[i].id in Upserted(store, ItemsFor(tickets, embed))
    ensures Upserted(store, ItemsFor(tickets, embed))[tickets[i].id] == Entry(embed(tickets[i].text), MetadataOf(tickets[i]))
  {
    var items := ItemsFor(tickets, embed);
    ItemsForAt(tickets, embed, i);
    forall j | i < j < |items| ensures items[j].id != items[i].id {
      ItemsForAt(tickets, embed, j);
    }
    UpsertedLastWins(store, items, i);
  }

  /**
   * The item-building loop of `load_tickets` and `_load_tickets_internal`:
   * embed each ticket's text and append its item.
   */
  method BuildItems(tickets: seq<Ticket>, embed: string -> Vector) returns (items: seq<UpsertItem>)
    ensures items == ItemsFor(tickets, embed)
    ensures |items| == |tickets|
    ensures forall i :: 0 <= i < |items| ==>
      items[i].id == tickets[i].id && items[i].vector == embed(tickets[i].text) && items[i].metadata == MetadataOf(tickets[i])
  {
    items := [];
    for k := 0 to |tickets|
      invariant items == ItemsFor(tickets[..k], embed)
    {
      assert tickets[..k + 1][..k] == tickets[..k];
      items := items + [ItemFor(tickets[k], embed)];
    }
    assert tickets[..|tickets|] == tickets;
    forall i | 0 <= i < |items|
      ensures items[i].id == tickets[i].id && items[i].vector == embed(tickets[i].text) && items[i].metadata == MetadataOf(tickets[i])
    {
      ItemsForAt(tickets, embed, i);
    }
  }

  // ---------------------------------------------------------------------------
  // Search result reshaping

  /** `search`'s reshaping: one inner list of ids and one of metadata, in result order, with `''` and `{}` for missing fields. */
  function FormatResults(results: seq<Hit>): (f: Formatted)
    ensures |f.ids| == 1 && |f.metadata| == 1
    ensures |f.ids[0]| == |results| && |f.metadata[0]| == |results|
    ensures forall i :: 0 <= i < |results| ==>
      && f.ids[0][i] == (if results[i].id.Some? then results[i].id.value else "")
      && f.metadata[0][i] == (if results[i].metadata.Some? then results[i].metadata.value else map[])
  {
    Formatted(
      [seq(|results|, i requires 0 <= i < |results| => results[i].id.GetOr(""))],
      [seq(|results|, i requires 0 <= i < |results| => results[i].metadata.GetOr(map[]))])
  }

  /** How the UI reads a reshaped result back: the two inner lists zipped into (id, metadata) pairs. */
  function Zipped(f: Formatted): seq<Hit>
    requires |f.ids| == 1 && |f.metadata| == 1 && |f.ids[0]| == |f.metadata[0]|
  {
    seq(|f.ids[0]|, i requires 0 <= i < |f.ids[0]| => Hit(Some(f.ids[0][i]), Some(f.metadata[0][i])))
  }

  /** Reshaping loses nothing when every result carries both fields: zipping gives back the results. */
  lemma FormatResultsRoundTrip(results: seq<Hit>)
    requires forall i :: 0 <= i < |results| ==> results[i].id.Some? && results[i].metadata.Some?
    ensures Zipped(FormatResults(results)) == results
  {
  }

  // ---------------------------------------------------------------------------
  // Index lifecycle, as relations between service states

  /** What a recreation leaves under the index name: a fresh index bound to `key`, holding the re-indexed tickets if there is a ticket file. */
  function RecreatedIndex(key: Key, source: Option<seq<Ticket>>, embed: string -> Vector): RemoteIndex {
    RemoteIndex(key, if source.Some? then Upserted(map[], ItemsFor(source.value, embed)) else map[])
  }

  /** The requests a recreation sends: delete, create with `key`, and the re-index batch if there is a ticket file. */
  function RecreateCalls(key: Key, source: Option<seq<Ticket>>, embed: string -> Vector): seq<Call> {
    [DeleteIndexCall(IndexName), CreateIndexCall(IndexName, key)]
      + (if source.Some? then [UpsertCall(IndexHandle(IndexName, key), ItemsFor(source.value, embed))] else [])
  }

  /**
   * The outcomes of `_ensure_index` from service state `before` (request log
   * `log0`) to `after` (`log1`): nothing at all when a handle is cached;
   * otherwise one listing, then a create when the name is absent, or a load
   * with `key` that either succeeds (the index was created with `key`) or is
   * followed by a recreation.
   */
  ghost predicate EnsureOutcome(cached: bool, key: Key, source: Option<seq<Ticket>>, embed: string -> Vector,
                                before: map<string, RemoteIndex>, log0: seq<Call>,
                                after: map<string, RemoteIndex>, log1: seq<Call>)
  {
    if cached then
      after == before && log1 == log0
    else if IndexName !in before then
      && after == before[IndexName := RemoteIndex(key, map[])]
      && log1 == log0 + [ListIndexesCall, CreateIndexCall(IndexName, key)]
    else
      var attempted := log0 + [ListIndexesCall, LoadIndexCall(IndexName, key)];
      || (before[IndexName].key == key && after == before && log1 == attempted)
      || (after == before[IndexName := RecreatedIndex(key, source, embed)] && log1 == attempted + RecreateCalls(key, source, embed))
  }

  /** On a cache miss the index ends bound to `key`, every other index is untouched, and an index created with another key is always recreated. */
  lemma EnsureOutcomeBinds(key: Key, source: Option<seq<Ticket>>, embed: string -> Vector,
                           before: map<string, RemoteIndex>, log0: seq<Call>,
                           after: map<string, RemoteIndex>, log1: seq<Call>)
    requires EnsureOutcome(false, key, source, embed, before, log0, after, log1)
    ensures IndexName in after && after[IndexName].key == key
    ensures after - {IndexName} == before - {IndexName}
    ensures IndexName in before && before[IndexName].key != key ==>
      after[IndexName] == RecreatedIndex(key, source, embed) && log1[|log0| + 2..] == RecreateCalls(key, source, embed)
  {
  }

  /** A recreation from a ticket file with distinct ids holds exactly one entry per ticket. */
  lemma RecreatedSize(key: Key, tickets: seq<Ticket>, embed: string -> Vector)
    requires DistinctIds(tickets)
    ensures |RecreatedIndex(key, Some(tickets), embed).items| == |tickets|
  {
    ItemsForDistinct(tickets, embed);
    if tickets != [] {
      ItemsForAt(tickets, embed, 0);
    }
    UpsertedSize(map[], ItemsFor(tickets, embed));
  }

  // ---------------------------------------------------------------------------
  // The indexer

  class SecureSupportRAG {
    const client: CyborgClient
    const disk: Disk
    /** The sentence embedder, a function of the text alone. */
    const model: string -> Vector
    var encryptionKey: Key
    /** The cached index handle; None until the first `EnsureIndex`. */
    var index: Option<IndexHandle>

    /** A cached handle is always the managed index opened with the current key, and that index exists under that key. */
    ghost predicate Valid()
      reads this, client
    {
      index.Some? ==> index.value == IndexHandle(IndexName, encryptionKey) && client.Opens(index.value)
    }

    /** The ticket file a recovery re-indexes from, if it exists. */
    ghost function ReindexSource(): Option<seq<Ticket>>
      reads disk
    {
      if TicketsPath in disk.ticketFiles then Some(disk.ticketFiles[TicketsPath]) else None
    }

    /** `__init__`: connects to the service and loads or creates the key; no index is opened yet. */
    constructor(client: CyborgClient, disk: Disk, model: string -> Vector)
      modifies client`log, disk`keyFile
      ensures this.client == client && this.disk == disk && this.model == model
      ensures Valid() && index == None
      ensures disk.keyFile == Some(encryptionKey)
      ensures old(disk.keyFile).Some? ==> encryptionKey == old(disk.keyFile).value && client.log == old(client.log)
      ensures old(disk.keyFile).None? ==> client.log == old(client.log) + [GenerateKeyCall(encryptionKey)]
    {
      this.client := client;
      this.disk := disk;
      this.model := model;
      encryptionKey := [];
      index := None;
      new;
      encryptionKey := GetOrCreateKey();
    }

    /**
     * `_get_or_create_key`: the key file's bytes verbatim when it exists;
     * otherwise one freshly generated key, written to the key file.
     */
    method GetOrCreateKey() returns (key: Key)
      modifies disk`keyFile, client`log
      ensures disk.keyFile == Some(key)
      ensures old(disk.keyFile).Some? ==> key == old(disk.keyFile).value && client.log == old(client.log)
      ensures old(disk.keyFile).None? ==> client.log == old(client.log) + [GenerateKeyCall(key)]
    {
      if disk.keyFile.Some? {
        key := disk.keyFile.value;
      } else {
        key := client.GenerateKey();
        disk.keyFile := Some(key);
      }
    }

    /** `_ensure_index`: afterwards a handle bound to the current key is cached. */
    method EnsureIndex()
      requires Valid()
      modifies this`index, client
      ensures Valid() && index == Some(IndexHandle(IndexName, encryptionKey))
      ensures EnsureOutcome(old(index).Some?, encryptionKey, ReindexSource(), model,
                            old(client.indexes), old(client.log), client.indexes, client.log)
    {
      if index.Some? {
        return;
      }
      var existing := client.ListIndexes();
      if IndexName in existing {
        var loaded := client.LoadIndex(IndexName, encryptionKey);
        if loaded.Some? {
          index := loaded;
        } else {
          // any load failure is taken for a key mismatch
          DeleteAndRecreateIndex();
        }
      } else {
        var handle := client.CreateIndex(IndexName, encryptionKey);
        index := Some(handle);
      }
    }

    /**
     * `_delete_and_recreate_index`: a best-effort delete whose failure is
     * ignored, a fresh index under the current key, and a full re-index from
     * the ticket file when it exists.
     */
    method DeleteAndRecreateIndex()
      modifies this`index, client
      ensures Valid() && index == Some(IndexHandle(IndexName, encryptionKey))
      ensures client.indexes == old(client.indexes)[IndexName := RecreatedIndex(encryptionKey, ReindexSource(), model)]
      ensures client.log == old(client.log) + RecreateCalls(encryptionKey, ReindexSource(), model)
    {
      var deleted := client.DeleteIndex(IndexName);
      var handle := client.CreateIndex(IndexName, encryptionKey);
      index := Some(handle);
      if TicketsPath in disk.ticketFiles {
        var count := LoadTicketsInternal(TicketsPath);
      }
    }

    /** `_load_tickets_internal`: reads a ticket file and upserts its batch through the cached handle, without ensuring the index. */
    method LoadTicketsInternal(filepath: string) returns (r: Result<nat, Error>)
      requires index.Some? && client.Opens(index.value)
      modifies client
      ensures filepath !in disk.ticketFiles ==>
        r == Failure(FileNotFound(filepath)) && client.indexes == old(client.indexes) && client.log == old(client.log)
      ensures filepath in disk.ticketFiles ==>
        var tickets := disk.ticketFiles[filepath];
        var items := ItemsFor(tickets, model);
        && r == Success(|tickets|)
        && client.indexes == old(client.indexes)[index.value.name := RemoteIndex(index.value.key, Upserted(old(client.indexes)[index.value.name].items, items))]
        && client.log == old(client.log) + [UpsertCall(index.value, items)]
    {
      if filepath !in disk.ticketFiles {
        return Failure(FileNotFound(filepath));
      }
      var tickets := disk.ticketFiles[filepath];
      var items := BuildItems(tickets, model);
      client.Upsert(index.value, items);
      return Success(|tickets|);
    }

    /** The upsert `load_tickets` makes after ensuring the index, from service state `mid` (log `midLog`) to `after` (`log1`), and what it returns. */
    ghost predicate LoadOutcome(filepath: string, r: Result<nat, Error>,
                                mid: map<string, RemoteIndex>, midLog: seq<Call>,
                                after: map<string, RemoteIndex>, log1: seq<Call>)
      reads this, disk
    {
      if filepath !in disk.ticketFiles then
        r == Failure(FileNotFound(filepath)) && after == mid && log1 == midLog
      else
        var tickets := disk.ticketFiles[filepath];
        var items := ItemsFor(tickets, model);
        && r == (if |tickets| == 0 then Failure(ZeroDivision) else Success(|tickets|))
        && IndexName in mid
        && after == mid[IndexName := RemoteIndex(encryptionKey, Upserted(mid[IndexName].items, items))]
        && log1 == midLog + [UpsertCall(IndexHandle(IndexName, encryptionKey), items)]
    }

    /**
     * `load_tickets`: ensures the index, reads the file and upserts one
     * batch; returns the ticket count, or the error raised by a missing file
     * or, after the upsert, by averaging over zero tickets.
     */
    method LoadTickets(filepath: string) returns (r: Result<nat, Error>)
      requires Valid()
      modifies this`index, client
      ensures Valid() && index == Some(IndexHandle(IndexName, encryptionKey))
      ensures exists mid, midLog ::
        && EnsureOutcome(old(index).Some?, encryptionKey, ReindexSource(), model, old(client.indexes), old(client.log), mid, midLog)
        && LoadOutcome(filepath, r, mid, midLog, client.indexes, client.log)
    {
      EnsureIndex();
      ghost var mid, midLog := client.indexes, client.log;
      if filepath !in disk.ticketFiles {
        r := Failure(FileNotFound(filepath));
        assert LoadOutcome(filepath, r, mid, midLog, client.indexes, client.log);
        return;
      }
      var tickets := disk.ticketFiles[filepath];
      var items := BuildItems(tickets, model);
      client.Upsert(index.value, items);
      if |tickets| == 0 {
        r := Failure(ZeroDivision);
      } else {
        r := Success(|tickets|);
      }
      assert LoadOutcome(filepath, r, mid, midLog, client.indexes, client.log);
    }

    /**
     * `search`: ensures the index, then queries it with the embedded question
     * and reshapes the results; the inner lists hold `min(topK, size)`
     * distinct stored ids, each with its stored metadata.
     */
    method Search(query: string, topK: nat := DefaultTopK) returns (formatted: Formatted)
      requires Valid()
      modifies this`index, client
      ensures Valid() && index == Some(IndexHandle(IndexName, encryptionKey))
      ensures |client.log| > 0 && client.log[|client.log| - 1] == QueryCall(IndexHandle(IndexName, encryptionKey), model(query), topK)
      ensures EnsureOutcome(old(index).Some?, encryptionKey, ReindexSource(), model,
                            old(client.indexes), old(client.log), client.indexes, client.log[..|client.log| - 1])
      ensures var stored := client.indexes[IndexName].items;
        && |formatted.ids| == 1 && |formatted.metadata| == 1
        && |formatted.ids[0]| == Min(topK, |stored|) && |formatted.metadata[0]| == |formatted.ids[0]|
        && (forall i :: 0 <= i < |formatted.ids[0]| ==>
              formatted.ids[0][i] in stored && formatted.metadata[0][i] == stored[formatted.ids[0][i]].metadata)
        && (forall i, j :: 0 <= i < j < |formatted.ids[0]| ==> formatted.ids[0][i] != formatted.ids[0][j])
    {
      EnsureIndex();
      ghost var midLog := client.log;
      var results := client.Query(index.value, model(query), topK);
      formatted := FormatResults(results);
      assert client.log[..|client.log| - 1] == midLog;
    }

    /**
     * `reset_index`: removes the key file, persists a freshly generated key,
     * drops the cached handle and recreates the index under the new key.
     */
    method ResetIndex()
      modifies this`encryptionKey, this`index, client, disk`keyFile
      ensures Valid() && index == Some(IndexHandle(IndexName, encryptionKey))
      ensures disk.keyFile == Some(encryptionKey)
      ensures client.indexes == old(client.indexes)[IndexName := RecreatedIndex(encryptionKey, ReindexSource(), model)]
      ensures client.log == old(client.log) + [GenerateKeyCall(encryptionKey)] + RecreateCalls(encryptionKey, ReindexSource(), model)
    {
      if disk.keyFile.Some? {
        disk.keyFile := None;
      }
      encryptionKey := GetOrCreateKey();
      index := None;
      DeleteAndRecreateIndex();
    }
  }
}
