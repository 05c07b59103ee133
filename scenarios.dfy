/**
 * End-to-end runs of the indexer against a service and a working directory
 * it creates itself: a cold start, a repeated ensure, a restart, a key
 * mismatch and a reset. Each returns what an operator could observe.
 */
module Scenarios {
  import opened Wrappers
  import opened Records
  import opened VectorStore
  import opened LocalDisk
  import opened SecureSupport
  import TicketGenerator

  /**
   * A first run in an empty directory against an empty service: generate the
   * ticket file, start the indexer, load the tickets and search with the
   * default `topK`. The key is generated with one request and persisted, the
   * index is created under it, all hundred tickets are stored, and the search
   * shows three of them.
   */
  method ColdStart(choices: seq<nat>, model: string -> Vector)
    returns (generated: bool, persisted: bool, created: bool, loaded: Result<nat, Error>, stored: nat, shown: nat)
    requires |choices| == TicketGenerator.TicketCount
    requires forall k :: 0 <= k < |choices| ==> choices[k] < |TicketGenerator.Issues|
    ensures generated && persisted && created
    ensures loaded == Success(100) && stored == 100 && shown == 3
  {
    var tickets := TicketGenerator.GenerateTickets(choices);
    var disk := new Disk(None, map[TicketsPath := tickets]);
    var client := new CyborgClient(map[]);
    var rag := new SecureSupportRAG(client, disk, model);
    generated := client.log == [GenerateKeyCall(rag.encryptionKey)];
    persisted := disk.keyFile == Some(rag.encryptionKey);
    ghost var key := rag.encryptionKey;
    ghost var log0 := client.log;
    loaded := rag.LoadTickets(TicketsPath);
    ghost var mid, midLog :|
      && EnsureOutcome(false, key, Some(tickets), model, map[], log0, mid, midLog)
      && rag.LoadOutcome(TicketsPath, loaded, mid, midLog, client.indexes, client.log);
    var items := ItemsFor(tickets, model);
    assert client.indexes[IndexName].items == Upserted(map[], items);
    ItemsForDistinct(tickets, model);
    UpsertedSize(map[], items);
    stored := |client.indexes[IndexName].items|;
    created := CreateIndexCall(IndexName, rag.encryptionKey) in client.log && client.indexes[IndexName].key == rag.encryptionKey;
    var formatted := rag.Search("How to fix SIM error?");
    shown := |formatted.ids[0]|;
  }

  /** Ensuring twice: the first call sends at least a listing and a load or create, the second sends nothing. */
  method EnsureTwice(keyFile: Option<Key>, remote: map<string, RemoteIndex>, ticketFiles: map<string, seq<Ticket>>,
                     model: string -> Vector)
    returns (firstCalls: nat, secondCalls: nat)
    ensures firstCalls >= 2 && secondCalls == 0
  {
    var disk := new Disk(keyFile, ticketFiles);
    var client := new CyborgClient(remote);
    var rag := new SecureSupportRAG(client, disk, model);
    var before := |client.log|;
    rag.EnsureIndex();
    var between := |client.log|;
    rag.EnsureIndex();
    firstCalls := between - before;
    secondCalls := |client.log| - between;
  }

  /**
   * A restart: a second indexer in the same directory reads the persisted
   * key instead of generating one. The index the first run left is still
   * there under that key with its items, and the second run's first attempt
   * is a load with that key.
   */
  method Restart(remote: map<string, RemoteIndex>, ticketFiles: map<string, seq<Ticket>>, model: string -> Vector)
    returns (firstKey: Key, secondKey: Key, generatedOnRestart: bool,
             storedKey: Key, itemsKept: bool, secondAttempt: Call)
    ensures firstKey == secondKey && !generatedOnRestart
    ensures storedKey == secondKey && itemsKept
    ensures secondAttempt == LoadIndexCall(IndexName, secondKey)
  {
    var disk := new Disk(None, ticketFiles);
    var client := new CyborgClient(remote);
    var first := new SecureSupportRAG(client, disk, model);
    first.EnsureIndex();
    firstKey := first.encryptionKey;
    var firstItems := client.indexes[IndexName].items;
    var logBefore := client.log;
    var second := new SecureSupportRAG(client, disk, model);
    generatedOnRestart := client.log != logBefore;
    secondKey := second.encryptionKey;
    storedKey := client.indexes[IndexName].key;
    itemsKept := client.indexes[IndexName].items == firstItems;
    var logAtEnsure := client.log;
    second.EnsureIndex();
    secondAttempt := client.log[|logAtEnsure| + 1];
  }

  /**
   * A key file that no longer matches the stored index: the load fails, the
   * index is deleted and recreated under the file's key, and it holds exactly
   * the re-indexed tickets of the ticket file, whatever the old index held.
   */
  method KeyMismatch(oldKey: Key, fileKey: Key, oldItems: map<string, Entry>, tickets: seq<Ticket>, model: string -> Vector)
    returns (boundKey: Key, deleteRequested: bool, onlyTickets: bool, freshIndex: bool)
    requires oldKey != fileKey
    ensures boundKey == fileKey && deleteRequested && onlyTickets
    ensures freshIndex
  {
    var disk := new Disk(Some(fileKey), map[TicketsPath := tickets]);
    var client := new CyborgClient(map[IndexName := RemoteIndex(oldKey, oldItems)]);
    var rag := new SecureSupportRAG(client, disk, model);
    ghost var before, log0 := client.indexes, client.log;
    rag.EnsureIndex();
    EnsureOutcomeBinds(fileKey, Some(tickets), model, before, log0, client.indexes, client.log);
    boundKey := client.indexes[IndexName].key;
    deleteRequested := DeleteIndexCall(IndexName) in client.log;
    assert client.log[|log0| + 2] == DeleteIndexCall(IndexName);
    UpsertedKeys(map[], ItemsFor(tickets, model));
    ItemsForIds(tickets, model);
    onlyTickets := client.indexes[IndexName].items.Keys == set t | t in tickets :: t.id;
    freshIndex := client.indexes[IndexName] == RecreatedIndex(fileKey, Some(tickets), model);
  }

  /**
   * A reset: the new key is persisted, and the key in use before the reset no
   * longer opens the index unless the service generated the same key again.
   */
  method Reset(keyFile: Option<Key>, remote: map<string, RemoteIndex>, ticketFiles: map<string, seq<Ticket>>,
               model: string -> Vector)
    returns (oldKey: Key, newKey: Key, persisted: bool, reopened: Option<IndexHandle>)
    ensures persisted
    ensures oldKey != newKey ==> reopened == None
  {
    var disk := new Disk(keyFile, ticketFiles);
    var client := new CyborgClient(remote);
    var rag := new SecureSupportRAG(client, disk, model);
    rag.EnsureIndex();
    oldKey := rag.encryptionKey;
    rag.ResetIndex();
    newKey := rag.encryptionKey;
    persisted := disk.keyFile == Some(newKey);
    reopened := client.LoadIndex(IndexName, oldKey);
  }
}
