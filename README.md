# SecureSupport indexer, modelled in Dafny

SecureSupport answers questions over a synthetic set of telecom support tickets.
Its own logic is small, and this project models it:

- **The indexer** (`SecureSupportRAG`). It owns the encryption key, which it reads
  from the key file `encryption_key.bin` or generates through the vector service
  and writes there. It caches one handle on the encrypted index `support_tickets`.
  Before any upsert or search it ensures that index: it loads the index when the
  name exists and creates it when it does not. When a load fails, it deletes and
  recreates the index under the current key and re-indexes `tickets.json` if that
  file exists. An explicit reset throws the key away, persists a new one and
  recreates the index. Tickets are embedded and sent as one upsert batch. Search
  results are reshaped into the `{'ids': [[...]], 'metadata': [[...]]}` form the UI reads.
- **The ticket generator.** It builds one hundred tickets, `ticket_0` to `ticket_99`.
  Each is made from an issue drawn from a table of ten.

How the pieces are modelled:

- The encrypted vector service (CyborgDB) is the class `VectorStore.CyborgClient`.
  Its state is a map from index name to (creation key, items by id), plus the log
  of requests it has received.
- `load_index` fails whenever the stored key differs from the supplied one. It may
  also fail for any other reason (the body draws an arbitrary boolean).
- `delete_index` fails when the index is missing, and may also fail otherwise.
- `generate_key` returns arbitrary bytes.
- `query` returns `min(top_k, size)` distinct stored items in an unspecified order.
- The working directory is the class `LocalDisk.Disk`: the key file's bytes, or
  none, and the ticket files that exist, already parsed.
- The sentence embedder is an uninterpreted function `string -> Vector`.
- The generator's random draw is a parameter: `choices[i]` is the table row drawn
  for ticket `i`.

Most properties are stated as relations between service states. One example is
`SecureSupport.EnsureOutcome`, which relates the service state and request log
before an ensure to the state and log after it. The indexer's methods are proved
to satisfy these relations. The `Scenarios` module composes the operations end to
end: a cold start, a repeated ensure, a restart, a key mismatch and a reset.

The model follows the code, not the wider intent, in these places:

- Any exception from `load_index` triggers recreation, not only a key mismatch
  (rag_system.py:64-67).
- On a cold start `_ensure_index` creates an empty index. The tickets arrive through
  `load_tickets`, not through the ensure step (rag_system.py:68-73, 117-148).

## Model

| member | source | states |
|---|---|---|
| `SecureSupport.SecureSupportRAG.constructor` | rag_system.py:14-33 | No handle is cached. The key is the key file's content when the file exists, with no call to the service. Otherwise it is one generated key, now stored in the key file. |
| `SecureSupport.SecureSupportRAG.GetOrCreateKey` | rag_system.py:35-47 | Returns the key file's bytes verbatim and makes no request when the file exists. Otherwise it makes exactly one `generate_key` request and writes that key to the file. Either way, the key file afterwards holds the returned key. |
| `SecureSupport.SecureSupportRAG.EnsureIndex` | rag_system.py:49-74 | Afterwards a handle on `support_tickets`, bound to the current key and opening an existing index, is cached. The transition satisfies `EnsureOutcome`: with a cached handle it makes no request and changes nothing. On a miss it lists once, then loads or creates with the current key. A failed load is followed by a recreation. |
| `SecureSupport.EnsureOutcomeBinds` | rag_system.py:55-73 | After a cache miss the index is bound to the current key and every other index is untouched. An index created with a different key is always recreated, with exactly the recreation's requests after the listing and the load. |
| `SecureSupport.SecureSupportRAG.DeleteAndRecreateIndex` | rag_system.py:76-95 | A delete request is made whether or not it fails. The index is then a fresh one under the current key, holding the re-indexed `tickets.json` when that file exists and empty otherwise. Other indexes are unchanged, and the handle is cached. |
| `SecureSupport.RecreatedSize` | rag_system.py:92-95 | Re-indexing a ticket file whose ids are distinct leaves exactly one entry per ticket. |
| `SecureSupport.SecureSupportRAG.LoadTicketsInternal` | rag_system.py:97-115 | Sends one upsert batch, built from the file, through the cached handle without ensuring the index, and returns the ticket count. A missing file is an error that changes nothing. |
| `SecureSupport.SecureSupportRAG.LoadTickets` | rag_system.py:117-148 | Ensures the index (`EnsureOutcome`), then makes one upsert of the file's batch and returns the ticket count. A missing file is an error raised after the ensure. An empty file raises the division-by-zero error after its empty upsert. |
| `SecureSupport.ItemsFor` | rag_system.py:102-114 | An upsert batch has exactly one item per ticket. |
| `SecureSupport.ItemsForAt` | rag_system.py:105-112 | Item `i` has ticket `i`'s id and the embedding of ticket `i`'s text. Its metadata has exactly the keys `text` and `category`, copied from the ticket. |
| `SecureSupport.ItemsForDistinct` | rag_system.py:105-106 | Tickets with distinct ids give a batch with distinct item ids. |
| `SecureSupport.ItemsForIds` | rag_system.py:103-106 | A batch writes exactly the set of its tickets' ids. |
| `SecureSupport.TicketsStored` | rag_system.py:102-114 | After the upsert, every ticket not overridden later in the list is stored under its id, with its embedding and its metadata. |
| `SecureSupport.BuildItems` | rag_system.py:130-140 | The append loop builds, in ticket order, one item per ticket, with the ticket's id, the embedding of its text and its `{text, category}` metadata. |
| `SecureSupport.SecureSupportRAG.Search` | rag_system.py:150-176 | Ensures the index (`EnsureOutcome`) before the single query, which is sent through the current-key handle with the embedded question; `topK` defaults to 3. The result has `min(topK, size)` distinct stored ids, each with its stored metadata. |
| `SecureSupport.FormatResults` | rag_system.py:171-174 | There is one inner list of ids and one of metadata, each as long as the results and in the same order. A missing id becomes `''` and missing metadata becomes `{}`. |
| `SecureSupport.FormatResultsRoundTrip` | rag_system.py:171-174 | When every result carries both fields, zipping the two inner lists, as the UI does, gives back the results. |
| `SecureSupport.SecureSupportRAG.ResetIndex` | rag_system.py:178-196 | From any state, including one with a stale cached handle: the key file afterwards holds the current key, and that key was freshly generated, with exactly one `generate_key` request. The index is recreated under the new key, with the handle cached and other indexes untouched. |
| `VectorStore.CyborgClient.GenerateKey` | rag_system.py:43 | One `generate_key` request, which changes no index. |
| `VectorStore.CyborgClient.ListIndexes` | rag_system.py:55 | Returns exactly the names of the existing indexes. |
| `VectorStore.CyborgClient.CreateIndex` | rag_system.py:70-73 | The named index is now empty and bound to the key, and the returned handle opens it. Other indexes are unchanged. |
| `VectorStore.CyborgClient.LoadIndex` | rag_system.py:60-67 | Fails whenever the index is missing or was created with another key. A success returns a handle that opens the index. No index changes. |
| `VectorStore.CyborgClient.DeleteIndex` | rag_system.py:78-83 | A reported deletion removes exactly that index. A failure changes nothing. |
| `VectorStore.CyborgClient.Upsert` | rag_system.py:114 | The handle's index now holds the batch written in order over its old items, last write winning. Other indexes are unchanged. |
| `VectorStore.CyborgClient.Query` | rag_system.py:161-165 | Returns `min(topK, size)` hits with distinct ids, each a stored id with its stored metadata, and changes no index. |
| `VectorStore.UpsertedKeys` | rag_system.py:114 | An upsert adds exactly the batch's ids to the index's ids. |
| `VectorStore.UpsertedUntouched` | rag_system.py:114 | An entry whose id the batch does not mention stays as it was. |
| `VectorStore.UpsertedLastWins` | rag_system.py:114 | The last item of a batch with a given id is what the index holds under that id. |
| `VectorStore.UpsertedSize` | rag_system.py:114 | A batch of distinct new ids grows the index by exactly the batch's length. |
| `TicketGenerator.IssueTable` | generate_tickets.py:4-44 | The issue table has ten rows, and each row's category is one of roaming, technical, billing, network and porting. |
| `TicketGenerator.NatToString` | generate_tickets.py:50 | Decimal notation is never empty, and it has at least two digits from 10 on. |
| `TicketGenerator.NatToStringInjective` | generate_tickets.py:50 | Different numbers have different decimal notations. |
| `TicketGenerator.TicketIdInjective` | generate_tickets.py:50 | Different positions give different `ticket_<i>` ids. |
| `TicketGenerator.GenerateTickets` | generate_tickets.py:46-54 | Exactly 100 tickets are built. Ticket `i` has id `ticket_<i>` and text `Issue: <problem> \| Solution: <solution>`, with its category taken from the drawn row and hence one of the five. Ids are pairwise distinct. |
| `Scenarios.ColdStart` | rag_system.py:199-203 | Starts with an empty directory, an empty service and a generated `tickets.json`. The key comes from exactly one `generate_key` request, made by the constructor, and is persisted. The index is created under that key, loading returns 100, the index holds 100 entries, and the default search shows 3. |
| `Scenarios.EnsureTwice` | rag_system.py:49-52 | The first ensure sends at least two requests; a second ensure right after sends none. |
| `Scenarios.Restart` | rag_system.py:35-67 | A second indexer in the same directory reads the persisted key with no `generate_key` request. Before its ensure, the index the first run left still exists under that key with the same items, and the second ensure's load request carries that key. |
| `Scenarios.KeyMismatch` | rag_system.py:59-95 | With a key file that differs from the stored index's key, a delete of the index is requested (the request itself may fail). The index then equals the fresh recreation under the file's key holding only the re-indexed ticket file, so its ids are exactly the tickets' ids and none of the old items remain. |
| `Scenarios.Reset` | rag_system.py:178-196 | After a reset the new key is persisted. The old key no longer opens the index unless the service generated the very same key. |

## Left out

- The embedding model (`SentenceTransformer`) is an uninterpreted function of the text. Float vectors are never computed with.
- Encryption and similarity ranking inside the vector service are not modelled. A query returns distinct stored items in an order the model leaves open, so "querying with a stored item's own embedding ranks it first" is not stated.
- Remote failures other than `load_index` and `delete_index` are not modelled. That covers `list_indexes`, `create_index`, `upsert`, `query` and `generate_key` raising, and network errors in general. The source lets all of these propagate to the caller.
- Key-file and ticket-file I/O errors are not modelled, other than a missing ticket file. That includes JSON that does not parse and ticket records missing a field (a `KeyError` in the source). Ticket files are modelled as already-parsed lists.
- The client's connection settings (API key and service URL) and the loading of the embedding model in `__init__` are not modelled.
- Timing, latency arithmetic and all `print` logging are left out, as is the elapsed-time value `search` returns beside the results. The one visible effect of the timing code is kept: the division by zero when `load_tickets` reads an empty list.
- `SecureSupport.SecureSupportRAG.DeleteAndRecreateIndex`: assumes that `create_index` after a failed delete replaces the index still stored under that name. The outcomes where the service keeps the old-key index beside or instead of the new one, or where `create_index` raises because the name exists, are not represented.
- `SecureSupport.SecureSupportRAG.ResetIndex`: does not state that the new key differs from the old one, because `generate_key` is random and the model does not assume it never repeats a key.
- The generator's random draw is replaced by the `choices` parameter, and the writing of `tickets.json` and the final message are left out. The scenarios place the generated list in the model's directory themselves.
- There is no locking around the cached handle, and the UI's resource cache is not modelled.
- The UI (`app.py`, including its prompt assembly and the language-model call) is not part of this model, and neither is the service smoke script `test_cyborgdb.py`.
