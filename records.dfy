/** Record shapes shared by the ticket generator, the indexer and the vector service. */
module Records {

  /** An encryption key: the opaque bytes the vector service generates. */
  type Key = seq<bv8>

  /** An embedding; its components are the embedder's floats, never computed with here. */
  type Vector = seq<real>

  /** A metadata dictionary, keyed by field name. */
  type Metadata = map<string, string>

  /** One record of a ticket file: `{"id", "text", "category"}`. */
  datatype Ticket = Ticket(id: string, text: string, category: string)

  /** One dictionary of an upsert batch: `{"id", "vector", "metadata"}`. */
  datatype UpsertItem = UpsertItem(id: string, vector: Vector, metadata: Metadata)

  /** No two tickets share an id. */
  predicate DistinctIds(tickets: seq<Ticket>) {
    forall i, j :: 0 <= i < j < |tickets| ==> tickets[i].id != tickets[j].id
  }

  /** No two items of a batch share an id. */
  predicate DistinctItemIds(items: seq<UpsertItem>) {
    forall i, j :: 0 <= i < j < |items| ==> items[i].id != items[j].id
  }
}
