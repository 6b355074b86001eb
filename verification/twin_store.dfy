/**
 * The read-only digital twin store the broadcaster queries: each twin has a model id,
 * its JSON document and its outgoing relationships in the store's order.
 */
module TwinStore {
  import opened Outcomes
  import opened JsonNodes

  /** One stored twin. `document` is the twin as a JSON object, bookkeeping keys included. */
  datatype Twin = Twin(modelId: string, document: map<string, Json>, relationships: seq<map<string, Json>>)

  /** The store, from twin id to twin. */
  type Store = map<string, Twin>

  /** Keys the store adds to every twin document, in the order the broadcaster removes them. */
  const TwinBookkeepingKeys: seq<string> := ["$dtId", "$etag", "$metadata"]
  const TwinBookkeeping: set<string> := set k | k in TwinBookkeepingKeys

  /** Reading a twin by id, the stand-in for the client's twin read; an unknown id raises a not-found fault. */
  function GetTwin(store: Store, id: string): Result<Twin>
  {
    if id in store then Ok(store[id]) else Err(TwinNotFound(id))
  }

  /**
   * The twin's own properties: its document without the bookkeeping keys. This is both
   * what a snapshot publishes and what a typed twin read exposes as its contents.
   */
  function Properties(twin: Twin): map<string, Json>
  {
    twin.document - TwinBookkeeping
  }
}
