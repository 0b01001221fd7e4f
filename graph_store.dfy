/** The graph store as the pipeline sees it: three round trips (the id lookup,
    the commit-now mutation, the shortest-path query) answered by oracles, and
    the sequence of documents committed so far. */
module GraphStore {
  import opened Outcomes
  import opened Nodes

  /** The traversal query `Shortest` sends: the two handles, the predicates
      the path may follow, and the attributes fetched for each path node. */
  datatype PathQuery = PathQuery(from: string, to: string, via: seq<string>, fetch: seq<string>)

  /** The timing envelope of a reply, passed through unchanged. */
  datatype Latency = Latency(parsingNs: nat, processingNs: nat, encodingNs: nat)

  /** The JSON body of a path reply as `PathResponse` reads it: not
      unmarshallable, or a `path` that is absent or an array of objects each
      of which may or may not hold an integer `id`. */
  datatype PathJson = Unreadable | PathJson(path: Option<seq<Option<int>>>)

  datatype PathReply = PathReply(json: PathJson, latency: Latency)

  /** The store's answers. `lookup(n)` is the `eq(id, n)` query already
      unmarshalled into its list of matching records (or the query's or the
      unmarshalling's error); `accepts(k, d)` says whether committing `d` as
      the store's k-th committed document succeeds; `paths(q)` answers a
      shortest-path query. */
  datatype Backend = Backend(
    lookup: int -> Result<seq<Node>>,
    accepts: (nat, Document) -> bool,
    paths: PathQuery -> Result<PathReply>)

  class Store {
    const backend: Backend
    var committed: seq<Document>

    constructor (backend: Backend)
      ensures this.backend == backend && committed == []
    {
      this.backend := backend;
      committed := [];
    }

    /** The `me(func: eq(id, n)) { address uid }` query. */
    method Lookup(nodeId: int) returns (r: Result<seq<Node>>)
      ensures r == backend.lookup(nodeId)
    {
      r := backend.lookup(nodeId);
    }

    /** A commit-now mutation carrying `doc` as its JSON: on success the
        document is appended to what the store has committed; on failure
        nothing is committed. */
    method Mutate(doc: Document) returns (err: Option<Error>)
      modifies this
      ensures err.None? <==> backend.accepts(|old(committed)|, doc)
      ensures err.Some? ==> err == Some(Transport)
      ensures committed == if err.None? then old(committed) + [doc] else old(committed)
    {
      if backend.accepts(|committed|, doc) {
        committed := committed + [doc];
        err := None;
      } else {
        err := Some(Transport);
      }
    }

    /** A read-only shortest-path query. */
    method QueryPath(q: PathQuery) returns (r: Result<PathReply>)
      ensures r == backend.paths(q)
    {
      r := backend.paths(q);
    }
  }
}
