/** The path service: `Shortest` resolves two external ids, asks the store for
    the shortest path between their nodes and decodes the ids along it;
    `handler` validates the `from` and `to` parameters and picks the HTTP
    status. */
module PathService {
  import opened Outcomes
  import opened Strconv
  import opened Nodes
  import opened GraphStore
  import opened Resolver

  /** The predicates the path may follow, in the order the query lists them. */
  const TraversedPredicates: seq<string> :=
    ["officer_of", "registered_address", "connected_to", "same_name_as", "same_id_as", "intermediary_of"]

  /** The attributes fetched for every node on the path. */
  const FetchedAttributes: seq<string> := ["id"]

  /** The traversal query between two handles: from the first to the second,
      along every relation, fetching each node's `id`. */
  function PathQueryFor(uid1: string, uid2: string): (q: PathQuery)
    ensures q.from == uid1 && q.to == uid2
    ensures forall r :: RelationTag(r) in q.via
    ensures q.fetch == ["id"]
  {
    TraversedAreTheRelationTags();
    PathQuery(uid1, uid2, TraversedPredicates, FetchedAttributes)
  }

  /** The query follows exactly the six relation tags, each once. */
  lemma TraversedAreTheRelationTags()
    ensures |TraversedPredicates| == 6
    ensures forall i, j :: 0 <= i < j < |TraversedPredicates| ==> TraversedPredicates[i] != TraversedPredicates[j]
    ensures forall r :: RelationTag(r) in TraversedPredicates
    ensures forall p :: p in TraversedPredicates ==> RelationOfTag(p).Some?
  {
    forall r ensures RelationTag(r) in TraversedPredicates {
      match r
      case RegisteredAddress => assert TraversedPredicates[1] == RelationTag(r);
      case OfficerOf => assert TraversedPredicates[0] == RelationTag(r);
      case ConnectedTo => assert TraversedPredicates[2] == RelationTag(r);
      case IntermediaryOf => assert TraversedPredicates[5] == RelationTag(r);
      case SameNameAs => assert TraversedPredicates[3] == RelationTag(r);
      case SameIdAs => assert TraversedPredicates[4] == RelationTag(r);
    }
  }

  /** The keys the ingesters write edges under, against the predicates the
      query follows: every relation but one is traversed, and edges of
      `IntermediaryOf`, written under `imtermediary_of`, never are. */
  lemma IntermediaryEdgesNotTraversed(r: Relation)
    ensures Key(RelField(r)) in TraversedPredicates <==> r != IntermediaryOf
  {
    IntermediaryKeyMisspelt(r);
    TraversedAreTheRelationTags();
    if r == IntermediaryOf {
      assert forall i :: 0 <= i < |TraversedPredicates| ==> TraversedPredicates[i] != "imtermediary_of";
    }
  }

  /** `Response{PathResponse, api.Latency}`: the ids along the path and the
      reply's timing envelope. */
  datatype Response = Response(path: seq<int>, latency: Latency)

  /** Go's zero `Response{}`, returned beside every error. */
  const ZeroResponse: Response := Response([], Latency(0, 0, 0))

  /** The `id` of each path entry, in reply order; an entry without one
      decodes to Go's zero, 0. */
  function Ids(entries: seq<Option<int>>): (ids: seq<int>)
    ensures |ids| == |entries|
    ensures forall i :: 0 <= i < |entries| ==> ids[i] == entries[i].GetOr(0)
  {
    if entries == [] then [] else [entries[0].GetOr(0)] + Ids(entries[1..])
  }

  /** Unmarshalling a reply into `PathResponse`: a body that does not
      unmarshal is an error, an absent `path` is the empty path. */
  function DecodePath(json: PathJson): (r: Result<seq<int>>)
    ensures json.Unreadable? <==> r.Failure?
    ensures r.Failure? ==> r.error == Undecodable
    ensures json.PathJson? && json.path.None? ==> r == Success([])
    ensures json.PathJson? && json.path.Some? ==> r.Success? && r.value == Ids(json.path.value)
  {
    match json
    case Unreadable => Failure(Undecodable)
    case PathJson(None) => Success([])
    case PathJson(Some(entries)) => Success(Ids(entries))
  }

  /** The reply body a store sends for a path: one object with an `id` per
      node. */
  function EncodePath(path: seq<int>): (j: PathJson)
    ensures j.PathJson? && j.path.Some? && |j.path.value| == |path|
    ensures forall i :: 0 <= i < |j.path.value| ==> j.path.value[i].Some?
  {
    PathJson(Some(seq(|path|, i requires 0 <= i < |path| => Some(path[i]))))
  }

  /** A path sent as a reply decodes to itself, in the same order. */
  lemma DecodeEncodePath(path: seq<int>)
    ensures DecodePath(EncodePath(path)) == Success(path)
  {
    var entries := EncodePath(path).path.value;
    assert |entries| == |path| && forall i :: 0 <= i < |path| ==> entries[i] == Some(path[i]);
    var ids := DecodePath(EncodePath(path)).value;
    assert ids == Ids(entries);
    assert |ids| == |path| && forall i :: 0 <= i < |path| ==> ids[i] == path[i];
    assert ids == path;
  }

  /** What `Shortest` computes against a store: resolve `id1`, then `id2`,
      then run the traversal query between their handles and decode it. */
  function ShortestResult(b: Backend, id1: int, id2: int): (r: Result<Response>)
    ensures r.Success? ==> Resolve(id1, b.lookup(id1)).Success? && Resolve(id2, b.lookup(id2)).Success?
  {
    var uid1 :- Resolve(id1, b.lookup(id1));
    var uid2 :- Resolve(id2, b.lookup(id2));
    var reply :- b.paths(PathQueryFor(uid1, uid2));
    var path :- DecodePath(reply.json);
    Success(Response(path, reply.latency))
  }

  /** `Shortest` succeeds exactly when both ids resolve, the traversal query
      between their handles is answered and its body unmarshals; the path is
      then the body's ids in order and the latency is the reply's. The first
      failing step's error is the result's. */
  lemma ShortestSpec(b: Backend, id1: int, id2: int)
    ensures var r := ShortestResult(b, id1, id2);
      var res1 := Resolve(id1, b.lookup(id1));
      var res2 := Resolve(id2, b.lookup(id2));
      && (res1.Failure? ==> r == Failure(res1.error))
      && (res1.Success? && res2.Failure? ==> r == Failure(res2.error))
      && (res1.Success? && res2.Success? ==>
            var reply := b.paths(PathQuery(res1.value, res2.value, TraversedPredicates, ["id"]));
            && (reply.Failure? ==> r == Failure(reply.error))
            && (reply.Success? && reply.value.json.Unreadable? ==> r == Failure(Undecodable))
            && (reply.Success? && reply.value.json.PathJson? ==>
                  r == Success(Response(DecodePath(reply.value.json).value, reply.value.latency))))
  {
  }

  /** When either id does not resolve the traversal query is never issued:
      the outcome is the same whatever the store would answer to it. */
  lemma UnresolvedNeverQueries(b: Backend, b': Backend, id1: int, id2: int)
    requires b.lookup == b'.lookup
    requires Resolve(id1, b.lookup(id1)).Failure? || Resolve(id2, b.lookup(id2)).Failure?
    ensures ShortestResult(b, id1, id2) == ShortestResult(b', id1, id2)
    ensures ShortestResult(b, id1, id2).Failure?
  {
  }

  /** `Shortest`: the response and `nil`, or the zero response and the
      error of the first step that failed. */
  method Shortest(store: Store, id1: int, id2: int) returns (resp: Response, err: Option<Error>)
    ensures var r := ShortestResult(store.backend, id1, id2);
      && (err.None? <==> r.Success?)
      && (r.Success? ==> resp == r.value)
      && (r.Failure? ==> err == Some(r.error) && resp == ZeroResponse)
  {
    var uid1 := GetUId(store, id1);
    if uid1.Failure? {
      return ZeroResponse, Some(uid1.error);
    }
    var uid2 := GetUId(store, id2);
    if uid2.Failure? {
      return ZeroResponse, Some(uid2.error);
    }
    var reply := store.QueryPath(PathQueryFor(uid1.value, uid2.value));
    if reply.Failure? {
      return ZeroResponse, Some(reply.error);
    }
    var path := DecodePath(reply.value.json);
    if path.Failure? {
      return ZeroResponse, Some(path.error);
    }
    return Response(path.value, reply.value.latency), None;
  }

  /** A request's query parameters, each name with its values in order. */
  type Values = map<string, seq<string>>

  /** `url.Values.Get`: the first value of the name, `""` when it has none. */
  function Get(query: Values, name: string): (v: string)
    ensures name !in query ==> v == ""
    ensures name in query && query[name] != [] ==> v == query[name][0]
    ensures name in query && query[name] == [] ==> v == ""
  {
    if name in query && |query[name]| > 0 then query[name][0] else ""
  }

  const StatusOK: int := 200
  const StatusBadRequest: int := 400
  const StatusNotFound: int := 404
  const StatusUnprocessableEntity: int := 422
  const StatusInternalServerError: int := 500

  /** `handler`: the status it writes and, on success, the response it
      encodes as the body. `dialed` says whether the connection to the store
      could be opened. */
  method Handler(store: Store, query: Values, dialed: bool) returns (status: int, body: Option<Response>)
    ensures Get(query, "from") == "" ==> status == StatusUnprocessableEntity && body.None?
    ensures Get(query, "from") != "" && Get(query, "to") == "" ==> status == StatusUnprocessableEntity && body.None?
    ensures Get(query, "from") != "" && Get(query, "to") != "" && (Atoi(Get(query, "from")).None? || Atoi(Get(query, "to")).None?)
      ==> status == StatusBadRequest && body.None?
    ensures Atoi(Get(query, "from")).Some? && Atoi(Get(query, "to")).Some? && !dialed
      ==> status == StatusInternalServerError && body.None?
    ensures Atoi(Get(query, "from")).Some? && Atoi(Get(query, "to")).Some? && dialed ==>
      var r := ShortestResult(store.backend, Atoi(Get(query, "from")).value, Atoi(Get(query, "to")).value);
      && (r.Failure? ==> status == StatusNotFound && body.None?)
      && (r.Success? ==> status == StatusOK && body == Some(r.value))
  {
    var sFrom := Get(query, "from");
    if sFrom == "" {
      return StatusUnprocessableEntity, None;
    }
    var sTo := Get(query, "to");
    if sTo == "" {
      return StatusUnprocessableEntity, None;
    }
    var from := Atoi(sFrom);
    if from.None? {
      return StatusBadRequest, None;
    }
    var to := Atoi(sTo);
    if to.None? {
      return StatusBadRequest, None;
    }
    if !dialed {
      return StatusInternalServerError, None;
    }
    var path, err := Shortest(store, from.value, to.value);
    if err.Some? {
      return StatusNotFound, None;
    }
    return StatusOK, Some(path);
  }
}
