/** The ingestion loops: every node table row becomes one create mutation,
    every edges row one single-edge mutation between two resolved nodes; rows
    are handled in order and the first error ends the scan. */
module Ingest {
  import opened Outcomes
  import opened Nodes
  import opened Rows
  import opened GraphStore
  import opened Resolver
  import opened Scans

  /** What one row of a node table produces when it is the store's
      `pos`-th commit: the document of the scanned node, or the error that
      ends the scan. */
  function NodeStep(b: Backend, row: Row, pos: nat): (r: Result<Document>)
    ensures ScanNode(row).Failure? ==> r == Failure(ScanNode(row).error)
    ensures r.Success? ==> ScanNode(row).Success? && b.accepts(pos, r.value)
  {
    var n :- ScanNode(row);
    Commit(b, pos, ToDocument(n))
  }

  /** The same for a row of the edges table: scan, resolve `node1`, resolve
      `node2`, commit the single-edge mutation its tag names. */
  function EdgeStep(b: Backend, row: Row, pos: nat): (r: Result<Document>)
    ensures ScanEdge(row).Failure? ==> r == Failure(ScanEdge(row).error)
    ensures r.Success? ==> ScanEdge(row).Success? && b.accepts(pos, r.value)
  {
    var e :- ScanEdge(row);
    var uid1 :- Resolve(e.node1, b.lookup(e.node1));
    var uid2 :- Resolve(e.node2, b.lookup(e.node2));
    Commit(b, pos, ToDocument(RelationNode(e.relType, uid1, uid2)))
  }

  /** A mutation as the `pos`-th commit: the document when the store
      accepts it, a transport error otherwise. */
  function Commit(b: Backend, pos: nat, doc: Document): (r: Result<Document>)
    ensures r.Success? <==> b.accepts(pos, doc)
    ensures r.Success? ==> r.value == doc
    ensures r.Failure? ==> r.error == Transport
  {
    if b.accepts(pos, doc) then Success(doc) else Failure(Transport)
  }

  /** The row steps against a backend, as values. */
  function NodeRows(b: Backend): (Row, nat) -> Result<Document> {
    (row: Row, pos: nat) => NodeStep(b, row, pos)
  }

  function EdgeRows(b: Backend): (Row, nat) -> Result<Document> {
    (row: Row, pos: nat) => EdgeStep(b, row, pos)
  }

  /** In the edges table `node1` is resolved before `node2`, and a row is
      committed only once both are resolved, as the edge its tag names; once
      both are resolved, that edge is committed exactly when the store
      accepts it. */
  lemma EdgeStepResolvesBoth(b: Backend, row: Row, pos: nat)
    requires ScanEdge(row).Success?
    ensures var e := ScanEdge(row).value;
      Resolve(e.node1, b.lookup(e.node1)).Failure? ==>
        EdgeStep(b, row, pos) == Failure(Resolve(e.node1, b.lookup(e.node1)).error)
    ensures var e := ScanEdge(row).value;
      Resolve(e.node1, b.lookup(e.node1)).Success? && Resolve(e.node2, b.lookup(e.node2)).Failure? ==>
        EdgeStep(b, row, pos) == Failure(Resolve(e.node2, b.lookup(e.node2)).error)
    ensures var e := ScanEdge(row).value;
      EdgeStep(b, row, pos).Success? ==>
        && |b.lookup(e.node1).value| == 1 && |b.lookup(e.node2).value| == 1
        && EdgeStep(b, row, pos).value
           == ToDocument(RelationNode(e.relType, b.lookup(e.node1).value[0].uid, b.lookup(e.node2).value[0].uid))
    ensures var e := ScanEdge(row).value;
      Resolve(e.node1, b.lookup(e.node1)).Success? && Resolve(e.node2, b.lookup(e.node2)).Success? ==>
        EdgeStep(b, row, pos)
        == Commit(b, pos, ToDocument(RelationNode(e.relType, b.lookup(e.node1).value[0].uid, b.lookup(e.node2).value[0].uid)))
  {
  }

  /** An unrecognised relation tag is not an error: once both ends resolve,
      the empty document `{}` is submitted as the row's mutation. */
  lemma UnknownTagSubmitsEmpty(b: Backend, row: Row, pos: nat)
    requires ScanEdge(row).Success?
    requires forall r :: ScanEdge(row).value.relType != RelationTag(r)
    requires var e := ScanEdge(row).value;
      Resolve(e.node1, b.lookup(e.node1)).Success? && Resolve(e.node2, b.lookup(e.node2)).Success?
    ensures EdgeStep(b, row, pos) == Commit(b, pos, map[])
  {
    var e := ScanEdge(row).value;
    RelationNodeUnknownTag(e.relType, b.lookup(e.node1).value[0].uid, b.lookup(e.node2).value[0].uid);
  }

  /** A node row that scans is the commit of its node's document, so it is
      committed exactly when the store accepts that document; the document
      has no `uid`, so the row is committed as a create. */
  lemma NodeStepCreates(b: Backend, row: Row, pos: nat)
    ensures ScanNode(row).Success? ==> NodeStep(b, row, pos) == Commit(b, pos, ToDocument(ScanNode(row).value))
    ensures NodeStep(b, row, pos).Success? ==>
      ScanNode(row).Success? && NodeStep(b, row, pos).value == ToDocument(ScanNode(row).value)
      && "uid" !in NodeStep(b, row, pos).value
  {
    if ScanNode(row).Success? {
      ScannedNodeDocument(row, Labels);
    }
  }

  /** `MutateNode`: marshal the node (which cannot fail for this struct) and
      commit it. */
  method MutateNode(store: Store, n: Node) returns (err: Option<Error>)
    modifies store
    ensures err.None? <==> store.backend.accepts(|old(store.committed)|, ToDocument(n))
    ensures err.Some? ==> err == Some(Transport)
    ensures store.committed == if err.None? then old(store.committed) + [ToDocument(n)] else old(store.committed)
  {
    err := store.Mutate(ToDocument(n));
  }

  /** One pass of `IngestNodeTable`'s loop: scan the row into a fresh node
      and commit it; this is the row's step at the store's next position. */
  method IngestRow(store: Store, rows: seq<Row>, i: nat, ghost step: (Row, nat) -> Result<Document>,
                   ghost base: nat, ghost docs: seq<Document>)
    returns (err: Option<Error>, ghost doc: Document)
    requires step == NodeRows(store.backend) && i == |docs| < |rows| && base + i == |store.committed|
    requires Committed(step, rows, base, docs)
    modifies store
    ensures err.None? ==> Committed(step, rows, base, docs + [doc])
    ensures err.Some? ==> Scanned(step, rows, base, docs, Some(err.value))
    ensures store.committed == if err.None? then old(store.committed) + [doc] else old(store.committed)
  {
    doc := map[];
    var n := ScanNode(rows[i]);
    if n.Failure? {
      ScannedStop(step, rows, base, docs, i, n.error);
      return Some(n.error), doc;
    }
    doc := ToDocument(n.value);
    err := MutateNode(store, n.value);
    if err.Some? {
      ScannedStop(step, rows, base, docs, i, err.value);
    } else {
      CommittedSnoc(step, rows, base, docs, i, doc);
    }
  }

  /** `IngestNodeTable`: the SELECT's rows (or its error), each scanned into a
      fresh node and committed, stopping at the first error. `docs` is what
      the table committed. */
  method IngestNodeTable(store: Store, source: Result<seq<Row>>) returns (err: Option<Error>, ghost docs: seq<Document>)
    modifies store
    ensures store.committed == old(store.committed) + docs
    ensures TableScanned(NodeRows(store.backend), source, |old(store.committed)|, docs, err)
  {
    docs := [];
    if source.Failure? {
      return Some(source.error), docs;
    }
    var rows := source.value;
    ghost var b := store.backend;
    ghost var base := |store.committed|;
    ghost var step := NodeRows(b);
    var i := 0;
    while i < |rows|
      invariant |docs| == i && Committed(step, rows, base, docs)
      invariant store.committed == old(store.committed) + docs
    {
      ghost var doc;
      err, doc := IngestRow(store, rows, i, step, base, docs);
      if err.Some? {
        return;
      }
      docs := docs + [doc];
      i := i + 1;
    }
    return None, docs;
  }

  /** One pass of `DefineEdges`' loop: scan the row, resolve `node1` and then
      `node2`, commit the relation's mutation; this is the row's step at the
      store's next position. */
  method DefineEdge(store: Store, rows: seq<Row>, i: nat, ghost step: (Row, nat) -> Result<Document>,
                   ghost base: nat, ghost docs: seq<Document>)
    returns (err: Option<Error>, ghost doc: Document)
    requires step == EdgeRows(store.backend) && i == |docs| < |rows| && base + i == |store.committed|
    requires Committed(step, rows, base, docs)
    modifies store
    ensures err.None? ==> Committed(step, rows, base, docs + [doc])
    ensures err.Some? ==> Scanned(step, rows, base, docs, Some(err.value))
    ensures store.committed == if err.None? then old(store.committed) + [doc] else old(store.committed)
  {
    doc := map[];
    var e := ScanEdge(rows[i]);
    if e.Failure? {
      ScannedStop(step, rows, base, docs, i, e.error);
      return Some(e.error), doc;
    }
    var uid1 := GetUId(store, e.value.node1);
    if uid1.Failure? {
      ScannedStop(step, rows, base, docs, i, uid1.error);
      return Some(uid1.error), doc;
    }
    var uid2 := GetUId(store, e.value.node2);
    if uid2.Failure? {
      ScannedStop(step, rows, base, docs, i, uid2.error);
      return Some(uid2.error), doc;
    }
    var n := RelationNode(e.value.relType, uid1.value, uid2.value);
    doc := ToDocument(n);
    err := MutateNode(store, n);
    if err.Some? {
      ScannedStop(step, rows, base, docs, i, err.value);
    } else {
      CommittedSnoc(step, rows, base, docs, i, doc);
    }
  }

  /** `DefineEdges`: each edges row scanned, both ends resolved (`node1`
      first), the relation mutation committed; the first error ends it. */
  method DefineEdges(store: Store, source: Result<seq<Row>>) returns (err: Option<Error>, ghost docs: seq<Document>)
    modifies store
    ensures store.committed == old(store.committed) + docs
    ensures TableScanned(EdgeRows(store.backend), source, |old(store.committed)|, docs, err)
  {
    docs := [];
    if source.Failure? {
      return Some(source.error), docs;
    }
    var rows := source.value;
    ghost var b := store.backend;
    ghost var base := |store.committed|;
    ghost var step := EdgeRows(b);
    var i := 0;
    while i < |rows|
      invariant |docs| == i && Committed(step, rows, base, docs)
      invariant store.committed == old(store.committed) + docs
    {
      ghost var doc;
      err, doc := DefineEdge(store, rows, i, step, base, docs);
      if err.Some? {
        return;
      }
      docs := docs + [doc];
      i := i + 1;
    }
    return None, docs;
  }

  /** The node tables `main` ingests, in its order. */
  const NodeTables: seq<string> := ["nodes.address", "nodes.entity", "nodes.intermediary", "nodes.officer", "nodes.other"]

  /** The loop of the ingesters' `main` over the five node tables: the first
      failing table ends the process (`log.Fatal`); `shares` is what each
      table it reached committed. */
  method IngestNodeTables(store: Store, source: string -> Result<seq<Row>>)
    returns (err: Option<Error>, finished: nat, ghost shares: seq<Share<Document>>)
    modifies store
    ensures store.committed == old(store.committed) + Flatten(shares)
    ensures TablesScanned(NodeRows(store.backend), source, NodeTables, |old(store.committed)|, shares)
    ensures err == LastError(shares) && finished == Finished(shares)
  {
    ghost var step := NodeRows(store.backend);
    ghost var base := |store.committed|;
    shares := [];
    finished := 0;
    err := None;
    while finished < |NodeTables|
      invariant finished == |shares| <= |NodeTables| && err.None?
      invariant store.committed == old(store.committed) + Flatten(shares)
      invariant |store.committed| == NextStart(base, shares)
      invariant SharesClean(step, source, NodeTables, base, shares)
    {
      ghost var start := |store.committed|;
      ghost var docs;
      err, docs := IngestNodeTable(store, source(NodeTables[finished]));
      ghost var share := Share(start, docs, err);
      FlattenSnoc(old(store.committed), shares, share);
      if err.Some? {
        SharesStop(step, source, NodeTables, base, shares, finished, share);
        shares := shares + [share];
        return;
      }
      SharesCleanSnoc(step, source, NodeTables, base, shares, finished, share);
      shares := shares + [share];
      finished := finished + 1;
    }
  }

  /** The table `DefineEdges` selects from. */
  const EdgesTable: string := "edges"

  /** The populate `main` once connected: the node tables in order, the
      first failing one ending the process before any edge is defined; then
      the edges table, whose error `main` drops. */
  method Populate(store: Store, source: string -> Result<seq<Row>>)
    returns (err: Option<Error>, ghost shares: seq<Share<Document>>, ghost edges: seq<Document>, ghost edgesErr: Option<Error>)
    modifies store
    ensures TablesScanned(NodeRows(store.backend), source, NodeTables, |old(store.committed)|, shares)
    ensures err == LastError(shares)
    ensures err.Some? ==> edges == [] && edgesErr.None?
    ensures err.None? ==>
      TableScanned(EdgeRows(store.backend), source(EdgesTable), |old(store.committed)| + |Flatten(shares)|, edges, edgesErr)
    ensures store.committed == old(store.committed) + Flatten(shares) + edges
  {
    var finished;
    err, finished, shares := IngestNodeTables(store, source);
    edges, edgesErr := [], None;
    if err.Some? {
      return;
    }
    var ignored;
    assert |store.committed| == |old(store.committed)| + |Flatten(shares)|;
    ignored, edges := DefineEdges(store, source(EdgesTable));
    edgesErr := ignored;
  }

  /** The pair of external ids `get_uid`'s `main` links. */
  const LinkedFrom: int := 39172370
  const LinkedTo: int := 59216527

  /** The `get_uid` `main` once connected: resolve both ids, keeping `""` for
      an id that does not resolve, and commit the `connected_to` edge between
      them whatever the resolutions gave. */
  method LinkFixedPair(store: Store) returns (err: Option<Error>)
    modifies store
    ensures var src := UidOrEmpty(Resolve(LinkedFrom, store.backend.lookup(LinkedFrom)));
      var dst := UidOrEmpty(Resolve(LinkedTo, store.backend.lookup(LinkedTo)));
      var doc := ToDocument(Link(ConnectedTo, src, dst));
      && (err.None? <==> store.backend.accepts(|old(store.committed)|, doc))
      && store.committed == if err.None? then old(store.committed) + [doc] else old(store.committed)
  {
    var uid1 := GetUId(store, LinkedFrom);
    var uid2 := GetUId(store, LinkedTo);
    var n := Link(ConnectedTo, UidOrEmpty(uid1), UidOrEmpty(uid2));
    err := MutateNode(store, n);
  }
}
