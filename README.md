# paradise_papers: ingestion and path service, modelled in Dafny

The repository loads the Paradise Papers tables from MySQL into a Dgraph
graph and answers shortest-path questions about it over HTTP. Its core is
deterministic once the two databases are seen as oracles:

- **the node document** (`Node`, `nodes.dfy`): 25 fields, each serialised
  under its struct tag with `omitempty`, so a key is present exactly when its
  field is non-zero. The `IntermediaryOf` list is written under the misspelt
  key `imtermediary_of`.
- **single-edge mutations** (`RelationNode` and the six constructors of
  `get_uid.go`, `nodes.dfy`). A tag names one of six relations. The mutation
  carries the source handle and one list holding `{uid: dst}`. Any other tag
  gives the zero node, whose document is `{}`.
- **row scanning** (`rows.Scan`, `rows.dfy`): the node tables have 18 columns,
  with the external id in the fifth. `database/sql` converts it with
  `strconv.ParseInt(s, 10, 64)`, which on a 64-bit platform accepts the same
  strings as `strconv.Atoi`, so the model uses one parser for both. The edges
  table has `id, node1, rel_type, node2`.
- **identifier resolution** (`GetUId`, `resolver.dfy`): exactly one match
  yields its handle. No match and several matches give one and the same error.
- **the ingestion loops** (`IngestNodeTable`, `DefineEdges`, and the `main`s
  of the ingesters, in `ingest.dfy` over the generic fail-fast scans of
  `scans.dfy`). Each row commits one document, in row order, and the first
  scan, resolution or mutation error ends the loop. The store (`Store` in
  `graph_store.dfy`) is a class whose `committed` field is the sequence of
  accepted documents. Its lookups, its acceptance of a mutation and its path
  answers are oracles.
- **the path service** (`Shortest` and `handler`, `pathservice.dfy`). Both ids
  are resolved, then one traversal query with six predicates is issued, and
  the path ids are decoded in reply order. The handler's status is 422, 422,
  400, 400, 500, 404 or 200, tested in that order.

`populate_nodes.go` (lines 48-80) repeats the node loop of
`populate_dgraph.go` with the mutation inlined, and `create_edges.go` (lines
79-83 and 140-169) repeats the resolution and the edges loop, calling its own
`MutateNode`. One member models each of these and its copy.

Behaviour the model keeps as the code has it:
- the node tables have 18 columns;
- the edges table's columns are `id, node1, rel_type, node2`, in that order;
- zero matches and several matches give the one "not in database" error;
- an unknown relation tag is committed as the empty mutation `{}`, not reported;
- in the handler, every error of `Shortest` is 404, transport errors included, and only a failure to dial gives 500;
- a missing parameter is 422 and a non-integer one is 400.

## Model

| member | source | states |
|---|---|---|
| Strconv.Atoi | shortest.go:142-154 | an accepted parameter is an optional sign followed by at least one digit; its value fits in 64 bits, has the sign's polarity, and its magnitude is the digits' decimal value |
| Strconv.AtoiAccepts | shortest.go:142-154 | conversely, an optional sign and one or more digits (leading zeros allowed, as in `+007` or `-0`) are accepted whenever the value fits in 64 bits, and read as that signed value |
| Strconv.AtoiItoa | populate_dgraph.go:55-60 | Go's `%d` rendering of a 64-bit int parses back with `Atoi` as the same int |
| Strconv.AtoiRejectsEmptyAndBareSign | shortest.go:142-154 | the empty string and a bare sign are not integers |
| Nodes.AllFieldsComplete | populate_dgraph.go:18-44 | every field of the struct is among the fields marshalled |
| Nodes.KeyRoundTrip | populate_dgraph.go:19-43 | each struct tag names its own field back |
| Nodes.KeyInjective | populate_dgraph.go:19-43 | no two fields share a JSON key |
| Nodes.FieldsOmitEmpty | populate_dgraph.go:129 | the keys marshalled for a list of fields are those of its non-zero fields, each holding its field's encoded value |
| Nodes.ToDocument | populate_dgraph.go:129 | `json.Marshal` of a node; its contract is stated by `OmitEmpty` (the next row): a key exactly for each non-zero field, holding that field's value |
| Nodes.OmitEmpty | populate_dgraph.go:16-44 | a key is in the document exactly when its field is non-zero, it holds that field's value, and no other key appears |
| Nodes.RefDocumentOf | populate_dgraph.go:91 | `Node{UId: u}` marshals to `{"uid": u}`, or to `{}` when `u` is empty |
| Nodes.BlankIsEmptyDocument | populate_dgraph.go:120 | the zero node marshals to the empty document |
| Nodes.RelationTag | populate_dgraph.go:87-117 | the switch maps each relation's tag back to that relation |
| Nodes.RecognisedTags | populate_dgraph.go:87-118 | exactly the six tags are recognised, each naming its own relation |
| Nodes.Link | get_uid.go:75-115 | the node has the source handle, id 0, every attribute empty, its relation's list equal to `[{uid: dst}]` and every other list empty |
| Nodes.LinkDocument | get_uid.go:75-115 | the document holds `uid` (only when the source is set) and the relation's key with `[{uid: dst}]`, and nothing else |
| Nodes.RelationNode | populate_dgraph.go:86-121 | the switch on the tag; its contract is stated by `RelationNodeKnownTag` and `RelationNodeUnknownTag` (the next two rows) |
| Nodes.RelationNodeKnownTag | populate_dgraph.go:86-117 | each of the six tags builds its own relation's single edge from `src` to `dst` |
| Nodes.RelationNodeUnknownTag | create_edges.go:118-120 | any other tag builds the zero node, whose document is `{}` |
| Nodes.LinkWithoutSourceCreates | get_uid.go:89-94 | with an empty source handle the mutation has no `uid` key but still carries the edge, so the store creates a fresh source node |
| Nodes.IntermediaryKeyMisspelt | populate_dgraph.go:38-43 | five relations are written under their tag name; `intermediary_of` edges are written under `imtermediary_of` |
| Nodes.CreateDocument | populate_nodes.go:18-46 | a node without handle and relations marshals with no `uid` and no relation key, and with a scalar key exactly when that scalar is non-zero |
| Rows.Convert | populate_dgraph.go:150-152 | a value converts exactly when it is not NULL and, for an int destination, parses as a 64-bit decimal; a string gets the bytes unchanged and an int the parsed value |
| Rows.ConvertFromSpec | populate_dgraph.go:150-155 | converting from a column succeeds exactly when every later column converts, with the values in column order; otherwise it names the first failing column |
| Rows.Scan | populate_dgraph.go:150-152 | a successful scan yields one value per destination (the full contract is `ScanSpec`, the next row) |
| Rows.ScanSpec | populate_dgraph.go:150-155 | a wrong number of columns is a count error naming the column count and the destination count; otherwise the scan succeeds exactly when every column converts, and otherwise reports the first failing column |
| Rows.ColumnOf | populate_dgraph.go:150-152 | each attribute is scanned from its own text column, never from the id column |
| Rows.ScanNode | populate_dgraph.go:149-152 | a node row scans exactly when the 18-column scan succeeds, and otherwise fails with the scan's error |
| Rows.ScanNodeSpec | populate_dgraph.go:149-152 | the id of a scanned node is the fifth column read as a decimal; the node has no handle and no relations |
| Rows.NodeRowScans | populate_dgraph.go:149-152 | every row of 18 non-NULL columns whose fifth parses as a 64-bit decimal scans |
| Rows.ScanEdge | populate_dgraph.go:175 | an edges row scans exactly when the 4-column scan succeeds, and otherwise fails with the scan's error |
| Rows.ScanEdgeSpec | populate_dgraph.go:174-175 | a scanned edges row is read as id, node1, tag and node2 in that order, the ids as decimals and the tag as it is |
| Rows.EdgeRowScans | populate_dgraph.go:174-175 | every row of 4 non-NULL columns whose first, second and fourth parse as 64-bit decimals scans |
| Rows.ScannedTextColumn | populate_dgraph.go:150-152 | a text column of a scanned node row holds exactly the bytes of the value scanned from it |
| Rows.ScannedAttribute | populate_nodes.go:57-59 | each attribute of a scanned node is the text of its own column |
| Rows.ScannedNodeDocument | populate_nodes.go:56-59 | a scanned row's document has no `uid` (so it is a create), has `id` exactly when the id is non-zero, has an attribute exactly when its column is non-empty, and has no relation key |
| Resolver.Resolve | populate_dgraph.go:63-82 | resolution succeeds exactly when the lookup returned one record, with that record's handle; a lookup error passes through |
| Resolver.ZeroAndManyMatchesFailAlike | populate_dgraph.go:78-80 | no match and two or more matches give the same "not in database" error |
| Resolver.Matches | populate_dgraph.go:55-60 | the `eq(id, n)` lookup returns only stored records whose external id is `n`; a node with id 0 was stored without `id` (omitempty), so `eq(id, 0)` returns nothing |
| Resolver.ResolveAgainstStore | populate_dgraph.go:54-83 | against a store, a non-zero id held by exactly one node resolves to that node's handle; an id held by none or by two, and id 0, are not in the database |
| Resolver.UidOrEmpty | get_uid.go:144-147 | a failed resolution leaves the handle `""` |
| Resolver.GetUId | shortest.go:57-86 | the method returns exactly the resolution of the store's lookup answer |
| GraphStore.Store.Mutate | populate_dgraph.go:124-139 | an accepted mutation appends its document to the committed ones; a rejected one changes nothing and is a transport error |
| GraphStore.Store.Lookup | populate_dgraph.go:62-66 | the lookup returns the store's answer for the id |
| GraphStore.Store.QueryPath | shortest.go:112-116 | the path query returns the store's answer |
| Scans.Run | populate_dgraph.go:148-163 | a scan commits at most one document per row, and ends without error exactly when it committed one for every row |
| Scans.RunIsFailFast | populate_dgraph.go:148-163 | a scan commits one document per row for a prefix of the rows, in order, each its row's step; an error is the failure of the next row |
| Scans.RunOfPrefix | populate_dgraph.go:148-163 | any prefix committed row by row and ended by the next row's error (or by the end) is the scan's outcome |
| Scans.ScannedIsRun | populate_dgraph.go:148-163 | the loop's relational description and the recursive scan define the same outcome |
| Scans.RunAppend | populate_dgraph.go:229-234 | scanning two row sequences one after the other is scanning their concatenation |
| Scans.TableScannedIsOutcome | populate_dgraph.go:142-146 | a failing SELECT commits nothing and reports its error; otherwise the table's outcome is the scan of its rows |
| Scans.Tables | populate_nodes.go:110-116 | a run over tables finishes at most all of them, and all of them exactly when it ends without error |
| Scans.TablesAreOneScan | populate_nodes.go:110-116 | when every SELECT succeeds, ingesting tables in order is one fail-fast scan over all their rows |
| Scans.TablesScannedIsTables | populate_nodes.go:110-116 | what the table loop leaves behind is the outcome of ingesting the tables in order: the same documents, finished tables and error |
| Ingest.Commit | populate_dgraph.go:130-138 | a mutation is committed exactly when the store accepts it, as the same document; otherwise it is a transport error |
| Ingest.NodeStep | populate_dgraph.go:148-161 | a node row fails with its scan error when it does not scan; a committed one scanned and its document was accepted by the store (`NodeStepCreates` gives the document) |
| Ingest.EdgeStep | populate_dgraph.go:173-194 | an edges row fails with its scan error when it does not scan; a committed one scanned and its document was accepted |
| Ingest.EdgeStepResolvesBoth | populate_dgraph.go:180-190 | `node1` is resolved before `node2`; an edges row commits only when both resolve, and once both resolve it is the commit of the relation its tag names between their handles, so it is committed exactly when the store accepts that document |
| Ingest.UnknownTagSubmitsEmpty | create_edges.go:162-166 | an unrecognised tag with both ends resolved submits the empty document rather than failing |
| Ingest.NodeStepCreates | populate_nodes.go:56-76 | a node row that scans is the commit of its node's document: committed exactly when the store accepts it, otherwise a transport error; a committed one has no `uid` |
| Ingest.MutateNode | populate_dgraph.go:124-139 | the node's document is committed exactly when the store accepts it |
| Ingest.IngestRow | populate_nodes.go:56-76 | one loop pass over row `i` with rows `0..i` committed: it commits the row's step at the store's next position and extends the committed prefix, or leaves the store as it was and ends the scan with that step's error |
| Ingest.IngestNodeTable | populate_dgraph.go:142-164 | the store's new documents are exactly the table's fail-fast scan: one per row in order, stopping at the first scan or mutation error |
| Ingest.DefineEdge | populate_dgraph.go:174-193 | one loop pass over edges row `i`: scan, resolve `node1` then `node2`, commit the relation; it extends the committed prefix by the row's step, or ends the scan with the error of the first failing part and commits nothing |
| Ingest.DefineEdges | populate_dgraph.go:167-197 | the store's new documents are exactly the edges table's fail-fast scan, stopping at the first scan, resolution or mutation error |
| Ingest.IngestNodeTables | populate_nodes.go:110-116 | the five node tables are ingested in order; the first failing table ends the run, and the store holds exactly what the tables reached committed |
| Ingest.Populate | populate_dgraph.go:228-238 | the node tables come first and a failing one ends the process before any edge; otherwise the edges table follows, and its error is dropped |
| Ingest.LinkFixedPair | get_uid.go:144-151 | the `connected_to` edge between the handles of 39172370 and 59216527 is committed even when a resolution failed, with `""` for the failed handle |
| PathService.PathQueryFor | shortest.go:98-110 | the query goes from the first handle to the second, follows every relation tag and fetches `id` |
| PathService.TraversedAreTheRelationTags | shortest.go:98-110 | the query follows exactly the six relation tags, each once |
| PathService.IntermediaryEdgesNotTraversed | shortest.go:99-106 | of the keys edges are written under, all but `imtermediary_of` are traversed, so intermediary edges are never on a path |
| PathService.Ids | shortest.go:16-20 | the path is the entries' ids in reply order, 0 for an entry without one |
| PathService.DecodePath | shortest.go:118-122 | an undecodable body is an error, an absent `path` is the empty path, and a present one is its ids in order |
| PathService.EncodePath | shortest.go:16-20 | a reply body for a path holds one entry per node, each with an `id` |
| PathService.DecodeEncodePath | shortest.go:16-20 | a path sent as a reply body decodes back to itself |
| PathService.ShortestResult | shortest.go:88-125 | a response is produced only when both ids resolve (the full contract is `ShortestSpec`, the next row) |
| PathService.ShortestSpec | shortest.go:88-125 | `id1` is resolved, then `id2`, then the six-predicate query runs between their handles; the first failure is the result, otherwise the decoded path with the reply's latency |
| PathService.UnresolvedNeverQueries | shortest.go:89-96 | when either id does not resolve, the result is an error that does not depend on the store's path answers |
| PathService.Shortest | shortest.go:88-125 | the method returns the computed response, or the zero response with the first step's error |
| PathService.Get | shortest.go:128 | a parameter's value is its first value, or `""` when it is missing or has none |
| PathService.Handler | shortest.go:127-180 | an empty `from` is 422; then an empty `to` is 422; then a non-integer value is 400; then a failed dial is 500; then any `Shortest` error is 404; otherwise 200 with the response |

## Left out

- Connection setup (MySQL, Cloud SQL, gRPC dialing), credentials and the `dg.Alter` schema declaration: process wiring. A failed dial in `handler` is the `dialed` parameter.
- Dgraph's query engine and its shortest-path search: external. The store is a `Backend` of oracles, `lookup`, `accepts` and `paths`.
- Byte-level JSON: documents are maps from key to a JSON value tree, and a path reply is already parsed into `PathJson`.
- The text of the queries: the lookup is keyed by the id, and the traversal query is the structured `PathQuery`.
- `api.Latency`: an opaque envelope, copied through as `Latency`.
- The HTTP listener, the response body text and `fmt.Println` progress output: only the status and the encoded response are modelled.
- `log.Fatal`: the process ends. The model returns the error and does nothing after it.
- `rows.Err` after the loop and closing the row set: the code never calls them, so an iteration error ends the loop as the end of the rows would.
- MySQL's type conversions beyond text and integer columns: the columns are NULL or bytes, converted as `database/sql` converts text.
- Go's `int` width: ids are 64-bit through `Atoi` and are unbounded elsewhere; no arithmetic is done on them.
- The nil-versus-empty distinction of Go slices: both marshal the same under `omitempty`, and a missing `path` decodes to an empty one.
- A nil `Latency` in a successful reply, which would make `Shortest` panic: a reply always carries one in the model.
- populate.go, populate_address.go and sql_consumer.go are not part of this model.
