/** Relational rows and `rows.Scan`: each node table yields 18 columns and the
    edges table 4, converted positionally into the destination fields the way
    `database/sql` converts the MySQL text protocol's values. An `int`
    destination goes through `strconv.ParseInt(s, 10, 64)`, which on a 64-bit
    platform accepts exactly the strings `Atoi` accepts, with the same value. */
module Rows {
  import opened Outcomes
  import opened Strconv
  import opened Nodes

  /** A column value as the driver hands it over: SQL NULL or the bytes of
      its text form. */
  datatype SqlValue = Null | Bytes(text: string)

  type Row = seq<SqlValue>

  /** The type of a Scan destination: `*int` or `*string`. */
  datatype ColumnKind = IntColumn | TextColumn

  datatype Scalar = IntValue(i: int) | TextValue(s: string)

  /** Conversion into one destination: NULL converts to neither kind, bytes
      convert to a string as they are and to an int when they parse as a
      64-bit decimal. */
  function Convert(v: SqlValue, kind: ColumnKind): (r: Option<Scalar>)
    ensures r.Some? <==> v.Bytes? && (kind == IntColumn ==> Atoi(v.text).Some?)
    ensures r.Some? && kind == TextColumn ==> r.value == TextValue(v.text)
    ensures r.Some? && kind == IntColumn ==> r.value.IntValue? && Atoi(v.text) == Some(r.value.i)
  {
    match v
    case Null => None
    case Bytes(text) =>
      match kind
      case TextColumn => Some(TextValue(text))
      case IntColumn =>
        match Atoi(text)
        case Some(i) => Some(IntValue(i))
        case None => None
  }

  /** Converts columns `from..` left to right, stopping at the first one that
      does not convert. */
  function ConvertFrom(row: Row, kinds: seq<ColumnKind>, from: nat): (r: Result<seq<Scalar>>)
    requires |row| == |kinds| && from <= |row|
    decreases |row| - from
    ensures r.Success? ==> |r.value| == |row| - from
  {
    if from == |row| then Success([])
    else
      match Convert(row[from], kinds[from])
      case None => Failure(BadColumn(from))
      case Some(v) =>
        match ConvertFrom(row, kinds, from + 1)
        case Failure(e) => Failure(e)
        case Success(rest) => Success([v] + rest)
  }

  /** Converting from column `from` succeeds exactly when every column from
      there converts, and then yields their values in column order; otherwise
      it reports the first column that does not convert. */
  lemma {:induction false} ConvertFromSpec(row: Row, kinds: seq<ColumnKind>, from: nat)
    requires |row| == |kinds| && from <= |row|
    decreases |row| - from
    ensures var r := ConvertFrom(row, kinds, from);
      && (r.Success? <==> forall i :: from <= i < |row| ==> Convert(row[i], kinds[i]).Some?)
      && (r.Success? ==> forall i :: from <= i < |row| ==> Convert(row[i], kinds[i]) == Some(r.value[i - from]))
      && (r.Failure? ==> && r.error.BadColumn? && from <= r.error.index < |row|
                         && Convert(row[r.error.index], kinds[r.error.index]).None?
                         && forall i :: from <= i < r.error.index ==> Convert(row[i], kinds[i]).Some?)
  {
    if from < |row| && Convert(row[from], kinds[from]).Some? {
      ConvertFromSpec(row, kinds, from + 1);
    }
  }

  /** `rows.Scan(dest...)`: the column count must match the destinations, then
      every column must convert; the first failing column is reported. */
  function Scan(row: Row, kinds: seq<ColumnKind>): (r: Result<seq<Scalar>>)
    ensures r.Success? ==> |r.value| == |kinds|
  {
    if |row| != |kinds| then Failure(ColumnCount(|row|, |kinds|))
    else ConvertFrom(row, kinds, 0)
  }

  lemma ScanSpec(row: Row, kinds: seq<ColumnKind>)
    ensures var r := Scan(row, kinds);
      && (|row| != |kinds| ==> r == Failure(ColumnCount(|row|, |kinds|)))
      && (r.Success? <==> |row| == |kinds| && forall i :: 0 <= i < |row| ==> Convert(row[i], kinds[i]).Some?)
      && (r.Success? ==> forall i :: 0 <= i < |row| ==> Convert(row[i], kinds[i]) == Some(r.value[i]))
      && (r.Failure? && |row| == |kinds| ==>
            && r.error.BadColumn? && r.error.index < |row|
            && Convert(row[r.error.index], kinds[r.error.index]).None?
            && forall i :: 0 <= i < r.error.index ==> Convert(row[i], kinds[i]).Some?)
  {
    if |row| == |kinds| {
      ConvertFromSpec(row, kinds, 0);
    }
  }

  function Text(v: Scalar): string {
    if v.TextValue? then v.s else ""
  }

  function Int(v: Scalar): int {
    if v.IntValue? then v.i else 0
  }

  /** The node tables' columns: 18 of them, all text but the fifth, the
      external id. */
  const NodeColumns: seq<ColumnKind> := [
    TextColumn, TextColumn, TextColumn, TextColumn, IntColumn, TextColumn,
    TextColumn, TextColumn, TextColumn, TextColumn, TextColumn, TextColumn,
    TextColumn, TextColumn, TextColumn, TextColumn, TextColumn, TextColumn]

  const IdColumn: nat := 4

  /** The column each attribute is scanned from. */
  function ColumnOf(a: Attribute): (c: nat)
    ensures c < |NodeColumns| && c != IdColumn && NodeColumns[c] == TextColumn
  {
    match a
    case Labels => 0
    case ValidUntil => 1
    case CountryCodes => 2
    case Countries => 3
    case SourceId => 5
    case Address => 6
    case Name => 7
    case JurisDescr => 8
    case ServiceProv => 9
    case Jurisdiction => 10
    case ClosedDate => 11
    case IncorpDate => 12
    case Ibcruc => 13
    case Type => 14
    case Status => 15
    case CompanyType => 16
    case Note => 17
  }

  /** The scan of `IngestNodeTable` into a fresh `Node`: labels, valid_until,
      country_codes, countries, id, source_id, address, name, juris_descr,
      service_prov, jurisdiction, closed_date, incorp_date, ibcruc, type,
      status, company_type, note. */
  function ScanNode(row: Row): (r: Result<Node>)
    ensures r.Success? <==> Scan(row, NodeColumns).Success?
    ensures r.Failure? ==> r.error == Scan(row, NodeColumns).error
  {
    var v :- Scan(row, NodeColumns);
    Success(Node(
      uid := "", id := Int(v[4]),
      labels := Text(v[0]), validUntil := Text(v[1]), countryCodes := Text(v[2]),
      countries := Text(v[3]), sourceId := Text(v[5]),
      address := Text(v[6]), name := Text(v[7]), jurisDescr := Text(v[8]),
      serviceProv := Text(v[9]), jurisdiction := Text(v[10]), closedDate := Text(v[11]),
      incorpDate := Text(v[12]), ibcruc := Text(v[13]), nodeType := Text(v[14]),
      status := Text(v[15]), companyType := Text(v[16]), note := Text(v[17]),
      registeredAddress := [], officerOf := [], connectedTo := [],
      intermediaryOf := [], sameNameAs := [], sameIdAs := []))
  }

  /** The id of a scanned node is its fifth column read as a decimal, and
      the node has no handle and no relations. */
  lemma ScanNodeSpec(row: Row)
    ensures var r := ScanNode(row);
      && (r.Success? ==> |row| == |NodeColumns| && row[IdColumn].Bytes? && Atoi(row[IdColumn].text) == Some(r.value.id))
      && (r.Success? ==> r.value.uid == "" && forall rel :: Edges(r.value, rel) == [])
  {
    ScanSpec(row, NodeColumns);
    if ScanNode(row).Success? {
      var v := Scan(row, NodeColumns).value;
      assert Convert(row[IdColumn], IntColumn) == Some(v[IdColumn]);
    }
  }

  /** Every row of 18 non-NULL columns whose fifth is a 64-bit decimal
      scans into a node. */
  lemma NodeRowScans(row: Row)
    requires |row| == |NodeColumns| && forall i :: 0 <= i < |row| ==> row[i].Bytes?
    requires Atoi(row[IdColumn].text).Some?
    ensures ScanNode(row).Success?
  {
    ScanSpec(row, NodeColumns);
    forall i | 0 <= i < |row|
      ensures Convert(row[i], NodeColumns[i]).Some?
    {
      if i != IdColumn {
        assert NodeColumns[i] == TextColumn;
      }
    }
  }

  /** A row of the edges table. */
  datatype Edge = Edge(id: int, node1: int, relType: string, node2: int)

  /** The edges table's columns: id, node1, rel_type, node2. */
  const EdgeColumns: seq<ColumnKind> := [IntColumn, IntColumn, TextColumn, IntColumn]

  function ScanEdge(row: Row): (r: Result<Edge>)
    ensures r.Success? <==> Scan(row, EdgeColumns).Success?
    ensures r.Failure? ==> r.error == Scan(row, EdgeColumns).error
  {
    var v :- Scan(row, EdgeColumns);
    Success(Edge(Int(v[0]), Int(v[1]), Text(v[2]), Int(v[3])))
  }

  /** The fields of a scanned edges row: the ids read as decimals, the tag
      as it is, in the order id, node1, rel_type, node2. */
  lemma ScanEdgeSpec(row: Row)
    ensures var r := ScanEdge(row);
      && (r.Success? ==> |row| == 4 && row[0].Bytes? && row[1].Bytes? && row[3].Bytes?)
      && (r.Success? ==> Atoi(row[0].text) == Some(r.value.id) && Atoi(row[1].text) == Some(r.value.node1))
      && (r.Success? ==> row[2] == Bytes(r.value.relType) && Atoi(row[3].text) == Some(r.value.node2))
  {
    ScanSpec(row, EdgeColumns);
    if ScanEdge(row).Success? {
      var v := Scan(row, EdgeColumns).value;
      assert Convert(row[0], IntColumn) == Some(v[0]);
      assert Convert(row[1], IntColumn) == Some(v[1]);
      assert Convert(row[2], TextColumn) == Some(v[2]);
      assert Convert(row[3], IntColumn) == Some(v[3]);
    }
  }

  /** Every row of four non-NULL columns whose first, second and fourth are
      64-bit decimals scans into an edge. */
  lemma EdgeRowScans(row: Row)
    requires |row| == |EdgeColumns| && forall i :: 0 <= i < |row| ==> row[i].Bytes?
    requires Atoi(row[0].text).Some? && Atoi(row[1].text).Some? && Atoi(row[3].text).Some?
    ensures ScanEdge(row).Success?
  {
    ScanSpec(row, EdgeColumns);
    assert forall i :: 0 <= i < |row| ==> Convert(row[i], EdgeColumns[i]).Some?;
  }

  /** Each attribute of a scanned node is the text of its own column. */
  lemma ScannedAttribute(row: Row, a: Attribute)
    requires ScanNode(row).Success?
    ensures row[ColumnOf(a)] == Bytes(Attr(ScanNode(row).value, a))
  {
    ScannedTextColumn(row, ColumnOf(a));
  }

  /** A text column of a scanned node row holds the bytes of its value. */
  lemma ScannedTextColumn(row: Row, c: nat)
    requires Scan(row, NodeColumns).Success? && c < |NodeColumns| && NodeColumns[c] == TextColumn
    ensures |row| == |NodeColumns| && row[c] == Bytes(Text(Scan(row, NodeColumns).value[c]))
  {
    ScanSpec(row, NodeColumns);
    assert Convert(row[c], NodeColumns[c]) == Some(Scan(row, NodeColumns).value[c]);
  }

  /** The document sent for a scanned row never carries a `uid`, so every
      row is submitted as a create; an empty column and an id of 0 are left
      out, and no relation key appears. */
  lemma ScannedNodeDocument(row: Row, a: Attribute)
    requires ScanNode(row).Success?
    ensures "uid" !in ToDocument(ScanNode(row).value)
    ensures "id" in ToDocument(ScanNode(row).value) <==> ScanNode(row).value.id != 0
    ensures Key(AttrField(a)) in ToDocument(ScanNode(row).value) <==> row[ColumnOf(a)] != Bytes("")
    ensures forall rel :: Key(RelField(rel)) !in ToDocument(ScanNode(row).value)
  {
    ScannedAttribute(row, a);
    ScanNodeSpec(row);
    CreateDocument(ScanNode(row).value, a);
  }
}
