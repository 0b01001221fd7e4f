/** The graph document: the `Node` struct shared by every program of the
    repository, its JSON serialisation under `omitempty`, and the six
    single-edge relation mutations. */
module Nodes {
  import opened Outcomes

  /** The seventeen scalar string attributes of a node, in declaration order. */
  datatype Attribute =
    | Labels | ValidUntil | CountryCodes | Countries | SourceId | Address | Name
    | JurisDescr | ServiceProv | Jurisdiction | ClosedDate | IncorpDate | Ibcruc
    | Type | Status | CompanyType | Note

  /** The six relation lists of a node. */
  datatype Relation =
    | RegisteredAddress | OfficerOf | ConnectedTo | IntermediaryOf | SameNameAs | SameIdAs

  /** A node document: the store handle (`""` when absent), the external id
      (`0` when absent), the scalar attributes and the relation lists. */
  datatype Node = Node(
    uid: string,
    id: int,
    labels: string,
    validUntil: string,
    countryCodes: string,
    countries: string,
    sourceId: string,
    address: string,
    name: string,
    jurisDescr: string,
    serviceProv: string,
    jurisdiction: string,
    closedDate: string,
    incorpDate: string,
    ibcruc: string,
    nodeType: string,
    status: string,
    companyType: string,
    note: string,
    registeredAddress: seq<Node>,
    officerOf: seq<Node>,
    connectedTo: seq<Node>,
    intermediaryOf: seq<Node>,
    sameNameAs: seq<Node>,
    sameIdAs: seq<Node>)

  /** Go's zero value `Node{}`. */
  const Blank: Node :=
    Node("", 0, "", "", "", "", "", "", "", "", "", "", "", "", "", "", "", "", "", [], [], [], [], [], [])

  /** `Node{UId: u}`: a reference to the node with handle `u`. */
  function Ref(u: string): Node {
    Blank.(uid := u)
  }

  function Attr(n: Node, a: Attribute): string {
    match a
    case Labels => n.labels
    case ValidUntil => n.validUntil
    case CountryCodes => n.countryCodes
    case Countries => n.countries
    case SourceId => n.sourceId
    case Address => n.address
    case Name => n.name
    case JurisDescr => n.jurisDescr
    case ServiceProv => n.serviceProv
    case Jurisdiction => n.jurisdiction
    case ClosedDate => n.closedDate
    case IncorpDate => n.incorpDate
    case Ibcruc => n.ibcruc
    case Type => n.nodeType
    case Status => n.status
    case CompanyType => n.companyType
    case Note => n.note
  }

  function Edges(n: Node, r: Relation): seq<Node> {
    match r
    case RegisteredAddress => n.registeredAddress
    case OfficerOf => n.officerOf
    case ConnectedTo => n.connectedTo
    case IntermediaryOf => n.intermediaryOf
    case SameNameAs => n.sameNameAs
    case SameIdAs => n.sameIdAs
  }

  /** The nodes a relation list holds are smaller than the node holding it. */
  lemma EdgesBelow(n: Node, r: Relation)
    ensures forall m :: m in Edges(n, r) ==> (n decreases to m)
  {
  }

  /** A field of the struct, as `encoding/json` sees it. */
  datatype Field = UIdField | IdField | AttrField(attr: Attribute) | RelField(rel: Relation)

  /** The fields in declaration order. */
  const FieldOrder: seq<Field> := [
    UIdField, IdField,
    AttrField(Labels), AttrField(ValidUntil), AttrField(CountryCodes), AttrField(Countries),
    AttrField(SourceId), AttrField(Address), AttrField(Name), AttrField(JurisDescr),
    AttrField(ServiceProv), AttrField(Jurisdiction), AttrField(ClosedDate), AttrField(IncorpDate),
    AttrField(Ibcruc), AttrField(Type), AttrField(Status), AttrField(CompanyType), AttrField(Note),
    RelField(RegisteredAddress), RelField(OfficerOf), RelField(ConnectedTo),
    RelField(IntermediaryOf), RelField(SameNameAs), RelField(SameIdAs)]

  lemma AllFieldsComplete(f: Field)
    ensures f in FieldOrder
  {
    match f
    case AttrField(a) => {
      match a {
        case Labels =>
        case ValidUntil =>
        case CountryCodes =>
        case Countries =>
        case SourceId =>
        case Address =>
        case Name =>
        case JurisDescr =>
        case ServiceProv =>
        case Jurisdiction =>
        case ClosedDate =>
        case IncorpDate =>
        case Ibcruc =>
        case Type =>
        case Status =>
        case CompanyType =>
        case Note =>
      }
    }
    case RelField(r) => {
      match r {
        case RegisteredAddress =>
        case OfficerOf =>
        case ConnectedTo =>
        case IntermediaryOf =>
        case SameNameAs =>
        case SameIdAs =>
      }
    }
    case _ =>
  }

  /** The field a JSON key belongs to: the inverse of the struct tags. */
  function FieldOfKey(k: string): Option<Field> {
    match k
    case "uid" => Some(UIdField)
    case "id" => Some(IdField)
    case "labels" => Some(AttrField(Labels))
    case "valid_until" => Some(AttrField(ValidUntil))
    case "country_codes" => Some(AttrField(CountryCodes))
    case "countries" => Some(AttrField(Countries))
    case "source_id" => Some(AttrField(SourceId))
    case "address" => Some(AttrField(Address))
    case "name" => Some(AttrField(Name))
    case "juris_descr" => Some(AttrField(JurisDescr))
    case "service_prov" => Some(AttrField(ServiceProv))
    case "jurisdiction" => Some(AttrField(Jurisdiction))
    case "closed_date" => Some(AttrField(ClosedDate))
    case "incorp_date" => Some(AttrField(IncorpDate))
    case "ibcruc" => Some(AttrField(Ibcruc))
    case "type" => Some(AttrField(Type))
    case "status" => Some(AttrField(Status))
    case "company_type" => Some(AttrField(CompanyType))
    case "note" => Some(AttrField(Note))
    case "registered_address" => Some(RelField(RegisteredAddress))
    case "officer_of" => Some(RelField(OfficerOf))
    case "connected_to" => Some(RelField(ConnectedTo))
    case "imtermediary_of" => Some(RelField(IntermediaryOf))
    case "same_name_as" => Some(RelField(SameNameAs))
    case "same_id_as" => Some(RelField(SameIdAs))
    case _ => None
  }

  /** The JSON key of each field, as its struct tag spells it; the
      `IntermediaryOf` list is tagged `imtermediary_of`. */
  function Key(f: Field): string {
    match f
    case UIdField => "uid"
    case IdField => "id"
    case AttrField(a) => (
      match a
      case Labels => "labels"
      case ValidUntil => "valid_until"
      case CountryCodes => "country_codes"
      case Countries => "countries"
      case SourceId => "source_id"
      case Address => "address"
      case Name => "name"
      case JurisDescr => "juris_descr"
      case ServiceProv => "service_prov"
      case Jurisdiction => "jurisdiction"
      case ClosedDate => "closed_date"
      case IncorpDate => "incorp_date"
      case Ibcruc => "ibcruc"
      case Type => "type"
      case Status => "status"
      case CompanyType => "company_type"
      case Note => "note")
    case RelField(r) => (
      match r
      case RegisteredAddress => "registered_address"
      case OfficerOf => "officer_of"
      case ConnectedTo => "connected_to"
      case IntermediaryOf => "imtermediary_of"
      case SameNameAs => "same_name_as"
      case SameIdAs => "same_id_as")
  }

  /** `FieldOfKey` reads back the field of every key. */
  lemma KeyRoundTrip(f: Field)
    ensures FieldOfKey(Key(f)) == Some(f)
  {
    match f
    case AttrField(a) => {
      match a {
        case Labels =>
        case ValidUntil =>
        case CountryCodes =>
        case Countries =>
        case SourceId =>
        case Address =>
        case Name =>
        case JurisDescr =>
        case ServiceProv =>
        case Jurisdiction =>
        case ClosedDate =>
        case IncorpDate =>
        case Ibcruc =>
        case Type =>
        case Status =>
        case CompanyType =>
        case Note =>
      }
    }
    case RelField(r) => {
      match r {
        case RegisteredAddress =>
        case OfficerOf =>
        case ConnectedTo =>
        case IntermediaryOf =>
        case SameNameAs =>
        case SameIdAs =>
      }
    }
    case _ =>
  }

  /** Distinct fields have distinct keys. */
  lemma KeyInjective()
    ensures forall f, g :: Key(f) == Key(g) ==> f == g
  {
    forall f, g | Key(f) == Key(g)
      ensures f == g
    {
      KeyRoundTrip(f);
      KeyRoundTrip(g);
    }
  }

  /** A JSON value as `encoding/json` produces it for a `Node`. */
  datatype Json = JStr(s: string) | JInt(i: int) | JArray(items: seq<Json>) | JObject(fields: map<string, Json>)

  type Document = map<string, Json>

  /** The `omitempty` test: `""`, `0` and an empty list are zero. */
  predicate IsZero(n: Node, f: Field) {
    match f
    case UIdField => n.uid == ""
    case IdField => n.id == 0
    case AttrField(a) => Attr(n, a) == ""
    case RelField(r) => Edges(n, r) == []
  }

  /** The JSON value of one field; a relation list is an array of documents. */
  function Encode(n: Node, f: Field): Json
    decreases n, 0
  {
    match f
    case UIdField => JStr(n.uid)
    case IdField => JInt(n.id)
    case AttrField(a) => JStr(Attr(n, a))
    case RelField(r) =>
      var l := Edges(n, r);
      EdgesBelow(n, r);
      JArray(seq(|l|, i requires 0 <= i < |l| => JObject(ToDocument(l[i]))))
  }

  /** `json.Marshal` of a node, one key per non-zero field. */
  function ToDocument(n: Node): Document
    decreases n, 2
  {
    Fields(n, FieldOrder)
  }

  /** The keys `json.Marshal` writes for the fields `fs` of `n`: those whose
      value is not zero. */
  function Fields(n: Node, fs: seq<Field>): Document
    decreases n, 1, |fs|
  {
    if fs == [] then map[]
    else
      var rest := Fields(n, fs[1..]);
      if IsZero(n, fs[0]) then rest else rest[Key(fs[0]) := Encode(n, fs[0])]
  }

  /** The keys written for `fs` are the keys of its non-zero fields, each
      holding its field's value. */
  lemma {:induction false} FieldsOmitEmpty(n: Node, fs: seq<Field>)
    ensures forall f :: Key(f) in Fields(n, fs) <==> f in fs && !IsZero(n, f)
    ensures forall f :: f in fs && !IsZero(n, f) ==> Fields(n, fs)[Key(f)] == Encode(n, f)
    ensures forall k :: k in Fields(n, fs) ==> exists f :: f in fs && k == Key(f)
  {
    if fs != [] {
      FieldsOmitEmpty(n, fs[1..]);
      KeyInjective();
      forall k | k in Fields(n, fs)
        ensures exists f :: f in fs && k == Key(f)
      {
        if k in Fields(n, fs[1..]) {
          var f :| f in fs[1..] && k == Key(f);
          assert f in fs;
        } else {
          assert k == Key(fs[0]);
        }
      }
    }
  }

  /** The `omitempty` contract: a key is present exactly when its field is
      non-zero, it holds that field's value, and no other key appears. */
  lemma OmitEmpty(n: Node)
    ensures forall f :: Key(f) in ToDocument(n) <==> !IsZero(n, f)
    ensures forall f :: Key(f) in ToDocument(n) ==> ToDocument(n)[Key(f)] == Encode(n, f)
    ensures forall k :: k in ToDocument(n) ==> exists f :: k == Key(f)
  {
    FieldsOmitEmpty(n, FieldOrder);
    forall f ensures f in FieldOrder {
      AllFieldsComplete(f);
    }
  }

  /** The document of a bare reference `Node{UId: u}`. */
  function RefDocument(u: string): Document {
    if u == "" then map[] else map["uid" := JStr(u)]
  }

  /** A reference is zero in every field but (possibly) its handle. */
  lemma RefZero(u: string, f: Field)
    ensures IsZero(Ref(u), f) <==> f != UIdField || u == ""
  {
    match f
    case AttrField(a) =>
    case RelField(r) =>
    case _ =>
  }

  lemma RefDocumentOf(u: string)
    ensures ToDocument(Ref(u)) == RefDocument(u)
  {
    var d := ToDocument(Ref(u));
    OmitEmpty(Ref(u));
    forall k | k in d
      ensures k == "uid" && u != ""
    {
      var f :| k == Key(f);
      RefZero(u, f);
    }
    RefZero(u, UIdField);
    assert u != "" ==> "uid" in d && d["uid"] == Encode(Ref(u), UIdField);
  }

  /** The zero node serialises to the empty document `{}`. */
  lemma BlankIsEmptyDocument()
    ensures ToDocument(Blank) == map[]
  {
    assert Blank == Ref("");
    RefDocumentOf("");
  }

  /** The tag string that `RelationNode` switches on for each relation. */
  function RelationTag(r: Relation): (tag: string)
    ensures RelationOfTag(tag) == Some(r)
  {
    match r
    case RegisteredAddress => "registered_address"
    case OfficerOf => "officer_of"
    case ConnectedTo => "connected_to"
    case IntermediaryOf => "intermediary_of"
    case SameNameAs => "same_name_as"
    case SameIdAs => "same_id_as"
  }

  /** The closed switch of `RelationNode`: which relation a tag names. */
  function RelationOfTag(tag: string): Option<Relation> {
    match tag
    case "registered_address" => Some(RegisteredAddress)
    case "officer_of" => Some(OfficerOf)
    case "connected_to" => Some(ConnectedTo)
    case "intermediary_of" => Some(IntermediaryOf)
    case "same_name_as" => Some(SameNameAs)
    case "same_id_as" => Some(SameIdAs)
    case _ => None
  }

  /** Exactly the six tags are recognised, each naming its own relation. */
  lemma RecognisedTags(tag: string)
    ensures RelationOfTag(tag).Some? <==> exists r :: tag == RelationTag(r)
    ensures RelationOfTag(tag).Some? ==> RelationTag(RelationOfTag(tag).value) == tag
  {
    if RelationOfTag(tag).Some? {
      var r := RelationOfTag(tag).value;
      assert tag == RelationTag(r);
    }
  }

  /** One edge of kind `r` from `src` to `dst`: the six constructors
      `RegisteredAddress` ... `SameIdAs`, and each arm of `RelationNode`. */
  function Link(r: Relation, src: string, dst: string): (n: Node)
    ensures n.uid == src && n.id == 0
    ensures forall a :: Attr(n, a) == ""
    ensures Edges(n, r) == [Ref(dst)]
    ensures forall r' :: r' != r ==> Edges(n, r') == []
  {
    var to := [Ref(dst)];
    match r
    case RegisteredAddress => Blank.(uid := src, registeredAddress := to)
    case OfficerOf => Blank.(uid := src, officerOf := to)
    case ConnectedTo => Blank.(uid := src, connectedTo := to)
    case IntermediaryOf => Blank.(uid := src, intermediaryOf := to)
    case SameNameAs => Blank.(uid := src, sameNameAs := to)
    case SameIdAs => Blank.(uid := src, sameIdAs := to)
  }

  /** `RelationNode(rel, src, dst)`: the single-edge mutation for a known tag,
      and the zero node for any other tag. */
  function RelationNode(tag: string, src: string, dst: string): Node {
    match RelationOfTag(tag)
    case Some(r) => Link(r, src, dst)
    case None => Blank
  }

  /** The wire document of a single-edge mutation: `uid` (only when `src` is
      set) and one relation key holding `[{uid: dst}]`, nothing else. */
  lemma LinkDocument(r: Relation, src: string, dst: string)
    ensures ToDocument(Link(r, src, dst))
      == RefDocument(src)[Key(RelField(r)) := JArray([JObject(RefDocument(dst))])]
  {
    var d := ToDocument(Link(r, src, dst));
    var rk := Key(RelField(r));
    var edge := JArray([JObject(RefDocument(dst))]);
    LinkDocumentKeys(r, src, dst);
    LinkDocumentValues(r, src, dst);
    assert FieldOfKey("uid") == Some(UIdField);
    if src == "" {
      assert d.Keys == {rk};
    } else {
      assert d.Keys == {"uid", rk};
    }
  }

  lemma LinkDocumentKeys(r: Relation, src: string, dst: string)
    ensures forall k :: k in ToDocument(Link(r, src, dst)) ==> k == "uid" || k == Key(RelField(r))
  {
    var n := Link(r, src, dst);
    OmitEmpty(n);
    forall k | k in ToDocument(n)
      ensures k == "uid" || k == Key(RelField(r))
    {
      var f :| k == Key(f);
      LinkZero(r, src, dst, f);
    }
  }

  lemma LinkDocumentValues(r: Relation, src: string, dst: string)
    ensures "uid" in ToDocument(Link(r, src, dst)) <==> src != ""
    ensures src != "" ==> ToDocument(Link(r, src, dst))["uid"] == JStr(src)
    ensures Key(RelField(r)) in ToDocument(Link(r, src, dst))
    ensures ToDocument(Link(r, src, dst))[Key(RelField(r))] == JArray([JObject(RefDocument(dst))])
  {
    var n := Link(r, src, dst);
    OmitEmpty(n);
    LinkZero(r, src, dst, UIdField);
    LinkZero(r, src, dst, RelField(r));
    LinkEdgeValue(r, src, dst);
    assert Key(UIdField) == "uid";
  }

  lemma LinkEdgeValue(r: Relation, src: string, dst: string)
    ensures Encode(Link(r, src, dst), RelField(r)) == JArray([JObject(RefDocument(dst))])
  {
    var l := Edges(Link(r, src, dst), r);
    assert l == [Ref(dst)];
    RefDocumentOf(dst);
    var items := seq(|l|, i requires 0 <= i < |l| => JObject(ToDocument(l[i])));
    assert items == [JObject(RefDocument(dst))];
  }

  lemma LinkZero(r: Relation, src: string, dst: string, f: Field)
    ensures IsZero(Link(r, src, dst), f) <==> (f == UIdField && src == "") || (f != UIdField && f != RelField(r))
  {
    match f
    case AttrField(a) =>
    case RelField(r') =>
    case _ =>
  }

  /** A recognised tag yields exactly the edge its name says. */
  lemma RelationNodeKnownTag(r: Relation, src: string, dst: string)
    ensures RelationNode(RelationTag(r), src, dst) == Link(r, src, dst)
  {
  }

  /** An unrecognised tag yields the zero node, an empty document `{}`. */
  lemma RelationNodeUnknownTag(tag: string, src: string, dst: string)
    requires forall r :: tag != RelationTag(r)
    ensures RelationNode(tag, src, dst) == Blank
    ensures ToDocument(RelationNode(tag, src, dst)) == map[]
  {
    RecognisedTags(tag);
    BlankIsEmptyDocument();
  }

  /** With no source handle the mutation carries no `uid`, so the store
      creates a fresh source node instead of attaching to an existing one. */
  lemma LinkWithoutSourceCreates(r: Relation, dst: string)
    ensures "uid" !in ToDocument(Link(r, "", dst))
    ensures Key(RelField(r)) in ToDocument(Link(r, "", dst))
  {
    LinkDocument(r, "", dst);
  }

  /** Five relations are written under their tag; `intermediary_of` edges are
      written under the misspelt key `imtermediary_of`. */
  lemma IntermediaryKeyMisspelt(r: Relation)
    ensures Key(RelField(r)) == RelationTag(r) <==> r != IntermediaryOf
    ensures Key(RelField(IntermediaryOf)) == "imtermediary_of"
  {
  }

  /** The document of a node with no handle and no relations: no `uid` key,
      no relation key, and a scalar key exactly when its value is non-zero. */
  lemma CreateDocument(n: Node, a: Attribute)
    requires n.uid == "" && forall r :: Edges(n, r) == []
    ensures "uid" !in ToDocument(n)
    ensures "id" in ToDocument(n) <==> n.id != 0
    ensures Key(AttrField(a)) in ToDocument(n) <==> Attr(n, a) != ""
    ensures forall r :: Key(RelField(r)) !in ToDocument(n)
  {
    OmitEmpty(n);
    assert Key(UIdField) == "uid" && Key(IdField) == "id";
  }
}
