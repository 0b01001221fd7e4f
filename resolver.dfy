/** `GetUId`: from an external id to the store's internal handle. */
module Resolver {
  import opened Outcomes
  import opened Nodes
  import opened GraphStore

  /** The decision `GetUId` takes on the lookup's answer: the handle of the
      single matching record, or an error. */
  function Resolve(nodeId: int, answer: Result<seq<Node>>): (r: Result<string>)
    ensures r.Success? <==> answer.Success? && |answer.value| == 1
    ensures r.Success? ==> r.value == answer.value[0].uid
    ensures answer.Failure? ==> r == Failure(answer.error)
  {
    match answer
    case Failure(e) => Failure(e)
    case Success(me) =>
      if |me| != 1 then Failure(NotInDatabase(nodeId)) else Success(me[0].uid)
  }

  /** No match and several matches are one and the same error. */
  lemma ZeroAndManyMatchesFailAlike(nodeId: int, none: seq<Node>, many: seq<Node>)
    requires |none| == 0 && |many| >= 2
    ensures Resolve(nodeId, Success(none)) == Failure(NotInDatabase(nodeId))
    ensures Resolve(nodeId, Success(many)) == Resolve(nodeId, Success(none))
  {
  }

  /** What the `eq(id, n)` lookup returns when the store holds `nodes`: the
      records whose external id is `n`, in store order. A node whose id is 0
      was created without an `id` (it is omitted when empty), so `eq(id, 0)`
      matches nothing. */
  function Matches(nodes: seq<Node>, nodeId: int): (m: seq<Node>)
    ensures |m| <= |nodes|
    ensures forall x :: x in m ==> x in nodes && x.id == nodeId
    ensures nodeId == 0 ==> m == []
  {
    if nodes == [] then []
    else if nodeId != 0 && nodes[0].id == nodeId then [nodes[0]] + Matches(nodes[1..], nodeId)
    else Matches(nodes[1..], nodeId)
  }

  /** Node `i` is the only one of `nodes` whose stored external id is
      `nodeId`. */
  predicate HeldOnlyBy(nodes: seq<Node>, nodeId: int, i: int) {
    && nodeId != 0
    && 0 <= i < |nodes| && nodes[i].id == nodeId
    && forall j :: 0 <= j < |nodes| && j != i ==> nodes[j].id != nodeId
  }

  lemma {:induction false} MatchesUnique(nodes: seq<Node>, nodeId: int, i: nat)
    requires HeldOnlyBy(nodes, nodeId, i)
    ensures Matches(nodes, nodeId) == [nodes[i]]
  {
    if i == 0 {
      MatchesNone(nodes[1..], nodeId);
    } else {
      assert nodes[0].id != nodeId;
      assert HeldOnlyBy(nodes[1..], nodeId, i - 1);
      MatchesUnique(nodes[1..], nodeId, i - 1);
    }
  }

  lemma {:induction false} MatchesNone(nodes: seq<Node>, nodeId: int)
    requires forall j :: 0 <= j < |nodes| ==> nodes[j].id != nodeId
    ensures Matches(nodes, nodeId) == []
  {
    if nodes != [] {
      MatchesNone(nodes[1..], nodeId);
    }
  }

  lemma {:induction false} MatchesSeveral(nodes: seq<Node>, nodeId: int, i: nat, j: nat)
    requires nodeId != 0 && i < j < |nodes| && nodes[i].id == nodeId && nodes[j].id == nodeId
    ensures |Matches(nodes, nodeId)| >= 2
  {
    if i == 0 {
      MatchesAtLeastOne(nodes[1..], nodeId, j - 1);
    } else {
      MatchesSeveral(nodes[1..], nodeId, i - 1, j - 1);
      if nodes[0].id == nodeId {
      }
    }
  }

  lemma {:induction false} MatchesAtLeastOne(nodes: seq<Node>, nodeId: int, i: nat)
    requires nodeId != 0 && i < |nodes| && nodes[i].id == nodeId
    ensures |Matches(nodes, nodeId)| >= 1
  {
    if i > 0 && nodes[0].id != nodeId {
      MatchesAtLeastOne(nodes[1..], nodeId, i - 1);
    }
  }

  /** Resolution against a store holding `nodes`: a non-zero id held by
      exactly one node resolves to that node's handle; an id held by no node,
      or by two, is "not in database", and so is id 0, which is never
      stored. */
  lemma ResolveAgainstStore(nodes: seq<Node>, nodeId: int)
    ensures forall i :: HeldOnlyBy(nodes, nodeId, i) ==>
      Resolve(nodeId, Success(Matches(nodes, nodeId))) == Success(nodes[i].uid)
    ensures (forall j :: 0 <= j < |nodes| ==> nodes[j].id != nodeId) ==>
      Resolve(nodeId, Success(Matches(nodes, nodeId))) == Failure(NotInDatabase(nodeId))
    ensures forall i, j :: 0 <= i < j < |nodes| && nodes[i].id == nodeId && nodes[j].id == nodeId ==>
      Resolve(nodeId, Success(Matches(nodes, nodeId))) == Failure(NotInDatabase(nodeId))
    ensures nodeId == 0 ==> Resolve(nodeId, Success(Matches(nodes, nodeId))) == Failure(NotInDatabase(0))
  {
    forall i | HeldOnlyBy(nodes, nodeId, i)
      ensures Resolve(nodeId, Success(Matches(nodes, nodeId))) == Success(nodes[i].uid)
    {
      MatchesUnique(nodes, nodeId, i);
    }
    if forall j :: 0 <= j < |nodes| ==> nodes[j].id != nodeId {
      MatchesNone(nodes, nodeId);
    }
    forall i, j | 0 <= i < j < |nodes| && nodes[i].id == nodeId && nodes[j].id == nodeId
      ensures Resolve(nodeId, Success(Matches(nodes, nodeId))) == Failure(NotInDatabase(nodeId))
    {
      if nodeId != 0 {
        MatchesSeveral(nodes, nodeId, i, j);
      }
    }
  }

  /** The string Go's `GetUId` returns beside its error: `""` on failure. */
  function UidOrEmpty(r: Result<string>): (u: string)
    ensures r.Failure? ==> u == ""
    ensures r.Success? ==> u == r.value
  {
    if r.Success? then r.value else ""
  }

  method GetUId(store: Store, nodeId: int) returns (r: Result<string>)
    ensures r == Resolve(nodeId, store.backend.lookup(nodeId))
  {
    var me := store.Lookup(nodeId);
    if me.Failure? {
      return Failure(me.error);
    }
    if |me.value| != 1 {
      return Failure(NotInDatabase(nodeId));
    }
    return Success(me.value[0].uid);
  }
}
