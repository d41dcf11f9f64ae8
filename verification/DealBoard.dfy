/** Moving a deal on the board: the target stage is renumbered, everything else stays. */
module DealBoard {
  import opened Numbers
  import opened Ordering

  type DealId = nat
  type OrgId = nat

  datatype Stage = Lead | Qualified | Proposal | Negotiation | Won | Lost

  datatype Deal = Deal(org: OrgId, stage: Stage, archived: bool, sortOrder: nat, createdAt: int)

  type Deals = map<DealId, Deal>

  /** An active deal of the organization in the stage. */
  predicate Shown(deals: Deals, org: OrgId, stage: Stage, id: DealId) {
    id in deals && deals[id].org == org && !deals[id].archived && deals[id].stage == stage
  }

  /** The order of the query: sort order, then age; further ties are left to the database. */
  predicate Before(deals: Deals, a: DealId, b: DealId)
  {
    && a in deals && b in deals
    && (deals[a].sortOrder < deals[b].sortOrder
        || (deals[a].sortOrder == deals[b].sortOrder && deals[a].createdAt <= deals[b].createdAt))
  }

  /** A possible result of the query for the other deals of the target stage. */
  ghost predicate IsDestination(deals: Deals, org: OrgId, stage: Stage, moved: DealId, rows: seq<DealId>) {
    && Distinct(rows)
    && (forall id :: id in rows <==> Shown(deals, org, stage, id) && id != moved)
    && (forall i, j | 0 <= i < j < |rows| :: Before(deals, rows[i], rows[j]))
  }

  function Insert(rows: seq<DealId>, position: nat, moved: DealId): seq<DealId> {
    var k := Min(position, |rows|);
    rows[..k] + [moved] + rows[k..]
  }

  function IndexOf(rows: seq<DealId>, id: DealId): (i: nat)
    requires id in rows
    ensures i < |rows| && rows[i] == id
  {
    if rows[0] == id then 0 else 1 + IndexOf(rows[1..], id)
  }

  /** The listed deals get the stage and their position; the others are untouched. */
  function Renumber(deals: Deals, rows: seq<DealId>, stage: Stage): Deals {
    map id | id in deals ::
      if id in rows then deals[id].(stage := stage, sortOrder := IndexOf(rows, id)) else deals[id]
  }

  lemma InsertionKeepsOrder(deals: Deals, rows: seq<DealId>, k: nat, id: DealId)
    requires k <= |rows| && id in deals && id !in rows && forall x | x in rows :: x in deals
    requires Distinct(rows) && forall i, j | 0 <= i < j < |rows| :: Before(deals, rows[i], rows[j])
    requires forall i | 0 <= i < k :: Before(deals, rows[i], id)
    requires k < |rows| ==> !Before(deals, rows[k], id)
    ensures var r := rows[..k] + [id] + rows[k..];
            && (forall x :: x in r <==> x in rows || x == id)
            && Distinct(r) && forall i, j | 0 <= i < j < |r| :: Before(deals, r[i], r[j])
  {
    var r := rows[..k] + [id] + rows[k..];
    assert rows == rows[..k] + rows[k..];
    forall i | k <= i < |rows| ensures Before(deals, id, rows[i]) {
      assert rows[k] in rows && rows[i] in rows;
      assert i > k ==> Before(deals, rows[k], rows[i]);
    }
  }

  class Board {
    var deals: Deals

    constructor (deals: Deals)
      ensures this.deals == deals
    {
      this.deals := deals;
    }

    /** The query: active deals of the stage without the moved one, in order. */
    method Destination(org: OrgId, stage: Stage, moved: DealId) returns (rows: seq<DealId>)
      ensures IsDestination(deals, org, stage, moved, rows)
    {
      rows := [];
      var todo := deals.Keys;
      while todo != {}
        invariant todo <= deals.Keys
        invariant Distinct(rows)
        invariant forall id :: id in rows <==> Shown(deals, org, stage, id) && id != moved && id !in todo
        invariant forall i, j | 0 <= i < j < |rows| :: Before(deals, rows[i], rows[j])
      {
        var id :| id in todo;
        if Shown(deals, org, stage, id) && id != moved {
          rows := InsertSorted(rows, id);
        }
        todo := todo - {id};
      }
    }

    method InsertSorted(rows: seq<DealId>, id: DealId) returns (r: seq<DealId>)
      requires id in deals && id !in rows && forall x | x in rows :: x in deals
      requires Distinct(rows) && forall i, j | 0 <= i < j < |rows| :: Before(deals, rows[i], rows[j])
      ensures forall x :: x in r <==> x in rows || x == id
      ensures Distinct(r) && forall i, j | 0 <= i < j < |r| :: Before(deals, r[i], r[j])
    {
      var k := 0;
      while k < |rows| && Before(deals, rows[k], id)
        invariant k <= |rows|
        invariant forall i | 0 <= i < k :: Before(deals, rows[i], id)
      {
        k := k + 1;
      }
      r := rows[..k] + [id] + rows[k..];
      InsertionKeepsOrder(deals, rows, k, id);
    }

    /** Returns the query result as well, for the specification. */
    method MoveDeal(moved: DealId, stage: Stage, position: nat) returns (ghost rows: seq<DealId>)
      requires moved in deals && !deals[moved].archived
      modifies this
      ensures IsDestination(old(deals), old(deals)[moved].org, stage, moved, rows)
      ensures deals == Renumber(old(deals), Insert(rows, position, moved), stage)
    {
      var found := Destination(deals[moved].org, stage, moved);
      rows := found;
      var k := if position <= |found| then position else |found|;
      var destination := found[..k] + [moved] + found[k..];
      InsertionIsDistinct(deals, deals[moved].org, stage, moved, found, position);
      RenumberRows(destination, stage);
    }

    /** Writes the stage and the position of every listed deal that does not have them yet. */
    method RenumberRows(destination: seq<DealId>, stage: Stage)
      requires Distinct(destination) && forall id | id in destination :: id in deals
      modifies this
      ensures deals == Renumber(old(deals), destination, stage)
    {
      for index := 0 to |destination|
        invariant deals.Keys == old(deals).Keys
        invariant forall id | id in deals ::
                    deals[id] == if id in destination[..index]
                                 then old(deals)[id].(stage := stage, sortOrder := IndexOf(destination, id))
                                 else old(deals)[id]
      {
        var item := destination[index];
        IndexOfDistinct(destination, index);
        assert destination[..index + 1] == destination[..index] + [item];
        if deals[item].stage != stage || deals[item].sortOrder != index {
          deals := deals[item := deals[item].(stage := stage, sortOrder := index)];
        }
      }
      assert destination[..|destination|] == destination;
    }
  }

  lemma {:induction false} IndexOfDistinct(rows: seq<DealId>, i: nat)
    requires Distinct(rows) && i < |rows|
    ensures IndexOf(rows, rows[i]) == i
  {
    var k := IndexOf(rows, rows[i]);
    assert k == i;
  }

  lemma InsertionIsDistinct(deals: Deals, org: OrgId, stage: Stage, moved: DealId, rows: seq<DealId>, position: nat)
    requires IsDestination(deals, org, stage, moved, rows) && moved in deals
    ensures Distinct(Insert(rows, position, moved))
    ensures forall id :: id in Insert(rows, position, moved) <==> id in rows || id == moved
    ensures forall id | id in Insert(rows, position, moved) :: id in deals
  {
    var k := Min(position, |rows|);
    var l := Insert(rows, position, moved);
    forall i | 0 <= i < |rows| ensures rows[i] != moved {
      assert rows[i] in rows;
    }
    forall i, j | 0 <= i < j < |l| ensures l[i] != l[j] {
      assert i < k ==> l[i] == rows[i];
      assert j < k ==> l[j] == rows[j];
      assert i > k ==> l[i] == rows[i - 1];
      assert j > k ==> l[j] == rows[j - 1];
    }
    forall id | id in rows ensures id in l {
      var i :| 0 <= i < |rows| && rows[i] == id;
      assert l[if i < k then i else i + 1] == id;
    }
    assert l[k] == moved;
  }

  /**
   * After the move the target stage is numbered without gaps in the order of the query with the
   * moved deal at the requested position, the other deals of the stage keep their relative order,
   * and every deal outside the target stage is unchanged.
   */
  lemma MoveNumbersTheStage(deals: Deals, moved: DealId, stage: Stage, position: nat, rows: seq<DealId>)
    requires moved in deals && !deals[moved].archived
    requires IsDestination(deals, deals[moved].org, stage, moved, rows)
    ensures var org := deals[moved].org;
            var l := Insert(rows, position, moved);
            var deals' := Renumber(deals, l, stage);
            && (forall id :: Shown(deals', org, stage, id) <==> id in l)
            && (forall i | 0 <= i < |l| :: l[i] in deals' && deals'[l[i]].sortOrder == i)
            && deals'[moved].sortOrder == Min(position, |rows|)
            && deals'.Keys == deals.Keys
            && (forall i, j | 0 <= i < j < |rows| ::
                  Before(deals', rows[i], rows[j]) && !Before(deals', rows[j], rows[i]))
            && (forall id | id in deals && !Shown(deals, org, stage, id) && id != moved :: deals'[id] == deals[id])
            && (forall id | id in deals ::
                  deals'[id].(stage := deals[id].stage, sortOrder := deals[id].sortOrder) == deals[id])
  {
    var l := Insert(rows, position, moved);
    var k := Min(position, |rows|);
    InsertionIsDistinct(deals, deals[moved].org, stage, moved, rows, position);
    forall i | 0 <= i < |l| ensures IndexOf(l, l[i]) == i {
      IndexOfDistinct(l, i);
    }
    assert l[k] == moved;
    forall i | 0 <= i < |rows| ensures rows[i] == l[if i < k then i else i + 1] {
    }
  }

  /** Repeating the same move changes nothing, whatever order the database gives to ties. */
  lemma MoveIsIdempotent(deals: Deals, moved: DealId, stage: Stage, position: nat,
                         rows: seq<DealId>, rows': seq<DealId>)
    requires moved in deals && !deals[moved].archived
    requires IsDestination(deals, deals[moved].org, stage, moved, rows)
    requires IsDestination(Renumber(deals, Insert(rows, position, moved), stage), deals[moved].org, stage, moved, rows')
    ensures var deals' := Renumber(deals, Insert(rows, position, moved), stage);
            Renumber(deals', Insert(rows', position, moved), stage) == deals'
  {
    var deals' := Renumber(deals, Insert(rows, position, moved), stage);
    MoveNumbersTheStage(deals, moved, stage, position, rows);
    var less := (a: DealId, b: DealId) =>
      a in deals' && b in deals' && deals'[a].sortOrder < deals'[b].sortOrder;
    SameDestination(deals, moved, stage, position, rows, rows', deals', less);
    RenumberAgain(deals, moved, stage, position, rows);
  }

  lemma SameDestination(deals: Deals, moved: DealId, stage: Stage, position: nat, rows: seq<DealId>,
                        rows': seq<DealId>, deals': Deals, less: (DealId, DealId) -> bool)
    requires moved in deals && !deals[moved].archived
    requires deals' == Renumber(deals, Insert(rows, position, moved), stage)
    requires IsDestination(deals, deals[moved].org, stage, moved, rows)
    requires IsDestination(deals', deals[moved].org, stage, moved, rows')
    requires forall a, b :: less(a, b) <==> a in deals' && b in deals' && deals'[a].sortOrder < deals'[b].sortOrder
    ensures rows == rows'
  {
    MoveNumbersTheStage(deals, moved, stage, position, rows);
    InsertionIsDistinct(deals, deals[moved].org, stage, moved, rows, position);
    var l := Insert(rows, position, moved);
    forall x ensures x in rows <==> x in rows' {
      assert x in rows' <==> x in l && x != moved;
    }
    forall i, j | 0 <= i < j < |rows'| ensures less(rows'[i], rows'[j]) {
      var a, b := rows'[i], rows'[j];
      assert a in l && b in l && a != b;
      var m :| 0 <= m < |l| && l[m] == a;
      var n :| 0 <= n < |l| && l[n] == b;
      assert Before(deals', a, b);
    }
    AscendingIsUnique(rows, rows', less);
  }

  lemma RenumberAgain(deals: Deals, moved: DealId, stage: Stage, position: nat, rows: seq<DealId>)
    requires moved in deals
    ensures var l := Insert(rows, position, moved);
            Renumber(Renumber(deals, l, stage), l, stage) == Renumber(deals, l, stage)
  {
  }

  // ----- the stage before and after, deal by deal

  /** The deals a card is moved among: active ones of its organization in the stage, without itself. */
  function Others(deals: Deals, moved: DealId, stage: Stage): set<DealId>
    requires moved in deals
  {
    set id | id in deals && id != moved
             && deals[id].org == deals[moved].org && deals[id].stage == stage && !deals[id].archived
  }

  lemma {:induction false} AsManyAsListed(rows: seq<DealId>, ids: set<DealId>)
    requires Distinct(rows) && forall id :: id in rows <==> id in ids
    ensures |rows| == |ids|
  {
    if rows == [] {
      assert ids == {};
    } else {
      var rest, last := rows[..|rows| - 1], rows[|rows| - 1];
      forall id ensures id in rest <==> id in ids - {last} {
        assert id in rows <==> id in rest || id == last;
      }
      AsManyAsListed(rest, ids - {last});
      assert last in rows;
    }
  }

  /** The moved deal is in the stage, with as many others before it as asked for, if there are as many. */
  lemma MovedIsPlaced(deals: Deals, moved: DealId, stage: Stage, position: nat, rows: seq<DealId>)
    requires moved in deals && !deals[moved].archived
    requires IsDestination(deals, deals[moved].org, stage, moved, rows)
    ensures var deals' := Renumber(deals, Insert(rows, position, moved), stage);
            var n := |Others(deals, moved, stage)|;
            && deals'.Keys == deals.Keys && deals'[moved].stage == stage
            && deals'[moved].sortOrder == (if position < n then position else n)
            && forall id | id in deals ::
                 && deals'[id].org == deals[id].org && deals'[id].archived == deals[id].archived
                 && deals'[id].createdAt == deals[id].createdAt
                 && (id != moved && id !in Others(deals, moved, stage) ==> deals'[id] == deals[id])
  {
    MoveNumbersTheStage(deals, moved, stage, position, rows);
    AsManyAsListed(rows, Others(deals, moved, stage));
  }

  /**
   * Two other deals of the stage get different positions, up to the number of others, and the one
   * with the smaller sort order comes first, or at the same sort order the older one.
   */
  lemma OthersKeepTheirOrder(deals: Deals, moved: DealId, stage: Stage, position: nat, rows: seq<DealId>,
                             a: DealId, b: DealId)
    requires moved in deals && !deals[moved].archived
    requires IsDestination(deals, deals[moved].org, stage, moved, rows)
    requires a in Others(deals, moved, stage) && b in Others(deals, moved, stage) && a != b
    ensures var deals' := Renumber(deals, Insert(rows, position, moved), stage);
            && a in deals' && b in deals' && deals'[a].sortOrder != deals'[b].sortOrder
            && deals'[a].sortOrder <= |Others(deals, moved, stage)|
            && deals'[a].sortOrder != deals'[moved].sortOrder
            && (deals[a].sortOrder < deals[b].sortOrder
                || (deals[a].sortOrder == deals[b].sortOrder && deals[a].createdAt < deals[b].createdAt) ==>
                  deals'[a].sortOrder < deals'[b].sortOrder)
  {
    MoveNumbersTheStage(deals, moved, stage, position, rows);
    InsertionIsDistinct(deals, deals[moved].org, stage, moved, rows, position);
    AsManyAsListed(rows, Others(deals, moved, stage));
    var l := Insert(rows, position, moved);
    var i :| 0 <= i < |rows| && rows[i] == a;
    var j :| 0 <= j < |rows| && rows[j] == b;
    var x :| 0 <= x < |l| && l[x] == a;
  }
}
