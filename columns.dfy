/**
 * The board's columns as the card lifecycle sees them (BoardColumnInfoDTO):
 * an id, a numeric order and a kind. Adjacency is never inferred from list
 * position: the successor of a column is resolved by an `order + 1` lookup.
 */
module Columns {
  import opened Results

  /** BoardColumnKindEnum. */
  datatype ColumnKind = Initial | Pending | Final | Cancel

  datatype ColumnInfo = ColumnInfo(id: int, order: int, kind: ColumnKind)

  /** Index of the first column satisfying `p`: what `stream().filter(p).findFirst()` picks. */
  function FirstIndex(columns: seq<ColumnInfo>, p: ColumnInfo -> bool): (r: Option<nat>)
    ensures r.None? <==> forall i :: 0 <= i < |columns| ==> !p(columns[i])
    ensures r.Some? ==> r.value < |columns| && p(columns[r.value])
    ensures r.Some? ==> forall j :: 0 <= j < r.value ==> !p(columns[j])
  {
    if columns == [] then None
    else if p(columns[0]) then Some(0)
    else match FirstIndex(columns[1..], p)
      case None => None
      case Some(k) => Some(k + 1)
  }

  /** The first column whose id is `id` (the card's current column). */
  function ColumnWithId(columns: seq<ColumnInfo>, id: int): (r: Option<ColumnInfo>)
    ensures r.None? <==> forall i :: 0 <= i < |columns| ==> columns[i].id != id
    ensures r.Some? ==> r.value in columns && r.value.id == id
    ensures r.Some? ==> exists k :: 0 <= k < |columns| && r.value == columns[k]
                                    && forall j :: 0 <= j < k ==> columns[j].id != id
  {
    match FirstIndex(columns, (c: ColumnInfo) => c.id == id)
    case None => None
    case Some(k) => Some(columns[k])
  }

  /** The first column whose order is `order` (the successor lookup). */
  function ColumnWithOrder(columns: seq<ColumnInfo>, order: int): (r: Option<ColumnInfo>)
    ensures r.None? <==> forall i :: 0 <= i < |columns| ==> columns[i].order != order
    ensures r.Some? ==> r.value in columns && r.value.order == order
    ensures r.Some? ==> exists k :: 0 <= k < |columns| && r.value == columns[k]
                                    && forall j :: 0 <= j < k ==> columns[j].order != order
  {
    match FirstIndex(columns, (c: ColumnInfo) => c.order == order)
    case None => None
    case Some(k) => Some(columns[k])
  }

  /** The kind a column at `order` has on a board created with `n` additional columns. */
  function KindAtOrder(order: int, n: nat): ColumnKind
  {
    if order == 0 then Initial
    else if order == n + 1 then Final
    else if order == n + 2 then Cancel
    else Pending
  }

  predicate HasOrder(columns: seq<ColumnInfo>, order: int)
  {
    exists i :: 0 <= i < |columns| && columns[i].order == order
  }

  /**
   * A well-formed board with `n` pending columns: ids and orders are distinct,
   * the orders are exactly 0..n+2, INITIAL sits at 0, PENDING at 1..n, FINAL
   * at n+1 and CANCEL at n+2, whatever the order of the list itself.
   */
  ghost predicate Topology(columns: seq<ColumnInfo>, n: nat)
  {
    && (forall i, j :: 0 <= i < j < |columns| ==> columns[i].id != columns[j].id)
    && (forall i, j :: 0 <= i < j < |columns| ==> columns[i].order != columns[j].order)
    && (forall i :: 0 <= i < |columns| ==>
          0 <= columns[i].order <= n + 2 && columns[i].kind == KindAtOrder(columns[i].order, n))
    && (forall order :: 0 <= order <= n + 2 ==> HasOrder(columns, order))
  }
}
