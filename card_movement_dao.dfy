/**
 * CardMovementDAO.getCardMovements: turn the query's rows (ordered by
 * `moved_at`) into movement records, each carrying the time elapsed since the
 * previous row.
 */
module CardMovementDao {
  import opened Results

  /** One row of the movement query: the movement joined with column names and the card title. */
  datatype MovementRow = MovementRow(
    id: int, movedAt: int, fromColumnName: Option<string>, toColumnName: string, cardTitle: string)

  /** CardMovementDTO; `timeInColumn` is null for the first movement. */
  datatype CardMovement = CardMovement(
    id: int, cardTitle: string, movedAt: int, fromColumnName: Option<string>, toColumnName: string,
    timeInColumn: Option<int>)

  ghost predicate SortedByMovedAt(rows: seq<MovementRow>)
  {
    forall i, j :: 0 <= i < j < |rows| ==> rows[i].movedAt <= rows[j].movedAt
  }

  /** The first movement has no time in column; every later one the gap to its predecessor. */
  ghost predicate TimesFromMovedAt(movements: seq<CardMovement>)
  {
    forall i :: 0 <= i < |movements| ==> movements[i].timeInColumn == ElapsedBefore(movements, i)
  }

  /** Null for the first movement, the gap to the previous movement otherwise. */
  function ElapsedBefore(movements: seq<CardMovement>, i: nat): Option<int>
    requires i < |movements|
  {
    if i == 0 then None else Some(movements[i].movedAt - movements[i - 1].movedAt)
  }

  /** The DTO built from one row, before the time in column is known. */
  function FromRow(row: MovementRow, timeInColumn: Option<int>): CardMovement
  {
    CardMovement(row.id, row.cardTitle, row.movedAt, row.fromColumnName, row.toColumnName, timeInColumn)
  }

  /** The time in column the DAO attaches to row `k`. */
  function TimeSincePrevious(rows: seq<MovementRow>, k: nat): Option<int>
    requires k < |rows|
  {
    if k == 0 then None else Some(rows[k].movedAt - rows[k - 1].movedAt)
  }

  method GetCardMovements(rows: seq<MovementRow>) returns (movements: seq<CardMovement>)
    ensures |movements| == |rows|
    ensures forall i :: 0 <= i < |rows| ==>
      && movements[i].id == rows[i].id && movements[i].cardTitle == rows[i].cardTitle
      && movements[i].movedAt == rows[i].movedAt
      && movements[i].fromColumnName == rows[i].fromColumnName
      && movements[i].toColumnName == rows[i].toColumnName
    ensures |rows| > 0 ==> movements[0].timeInColumn.None?
    ensures forall i :: 0 <= i < |rows| ==> movements[i].timeInColumn == TimeSincePrevious(rows, i)
    ensures TimesFromMovedAt(movements)
    ensures SortedByMovedAt(rows) ==>
      forall i :: 0 <= i < |movements| && movements[i].timeInColumn.Some? ==> movements[i].timeInColumn.value >= 0
  {
    movements := [];
    var previousTime: Option<int> := None;
    var i := 0;
    while i < |rows|
      invariant 0 <= i <= |rows|
      invariant |movements| == i
      invariant previousTime == if i == 0 then None else Some(rows[i - 1].movedAt)
      invariant forall k :: 0 <= k < i ==> movements[k] == FromRow(rows[k], TimeSincePrevious(rows, k))
    {
      var movedAt := rows[i].movedAt;
      var movement := FromRow(rows[i], if previousTime.Some? then Some(movedAt - previousTime.value) else None);
      movements := movements + [movement];
      previousTime := Some(movedAt);
      i := i + 1;
    }
    forall k | 0 <= k < |rows|
      ensures movements[k].timeInColumn == ElapsedBefore(movements, k)
      ensures SortedByMovedAt(rows) && movements[k].timeInColumn.Some? ==> movements[k].timeInColumn.value >= 0
    {
      assert movements[k] == FromRow(rows[k], TimeSincePrevious(rows, k));
      if k > 0 {
        assert movements[k - 1] == FromRow(rows[k - 1], TimeSincePrevious(rows, k - 1));
      }
    }
  }
}
