/**
 * MainMenu.createBoard's column list: INITIAL at order 0, one PENDING column
 * per additional column at orders 1..n, FINAL at n + 1 and CANCEL at n + 2.
 * The prompts that supply the names and the count are inputs here.
 */
module MainMenu {
  import opened Results
  import opened Columns
  import opened Persistence
  import opened CardService

  /** BoardColumnEntity as createColumn fills it; its id is assigned when the board is inserted. */
  datatype BoardColumn = BoardColumn(id: Option<int>, name: string, kind: ColumnKind, order: int)

  /** MainMenu.createColumn: a new entity with exactly the given name, kind and order. */
  function CreateColumn(name: string, kind: ColumnKind, order: int): (c: BoardColumn)
    ensures c.name == name && c.kind == kind && c.order == order
    ensures c.id.None?
  {
    BoardColumn(None, name, kind, order)
  }

  /** The PENDING columns the loop adds, the i-th (from 0) at order i + 1. */
  function PendingColumns(names: seq<string>): (r: seq<BoardColumn>)
    ensures |r| == |names|
  {
    if names == [] then []
    else PendingColumns(names[..|names| - 1]) + [CreateColumn(names[|names| - 1], Pending, |names|)]
  }

  lemma {:induction false} PendingColumnsAt(names: seq<string>, k: nat)
    requires k < |names|
    ensures PendingColumns(names)[k] == CreateColumn(names[k], Pending, k + 1)
  {
    if k < |names| - 1 {
      PendingColumnsAt(names[..|names| - 1], k);
    }
  }

  /** The list createBoard assembles from the count and the names entered. */
  function BoardLayout(additionalColumns: int, initialName: string, pendingNames: seq<string>,
                       finalName: string, cancelName: string): seq<BoardColumn>
  {
    [CreateColumn(initialName, Initial, 0)]
    + PendingColumns(pendingNames)
    + [CreateColumn(finalName, Final, additionalColumns + 1), CreateColumn(cancelName, Cancel, additionalColumns + 2)]
  }

  /**
   * MainMenu.createBoard (lines that build the column list): one pending name
   * is read per loop iteration, so there are as many as the loop runs.
   */
  method CreateBoardColumns(additionalColumns: int, initialName: string, pendingNames: seq<string>,
                            finalName: string, cancelName: string) returns (columns: seq<BoardColumn>)
    requires |pendingNames| == if additionalColumns < 0 then 0 else additionalColumns
    ensures columns == BoardLayout(additionalColumns, initialName, pendingNames, finalName, cancelName)
  {
    columns := [];
    columns := columns + [CreateColumn(initialName, Initial, 0)];
    var i := 0;
    while i < additionalColumns
      invariant 0 <= i <= |pendingNames|
      invariant columns == [CreateColumn(initialName, Initial, 0)] + PendingColumns(pendingNames[..i])
    {
      assert pendingNames[..i + 1][..i] == pendingNames[..i];
      columns := columns + [CreateColumn(pendingNames[i], Pending, i + 1)];
      i := i + 1;
    }
    assert pendingNames[..i] == pendingNames;
    columns := columns + [CreateColumn(finalName, Final, additionalColumns + 1)];
    columns := columns + [CreateColumn(cancelName, Cancel, additionalColumns + 2)];
  }

  /**
   * For n >= 0 the list has n + 3 columns whose orders are their positions
   * 0..n+2; INITIAL, FINAL and CANCEL each occur once, at 0, n + 1 and n + 2,
   * and the i-th pending column carries the i-th pending name.
   */
  lemma LayoutShape(n: nat, initialName: string, pendingNames: seq<string>, finalName: string, cancelName: string)
    requires |pendingNames| == n
    ensures var columns := BoardLayout(n, initialName, pendingNames, finalName, cancelName);
      && |columns| == n + 3
      && columns[0].name == initialName && columns[n + 1].name == finalName && columns[n + 2].name == cancelName
      && (forall i :: 1 <= i <= n ==> columns[i].kind == Pending && columns[i].name == pendingNames[i - 1])
      && (forall i :: 0 <= i < |columns| ==> columns[i].order == i && columns[i].id.None?)
      && (forall i :: 0 <= i < |columns| ==> (columns[i].kind == Initial <==> i == 0))
      && (forall i :: 0 <= i < |columns| ==> (columns[i].kind == Final <==> i == n + 1))
      && (forall i :: 0 <= i < |columns| ==> (columns[i].kind == Cancel <==> i == n + 2))
  {
    var columns := BoardLayout(n, initialName, pendingNames, finalName, cancelName);
    forall i | 1 <= i <= n ensures columns[i] == CreateColumn(pendingNames[i - 1], Pending, i) {
      PendingColumnsAt(pendingNames, i - 1);
    }
  }

  /** The columns as the lifecycle reads them back once the store has given them the ids `ids`. */
  function Infos(columns: seq<BoardColumn>, ids: seq<int>): (r: seq<ColumnInfo>)
    requires |ids| == |columns|
    ensures |r| == |columns|
  {
    seq(|columns|, i requires 0 <= i < |columns| => ColumnInfo(ids[i], columns[i].order, columns[i].kind))
  }

  /**
   * A board created with n >= 0 additional columns and distinct ids is a
   * well-formed topology: the one `moveToNextColumn`'s `order + 1` lookup
   * relies on.
   */
  lemma LayoutIsTopology(n: nat, initialName: string, pendingNames: seq<string>, finalName: string, cancelName: string,
                         ids: seq<int>)
    requires |pendingNames| == n && |ids| == n + 3
    requires forall i, j :: 0 <= i < j < |ids| ==> ids[i] != ids[j]
    ensures Topology(Infos(BoardLayout(n, initialName, pendingNames, finalName, cancelName), ids), n)
  {
    var columns := BoardLayout(n, initialName, pendingNames, finalName, cancelName);
    LayoutShape(n, initialName, pendingNames, finalName, cancelName);
    var infos := Infos(columns, ids);
    forall order | 0 <= order <= n + 2 ensures HasOrder(infos, order) {
      assert infos[order].order == order;
    }
  }

  /**
   * As written, a negative count is accepted. With -1 the FINAL column gets
   * order 0 like INITIAL and CANCEL gets order 1, so moving a card out of the
   * INITIAL column sends it straight to CANCEL.
   */
  lemma NegativeAdditionalColumnsMisroute()
    ensures var columns := BoardLayout(-1, "To do", [], "Done", "Dropped");
      && columns[0].order == 0 && columns[1].kind == Final && columns[1].order == 0
      && PlanMove(map[7 := Card("Task", 1, false)], 7, Infos(columns, [1, 2, 3]))
         == Success(Step(ColumnInfo(1, 0, Initial), ColumnInfo(3, 1, Cancel)))
  {
    var columns := BoardLayout(-1, "To do", [], "Done", "Dropped");
    var infos := Infos(columns, [1, 2, 3]);
    assert infos == [ColumnInfo(1, 0, Initial), ColumnInfo(2, 0, Final), ColumnInfo(3, 1, Cancel)];
  }

  /** createBoard with the count checked: a negative count builds no board. */
  method CreateBoardColumnsChecked(additionalColumns: int, initialName: string, pendingNames: seq<string>,
                                   finalName: string, cancelName: string) returns (r: Option<seq<BoardColumn>>)
    requires |pendingNames| == if additionalColumns < 0 then 0 else additionalColumns
    ensures additionalColumns < 0 <==> r.None?
    ensures r.Some? ==> r.value == BoardLayout(additionalColumns, initialName, pendingNames, finalName, cancelName)
    ensures r.Some? ==> forall ids :: |ids| == |r.value| && (forall i, j :: 0 <= i < j < |ids| ==> ids[i] != ids[j]) ==>
      Topology(Infos(r.value, ids), additionalColumns)
  {
    if additionalColumns < 0 {
      return None;
    }
    var columns := CreateBoardColumns(additionalColumns, initialName, pendingNames, finalName, cancelName);
    forall ids | |ids| == |columns| && (forall i, j :: 0 <= i < j < |ids| ==> ids[i] != ids[j])
      ensures Topology(Infos(columns, ids), additionalColumns)
    {
      LayoutIsTopology(additionalColumns, initialName, pendingNames, finalName, cancelName, ids);
    }
    r := Some(columns);
  }
}
