/**
 * CardService: the card lifecycle (move to next column, cancel, block,
 * unblock, create) and the per-card time report. Each lifecycle operation runs
 * a chain of checks against the board's column list before it writes; a
 * failed check writes nothing. `PlanMove` and `PlanBlock` state the outcome of
 * those checks as functions of the state; the methods perform them on a
 * `Database` and are proved to agree with them.
 */
module CardService {
  import opened Results
  import opened Columns
  import opened Persistence
  import opened CardMovementDao

  /** One constructor per exception the service throws (and the message that tells them apart). */
  datatype CardError =
    | CardNotFound            // EntityNotFoundException "Card with ID %s was not found"
    | BlockedCannotMove       // CardBlockedException "... is blocked and must be unblocked to move"
    | AlreadyBlocked          // CardBlockedException "... is already blocked"
    | NotBlocked              // CardBlockedException "... is not blocked"
    | DifferentBoard          // IllegalStateException "Card belongs to a different board"
    | AlreadyFinished         // CardFinishedException "The card has already been finished"
    | NoNextColumn            // IllegalStateException "The card is canceled"
    | ColumnMissing           // NoSuchElementException from block's bare orElseThrow()
    | NotBlockable(kind: ColumnKind)  // IllegalStateException "... cannot be blocked"

  /** The column a card leaves and the column the checks chose for it. */
  datatype Step = Step(current: ColumnInfo, next: ColumnInfo)

  /**
   * The checks moveToNextColumn and cancel share, in their order: the card
   * exists, is not blocked, sits in a column of this board that is not FINAL,
   * and that column has a successor at `order + 1`.
   */
  function PlanMove(cards: map<int, Card>, cardId: int, columns: seq<ColumnInfo>): (r: Result<Step, CardError>)
    ensures r.Failure? ==> r.error in {CardNotFound, BlockedCannotMove, DifferentBoard, AlreadyFinished, NoNextColumn}
    ensures r == Failure(CardNotFound) <==> cardId !in cards
    ensures r == Failure(BlockedCannotMove) <==> cardId in cards && cards[cardId].blocked
    ensures r == Failure(DifferentBoard) <==>
      && cardId in cards && !cards[cardId].blocked
      && forall i :: 0 <= i < |columns| ==> columns[i].id != cards[cardId].columnId
    ensures r == Failure(AlreadyFinished) <==>
      && cardId in cards && !cards[cardId].blocked
      && ColumnWithId(columns, cards[cardId].columnId).Some?
      && ColumnWithId(columns, cards[cardId].columnId).value.kind == Final
    ensures r == Failure(NoNextColumn) <==>
      && cardId in cards && !cards[cardId].blocked
      && ColumnWithId(columns, cards[cardId].columnId).Some?
      && ColumnWithId(columns, cards[cardId].columnId).value.kind != Final
      && forall i :: 0 <= i < |columns| ==>
           columns[i].order != ColumnWithId(columns, cards[cardId].columnId).value.order + 1
    ensures r.Success? ==>
      && cardId in cards && !cards[cardId].blocked
      && r.value.current in columns && r.value.current.id == cards[cardId].columnId
      && r.value.current.kind != Final
      && r.value.next in columns && r.value.next.order == r.value.current.order + 1
    ensures r.Success? ==>
      && (exists k :: 0 <= k < |columns| && r.value.current == columns[k]
                      && forall j :: 0 <= j < k ==> columns[j].id != r.value.current.id)
      && (exists k :: 0 <= k < |columns| && r.value.next == columns[k]
                      && forall j :: 0 <= j < k ==> columns[j].order != r.value.next.order)
  {
    if cardId !in cards then Failure(CardNotFound)
    else
      var card := cards[cardId];
      if card.blocked then Failure(BlockedCannotMove)
      else match ColumnWithId(columns, card.columnId)
        case None => Failure(DifferentBoard)
        case Some(current) =>
          if current.kind == Final then Failure(AlreadyFinished)
          else match ColumnWithOrder(columns, current.order + 1)
            case None => Failure(NoNextColumn)
            case Some(next) => Success(Step(current, next))
  }

  /**
   * The checks of block: the card exists and is not blocked, and its column,
   * which must be on the board, is neither FINAL nor CANCEL.
   */
  function PlanBlock(cards: map<int, Card>, cardId: int, columns: seq<ColumnInfo>): (r: Result<ColumnInfo, CardError>)
    ensures r.Failure? ==> r.error in {CardNotFound, AlreadyBlocked, ColumnMissing, NotBlockable(Final), NotBlockable(Cancel)}
    ensures r == Failure(CardNotFound) <==> cardId !in cards
    ensures r == Failure(AlreadyBlocked) <==> cardId in cards && cards[cardId].blocked
    ensures r == Failure(ColumnMissing) <==>
      && cardId in cards && !cards[cardId].blocked
      && forall i :: 0 <= i < |columns| ==> columns[i].id != cards[cardId].columnId
    ensures (r.Failure? && r.error.NotBlockable?) <==>
      && cardId in cards && !cards[cardId].blocked
      && ColumnWithId(columns, cards[cardId].columnId).Some?
      && ColumnWithId(columns, cards[cardId].columnId).value.kind in {Final, Cancel}
    ensures r.Failure? && r.error.NotBlockable? ==>
      r.error.kind == ColumnWithId(columns, cards[cardId].columnId).value.kind
    ensures r.Success? ==>
      && cardId in cards && !cards[cardId].blocked
      && r.value in columns && r.value.id == cards[cardId].columnId
      && r.value.kind != Final && r.value.kind != Cancel
  {
    if cardId !in cards then Failure(CardNotFound)
    else
      var card := cards[cardId];
      if card.blocked then Failure(AlreadyBlocked)
      else match ColumnWithId(columns, card.columnId)
        case None => Failure(ColumnMissing)
        case Some(current) =>
          if current.kind == Final || current.kind == Cancel then Failure(NotBlockable(current.kind))
          else Success(current)
  }

  /**
   * On a well-formed board the kind of the card's column decides the move:
   * FINAL fails as finished, CANCEL fails for lack of a successor, and from
   * INITIAL or PENDING the card advances to the one column at `order + 1`,
   * which is PENDING or FINAL and never CANCEL.
   */
  lemma MoveOutcomeByKind(cards: map<int, Card>, cardId: int, columns: seq<ColumnInfo>, n: nat)
    requires Topology(columns, n)
    requires cardId in cards && !cards[cardId].blocked
    requires ColumnWithId(columns, cards[cardId].columnId).Some?
    ensures var current := ColumnWithId(columns, cards[cardId].columnId).value;
      var r := PlanMove(cards, cardId, columns);
      && (current.kind == Final ==> r == Failure(AlreadyFinished))
      && (current.kind == Cancel ==> r == Failure(NoNextColumn))
      && (current.kind in {Initial, Pending} ==>
            && r.Success? && r.value.next.order == current.order + 1
            && r.value.next.kind in {Pending, Final}
            && forall i :: 0 <= i < |columns| && columns[i].order == current.order + 1 ==> columns[i] == r.value.next)
  {
    var current := ColumnWithId(columns, cards[cardId].columnId).value;
    var ci :| 0 <= ci < |columns| && columns[ci] == current;
    assert 0 <= current.order <= n + 2 && current.kind == KindAtOrder(current.order, n);
    if current.kind in {Initial, Pending} {
      assert current.order + 1 <= n + 1;
      assert HasOrder(columns, current.order + 1);
      var next := ColumnWithOrder(columns, current.order + 1).value;
      var ni :| 0 <= ni < |columns| && columns[ni] == next;
      assert next.kind == KindAtOrder(next.order, n);
    }
  }

  /** CardService.create: the card starts unblocked in the given column; no movement is recorded. */
  method Create(db: Database, cardId: int, title: string, initialColumnId: int)
    requires db.Valid() && cardId !in db.cards
    modifies db
    ensures db.Valid()
    ensures db.cards == old(db.cards)[cardId := Card(title, initialColumnId, false)]
    ensures db.movements == old(db.movements) && db.blocks == old(db.blocks)
    ensures Trail(db.movements, cardId) == []
    ensures Chained(Trail(db.movements, cardId)) && EndsAt(Trail(db.movements, cardId), db.cards[cardId].columnId)
  {
    TrailOfAbsentCard(db.movements, cardId);
    db.Insert(cardId, Card(title, initialColumnId, false));
  }

  /**
   * CardService.moveToNextColumn: when every check of `PlanMove` passes, the
   * card moves to the successor column and exactly one movement from its old
   * column to that successor is recorded at `now`; otherwise nothing changes.
   */
  method MoveToNextColumn(db: Database, cardId: int, columns: seq<ColumnInfo>, now: int) returns (r: Outcome<CardError>)
    requires db.Valid()
    modifies db
    ensures db.Valid()
    ensures match PlanMove(old(db.cards), cardId, columns)
      case Failure(e) => r == Fail(e) && unchanged(db)
      case Success(step) =>
        && r == Pass
        && db.cards == old(db.cards)[cardId := old(db.cards)[cardId].(columnId := step.next.id)]
        && db.movements == old(db.movements) + [MovementRecord(cardId, Some(step.current.id), step.next.id, now)]
        && db.blocks == old(db.blocks)
    ensures r == Pass && Chained(Trail(old(db.movements), cardId))
            && EndsAt(Trail(old(db.movements), cardId), old(db.cards)[cardId].columnId) ==>
      Chained(Trail(db.movements, cardId)) && EndsAt(Trail(db.movements, cardId), db.cards[cardId].columnId)
  {
    if cardId !in db.cards {
      return Fail(CardNotFound);
    }
    var card := db.cards[cardId];
    if card.blocked {
      return Fail(BlockedCannotMove);
    }
    var current := ColumnWithId(columns, card.columnId);
    if current.None? {
      return Fail(DifferentBoard);
    }
    if current.value.kind == Final {
      return Fail(AlreadyFinished);
    }
    var next := ColumnWithOrder(columns, current.value.order + 1);
    if next.None? {
      return Fail(NoNextColumn);
    }
    db.MoveToColumn(cardId, next.value.id);
    if Chained(Trail(db.movements, cardId)) && EndsAt(Trail(db.movements, cardId), card.columnId) {
      MoveExtendsTrail(db.movements, cardId, card.columnId, next.value.id, now);
    }
    db.RecordMovement(cardId, Some(card.columnId), next.value.id, now);
    r := Pass;
  }

  /**
   * CardService.cancel: the same checks as a move, successor included; then
   * the card goes to `cancelColumnId` and no movement is recorded.
   */
  method CancelCard(db: Database, cardId: int, cancelColumnId: int, columns: seq<ColumnInfo>) returns (r: Outcome<CardError>)
    requires db.Valid()
    modifies db
    ensures db.Valid()
    ensures match PlanMove(old(db.cards), cardId, columns)
      case Failure(e) => r == Fail(e) && unchanged(db)
      case Success(_) =>
        && r == Pass
        && db.cards == old(db.cards)[cardId := old(db.cards)[cardId].(columnId := cancelColumnId)]
        && db.movements == old(db.movements) && db.blocks == old(db.blocks)
  {
    if cardId !in db.cards {
      return Fail(CardNotFound);
    }
    var card := db.cards[cardId];
    if card.blocked {
      return Fail(BlockedCannotMove);
    }
    var current := ColumnWithId(columns, card.columnId);
    if current.None? {
      return Fail(DifferentBoard);
    }
    if current.value.kind == Final {
      return Fail(AlreadyFinished);
    }
    if ColumnWithOrder(columns, current.value.order + 1).None? {
      return Fail(NoNextColumn);
    }
    db.MoveToColumn(cardId, cancelColumnId);
    r := Pass;
  }

  /**
   * CardService.block: when the checks of `PlanBlock` pass, the card becomes
   * blocked and one open block record with `reason` and `now` is appended;
   * otherwise nothing changes.
   */
  method Block(db: Database, cardId: int, reason: string, columns: seq<ColumnInfo>, now: int) returns (r: Outcome<CardError>)
    requires db.Valid()
    modifies db
    ensures db.Valid()
    ensures match PlanBlock(old(db.cards), cardId, columns)
      case Failure(e) => r == Fail(e) && unchanged(db)
      case Success(_) =>
        && r == Pass
        && db.cards == old(db.cards)[cardId := old(db.cards)[cardId].(blocked := true)]
        && db.blocks == old(db.blocks) + [BlockRecord(cardId, now, reason, None, None)]
        && db.movements == old(db.movements)
  {
    if cardId !in db.cards {
      return Fail(CardNotFound);
    }
    var card := db.cards[cardId];
    if card.blocked {
      return Fail(AlreadyBlocked);
    }
    var current := ColumnWithId(columns, card.columnId);
    if current.None? {
      return Fail(ColumnMissing);
    }
    if current.value.kind == Final || current.value.kind == Cancel {
      return Fail(NotBlockable(current.value.kind));
    }
    db.OpenBlock(cardId, reason, now);
    r := Pass;
  }

  /**
   * CardService.unblock: a missing card or an unblocked card fails and
   * nothing changes; otherwise the card is unblocked and its open block
   * record is closed at `now` with `reason`.
   */
  method Unblock(db: Database, cardId: int, reason: string, now: int) returns (r: Outcome<CardError>)
    requires db.Valid()
    modifies db
    ensures db.Valid()
    ensures cardId !in old(db.cards) ==> r == Fail(CardNotFound) && unchanged(db)
    ensures cardId in old(db.cards) && !old(db.cards)[cardId].blocked ==> r == Fail(NotBlocked) && unchanged(db)
    ensures cardId in old(db.cards) && old(db.cards)[cardId].blocked ==>
      && r == Pass
      && db.cards == old(db.cards)[cardId := old(db.cards)[cardId].(blocked := false)]
      && db.blocks == CloseOpenBlocks(old(db.blocks), cardId, now, reason)
      && db.movements == old(db.movements)
  {
    if cardId !in db.cards {
      return Fail(CardNotFound);
    }
    if !db.cards[cardId].blocked {
      return Fail(NotBlocked);
    }
    db.CloseBlock(cardId, reason, now);
    r := Pass;
  }

  /** A card's time report: time per column name and the total, in the time unit of `movedAt`. */
  datatype CardTimeReport = CardTimeReport(cardTitle: string, timePerColumn: map<string, int>, totalTime: int)

  /** Interval `i` runs from movement `i - 1` to movement `i`. */
  function Gap(movements: seq<CardMovement>, i: nat): int
    requires 1 <= i < |movements|
  {
    movements[i].movedAt - movements[i - 1].movedAt
  }

  /** The column the card occupied during interval `i`: the one movement `i - 1` entered. */
  function IntervalColumn(movements: seq<CardMovement>, i: nat): string
    requires 1 <= i < |movements|
  {
    movements[i - 1].toColumnName
  }

  /** The per-column map: each interval's gap put under its column, a later put replacing an earlier one. */
  function TimePerColumn(movements: seq<CardMovement>): map<string, int>
  {
    if |movements| <= 1 then map[]
    else TimePerColumn(movements[..|movements| - 1])[IntervalColumn(movements, |movements| - 1) := Gap(movements, |movements| - 1)]
  }

  function SumOfGaps(movements: seq<CardMovement>): int
  {
    if |movements| <= 1 then 0
    else SumOfGaps(movements[..|movements| - 1]) + Gap(movements, |movements| - 1)
  }

  /** The gaps telescope: the total is the last timestamp minus the first. */
  lemma {:induction false} SumOfGapsTelescopes(movements: seq<CardMovement>)
    requires |movements| >= 1
    ensures SumOfGaps(movements) == movements[|movements| - 1].movedAt - movements[0].movedAt
  {
    if |movements| > 1 {
      SumOfGapsTelescopes(movements[..|movements| - 1]);
    }
  }

  /** The map's keys are exactly the columns some interval was spent in. */
  lemma {:induction false} TimePerColumnKeys(movements: seq<CardMovement>)
    ensures forall column :: column in TimePerColumn(movements) <==>
      exists i :: 1 <= i < |movements| && IntervalColumn(movements, i) == column
  {
    if |movements| > 1 {
      var init := movements[..|movements| - 1];
      TimePerColumnKeys(init);
      forall i | 1 <= i < |init| ensures IntervalColumn(init, i) == IntervalColumn(movements, i) {
      }
    }
  }

  /**
   * A column's value is the gap of the LAST interval spent in it: when a
   * column name recurs, the earlier intervals' time is overwritten, not summed.
   */
  lemma {:induction false} TimePerColumnLastWins(movements: seq<CardMovement>, i: nat)
    requires 1 <= i < |movements|
    requires forall j :: i < j < |movements| ==> IntervalColumn(movements, j) != IntervalColumn(movements, i)
    ensures IntervalColumn(movements, i) in TimePerColumn(movements)
    ensures TimePerColumn(movements)[IntervalColumn(movements, i)] == Gap(movements, i)
  {
    if i < |movements| - 1 {
      var init := movements[..|movements| - 1];
      assert IntervalColumn(init, i) == IntervalColumn(movements, i) && Gap(init, i) == Gap(movements, i);
      forall j | i < j < |init| ensures IntervalColumn(init, j) != IntervalColumn(init, i) {
        assert IntervalColumn(init, j) == IntervalColumn(movements, j);
      }
      TimePerColumnLastWins(init, i);
    }
  }

  /** Sum of the DAO's time-in-column values, a null one counting as nothing. */
  function SumTimeInColumn(movements: seq<CardMovement>): int
  {
    if movements == [] then 0
    else
      var last := movements[|movements| - 1];
      SumTimeInColumn(movements[..|movements| - 1]) + (if last.timeInColumn.Some? then last.timeInColumn.value else 0)
  }

  /** For the DAO's movements, the report total equals the sum of their time-in-column values. */
  lemma {:induction false} TotalTimeIsSumOfTimeInColumn(movements: seq<CardMovement>)
    requires TimesFromMovedAt(movements)
    ensures SumOfGaps(movements) == SumTimeInColumn(movements)
  {
    if movements != [] {
      var init := movements[..|movements| - 1];
      forall i | 0 <= i < |init| ensures init[i].timeInColumn == ElapsedBefore(init, i) {
        assert init[i] == movements[i] && movements[i].timeInColumn == ElapsedBefore(movements, i);
      }
      TotalTimeIsSumOfTimeInColumn(init);
      assert movements[|movements| - 1].timeInColumn == ElapsedBefore(movements, |movements| - 1);
    }
  }

  /**
   * CardService.getCardTimeReport, given the card's title as the card lookup
   * returns it (none when the card does not exist) and its movements ordered
   * by time.
   */
  method GetCardTimeReport(cardTitle: Option<string>, movements: seq<CardMovement>) returns (r: Option<CardTimeReport>)
    ensures cardTitle.None? ==> r.None?
    ensures cardTitle.Some? ==> r == Some(CardTimeReport(cardTitle.value, TimePerColumn(movements), SumOfGaps(movements)))
    ensures r.Some? && |movements| <= 1 ==> r.value.timePerColumn == map[] && r.value.totalTime == 0
    ensures r.Some? && |movements| >= 1 ==> r.value.totalTime == movements[|movements| - 1].movedAt - movements[0].movedAt
  {
    if cardTitle.None? {
      return None;
    }
    var timePerColumn: map<string, int> := map[];
    var totalTime := 0;
    var i := 1;
    while i < |movements|
      invariant 1 <= i
      invariant |movements| == 0 ==> i == 1 && timePerColumn == map[] && totalTime == 0
      invariant |movements| > 0 ==> i <= |movements|
      invariant |movements| > 0 ==> timePerColumn == TimePerColumn(movements[..i])
      invariant |movements| > 0 ==> totalTime == SumOfGaps(movements[..i])
    {
      var prev := movements[i - 1];
      var current := movements[i];
      var duration := current.movedAt - prev.movedAt;
      ghost var done := movements[..i + 1];
      assert done[..i] == movements[..i];
      assert IntervalColumn(done, i) == prev.toColumnName && Gap(done, i) == duration;
      timePerColumn := timePerColumn[prev.toColumnName := duration];
      totalTime := totalTime + duration;
      i := i + 1;
    }
    if |movements| > 0 {
      assert movements[..i] == movements;
      SumOfGapsTelescopes(movements);
    }
    r := Some(CardTimeReport(cardTitle.value, timePerColumn, totalTime));
  }
}
