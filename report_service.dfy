/**
 * ReportService: the board time report (one card report per card, the sum of
 * their totals and the average) and the block report (one entry per block
 * row, with the block's duration when it has ended).
 */
module ReportService {
  import opened Results
  import opened Persistence
  import opened CardMovementDao
  import opened CardService

  /** A card of the board, in the order the card query returns them, with its movements. */
  datatype CardHistory = CardHistory(title: string, movements: seq<CardMovement>)

  /** BoardTimeReportDTO. */
  datatype BoardTimeReport = BoardTimeReport(
    boardId: int, boardName: string, cards: seq<CardTimeReport>, averageCompletionTime: int)

  /** The report getCardTimeReport yields for a card of the board. */
  function CardReportOf(card: CardHistory): CardTimeReport
  {
    CardTimeReport(card.title, TimePerColumn(card.movements), SumOfGaps(card.movements))
  }

  function TotalTime(reports: seq<CardTimeReport>): int
  {
    if reports == [] then 0 else TotalTime(reports[..|reports| - 1]) + reports[|reports| - 1].totalTime
  }

  /** Duration.dividedBy: the quotient truncated toward zero. */
  function TruncDiv(a: int, b: int): (q: int)
    requires b > 0
    ensures a >= 0 ==> q * b <= a < q * b + b
    ensures a < 0 ==> q * b - b < a <= q * b
  {
    if a >= 0 then a / b else -((-a) / b)
  }

  /** The average completion time: zero for a board without cards. */
  function AverageTime(total: int, count: nat): int
  {
    if count == 0 then 0 else TruncDiv(total, count)
  }

  lemma {:induction false} TotalTimeBounds(reports: seq<CardTimeReport>, lo: int, hi: int)
    requires forall i :: 0 <= i < |reports| ==> lo <= reports[i].totalTime <= hi
    ensures lo * |reports| <= TotalTime(reports) <= hi * |reports|
  {
    if reports != [] {
      var init := reports[..|reports| - 1];
      TotalTimeBounds(init, lo, hi);
      assert lo * |reports| == lo * |init| + lo;
      assert hi * |reports| == hi * |init| + hi;
    }
  }

  /** The average lies between the smallest and the largest card total. */
  lemma AverageWithinRange(reports: seq<CardTimeReport>, lo: int, hi: int)
    requires |reports| > 0
    requires forall i :: 0 <= i < |reports| ==> lo <= reports[i].totalTime <= hi
    ensures lo <= AverageTime(TotalTime(reports), |reports|) <= hi
  {
    TotalTimeBounds(reports, lo, hi);
    TruncDivWithin(TotalTime(reports), |reports|, lo, hi);
  }

  /** A truncated quotient of a total between lo·n and hi·n lies between lo and hi. */
  lemma TruncDivWithin(total: int, n: int, lo: int, hi: int)
    requires n > 0 && lo * n <= total <= hi * n
    ensures lo <= TruncDiv(total, n) <= hi
  {
    var q := TruncDiv(total, n);
    assert (q + 1) * n == q * n + n;
    assert (q - 1) * n == q * n - n;
    FactorOrder(lo, q + 1, n);
    FactorOrder(q - 1, hi, n);
  }

  /** Multiplying by a positive number preserves strict order, so it can be cancelled. */
  lemma FactorOrder(a: int, b: int, n: int)
    requires n > 0 && a * n < b * n
    ensures a < b
  {
    assert (b - a) * n > 0;
  }

  /**
   * ReportService.generateBoardTimeReport, given the board's name as the board
   * lookup returns it (none when there is no such board) and its cards.
   */
  method GenerateBoardTimeReport(boardId: int, boardName: Option<string>, cards: seq<CardHistory>)
    returns (r: Option<BoardTimeReport>)
    ensures boardName.None? <==> r.None?
    ensures r.Some? ==> r.value.boardId == boardId && r.value.boardName == boardName.value
    ensures r.Some? ==> |r.value.cards| == |cards|
    ensures r.Some? ==> forall i :: 0 <= i < |cards| ==> r.value.cards[i] == CardReportOf(cards[i])
    ensures r.Some? ==> r.value.averageCompletionTime == AverageTime(TotalTime(r.value.cards), |cards|)
    ensures r.Some? && cards == [] ==> r.value.averageCompletionTime == 0
  {
    if boardName.None? {
      return None;
    }
    var cardReports: seq<CardTimeReport> := [];
    var totalBoardTime := 0;
    var i := 0;
    while i < |cards|
      invariant 0 <= i <= |cards|
      invariant |cardReports| == i
      invariant forall k :: 0 <= k < i ==> cardReports[k] == CardReportOf(cards[k])
      invariant totalBoardTime == TotalTime(cardReports)
    {
      var report := GetCardTimeReport(Some(cards[i].title), cards[i].movements);
      assert (cardReports + [report.value])[..i] == cardReports;
      cardReports := cardReports + [report.value];
      totalBoardTime := totalBoardTime + report.value.totalTime;
      i := i + 1;
    }
    var averageTime := if |cardReports| != 0 then TruncDiv(totalBoardTime, |cardReports|) else 0;
    r := Some(BoardTimeReport(boardId, boardName.value, cardReports, averageTime));
  }

  /**
   * CardTimeReportDTO as written: its constructor ignores its arguments, so
   * the title, the map and the total all stay null.
   */
  datatype CardTimeReportAsWritten = CardTimeReportAsWritten(
    cardTitle: Option<string>, timePerColumn: Option<map<string, int>>, totalTime: Option<int>)

  function NewCardTimeReportAsWritten(cardTitle: string, timePerColumn: map<string, int>, totalTime: int): CardTimeReportAsWritten
  {
    CardTimeReportAsWritten(None, None, None)
  }

  /**
   * The total the board report loop accumulates from reports built that way;
   * none stands for the NullPointerException `Duration.plus(null)` raises.
   */
  function BoardTotalAsWritten(reports: seq<CardTimeReportAsWritten>): Option<int>
  {
    if reports == [] then Some(0)
    else match BoardTotalAsWritten(reports[..|reports| - 1])
      case None => None
      case Some(total) =>
        var last := reports[|reports| - 1];
        if last.totalTime.None? then None else Some(total + last.totalTime.value)
  }

  /** As written, the board time report fails for every board that has a card. */
  lemma AsWrittenBoardReportFails(cards: seq<CardHistory>)
    requires |cards| > 0
    ensures var reports := seq(|cards|, i requires 0 <= i < |cards| =>
              NewCardTimeReportAsWritten(cards[i].title, TimePerColumn(cards[i].movements), SumOfGaps(cards[i].movements)));
      BoardTotalAsWritten(reports).None?
  {
  }

  /** A row of the block query: a block record joined with its card's title. */
  datatype BlockRow = BlockRow(
    cardId: int, cardTitle: string, blockedAt: int, unblockedAt: Option<int>,
    blockReason: string, unblockReason: Option<string>)

  /** CardBlockReportDTO; `blockedDuration` is null while the card is still blocked. */
  datatype CardBlockReport = CardBlockReport(
    cardId: int, cardTitle: string, blockedAt: int, unblockedAt: Option<int>, blockedDuration: Option<int>,
    blockReason: string, unblockReason: Option<string>)

  /** The entry the report builds from one row. */
  function BlockEntry(row: BlockRow): (e: CardBlockReport)
    ensures e.blockedDuration.None? <==> row.unblockedAt.None?
    ensures row.unblockedAt.Some? ==> e.blockedDuration == Some(row.unblockedAt.value - row.blockedAt)
    ensures e.cardId == row.cardId && e.cardTitle == row.cardTitle
    ensures e.blockReason == row.blockReason && e.unblockReason == row.unblockReason
    ensures e.blockedAt == row.blockedAt && e.unblockedAt == row.unblockedAt
  {
    CardBlockReport(
      row.cardId, row.cardTitle, row.blockedAt, row.unblockedAt,
      if row.unblockedAt.Some? then Some(row.unblockedAt.value - row.blockedAt) else None,
      row.blockReason, row.unblockReason)
  }

  /** ReportService.generateBlockReport: one entry per row, in row order. */
  method GenerateBlockReport(rows: seq<BlockRow>) returns (reports: seq<CardBlockReport>)
    ensures |reports| == |rows|
    ensures forall i :: 0 <= i < |rows| ==> reports[i] == BlockEntry(rows[i])
    ensures forall i :: 0 <= i < |rows| ==> (reports[i].blockedDuration.None? <==> rows[i].unblockedAt.None?)
    ensures forall i, j :: 0 <= i < j < |rows| && rows[i].blockedAt <= rows[j].blockedAt ==>
      reports[i].blockedAt <= reports[j].blockedAt
  {
    reports := [];
    var i := 0;
    while i < |rows|
      invariant 0 <= i <= |rows|
      invariant |reports| == i
      invariant forall k :: 0 <= k < i ==> reports[k] == BlockEntry(rows[k])
    {
      reports := reports + [BlockEntry(rows[i])];
      i := i + 1;
    }
  }

  /** The row the block query yields for a ledger record whose card has the given title. */
  function RowOf(b: BlockRecord, cardTitle: string): BlockRow
  {
    BlockRow(b.cardId, cardTitle, b.blockedAt, b.unblockedAt, b.blockReason, b.unblockReason)
  }

  /** Number of "still blocked" entries of a card. */
  function StillBlockedCount(reports: seq<CardBlockReport>, cardId: int): nat
  {
    if reports == [] then 0
    else
      var last := reports[|reports| - 1];
      StillBlockedCount(reports[..|reports| - 1], cardId) + (if last.cardId == cardId && last.blockedDuration.None? then 1 else 0)
  }

  /**
   * A report built from the block ledger shows a card as still blocked as many
   * times as the ledger holds open records for it: once while it is blocked,
   * never otherwise (the store's invariant).
   */
  lemma {:induction false} StillBlockedMatchesOpenBlocks(
    blocks: seq<BlockRecord>, titleOf: int -> string, reports: seq<CardBlockReport>, cardId: int)
    requires |reports| == |blocks|
    requires forall i :: 0 <= i < |blocks| ==> reports[i] == BlockEntry(RowOf(blocks[i], titleOf(blocks[i].cardId)))
    ensures StillBlockedCount(reports, cardId) == OpenBlockCount(blocks, cardId)
  {
    if blocks != [] {
      var n := |blocks| - 1;
      forall i | 0 <= i < n
        ensures reports[..n][i] == BlockEntry(RowOf(blocks[..n][i], titleOf(blocks[..n][i].cardId)))
      {
      }
      StillBlockedMatchesOpenBlocks(blocks[..n], titleOf, reports[..n], cardId);
      assert reports[n] == BlockEntry(RowOf(blocks[n], titleOf(blocks[n].cardId)));
    }
  }
}
