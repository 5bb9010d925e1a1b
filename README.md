# Kanban card lifecycle and time reports

A Dafny model of the core of a console Kanban board manager (Java, JDBC).
Cards move through a board's ordered columns. Column kinds are INITIAL,
PENDING, FINAL and CANCEL. A card can be blocked and unblocked, and its
movement and block history feeds the time-in-stage reports.

The model has these parts:

- **Column topology** (`Columns`, `MainMenu`). `MainMenu` builds the column list
  when a board is created. `Columns` has the `findFirst` lookups a card
  operation uses to find the card's column and its successor at `order + 1`.
  `Topology` says what a well-formed board is. It does not depend on the order
  of the list.
- **Store** (`Persistence`). The CARDS table is a map in a `Database` object.
  The CARD_MOVEMENTS and BLOCKS tables are ledgers (sequences) in the same
  object. The DAO writes are methods of that object. Its invariant has two
  parts. Every ledger record belongs to a stored card, as the queries' joins
  with CARDS assume. A card is blocked exactly when the block ledger holds one
  open record for it, and otherwise it holds none.
- **Card lifecycle** (`CardService`). `PlanMove` and `PlanBlock` state the
  result of the service's checks as functions of the state. `MoveToNextColumn`,
  `CancelCard`, `Block` and `Unblock` run the checks in the source's order.
  They are proved to write exactly what the plan says, or nothing at all.
- **Time reports** (`CardService.GetCardTimeReport`,
  `ReportService.GenerateBoardTimeReport`). The per-card loop puts each gap
  between movements under a column name and sums a total. The board loop sums
  the card totals and takes a truncating average.
- **Row derivations** (`CardMovementDao.GetCardMovements`,
  `ReportService.GenerateBlockReport`). These map query rows, in order, to
  records with an optional duration.

Timestamps and durations are integers in one unit. The current time (`now`)
is a parameter. Each query result is an input sequence, already ordered as the
SQL `ORDER BY` orders it.

## Model

| member | source | states |
|---|---|---|
| `Columns.FirstIndex` | src/main/java/br/com/dio/service/CardService.java:53-56 | none only when no column matches; otherwise an index of a matching column with no match before it (what `findFirst` returns) |
| `Columns.ColumnWithId` | src/main/java/br/com/dio/service/CardService.java:53-56 | absent exactly when no column has the card's column id; otherwise the first column in the list with that id, as `findFirst` picks |
| `Columns.ColumnWithOrder` | src/main/java/br/com/dio/service/CardService.java:60-63 | absent exactly when no column has order `current.order + 1`; otherwise the first column in the list with that order, as `findFirst` picks |
| `CardService.PlanMove` | src/main/java/br/com/dio/service/CardService.java:45-63 | each failure holds exactly when its cause does: card missing, card blocked, no board column with the card's column id, column FINAL, no column at `order + 1`; on success the step leaves the first column with the card's column id, which is not FINAL, for the first column one order higher |
| `CardService.MoveOutcomeByKind` | src/main/java/br/com/dio/service/CardService.java:57-63 | on a well-formed board the column's kind decides the move: FINAL fails as finished; CANCEL fails with no next column; from INITIAL or PENDING the move succeeds into the unique column at `order + 1`, which is PENDING or FINAL and never CANCEL |
| `CardService.MoveToNextColumn` | src/main/java/br/com/dio/service/CardService.java:41-72 | a failed check returns that error and changes nothing; a success sets the card's column to the successor, appends exactly one movement {from old column, to successor, at `now`}, keeps the blocked flag and the block ledger, and keeps the card's movement trail gap-free |
| `CardService.CancelCard` | src/main/java/br/com/dio/service/CardService.java:74-103 | the same checks as a move, including that a successor exists; on success the card's column becomes `cancelColumnId` and no movement is recorded; on failure nothing changes |
| `CardService.PlanBlock` | src/main/java/br/com/dio/service/CardService.java:108-124 | fails exactly when the card is missing, when it is already blocked, when its column is not on the board, or when its column is FINAL or CANCEL (reporting which kind); success gives a blockable board column |
| `CardService.Block` | src/main/java/br/com/dio/service/CardService.java:105-132 | a failed check changes nothing; a success sets blocked and appends one open block record with the reason and `now`; movements are untouched |
| `CardService.Unblock` | src/main/java/br/com/dio/service/CardService.java:134-152 | fails with not-found or not-blocked and changes nothing; otherwise clears blocked and closes the card's open block record with `now` and the reason |
| `CardService.Create` | src/main/java/br/com/dio/service/CardService.java:29-39 | inserts the card unblocked in the given column and records no movement; the new card's movement trail is empty, so it is gap-free and consistent with its column |
| `CardService.SumOfGapsTelescopes` | src/main/java/br/com/dio/service/CardService.java:164-171 | the sum of consecutive gaps equals the last timestamp minus the first |
| `CardService.TimePerColumnKeys` | src/main/java/br/com/dio/service/CardService.java:164-169 | a name is a key of the per-column map exactly when some interval was spent in a column of that name (`movements[i-1].toColumnName`) |
| `CardService.TimePerColumnLastWins` | src/main/java/br/com/dio/service/CardService.java:164-169 | a repeated column name keeps the gap of its last interval: earlier intervals are overwritten, not summed |
| `CardService.TotalTimeIsSumOfTimeInColumn` | src/main/java/br/com/dio/service/CardService.java:164-171 | for movements as the movement DAO produces them, the report total equals the sum of their time-in-column values |
| `CardService.GetCardTimeReport` | src/main/java/br/com/dio/service/CardService.java:154-178 | fails when the card does not exist; otherwise gives the title, the per-column map and the sum of gaps; with 0 or 1 movements the map is empty and the total is 0; otherwise the total is last minus first |
| `CardMovementDao.GetCardMovements` | src/main/java/br/com/dio/persistence/dao/CardMovementDAO.java:51-69 | one record per row, in row order, with the row's fields; the first time in column is null and each later one is its row's gap to the previous row; with rows sorted by `moved_at`, no time in column is negative |
| `Persistence.Database.RecordMovement` | src/main/java/br/com/dio/persistence/dao/CardMovementDAO.java:21-35 | appends exactly one movement of a stored card; its from-column is null exactly when none is given, otherwise the given id; every ledger record still belongs to a stored card |
| `Persistence.Database.MoveToColumn` | src/main/java/br/com/dio/service/CardService.java:64-66 | only the card's column changes |
| `Persistence.Database.Insert` | src/main/java/br/com/dio/service/CardService.java:31-32 | adds the card under a new id and changes no ledger; every ledger record still belongs to a stored card |
| `Persistence.Database.OpenBlock` | src/main/java/br/com/dio/service/CardService.java:125-126 | the card becomes blocked and one open record is appended; the store invariant is kept |
| `Persistence.Database.CloseBlock` | src/main/java/br/com/dio/service/CardService.java:145-146 | the card becomes unblocked and its open records are closed; the store invariant is kept |
| `Persistence.CloseOpenBlocks` | src/main/java/br/com/dio/service/CardService.java:145-146 | the card's open records get the unblock time and reason; every other record is unchanged |
| `Persistence.CloseOpenBlocksCount` | src/main/java/br/com/dio/service/CardService.java:141-146 | after unblocking, the card has no open record and every other card's open count is unchanged |
| `Persistence.CloseWithoutOpenBlock` | src/main/java/br/com/dio/service/CardService.java:141-146 | unblocking a card that has no open record changes no record |
| `Persistence.BlockThenUnblock` | src/main/java/br/com/dio/service/CardService.java:105-152 | blocking an unblocked card and then unblocking it closes exactly the record the block opened, with the unblock time and reason |
| `Persistence.TrailOfAbsentCard` | src/main/java/br/com/dio/service/CardService.java:29-39 | a card that no movement record belongs to, such as one just created, has an empty movement trail |
| `Persistence.MoveExtendsTrail` | src/main/java/br/com/dio/service/CardService.java:64-65 | a move's record keeps the card's movement trail gap-free (each from-column is the previous to-column), the trail ends at the new column, and other cards' trails do not change |
| `ReportService.GenerateBoardTimeReport` | src/main/java/br/com/dio/service/ReportService.java:25-52 | fails when the board does not exist; otherwise one card report per card, in card order, each the card's time report; the average is the truncated total divided by the card count, and 0 with no cards |
| `ReportService.TruncDiv` | src/main/java/br/com/dio/service/ReportService.java:42-44 | the quotient is truncated toward zero, as `Duration.dividedBy` does, for positive and negative totals |
| `ReportService.TotalTimeBounds` | src/main/java/br/com/dio/service/ReportService.java:34-40 | the board total lies between count·min and count·max of the card totals |
| `ReportService.AverageWithinRange` | src/main/java/br/com/dio/service/ReportService.java:34-44 | the average lies between the smallest and the largest card total |
| `ReportService.TruncDivWithin` | src/main/java/br/com/dio/service/ReportService.java:42-44 | a total between lo·n and hi·n, divided by n with truncation, gives a value between lo and hi |
| `ReportService.AsWrittenBoardReportFails` | src/main/java/br/com/dio/dto/CardTimeReportDTO.java:15-16 | with the DTO constructor as written, adding up the card totals fails for every board that has a card |
| `ReportService.BlockEntry` | src/main/java/br/com/dio/service/ReportService.java:78-86 | the duration is present exactly when the block has ended, and is then unblock minus block time; card id, title, times and both reasons are copied |
| `ReportService.GenerateBlockReport` | src/main/java/br/com/dio/service/ReportService.java:68-90 | one entry per row, in row order, so rows sorted by `blocked_at` give sorted entries; a missing duration means still blocked, never zero |
| `ReportService.StillBlockedMatchesOpenBlocks` | src/main/java/br/com/dio/service/ReportService.java:74-87 | a report built from the block ledger shows a card as still blocked as often as the ledger has open records for it: once while the card is blocked, never otherwise |
| `MainMenu.CreateColumn` | src/main/java/br/com/dio/ui/MainMenu.java:108-114 | the entity has the given name, kind and order, and no id |
| `MainMenu.PendingColumnsAt` | src/main/java/br/com/dio/ui/MainMenu.java:58-63 | the i-th (from 0) extra column is PENDING with the i-th name and order i + 1 |
| `MainMenu.CreateBoardColumns` | src/main/java/br/com/dio/ui/MainMenu.java:51-75 | the loop builds exactly the layout: INITIAL at 0, the pending columns, FINAL at n + 1, CANCEL at n + 2 |
| `MainMenu.LayoutShape` | src/main/java/br/com/dio/ui/MainMenu.java:51-75 | for n ≥ 0: n + 3 columns whose orders are 0..n+2 in place; INITIAL, FINAL and CANCEL each occur exactly once, at 0, n + 1 and n + 2 |
| `MainMenu.LayoutIsTopology` | src/main/java/br/com/dio/ui/MainMenu.java:51-75 | for n ≥ 0 with distinct ids the board is a well-formed topology, so every non-CANCEL column has a successor at `order + 1` |
| `MainMenu.NegativeAdditionalColumnsMisroute` | src/main/java/br/com/dio/ui/MainMenu.java:49-73 | with −1 additional columns FINAL gets order 0 like INITIAL, and a move out of INITIAL lands in CANCEL |
| `MainMenu.CreateBoardColumnsChecked` | src/main/java/br/com/dio/ui/MainMenu.java:49-75 | a negative count builds no board; otherwise the layout, a well-formed topology for any distinct ids |

## Left out

- JDBC: connections, SQL text, commit and rollback, and `SQLException`. The store is in-memory state and never fails. Atomicity appears only as "a failed check writes nothing".
- The console menus (`BoardMenu`, the prompts and `System.exit` in `MainMenu`) and the printing of reports. The entered names and counts are parameters.
- `OffsetDateTime` and `Duration`: times and durations are integers in one unit. `Duration.dividedBy` works at nanosecond precision; `TruncDiv` truncates at the model's unit.
- `CardDAO`, `BlockDAO` and `BoardDAO` are not part of this model. Their writes appear only as visible effects. Insert adds the card. Move sets its column. Block sets blocked and appends an open record. Unblock clears blocked and closes the card's open records.
- Keys the store generates are parameters: the card id for `Create` and the column ids for `Infos`.
- The card's block reason is not modelled. Cards carry title, column and blocked flag; the reason lives in the block record.
- The queries' joins, board filter and `ORDER BY` are not modelled. Rows arrive as input sequences in query order.
- `StillBlockedMatchesOpenBlocks`: stated for rows in ledger order, one row per record. It does not model the board filter or the sort by `blocked_at`.
- The repeated `dao.moveToColumn` call in `moveToNextColumn` is idempotent and is modelled as one update.
- Java `int`/`Long` overflow of `order + 1` and of duration sums is not modelled. Integers are unbounded.
- Board creation, insertion and deletion, `BoardQueryService` and `CardQueryService` are not modelled. The model covers the column list `createBoard` builds, not the insert that stores it.
- `CancelCard` records no movement, as written. So the gap-free trail guarantee is stated for moves only. Time reports of canceled cards stop at the last recorded move.
- Three behaviours of the code that the model keeps as written:
  - Per-column time overwrites a repeated column name rather than summing it (`timePerColumn.put`, CardService.java:169).
  - `block` on a card whose column is missing from the board's list fails with the bare `orElseThrow()` (`ColumnMissing`, CardService.java:116-119), not with the board-mismatch error.
  - The average divides by `cardReports.size()`, the number of cards (ReportService.java:42-44).

## Findings

| source | as written | input that shows it | evidently intended | confidence | as-written member | corrected member |
|---|---|---|---|---|---|---|
| src/main/java/br/com/dio/ui/MainMenu.java:49-73 | a negative count of additional columns is accepted: FINAL gets order n + 1 ≤ 0 and CANCEL n + 2 | `additionalColumns = -1`: orders are INITIAL 0, FINAL 0, CANCEL 1, and moving a card out of INITIAL puts it in CANCEL | reject a negative count, so FINAL and CANCEL follow the pending columns | medium, not executed | `MainMenu.NegativeAdditionalColumnsMisroute` | `MainMenu.CreateBoardColumnsChecked` |
| src/main/java/br/com/dio/dto/CardTimeReportDTO.java:15-16 | the constructor ignores its arguments, so `getTotalTime()` is null, and `totalBoardTime.plus(null)` at ReportService.java:39 throws | any board with one card | the report carries the title, the per-column map and the total it is given | high, not executed | `ReportService.AsWrittenBoardReportFails` | `ReportService.GenerateBoardTimeReport` |
