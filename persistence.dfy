/**
 * The relational store as in-memory state: the CARDS table as a map from card
 * id, and the CARD_MOVEMENTS and BLOCKS tables as append-only ledgers. The
 * writes the DAOs perform are methods of `Database`; SQL, connections and
 * transactions are not modelled (a failed operation simply writes nothing).
 */
module Persistence {
  import opened Results

  /** What the lifecycle reads and writes of a card row. */
  datatype Card = Card(title: string, columnId: int, blocked: bool)

  /** A CARD_MOVEMENTS row; `fromColumnId` is NULL when no source column is given. */
  datatype MovementRecord = MovementRecord(cardId: int, fromColumnId: Option<int>, toColumnId: int, movedAt: int)

  /** A BLOCKS row; `unblockedAt` and `unblockReason` stay NULL while the block is open. */
  datatype BlockRecord = BlockRecord(
    cardId: int, blockedAt: int, blockReason: string, unblockedAt: Option<int>, unblockReason: Option<string>)

  predicate IsOpenFor(b: BlockRecord, cardId: int)
  {
    b.cardId == cardId && b.unblockedAt.None?
  }

  /** Number of open block records of a card. */
  function OpenBlockCount(blocks: seq<BlockRecord>, cardId: int): nat
  {
    if blocks == [] then 0
    else OpenBlockCount(blocks[..|blocks| - 1], cardId) + (if IsOpenFor(blocks[|blocks| - 1], cardId) then 1 else 0)
  }

  lemma OpenBlockCountAppend(blocks: seq<BlockRecord>, b: BlockRecord, cardId: int)
    ensures OpenBlockCount(blocks + [b], cardId) == OpenBlockCount(blocks, cardId) + (if IsOpenFor(b, cardId) then 1 else 0)
  {
    assert (blocks + [b])[..|blocks|] == blocks;
  }

  /** A record after unblocking `cardId` at `at`: closed if it was that card's open record. */
  function Closed(b: BlockRecord, cardId: int, at: int, reason: string): BlockRecord
  {
    if IsOpenFor(b, cardId) then b.(unblockedAt := Some(at), unblockReason := Some(reason)) else b
  }

  /** The BLOCKS table after the open records of `cardId` are closed. */
  function CloseOpenBlocks(blocks: seq<BlockRecord>, cardId: int, at: int, reason: string): (r: seq<BlockRecord>)
    ensures |r| == |blocks|
    ensures forall k :: 0 <= k < |blocks| ==> r[k] == Closed(blocks[k], cardId, at, reason)
  {
    if blocks == [] then []
    else CloseOpenBlocks(blocks[..|blocks| - 1], cardId, at, reason) + [Closed(blocks[|blocks| - 1], cardId, at, reason)]
  }

  /** Closing a card's blocks leaves it no open record and every other card's count as it was. */
  lemma {:induction false} CloseOpenBlocksCount(blocks: seq<BlockRecord>, cardId: int, other: int, at: int, reason: string)
    ensures OpenBlockCount(CloseOpenBlocks(blocks, cardId, at, reason), other)
         == if other == cardId then 0 else OpenBlockCount(blocks, other)
  {
    if blocks != [] {
      var init := blocks[..|blocks| - 1];
      var last := blocks[|blocks| - 1];
      CloseOpenBlocksCount(init, cardId, other, at, reason);
      OpenBlockCountAppend(CloseOpenBlocks(init, cardId, at, reason), Closed(last, cardId, at, reason), other);
    }
  }

  /** With no open record of the card, unblocking it changes no record. */
  lemma {:induction false} CloseWithoutOpenBlock(blocks: seq<BlockRecord>, cardId: int, at: int, reason: string)
    requires OpenBlockCount(blocks, cardId) == 0
    ensures CloseOpenBlocks(blocks, cardId, at, reason) == blocks
  {
    if blocks != [] {
      var init := blocks[..|blocks| - 1];
      CloseWithoutOpenBlock(init, cardId, at, reason);
      assert blocks == init + [blocks[|blocks| - 1]];
    }
  }

  /**
   * Blocking an unblocked card and then unblocking it closes exactly the record
   * the block opened, with the unblock time and reason, and touches no other.
   */
  lemma BlockThenUnblock(blocks: seq<BlockRecord>, cardId: int, blockedAt: int, blockReason: string,
                         unblockedAt: int, unblockReason: string)
    requires OpenBlockCount(blocks, cardId) == 0
    ensures CloseOpenBlocks(blocks + [BlockRecord(cardId, blockedAt, blockReason, None, None)], cardId, unblockedAt, unblockReason)
         == blocks + [BlockRecord(cardId, blockedAt, blockReason, Some(unblockedAt), Some(unblockReason))]
  {
    CloseWithoutOpenBlock(blocks, cardId, unblockedAt, unblockReason);
  }

  /** The movement records of one card, in ledger order. */
  function Trail(movements: seq<MovementRecord>, cardId: int): seq<MovementRecord>
  {
    if movements == [] then []
    else
      var last := movements[|movements| - 1];
      Trail(movements[..|movements| - 1], cardId) + (if last.cardId == cardId then [last] else [])
  }

  /** A card no record belongs to has an empty trail. */
  lemma {:induction false} TrailOfAbsentCard(movements: seq<MovementRecord>, cardId: int)
    requires forall i :: 0 <= i < |movements| ==> movements[i].cardId != cardId
    ensures Trail(movements, cardId) == []
  {
    if movements != [] {
      TrailOfAbsentCard(movements[..|movements| - 1], cardId);
    }
  }

  /** Every record after the first leaves the column the previous record entered. */
  predicate Chained(trail: seq<MovementRecord>)
  {
    forall i :: 1 <= i < |trail| ==> trail[i].fromColumnId == Some(trail[i - 1].toColumnId)
  }

  /** The trail is empty or its last record entered `columnId`. */
  predicate EndsAt(trail: seq<MovementRecord>, columnId: int)
  {
    trail == [] || trail[|trail| - 1].toColumnId == columnId
  }

  /**
   * Appending the record of a move out of the column a card's trail ends at
   * keeps that trail gap-free, makes it end at the new column, and leaves the
   * trails of all other cards as they were.
   */
  lemma MoveExtendsTrail(movements: seq<MovementRecord>, cardId: int, fromColumnId: int, toColumnId: int, movedAt: int)
    requires Chained(Trail(movements, cardId)) && EndsAt(Trail(movements, cardId), fromColumnId)
    ensures var after := movements + [MovementRecord(cardId, Some(fromColumnId), toColumnId, movedAt)];
      && Chained(Trail(after, cardId)) && EndsAt(Trail(after, cardId), toColumnId)
      && forall other :: other != cardId ==> Trail(after, other) == Trail(movements, other)
  {
    var after := movements + [MovementRecord(cardId, Some(fromColumnId), toColumnId, movedAt)];
    assert after[..|movements|] == movements;
  }

  class Database {
    var cards: map<int, Card>
    var movements: seq<MovementRecord>
    var blocks: seq<BlockRecord>

    /**
     * Every ledger record belongs to a stored card (the movement and block
     * queries join CARDS), and a card is blocked exactly when it has one open
     * block record; otherwise it has none.
     */
    ghost predicate Valid()
      reads this
    {
      && (forall i :: 0 <= i < |movements| ==> movements[i].cardId in cards)
      && (forall i :: 0 <= i < |blocks| ==> blocks[i].cardId in cards)
      && (forall id :: OpenBlockCount(blocks, id) == (if id in cards && cards[id].blocked then 1 else 0))
    }

    constructor ()
      ensures Valid()
      ensures cards == map[] && movements == [] && blocks == []
    {
      cards, movements, blocks := map[], [], [];
    }

    /** CardDAO.insert: `cardId` is the key the store generates, so it is new. */
    method Insert(cardId: int, card: Card)
      requires Valid() && cardId !in cards && !card.blocked
      modifies this
      ensures Valid()
      ensures cards == old(cards)[cardId := card]
      ensures movements == old(movements) && blocks == old(blocks)
    {
      cards := cards[cardId := card];
    }

    /** CardDAO.moveToColumn: the card's column becomes `columnId`. */
    method MoveToColumn(cardId: int, columnId: int)
      requires Valid() && cardId in cards
      modifies this
      ensures Valid()
      ensures cards == old(cards)[cardId := old(cards)[cardId].(columnId := columnId)]
      ensures movements == old(movements) && blocks == old(blocks)
    {
      cards := cards[cardId := cards[cardId].(columnId := columnId)];
    }

    /** CardMovementDAO.recordMovement: append one movement of a stored card, stamped `now`. */
    method RecordMovement(cardId: int, fromColumnId: Option<int>, toColumnId: int, now: int)
      requires Valid() && cardId in cards
      modifies this
      ensures Valid()
      ensures movements == old(movements) + [MovementRecord(cardId, fromColumnId, toColumnId, now)]
      ensures movements[|movements| - 1].fromColumnId.None? <==> fromColumnId.None?
      ensures cards == old(cards) && blocks == old(blocks)
    {
      var from: Option<int>;
      if fromColumnId.Some? {
        from := Some(fromColumnId.value);
      } else {
        from := None;
      }
      movements := movements + [MovementRecord(cardId, from, toColumnId, now)];
    }

    /** The visible effect of BlockDAO.block: the card is blocked and one open record is appended. */
    method OpenBlock(cardId: int, reason: string, now: int)
      requires Valid() && cardId in cards && !cards[cardId].blocked
      modifies this
      ensures Valid()
      ensures cards == old(cards)[cardId := old(cards)[cardId].(blocked := true)]
      ensures blocks == old(blocks) + [BlockRecord(cardId, now, reason, None, None)]
      ensures movements == old(movements)
    {
      var record := BlockRecord(cardId, now, reason, None, None);
      forall id ensures OpenBlockCount(blocks + [record], id) == OpenBlockCount(blocks, id) + (if id == cardId then 1 else 0) {
        OpenBlockCountAppend(blocks, record, id);
      }
      cards := cards[cardId := cards[cardId].(blocked := true)];
      blocks := blocks + [record];
    }

    /** The visible effect of BlockDAO.unblock: the card is unblocked and its open record closed. */
    method CloseBlock(cardId: int, reason: string, now: int)
      requires Valid() && cardId in cards && cards[cardId].blocked
      modifies this
      ensures Valid()
      ensures cards == old(cards)[cardId := old(cards)[cardId].(blocked := false)]
      ensures blocks == CloseOpenBlocks(old(blocks), cardId, now, reason)
      ensures movements == old(movements)
    {
      forall id ensures OpenBlockCount(CloseOpenBlocks(blocks, cardId, now, reason), id)
                     == if id == cardId then 0 else OpenBlockCount(blocks, id) {
        CloseOpenBlocksCount(blocks, cardId, id, now, reason);
      }
      cards := cards[cardId := cards[cardId].(blocked := false)];
      blocks := CloseOpenBlocks(blocks, cardId, now, reason);
    }
  }
}
