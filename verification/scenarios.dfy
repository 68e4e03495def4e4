/** Walks through the routing graph: the happy path and repeated creation
    that the repository's tests exercise, and the error, fix, refund and
    sticky-flag paths of the item's methods. */
module Scenarios {
  import opened Outcomes
  import opened Vocabulary
  import opened Aggregator
  import opened Ledger
  import opened Commands

  /** Every item-level command on an item without a transaction raises
      InvalidStateTransition. */
  lemma NoTransactionGuard(item: Item)
    requires item.current.None?
    ensures MoveItem(item) == Fail(InvalidStateTransition)
    ensures ErrorItem(item) == Fail(InvalidStateTransition)
    ensures Fix(item) == Fail(InvalidStateTransition)
    ensures BeginRefund(item) == Fail(InvalidStateTransition)
  {
  }

  /** Create, move, move reaches (COMPLETED, DESTINATION_BANK) and resolves
      the item; a further move or error is rejected. */
  lemma HappyPath(amount: int)
    ensures var i1 := CreateDefaultTransaction(NewItem(amount));
            && ItemStatus(i1) == Some(Status.Processing) && ItemLocation(i1) == Some(OriginatorBank)
            && ErrorItem(i1).Fail?
            && MoveItem(i1).Ok?
            && var i2 := MoveItem(i1).value;
               && ItemStatus(i2) == Some(Status.Processing) && ItemLocation(i2) == Some(Routable)
               && MoveItem(i2).Ok?
               && var i3 := MoveItem(i2).value;
                  && ItemStatus(i3) == Some(Completed) && ItemLocation(i3) == Some(DestinationBank)
                  && i3.summary == Summary(Resolved, false)
                  && MoveItem(i3) == Fail(InvalidStateTransition)
                  && ErrorItem(i3) == Fail(InvalidStateTransition)
  {
  }

  /** An item moved to (PROCESSING, ROUTABLE) and errored shows ERROR and is
      flagged; fix layers a (FIXING, ROUTABLE) transaction on top, the item
      shows CORRECTING, and moving it back to processing keeps CORRECTING. */
  lemma ErrorFixCycle(amount: int)
    ensures var i1 := MoveItem(CreateDefaultTransaction(NewItem(amount))).value;
            && ErrorItem(i1).Ok?
            && var i2 := ErrorItem(i1).value;
               && ItemStatus(i2) == Some(Status.Error) && ItemLocation(i2) == Some(Routable)
               && i2.summary == Summary(ItemState.Error, true)
               && MoveItem(i2) == Fail(InvalidStateTransition)
               && ErrorItem(i2) == Fail(InvalidStateTransition)
               && Fix(i2).Ok?
               && var i3 := Fix(i2).value;
                  && |i3.ledger| == 2 && !i3.ledger[0].active && i3.ledger[0].status == Status.Error
                  && ItemStatus(i3) == Some(Fixing) && ItemLocation(i3) == Some(Routable)
                  && i3.summary == Summary(Correcting, true)
                  && MoveItem(i3).Ok?
                  && var i4 := MoveItem(i3).value;
                     && ItemStatus(i4) == Some(Status.Processing) && ItemLocation(i4) == Some(Routable)
                     && i4.summary == Summary(Correcting, true)
  {
  }

  /** From an errored item, begin_refund layers a (REFUNDING, ROUTABLE)
      transaction on top; a move reaches (REFUNDED, ORIGINATOR_BANK) and
      resolves the item, after which move and error are rejected. */
  lemma RefundCycle(amount: int)
    ensures var i1 := ErrorItem(MoveItem(CreateDefaultTransaction(NewItem(amount))).value).value;
            && BeginRefund(i1).Ok?
            && var i2 := BeginRefund(i1).value;
               && ItemStatus(i2) == Some(Refunding) && ItemLocation(i2) == Some(Routable)
               && MoveItem(i2).Ok?
               && var i3 := MoveItem(i2).value;
                  && ItemStatus(i3) == Some(Refunded) && ItemLocation(i3) == Some(OriginatorBank)
                  && i3.summary == Summary(Resolved, true)
                  && MoveItem(i3) == Fail(InvalidStateTransition)
                  && ErrorItem(i3) == Fail(InvalidStateTransition)
  {
  }

  /** The flag outlives resolution: after error, fix and two moves the item
      is resolved yet still flagged, and a new transaction opens it as
      CORRECTING rather than PROCESSING. */
  lemma StickyFlag(amount: int)
    ensures var i1 := ErrorItem(MoveItem(CreateDefaultTransaction(NewItem(amount))).value).value;
            var i2 := MoveItem(MoveItem(Fix(i1).value).value).value;
            && i2.summary == Summary(Resolved, true)
            && CreateDefaultTransaction(i2).summary == Summary(Correcting, true)
  {
  }

  /** Creating twice leaves the first transaction inactive and the second
      active and current. */
  lemma SecondCreateDeactivatesFirst(amount: int)
    ensures var i2 := CreateDefaultTransaction(CreateDefaultTransaction(NewItem(amount)));
            && |i2.ledger| == 2
            && !i2.ledger[0].active && i2.ledger[1].active
            && i2.current == Some(1)
  {
  }
}
