/** The item aggregator: the item's coarse state and its sticky
    "has ever errored" flag, recomputed from one transaction. */
module Aggregator {
  import opened Outcomes
  import opened Vocabulary
  import opened Engine

  /** The two item fields the aggregator owns. */
  datatype Summary = Summary(state: ItemState, hasErrored: bool)

  /** The state a freshly created transaction gives its item: a first pass,
      or a correction once the item has errored before. */
  function OpeningState(hasErrored: bool): ItemState {
    if hasErrored then Correcting else ItemState.Processing
  }

  /** Declarative rollup: the state an item should show when its active
      transaction has status `s`. */
  function Classify(s: Status, hasErrored: bool): ItemState {
    match s
    case Error => ItemState.Error
    case Completed => Resolved
    case Refunded => Resolved
    case _ => OpeningState(hasErrored)
  }

  /** `Transaction.update_item_status`. An inactive transaction changes
      nothing. A new one opens the item; ERROR, COMPLETED and REFUNDED settle
      it; any other status leaves it as it was. The write the source skips
      when the state is unchanged gives the same summary as performing it. */
  function UpdateItemStatus(s: Summary, t: Txn, isNew: bool): (r: Summary)
    ensures !t.active ==> r == s
    ensures s.hasErrored ==> r.hasErrored
    ensures r.hasErrored && !s.hasErrored ==> t.active && !isNew && t.status == Status.Error
    ensures t.active && isNew ==> r == Summary(OpeningState(s.hasErrored), s.hasErrored)
    ensures t.active && !isNew && IsTerminal(t.status) ==>
              r.state == Classify(t.status, r.hasErrored) && (t.status == Status.Error ==> r.hasErrored)
    ensures t.active && !isNew && !IsTerminal(t.status) ==> r == s
  {
    if !t.active then s
    else
      var newState: Option<ItemState> :=
        if isNew then Some(OpeningState(s.hasErrored))
        else if t.status == Status.Error then Some(ItemState.Error)
        else if t.status == Completed || t.status == Refunded then Some(Resolved)
        else None;
      var update := !isNew && t.status == Status.Error && !s.hasErrored;
      var hasErrored := s.hasErrored || update;
      if update || (newState.Some? && newState.value != s.state) then Summary(newState.value, hasErrored)
      else Summary(s.state, hasErrored)
  }

  /** Deactivating a transaction and recomputing from it never disturbs the
      item: the recompute exits early on the inactive flag. */
  lemma DeactivationIsInert(s: Summary, t: Txn)
    ensures UpdateItemStatus(s, MarkInactive(t), false) == s
  {
  }

  /** Recomputing twice from the same transaction gives what once gives. */
  lemma RecomputeIsIdempotent(s: Summary, t: Txn)
    ensures UpdateItemStatus(UpdateItemStatus(s, t, false), t, false) == UpdateItemStatus(s, t, false)
  {
  }
}
