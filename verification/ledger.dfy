/** The transaction ledger: an item, its ordered history of transactions and
    the pointer to the active one, with the factories that append to it. */
module Ledger {
  import opened Outcomes
  import opened Vocabulary
  import opened Engine
  import opened Aggregator

  /** An item: its amount (never read by the transitions), the aggregator's
      fields, the transactions in creation order, and the index of the
      transaction the item currently refers to. */
  datatype ItemData = ItemData(amount: int, summary: Summary, ledger: seq<Txn>, current: Option<nat>)

  /** The pointer is a foreign key: when present it names a ledger row. */
  type Item = d: ItemData | d.current.None? || d.current.value < |d.ledger|
    witness ItemData(0, Summary(ItemState.Processing, false), [], None)

  /** A new item: no transaction, first-time processing, never errored. */
  function NewItem(amount: int): Item {
    ItemData(amount, Summary(ItemState.Processing, false), [], None)
  }

  /** The transaction the item's pointer refers to, if any. */
  function CurrentTxn(item: Item): Option<Txn> {
    if item.current.None? then None else Some(item.ledger[item.current.value])
  }

  /** The single-active rule: the pointer refers to the newest transaction,
      which is the only active one; an item without transactions has no
      pointer. */
  predicate Linked(item: Item) {
    if |item.ledger| == 0 then item.current.None?
    else
      && item.current == Some(|item.ledger| - 1)
      && forall i | 0 <= i < |item.ledger| :: item.ledger[i].active <==> i == |item.ledger| - 1
  }

  /** `after` is `before` with `t` appended as the active transaction: every
      earlier transaction is kept with only its active flag cleared, the
      aggregator fields hold `summary`, and the amount is unchanged. */
  predicate Appended(before: Item, after: Item, t: Txn, summary: Summary) {
    var n := |before.ledger|;
    && |after.ledger| == n + 1
    && after.ledger[n] == t
    && after.current == Some(n)
    && (forall i | 0 <= i < n :: after.ledger[i] == before.ledger[i].(active := false))
    && after.summary == summary
    && after.amount == before.amount
  }

  /** The loop of `create_transaction` over the other active transactions:
      each is marked inactive, and its recompute is threaded through the
      item's summary. */
  function DeactivateAll(txns: seq<Txn>, s: Summary): (r: (seq<Txn>, Summary))
    ensures |r.0| == |txns|
    ensures forall i | 0 <= i < |txns| :: r.0[i] == txns[i].(active := false)
    ensures r.1 == s
  {
    if |txns| == 0 then ([], s)
    else
      var head := txns[0];
      var step: (Txn, Summary) :=
        if head.active then
          var t := MarkInactive(head);
          (t, UpdateItemStatus(s, t, false))
        else (head, s);
      var rest := DeactivateAll(txns[1..], step.1);
      ([step.0] + rest.0, rest.1)
  }

  /** `Item.create_transaction`. A missing or non-start pair raises
      InvalidState. Otherwise the new active transaction is saved (its save
      hook classifies the item), the older transactions are deactivated, and
      the pointer moves to the new one. */
  function CreateTransaction(item: Item, status: Option<Status>, location: Option<Location>): (r: Result<Item>)
    ensures r.Fail? <==> !IsValidStartState(status, location)
    ensures r.Fail? ==> r.error == InvalidState
    ensures r.Ok? ==> Linked(r.value)
    ensures r.Ok? ==> Appended(item, r.value, Txn(status.value, location.value, true),
                               Summary(OpeningState(item.summary.hasErrored), item.summary.hasErrored))
  {
    if !(status.Some? && location.Some?) then Fail(InvalidState)
    else if !IsValidStartState(status, location) then Fail(InvalidState)
    else
      var t := Txn(status.value, location.value, true);
      var created := UpdateItemStatus(item.summary, t, true);
      var deactivated := DeactivateAll(item.ledger, created);
      Ok(ItemData(item.amount, deactivated.1, deactivated.0 + [t], Some(|item.ledger|)))
  }

  /** `create_transaction()` called with its default arguments. */
  function CreateDefaultTransaction(item: Item): (r: Item)
    ensures Linked(r)
    ensures Appended(item, r, Txn(Status.Processing, OriginatorBank, true),
                     Summary(OpeningState(item.summary.hasErrored), item.summary.hasErrored))
  {
    var res := CreateTransaction(item, Some(Status.Processing), Some(OriginatorBank));
    assert res.Ok?;
    res.value
  }

  /** True when the item's pointer refers to an errored transaction. */
  predicate CurrentIsErrored(item: Item) {
    item.current.Some? && item.ledger[item.current.value].status == Status.Error
  }

  /** `Item.begin_refund`: raises InvalidStateTransition unless the current
      transaction has errored; otherwise layers a new refunding transaction
      on top and leaves the errored one in the history. */
  function BeginRefund(item: Item): (r: Result<Item>)
    ensures r.Ok? <==> CurrentIsErrored(item)
    ensures r.Fail? ==> r.error == InvalidStateTransition
    ensures r.Ok? ==> Linked(r.value)
    ensures r.Ok? ==> Appended(item, r.value, Txn(Refunding, Routable, true),
                               Summary(OpeningState(item.summary.hasErrored), item.summary.hasErrored))
  {
    if item.current.None? then Fail(InvalidStateTransition)
    else if item.ledger[item.current.value].status != Status.Error then Fail(InvalidStateTransition)
    else CreateTransaction(item, Some(Refunding), Some(Routable))
  }

  /** `Item.fix`: as `begin_refund`, with a new fixing transaction. */
  function Fix(item: Item): (r: Result<Item>)
    ensures r.Ok? <==> CurrentIsErrored(item)
    ensures r.Fail? ==> r.error == InvalidStateTransition
    ensures r.Ok? ==> Linked(r.value)
    ensures r.Ok? ==> Appended(item, r.value, Txn(Fixing, Routable, true),
                               Summary(OpeningState(item.summary.hasErrored), item.summary.hasErrored))
  {
    if item.current.None? then Fail(InvalidStateTransition)
    else if item.ledger[item.current.value].status != Status.Error then Fail(InvalidStateTransition)
    else CreateTransaction(item, Some(Fixing), Some(Routable))
  }

  /** The order of the two recomputes inside `create_transaction` does not
      matter: classifying the item from the new transaction before or after
      the old ones are deactivated gives the same summary, so the final state
      is always the new transaction's opening classification. */
  lemma DeactivationOrderIrrelevant(txns: seq<Txn>, s: Summary, t: Txn)
    requires t.active
    ensures DeactivateAll(txns, UpdateItemStatus(s, t, true)).1
         == UpdateItemStatus(DeactivateAll(txns, s).1, t, true)
    ensures DeactivateAll(txns, UpdateItemStatus(s, t, true)).1 == Summary(OpeningState(s.hasErrored), s.hasErrored)
  {
  }
}
