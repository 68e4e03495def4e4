/** The command surface: `move` and `error` on an item or on any transaction
    of its ledger, the `status`/`location` properties, and the invariant every
    sequence of commands from a new item keeps. */
module Commands {
  import opened Outcomes
  import opened Vocabulary
  import Engine
  import opened Aggregator
  import opened Ledger

  /** Replaces ledger row `i` by the engine's result and recomputes the item
      from the new row, as the explicit `update_item_status()` call after the
      row's save does. */
  function Transition(item: Item, i: nat, next: Result<Engine.Txn>): Result<Item>
    requires i < |item.ledger|
  {
    match next
    case Fail(e) => Fail(e)
    case Ok(t) =>
      Ok(ItemData(item.amount, UpdateItemStatus(item.summary, t, false), item.ledger[i := t], item.current))
  }

  /** `Transaction.move` on ledger row `i`: the row takes one hop along the
      routing graph. Moving the active row resolves the item when the hop
      reaches a dead end and leaves it as it was otherwise; moving a row that
      is no longer active changes that row only, never the item. */
  function MoveTransaction(item: Item, i: nat): (r: Result<Item>)
    requires i < |item.ledger|
    ensures r.Fail? <==> IsTerminal(item.ledger[i].status)
    ensures r.Fail? ==> r.error == InvalidStateTransition
    ensures r.Ok? ==> |r.value.ledger| == |item.ledger| && r.value.current == item.current
    ensures r.Ok? ==> r.value.amount == item.amount
    ensures r.Ok? ==> forall j | 0 <= j < |item.ledger| && j != i :: r.value.ledger[j] == item.ledger[j]
    ensures r.Ok? ==> r.value.ledger[i].active == item.ledger[i].active
    ensures r.Ok? && NameOf(item.ledger[i].Pair()).Some? ==>
              NameOf(r.value.ledger[i].Pair()) == Engine.Successor(NameOf(item.ledger[i].Pair()).value)
    ensures r.Ok? && !ValidPair(item.ledger[i].Pair()) ==> r.value.ledger[i] == Engine.Move(item.ledger[i]).value
    ensures r.Ok? && item.ledger[i].active && IsTerminal(r.value.ledger[i].status) ==>
              r.value.summary == item.summary.(state := Resolved)
    ensures r.Ok? && !IsTerminal(r.value.ledger[i].status) ==> r.value.summary == item.summary
    ensures r.Ok? && !item.ledger[i].active ==> r.value.summary == item.summary
    ensures r.Ok? && Linked(item) ==> Linked(r.value)
  {
    Transition(item, i, Engine.Move(item.ledger[i]))
  }

  /** `Transaction.error` on ledger row `i`: only a processing, routable
      transaction may error; an active one marks the item as errored. */
  function ErrorTransaction(item: Item, i: nat): (r: Result<Item>)
    requires i < |item.ledger|
    ensures r.Ok? <==> item.ledger[i].Pair() == PairOf(B)
    ensures r.Fail? ==> r.error == InvalidStateTransition
    ensures r.Ok? ==> |r.value.ledger| == |item.ledger| && r.value.current == item.current
    ensures r.Ok? ==> r.value.amount == item.amount
    ensures r.Ok? ==> forall j | 0 <= j < |item.ledger| && j != i :: r.value.ledger[j] == item.ledger[j]
    ensures r.Ok? ==> r.value.ledger[i] == item.ledger[i].(status := Status.Error)
    ensures r.Ok? && !item.ledger[i].active ==> r.value.summary == item.summary
    ensures r.Ok? && item.ledger[i].active ==> r.value.summary == Summary(ItemState.Error, true)
    ensures r.Ok? && Linked(item) ==> Linked(r.value)
  {
    Transition(item, i, Engine.MarkError(item.ledger[i]))
  }

  /** `Item.move`: raises InvalidStateTransition when the item has no
      transaction, otherwise moves the transaction its pointer refers to one
      hop and recomputes the item from it. */
  function MoveItem(item: Item): (r: Result<Item>)
    ensures item.current.None? ==> r == Fail(InvalidStateTransition)
    ensures item.current.Some? ==> (r.Fail? <==> IsTerminal(item.ledger[item.current.value].status))
    ensures r.Fail? ==> r.error == InvalidStateTransition
    ensures r.Ok? ==>
              var c := item.current.value;
              && r.value.current == item.current
              && r.value.amount == item.amount
              && |r.value.ledger| == |item.ledger|
              && (forall j | 0 <= j < |item.ledger| && j != c :: r.value.ledger[j] == item.ledger[j])
              && r.value.ledger[c].active == item.ledger[c].active
              && (NameOf(item.ledger[c].Pair()).Some? ==>
                    NameOf(r.value.ledger[c].Pair()) == Engine.Successor(NameOf(item.ledger[c].Pair()).value))
    ensures r.Ok? && Linked(item) ==>
              var c := item.current.value;
              && Linked(r.value)
              && (IsTerminal(r.value.ledger[c].status) ==> r.value.summary == item.summary.(state := Resolved))
              && (!IsTerminal(r.value.ledger[c].status) ==> r.value.summary == item.summary)
  {
    if item.current.None? then Fail(InvalidStateTransition)
    else MoveTransaction(item, item.current.value)
  }

  /** `Item.error`: raises InvalidStateTransition when the item has no
      transaction; otherwise errors the transaction its pointer refers to,
      which on a linked item makes the item ERROR and flagged. */
  function ErrorItem(item: Item): (r: Result<Item>)
    ensures item.current.None? ==> r == Fail(InvalidStateTransition)
    ensures item.current.Some? ==> (r.Ok? <==> item.ledger[item.current.value].Pair() == PairOf(B))
    ensures r.Fail? ==> r.error == InvalidStateTransition
    ensures r.Ok? ==>
              var c := item.current.value;
              && r.value.current == item.current
              && r.value.amount == item.amount
              && |r.value.ledger| == |item.ledger|
              && (forall j | 0 <= j < |item.ledger| && j != c :: r.value.ledger[j] == item.ledger[j])
              && r.value.ledger[c] == item.ledger[c].(status := Status.Error)
    ensures r.Ok? && Linked(item) ==> Linked(r.value) && r.value.summary == Summary(ItemState.Error, true)
  {
    if item.current.None? then Fail(InvalidStateTransition)
    else ErrorTransaction(item, item.current.value)
  }

  /** The `Item.status` property: read through the pointer, which on a linked
      item is the status of the newest transaction. */
  function ItemStatus(item: Item): (r: Option<Status>)
    ensures Linked(item) ==> (r.None? <==> |item.ledger| == 0)
    ensures Linked(item) && r.Some? ==> r.value == item.ledger[|item.ledger| - 1].status
  {
    if item.current.None? then None else Some(item.ledger[item.current.value].status)
  }

  /** The `Item.location` property. */
  function ItemLocation(item: Item): (r: Option<Location>)
    ensures Linked(item) ==> (r.None? <==> |item.ledger| == 0)
    ensures Linked(item) && r.Some? ==> r.value == item.ledger[|item.ledger| - 1].location
  {
    if item.current.None? then None else Some(item.ledger[item.current.value].location)
  }

  /** Every transaction of the ledger sits in a legal pair. */
  predicate AllValid(ledger: seq<Engine.Txn>) {
    forall i | 0 <= i < |ledger| :: ValidPair(ledger[i].Pair())
  }

  /** Some transaction of the ledger is in ERROR. */
  predicate ErrorRecorded(ledger: seq<Engine.Txn>) {
    exists i | 0 <= i < |ledger| :: ledger[i].status == Status.Error
  }

  /** The state the item should show, derived from its current transaction. */
  function ExpectedState(item: Item): ItemState {
    match CurrentTxn(item)
    case None => ItemState.Processing
    case Some(t) => Classify(t.status, item.summary.hasErrored)
  }

  /** What holds of every item reached from a new one: the single-active rule,
      legal pairs throughout, the incremental state agreeing with the
      declarative classification, and the sticky flag set only when an errored
      transaction stays in the history and always when the current one has
      errored. */
  predicate Consistent(item: Item) {
    && Linked(item)
    && AllValid(item.ledger)
    && item.summary.state == ExpectedState(item)
    && (item.current.None? ==> !item.summary.hasErrored)
    && (CurrentIsErrored(item) ==> item.summary.hasErrored)
    && (item.summary.hasErrored ==> ErrorRecorded(item.ledger))
  }

  /** One call an external caller can make on an item. */
  datatype Command =
    | Create(status: Option<Status>, location: Option<Location>)
    | ItemMove
    | ItemError
    | ItemFix
    | ItemRefund
    | TxnMove(index: nat)
    | TxnError(index: nat)

  /** The result of a command; a command naming a transaction the item does
      not have cannot be issued. */
  function Apply(item: Item, c: Command): Result<Item> {
    match c
    case Create(s, l) => CreateTransaction(item, s, l)
    case ItemMove => MoveItem(item)
    case ItemError => ErrorItem(item)
    case ItemFix => Fix(item)
    case ItemRefund => BeginRefund(item)
    case TxnMove(i) => if i < |item.ledger| then MoveTransaction(item, i) else Ok(item)
    case TxnError(i) => if i < |item.ledger| then ErrorTransaction(item, i) else Ok(item)
  }

  /** A raised exception leaves the item as it was. */
  function Step(item: Item, c: Command): Item {
    match Apply(item, c)
    case Ok(next) => next
    case Fail(_) => item
  }

  function Run(item: Item, cs: seq<Command>): Item
    decreases |cs|
  {
    if |cs| == 0 then item else Run(Step(item, cs[0]), cs[1..])
  }

  lemma NewItemIsConsistent(amount: int)
    ensures Consistent(NewItem(amount))
  {
  }

  /** Appending a start-state transaction keeps the item consistent. */
  lemma AppendKeepsConsistent(item: Item, next: Item, t: Engine.Txn)
    requires Consistent(item)
    requires Linked(next)
    requires ValidPair(t.Pair()) && !IsTerminal(t.status)
    requires Appended(item, next, t, Summary(OpeningState(item.summary.hasErrored), item.summary.hasErrored))
    ensures Consistent(next)
  {
  }

  /** A transition of one ledger row keeps the item consistent. */
  lemma TransitionKeepsConsistent(item: Item, i: nat, r: Result<Item>)
    requires Consistent(item) && i < |item.ledger|
    requires r == MoveTransaction(item, i) || r == ErrorTransaction(item, i)
    requires r.Ok?
    ensures Consistent(r.value)
    ensures item.summary.hasErrored ==> r.value.summary.hasErrored
  {
  }

  /** Every command keeps a consistent item consistent, and no command ever
      clears the sticky flag. */
  lemma StepKeepsConsistent(item: Item, c: Command)
    requires Consistent(item)
    ensures Consistent(Step(item, c))
    ensures item.summary.hasErrored ==> Step(item, c).summary.hasErrored
  {
    var r := Apply(item, c);
    if r.Ok? {
      match c
      case Create(s, l) =>
        AppendKeepsConsistent(item, r.value, Engine.Txn(s.value, l.value, true));
      case ItemFix =>
        AppendKeepsConsistent(item, r.value, Engine.Txn(Fixing, Routable, true));
      case ItemRefund =>
        AppendKeepsConsistent(item, r.value, Engine.Txn(Refunding, Routable, true));
      case ItemMove =>
        TransitionKeepsConsistent(item, item.current.value, r);
      case ItemError =>
        TransitionKeepsConsistent(item, item.current.value, r);
      case TxnMove(i) =>
        if i < |item.ledger| {
          TransitionKeepsConsistent(item, i, r);
        }
      case TxnError(i) =>
        if i < |item.ledger| {
          TransitionKeepsConsistent(item, i, r);
        }
    }
  }

  /** Any sequence of commands keeps a consistent item consistent and never
      clears the sticky flag. */
  lemma {:induction false} RunKeepsConsistent(item: Item, cs: seq<Command>)
    requires Consistent(item)
    ensures Consistent(Run(item, cs))
    ensures item.summary.hasErrored ==> Run(item, cs).summary.hasErrored
    decreases |cs|
  {
    if |cs| > 0 {
      StepKeepsConsistent(item, cs[0]);
      RunKeepsConsistent(Step(item, cs[0]), cs[1..]);
    }
  }

  /** Whatever an item goes through, its newest transaction is its only
      active one and the pointer refers to it, every transaction sits in a
      legal pair, and its state is the classification of that transaction. */
  lemma ReachableItemsAreConsistent(amount: int, cs: seq<Command>)
    ensures Linked(Run(NewItem(amount), cs))
    ensures AllValid(Run(NewItem(amount), cs).ledger)
    ensures Run(NewItem(amount), cs).summary.state == ExpectedState(Run(NewItem(amount), cs))
  {
    NewItemIsConsistent(amount);
    RunKeepsConsistent(NewItem(amount), cs);
  }
}
