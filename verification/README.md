# Item routing: a Dafny model of the transaction state machine

This project models the core of a payment-routing service. An **item** (a payment) moves through a chain of **transactions**. Each transaction is pinned to a (status, location) pair:

- statuses: processing, completed, error, refunding, refunded, fixing;
- locations: originator bank, routable, destination bank.

The model has five parts, one module each, plus a shared module `Outcomes` that holds `Option`, `Result` and the two exception classes:

- `Vocabulary` — the enumerations. It lists the seven legal pairs, named A–G, and the three legal start pairs (A, E, G).
- `Engine` — a transaction record and the deterministic transitions `move` and `error`. Each transition either raises `InvalidStateTransitionError` or gives exactly one successor.
- `Aggregator` — `update_item_status`. It derives the item's coarse state (processing, correcting, error or resolved) from one transaction, and it keeps the sticky `has_errored` flag.
- `Ledger` — the item as a sequence of transactions plus an optional index of the current one. It holds `create_transaction`, `fix` and `begin_refund`. These keep one rule: the newest transaction is the only active one, and the item's pointer refers to it. `fix` and `begin_refund` never change the errored transaction's status or location; only its active flag is cleared. They append a new transaction on top of it.
- `Commands` — `move` and `error` on the item, and on any transaction of its ledger. It also holds the `status`/`location` properties, and an invariant `Consistent` that every sequence of commands from a new item keeps.

The ORM's save hook is an explicit call here. It fires only when a transaction is first saved, and it classifies the item from the new transaction. A moved or errored transaction is recomputed by the explicit `update_item_status()` call that follows its save. A raised exception is a `Fail` result. A command that fails leaves the item as it was.

Behaviour of the code worth knowing when reading the model:

- There is no separate "no active transaction" error. `Item.move`, `Item.error`, `Item.fix` and `Item.begin_refund` on an item without a transaction all raise `InvalidStateTransitionError`, and so does the model.
- `Transaction.move` is total over all eighteen pairs. A transaction created directly through the ORM can sit in a pair outside the table. At the originator bank, any non-terminal status moves to routable. At the destination bank, a non-terminal status falls through every branch, so the call succeeds and changes nothing. From the seven legal pairs, every successful move changes the pair (`Engine.Move`).
- The tests call `get_status()`/`get_location()` and `TransactionStatus.processing`, which models.py does not define. `Scenarios.HappyPath` and `Scenarios.SecondCreateDeactivatesFirst` state what those tests evidently check, using the model's own `status`/`location` properties. The other lemmas in `Scenarios` walk through the fix, refund and sticky-flag paths of models.py, which the tests do not exercise.

## Model

| member | source | states |
|---|---|---|
| Vocabulary.NameOf | items/models.py:276-291 | A pair is valid exactly when it is one of the seven named states A–G, and that name maps back to the same pair |
| Vocabulary.IsValidState | items/models.py:276-291 | True exactly when both the status and the location are present and form one of the seven pairs A–G |
| Vocabulary.IsValidStartState | items/models.py:293-303 | True exactly when both values are present and form A, E or G; every start state is a valid state |
| Vocabulary.NameRoundTrip | items/models.py:282-290 | Each of the seven names denotes a valid pair that is named by it again, so the names and the valid pairs correspond one to one |
| Vocabulary.MissingArgumentIsInvalid | items/models.py:279-281 | A missing status or location is neither a valid state nor a valid start state |
| Vocabulary.StartStatesAreAEG | items/models.py:293-303 | The valid start states are exactly A, E and G, and every start state is a valid state |
| Engine.Move | items/models.py:210-233 | Move rejects exactly the COMPLETED, ERROR and REFUNDED statuses with InvalidStateTransition; it keeps the active flag, and from a valid pair it yields a different valid pair |
| Engine.MoveFollowsTable | items/models.py:210-233 | On the named states, move is the table A→B, B→C, G→B, E→F and fails from C, D and F; each move lowers the distance to a dead end, so at most two moves succeed in a row |
| Engine.MarkError | items/models.py:235-242 | Error succeeds exactly from (PROCESSING, ROUTABLE) and then yields (ERROR, ROUTABLE) with the active flag kept; from any other pair it raises InvalidStateTransition |
| Engine.MarkErrorFollowsTable | items/models.py:235-242 | On the named states, the only error edge is B→D |
| Engine.TransitionsStayValid | items/models.py:210-242 | Move and error map valid pairs to valid pairs |
| Engine.MarkInactive | items/models.py:204-206 | Deactivation clears the active flag and keeps status and location |
| Aggregator.UpdateItemStatus | items/models.py:244-274 | An inactive transaction changes nothing. A new one sets CORRECTING or PROCESSING by the flag. On ERROR, COMPLETED or REFUNDED the state is the classification of that status. Other statuses leave the item as it was. The flag never clears and is set only by an active, non-new ERROR transaction |
| Aggregator.DeactivationIsInert | items/models.py:204-208 | Recomputing the item from a deactivated transaction leaves its state and flag unchanged |
| Aggregator.RecomputeIsIdempotent | items/models.py:272-274 | Recomputing a second time from the same transaction changes nothing further |
| Ledger.DeactivateAll | items/models.py:127-129 | The deactivation loop keeps every transaction except for clearing its active flag, and it leaves the item's state and flag untouched |
| Ledger.CreateTransaction | items/models.py:110-132 | A missing or non-start pair raises InvalidState. Otherwise the new transaction is appended as the only active one, the pointer refers to it, and older transactions change only their flag. The item gets the new transaction's opening classification, with the flag kept |
| Ledger.CreateDefaultTransaction | items/models.py:110 | Called without arguments, creation always succeeds and starts a linked transaction at (PROCESSING, ORIGINATOR_BANK) |
| Ledger.DeactivationOrderIrrelevant | items/models.py:119-131 | Classifying the item before or after deactivating the old transactions gives the same result, so the final state is always the new transaction's opening classification |
| Ledger.BeginRefund | items/models.py:134-146 | Succeeds exactly when the current transaction has errored, otherwise raises InvalidStateTransition; on success a linked (REFUNDING, ROUTABLE) transaction is appended and the errored one is kept with its flag cleared |
| Ledger.Fix | items/models.py:148-159 | Succeeds exactly when the current transaction has errored, otherwise raises InvalidStateTransition; on success a linked (FIXING, ROUTABLE) transaction is appended and the errored one is kept with its flag cleared |
| Commands.MoveTransaction | items/models.py:210-233 | Moving a ledger row fails exactly on terminal statuses. Otherwise the row takes its table successor (on a pair outside the table, the result of the if/elif chain), and its flag, the other rows, the pointer and the amount are unchanged. Moving the active row into COMPLETED or REFUNDED resolves the item; any other move, and any move of an inactive row, leaves the item as it was. The single-active rule is kept |
| Commands.ErrorTransaction | items/models.py:235-242 | Erroring a ledger row succeeds exactly from (PROCESSING, ROUTABLE) and changes only that row's status. If the row is active the item becomes ERROR and flagged; an inactive row leaves the item unchanged |
| Commands.MoveItem | items/models.py:161-166 | Without a transaction, move raises InvalidStateTransition. Otherwise it fails exactly when the current transaction is terminal. On success the current row takes its table successor, and the other rows, the pointer and the amount are unchanged. On a linked item the result stays linked and is resolved exactly when the row reached a dead end; otherwise the item is unchanged |
| Commands.ErrorItem | items/models.py:168-173 | Without a transaction, error raises InvalidStateTransition. Otherwise it succeeds exactly when the current transaction is at (PROCESSING, ROUTABLE). Then that row becomes ERROR, and the other rows, the pointer and the amount are unchanged. On a linked item the item becomes ERROR and flagged |
| Commands.ItemStatus | items/models.py:96-101 | On a linked item the status is absent exactly when there is no transaction, and otherwise it is the newest transaction's status |
| Commands.ItemLocation | items/models.py:103-108 | On a linked item the location is absent exactly when there is no transaction, and otherwise it is the newest transaction's location |
| Commands.NewItemIsConsistent | items/models.py:84-91 | A new item has no pointer, has state PROCESSING and is not flagged, which satisfies the invariant |
| Commands.AppendKeepsConsistent | items/models.py:119-131 | Appending a start-state transaction keeps the invariant |
| Commands.TransitionKeepsConsistent | items/models.py:244-274 | Moving or erroring any row keeps the invariant, and the flag never clears |
| Commands.StepKeepsConsistent | items/models.py:110-173 | Every command keeps the invariant, and the flag never clears |
| Commands.RunKeepsConsistent | items/models.py:89-91 | Over any sequence of commands, the invariant holds throughout and the flag, once set, stays set |
| Commands.ReachableItemsAreConsistent | items/models.py:119-131 | For every item reached from a new one, the newest transaction is the only active one and the pointer refers to it, every transaction sits in a valid pair, and the item's state is the classification of its current transaction |
| Scenarios.NoTransactionGuard | items/models.py:134-173 | Move, error, fix and begin_refund on an item without a transaction all raise InvalidStateTransition |
| Scenarios.HappyPath | items/tests.py:45-72 | Create, move, move goes A→B→C and resolves the item; a further move or error is rejected |
| Scenarios.ErrorFixCycle | items/models.py:148-274 | After an error the item is ERROR and flagged. Fix appends (FIXING, ROUTABLE), keeps the errored transaction inactive and shows CORRECTING. A move back to processing keeps CORRECTING |
| Scenarios.RefundCycle | items/models.py:134-146 | After an error, begin_refund and one move reach (REFUNDED, ORIGINATOR_BANK) and resolve the item; a further move or error is rejected |
| Scenarios.StickyFlag | items/models.py:253-267 | A resolved item that has errored stays flagged, and a new transaction opens it as CORRECTING |
| Scenarios.SecondCreateDeactivatesFirst | items/tests.py:121-144 | A second creation leaves the first transaction inactive, and the second one active and current |

## Left out

- HTTP viewsets, serializers and the admin registration: these are request and response plumbing, with no routing logic.
- ORM persistence: `save()`, `objects.filter`, `_state.adding`, UUID keys and timestamps. Saves are explicit function calls. A skipped write is modelled as "the resulting state is equal".
- ORM object aliasing: a freshly loaded transaction's `item` can be a different in-memory object than the caller's item. The model has one item value.
- Atomicity of `create_transaction` under concurrent calls: each operation is one atomic step.
- `amount`: it is carried as an opaque integer. No transition reads it.
- The display labels returned by `choices()`: presentation only.
- Status and location arguments that are strings outside the enumerations, or empty strings. Arguments are `Option` values, and a missing one stands for any falsy value. A string outside the enumerations could only fail the start-state check, which raises the same InvalidState.
- Creating a transaction directly through the ORM in an arbitrary pair: this is not an item command. The engine functions still cover all eighteen pairs.
- `Transaction.mark_inactive` called on its own: it is modelled only as the step inside `create_transaction`. Called on an item's current transaction, it would leave the pointer on an inactive row and break the single-active rule.
