# A verified model of the Go.Kitchen order engine

This project models the order engine of a food-delivery platform and proves what it keeps: checkout,
order status changes, cancellation with refund and partner menu edits, running concurrently over a
relational store with row locks and rollback. Around the engine it proves four smaller algorithms:
literal LIKE search, stable search pages and index-based joins, the partner simulator's retry loop, and
the webhook slot pool.

Verify everything with `dafny verify dfyconfig.toml`.

## How the project is laid out

- `Domain`, `Spec`: the entities, the input checks, and the *sequential specification*: `Spec.Apply` says
  what one call does to whole tables when it runs alone, `Spec.Replay` runs a list of calls one by one.
- `Tables`: the constraints of the schema, the shape of receipts and audit trails, and the proof that
  every accepted call keeps them.
- `CheckoutVerdict`, `MoveVerdict`, `MenuVerdict`: the same calls said again over the rows they name, without
  the functions of `Spec`: for each of the nine calls, exactly when it is accepted, which check refuses it
  otherwise, and which columns of which rows it writes.
- `Engine`: the *concurrent machine*. Any number of calls are in flight; each has a program counter, the
  rows it read under lock, an undo log and its locks. One step is one statement; rows change in place;
  the others see before-images until commit; waiting for a lock is the absence of a step; any call may be
  interrupted at any moment before COMMIT. An update or deletion that PostgreSQL checks against other rows
  (a new category name, a deleted category, a dish moved to another category) is two steps: it takes its
  own row, then waits until no row its check reads is held in a conflicting mode. Read Committed visibility
  and row locks follow sections 13.2.1 and 13.3.2 of the PostgreSQL documentation.
- `EngineInvariant`, `EngineVisibility`, `EngineBuyer`, `EngineMover`, `EngineMenu`: the invariant and one
  proof per kind of step. `Serialisability`, `Answers`, `LateDish`, `LostCategory`, `Progress`, `Waiting`,
  `Tangle`, `Notifications`, `Lifecycle`: the theorems about runs.
- `Ledger`, `Audit`, `Tenancy`: laws of every serial history. `Reachable`, `SellThrough`, `TwoReads`: the
  same laws in every reachable state of the concurrent machine, the exact outcome of a rush on one dish, and
  the menu that is read in two queries.
- `Store`, `OrderService`, `MenuService`: the imperative code, statement by statement, on one connection:
  tables changed in place, an undo log, repositories, services. Each service method is proved to leave the
  tables exactly as `Spec.Apply` says, or as they were.
- `Like`, `Search`, `Catalogue`, `Retry`, `Partner`, `Webhook`: the smaller algorithms. `Simulator` puts the
  retry protocol on top of the concurrent machine: every delivery is one of its transactions.

What a concurrent call reads of its restaurant without a lock (whether it is active, its webhook URL),
generated identifiers, the moment a connection dies, what a timer or a reply does, and a dispatcher's
delivery outcome are inputs. Identifiers are natural numbers: only their order and uniqueness matter. Integer
widths are explicit: int4 stock, int64 prices and totals with two's complement wrap-around.

Four places where the code differs from what one might expect, and the model follows the code:

- A checkout whose dish is created between the snapshot of its locking query and its row count is told
  that the dish does not exist. `LateDish.LateHappens` is a run in which this happens. Its checkout has to
  name the dish before the service has handed out the dish's identifier: identifiers come from `newID()`
  and are returned only after the insert, so the input is legal but arises only from a guessed identifier.
- A dish added, or moved, to a category that is deleted between the service's check and its write is
  refused as a conflict by the foreign key, not as a missing category; `LostCategory.LostHappens` is such a
  run. A dish update whose dish is deleted between its two checks can be told that the category is missing.
  `Answers.RejectionIsSequential` proves that a refusal differs from the sequential one in these cases and
  the one above, and in no others: the exact condition is `Late` or `Outdated`, two guards on the state
  before the step.
- Menu calls can deadlock. Two renames that swap the names of two categories of one restaurant each hold
  their own row and wait for the other in the unique index. A checkout that holds dish D of category C and
  wants dish D2, an update that holds D2 and moves it to C, and the deletion of C wait in a ring of three.
  `Waiting.DeadlockFree` holds for every other mix of calls, and `Tangle.MixesThatJam` proves that exactly
  the mixes with two renames, or with all three of the other kinds, can get stuck. PostgreSQL ends such a
  ring by failing one of its calls with code 40P01, which `mapPgError` leaves as it is; in the model the
  victim is an interrupted call.
- The total of an order is only exact below 2^63. `Audit.TotalVerdict` says when the CHECK on the column
  accepts a wrapped total, and `Audit.OverflowSold` is an order whose bill of 2^64 is stored as zero.

## Model

| member | source | states |
|---|---|---|
| Domain.Validate | internal/domain/order.go:134-157 | the one-pass check accepts exactly the requests with an owner, a restaurant, an address that is not blank and at most 500 bytes long, a comment of at most 1000 bytes, at least one line, no dish twice, no nil dish and only positive quantities, and reports an empty order as such |
| Domain.LookUpTransition | internal/domain/order.go:47-70 | the loop over the forward table answers the lifecycle's question for every pair of statuses, unknown keys included |
| Domain.LookUpCancellation | internal/domain/order.go:56-80 | the loop over the cancellation table answers who may cancel in which status |
| Domain.WantedIsRequest | internal/service/order_service.go:65-70 | for distinct lines the quantity map has one entry per line, each line its own quantity |
| Domain.WrapAdd | internal/service/order_service.go:80-106 | one int64 addition of wrapped values is the wrapped exact sum, so a running total can be unwrapped term by term |
| Spec.AscendingIs | internal/repository/postgres/menu_repo.go:257-263 | the id-sorted sequence of a set is ascending and holds exactly its elements |
| Tables.ApplyKeeps | migrations/000001_init.up.sql:16-72 | every accepted call keeps the CHECK ranges of the numbers, category names unique within a restaurant, the composite and RESTRICT foreign keys, well-formed receipts, consistent totals and legal audit trails |
| CheckoutVerdict.CheckoutAccepted | internal/service/order_service.go:41-122 | a checkout is accepted if and only if the request is in order, the restaurant exists and is active, every dish is there, is the restaurant's, is available and is left in the quantity asked for, the bill modulo 2^64 is below 2^63, and the order's identifier is new |
| CheckoutVerdict.EntryRefused | internal/service/order_service.go:42-78 | which error it gets otherwise, in this order: invalid input, empty order, restaurant not found, restaurant inactive, dish not found |
| CheckoutVerdict.FirstLineRefused | internal/service/order_service.go:83-99 | then the line with the smallest dish id that cannot be sold decides, whatever the order of the request: a foreign dish, an unavailable one, one out of stock |
| CheckoutVerdict.BillRefused | internal/service/order_service.go:103-122 | and at last the bill, as invalid input, and the identifier, as a conflict |
| CheckoutVerdict.CheckoutWrites | internal/service/order_service.go:83-118 | an accepted checkout adds exactly one order, whose lines carry the names and prices of their dishes at the sale in ascending dish order, with the bill, the owners, status created and the system's entry; each dish has its line's quantity less and nothing else has changed |
| MoveVerdict.StatusAccepted | internal/service/order_service.go:165-209 | a status change is accepted if and only if it names an order of the caller's restaurant and makes one of the five forward moves, or cancels out of created, accepted or cooking and every line can go back within int4 |
| MoveVerdict.StatusRefused | internal/service/order_service.go:170-205 | otherwise: invalid input for nil identifiers, not found for a missing or foreign order, already processed for a late cancellation, invalid transition for any other move |
| MoveVerdict.StatusStopped | internal/service/order_service.go:196-200 | a cancellation whose receipt cannot go back gets the error of its first such line |
| MoveVerdict.StatusWrites | internal/service/order_service.go:191-225 | an accepted status change sets that order's status and appends the restaurant's entry from the old status to the new one, returns every line exactly when it cancels, and changes nothing else |
| MoveVerdict.CancelAccepted | internal/service/order_service.go:236-273 | a customer's cancellation is accepted if and only if that customer placed the order, it is still created, and every line can go back |
| MoveVerdict.CancelRefused | internal/service/order_service.go:237-262 | to anybody but the customer who placed it the order is not found; once taken up it is already processed |
| MoveVerdict.CancelStopped | internal/service/order_service.go:263-268 | a cancellation whose receipt cannot go back gets the error of its first such line |
| MoveVerdict.CancelWrites | internal/service/order_service.go:254-280 | an accepted cancellation cancels that one order with the customer's entry, returns every line, and changes nothing else |
| MoveVerdict.TrailMoves | internal/domain/order.go:45-80 | every entry of an audit trail, written out: the system's first entry, the restaurant's five forward moves, the customer's cancellation from created, the restaurant's from created, accepted or cooking |
| MenuVerdict.AddCategoryVerdict | internal/service/menu_service.go:37-57 | accepted if and only if the name is not in use in the restaurant and the identifier is new; it adds that row alone |
| MenuVerdict.RenameCategoryVerdict | internal/service/menu_service.go:60-69 | accepted if and only if the category is the caller's and no other of its categories has the name; it changes that name alone |
| MenuVerdict.DropCategoryVerdict | internal/service/menu_service.go:72-77 | accepted if and only if the category is the caller's and has no dish; it removes that row alone |
| MenuVerdict.AddItemVerdict | internal/service/menu_service.go:80-112 | accepted if and only if price and stock are in range, the category is the restaurant's and the identifier is new; it adds that row alone |
| MenuVerdict.EditItemAccepted | internal/service/menu_service.go:151-165 | accepted if and only if the given price, stock and category are in range, the dish is the caller's and so is a given category |
| MenuVerdict.EditItemWrites | internal/repository/postgres/menu_repo.go:411-475 | each column the patch names gets its value, each other keeps its own, and so do the owner, all other dishes, the categories and the orders |
| MenuVerdict.DropItemVerdict | internal/service/menu_service.go:168-173 | accepted if and only if the dish is the caller's and on no receipt; it removes that row alone |
| EngineBuyer.LockBijection | internal/service/order_service.go:65-78 | distinct lines plus an equal row count leave no choice: the locked rows are exactly the requested ids |
| EngineBuyer.CheckoutCommits | internal/service/order_service.go:51-125 | committing a checkout after any interleaving is the sequential checkout on the committed tables of that moment |
| EngineMover.MoveCommits | internal/service/order_service.go:182-225 | the same for a status change or a cancellation with its refund |
| EngineMenu.CheckStillGood | internal/service/menu_service.go:175-201 | an ownership check made in an earlier, unlocked read still holds at the write |
| EngineMenu.WriteCommits | internal/service/menu_service.go:151-173 | a partner call's separate check and write, and the constraint check that may come between its own row and its commit, amount to the sequential call at the moment it commits |
| EngineVisibility.RejectStep | internal/repository/postgres/tx_manager.go:48-56 | rolling back at any program counter keeps the invariant, frees every lock and changes nothing the others see |
| Serialisability.StepIsAtomic | internal/repository/postgres/tx_manager.go:38-62 | every step of every call, interrupts included, keeps the invariant and either shows the others nothing or is one whole sequential call |
| Serialisability.Serialisable | internal/service/order_service.go:51-125 | in every reachable state the committed tables equal running the committed calls one at a time in commit order; the log names each once; once nothing is in flight the tables are that result and no lock is left |
| Answers.RejectionIsSequential | internal/service/order_service.go:72-104 | a call that the service rejects in any interleaving gets the sequential answer on the committed tables of that moment, if and only if it is not a checkout about to count its rows whose dishes all exist although one came after its snapshot, and not a menu call one of whose earlier checks found a row that is gone now |
| Answers.LateIsRefused | internal/service/order_service.go:72-78 | a checkout in that first state is always turned away as naming a missing dish, its row count being short |
| Answers.RefundAnswer | internal/repository/postgres/menu_repo.go:513-531 | in any interleaving a refund never finds a dish missing; it fails only on int4 overflow, and then the sequential cancellation fails the same way |
| Answers.MenuRejectionIsSequential | internal/service/menu_service.go:60-112 | the menu calls among them: the same error exactly unless a checked dish or category has been deleted since, and in that case a sequential rejection too, with another error |
| LateDish.LateHappens | internal/repository/postgres/menu_repo.go:257-263 | a run in which the first exception happens: the checkout is refused although it would now be accepted |
| LostCategory.LostHappens | internal/service/menu_service.go:89-109 | a run in which the second exception happens: a conflict where the sequential call reports a missing category |
| Waiting.AllWaitUp | internal/repository/postgres/order_repo.go:123-128 | in every mix of calls that is not tangled there is one order of all rows in which a waiting call waits for a row after every row it holds: order rows first, dish rows by id, categories before or after the dishes; the one exception is a deletion waiting for a checkout |
| Waiting.DeadlockFree | internal/repository/postgres/menu_repo.go:257-263 | in every reachable state of a mix without two renames, and without a checkout of several dishes together with a dish moved to another category and a deleted category, some call can take its next step unless all are over |
| Waiting.NoRing | internal/service/menu_service.go:60-77 | in such a mix no set of calls ever waits for each other, whatever the others do |
| Tangle.RingStays | internal/repository/postgres/tx_manager.go:48-56 | once calls wait for each other they do so for good: no step of anybody else opens the ring, only the interruption of a member does |
| Tangle.MixesThatJam | internal/repository/postgres/tx_manager.go:85-105 | for every list of kinds of calls: some calls of those kinds, on some database, have a run that ends in a ring, if and only if the list has two renames, or a checkout of several dishes, a dish moved to another category and a deleted category |
| Progress.RunsEnd | internal/service/order_service.go:51-125 | every run over n calls whose receipts have at most c lines ends within n * (2c + 6) steps, whatever the schedule |
| Notifications.NotifiedOnce | internal/service/order_service.go:324-332 | one dispatch attempt per committed order call with a webhook URL, after its commit; never twice, never for a call that was rolled back |
| Lifecycle.WholeLifecycle | internal/domain/order.go:45-70 | from any tables, a run of the concurrent machine in which the order's restaurant makes all five forward moves, each committed in its own transaction, from created to completed, with one audit entry each and no other change |
| Ledger.CheckoutEffect | internal/service/order_service.go:83-125 | an accepted checkout lowers each requested dish by exactly the requested quantity, changes no other column or dish, and adds exactly its order |
| Ledger.MoveEffect | internal/service/order_service.go:191-203 | an accepted status call stamps one order and returns exactly the units the order stops holding |
| Ledger.ApplyConserves | internal/service/order_service.go:83-108 | one accepted call moves shelf stock plus held quantities only by the partner's own edit |
| Ledger.ReplayConserves | internal/repository/postgres/menu_repo.go:495-531 | the conservation law over every serial history |
| Ledger.ReplayKeeps | migrations/000001_init.up.sql:40-70 | the schema's constraints hold along every serial history: each dish's category stays in the dish's own restaurant, and no receipt loses a dish to a delete |
| Audit.ChainBound | internal/domain/order.go:45-80 | an audit trail has one to six entries and never repeats a status |
| Audit.ChainUnique | internal/repository/postgres/order_repo.go:355-390 | any reordering of a trail's entries that links up is the original order, so read order does not matter |
| Audit.ReadyStays | internal/domain/order.go:55-59 | an order whose trail passes through ready is never cancelled |
| Audit.ReceiptsFrozen | internal/repository/postgres/order_repo.go:396-430 | along every history, an order's receipt, total and owners never change, its trail only grows, and a cancelled order stays as it is |
| Audit.RefundedOnce | internal/service/order_service.go:249-273 | the units that calls on an order have put back equal its quantities exactly if it ended cancelled, and nothing otherwise |
| Audit.ReadyNeverRefunded | internal/service/order_service.go:191-203 | an order that has been ready has had nothing put back |
| Audit.CancellationVerdict | internal/repository/postgres/menu_repo.go:513-531 | a permitted cancellation is accepted if and only if every refunded stock fits int4; every line names an existing dish of the order's restaurant |
| Audit.TotalVerdict | internal/service/order_service.go:80-118 | the stored total is the exact bill modulo 2^64; accepted if and only if that residue is below 2^63; exact if and only if the bill is below 2^63 |
| Audit.OverflowSold | internal/repository/postgres/tx_manager.go:72-102 | an order billing 2^64 that is accepted with total zero |
| Tenancy.Isolation | internal/service/menu_service.go:60-112 | any history of calls made for one restaurant, refunds and checkouts included, leaves the other restaurants' categories, dishes and orders unchanged |
| Tenancy.OnlyParties | internal/service/order_service.go:187-190 | along every history an order changes only by a call of its own restaurant or its own customer |
| Tenancy.CustomersIsolated | internal/service/order_service.go:254-256 | no history of other customers' checkouts and cancellations, and of menu calls, adds, removes or changes an order of a customer |
| Reachable.StockConserved | internal/service/order_service.go:83-108 | conservation in every reachable state of the concurrent machine |
| Reachable.StockInRange | migrations/000001_init.up.sql:36 | stock stays within int4 from zero in every reachable state, in the committed view and in place in the middle of transactions |
| Reachable.CheckoutAllOrNothing | internal/service/order_service.go:72-125 | each step of a checkout shows nothing, or is its commit with exactly the requested decrements and its one order |
| Reachable.LocksAreTheRequest | internal/service/order_service.go:65-99 | past its row count a checkout holds exactly the rows it asked for, every quantity lookup is its line's, and a checked line never fails in the UPDATE |
| Reachable.AuditTrails | internal/service/order_service.go:297-320 | in every reachable state each trail starts with the system's entry into created, links by moves legal for the recorded actor, ends at the order's status, and has only this one linking order |
| Reachable.RefundsOnce | internal/service/order_service.go:249-273 | whatever cancellations compete, an order's quantities are returned once if it ended cancelled and never otherwise |
| Reachable.ReadyIsKept | internal/service/order_service.go:191-203 | an order that has been ready has had nothing put back, in every reachable state |
| Reachable.TenantsApart | internal/service/menu_service.go:151-201 | tenant isolation in every reachable state |
| Reachable.OrdersOnlyAge | internal/service/order_service.go:83-118 | an order seen at one moment of a run is seen at every later one with the same receipt and total and a trail that extends the earlier one |
| Reachable.OnlyPartiesMove | internal/service/order_service.go:187-190 | between two moments of a run an order changes only by a committed call of its own restaurant or its own customer |
| Reachable.CustomersApart | internal/service/order_service.go:254-256 | customer isolation in every reachable state |
| Reachable.CommittedCheckout | internal/service/order_service.go:52-118 | every committed checkout met every condition above on the tables it committed on, an active restaurant included, and its order carries the names and prices of that moment ever after |
| Reachable.CommittedCancel | internal/service/order_service.go:250-262 | every committed cancellation by a customer was of that customer's own order, then created, and the order stays cancelled |
| Reachable.CommittedMove | internal/service/order_service.go:183-205 | every committed status change was of an order of the caller's restaurant, along a forward move or a cancellation out of created, accepted or cooking |
| Reachable.TrailsSpelledOut | internal/domain/order.go:45-80 | in every reachable state every audit entry is one of the written-out moves, by the actor who may make it |
| Reachable.SchemaHolds | migrations/000001_init.up.sql:16-72 | the schema's constraints in every reachable state, row by row |
| Reachable.CutOffAnyMoment | internal/repository/postgres/tx_manager.go:48-56 | at every moment of every run any call that has not committed can be cut off, and what follows is its rollback |
| SellThrough.UnitVerdict | internal/service/order_service.go:92-99 | a one-unit checkout is accepted exactly while a unit is left, and otherwise refused as out of stock |
| SellThrough.ExactSellThrough | tests/integration/postgres_test.go:225-280 | when N concurrent one-unit checkouts are over, exactly min(N - interrupted, S) have succeeded, the stock is S minus that, and all others were refused as out of stock |
| Store.Database.Begin | internal/repository/postgres/tx_manager.go:38-46 | opens a transaction or joins the open one; what a rollback would restore does not change |
| Store.Database.Rollback | internal/repository/postgres/tx_manager.go:48-50 | the loop over the undo log restores the tables as they were when the transaction was opened |
| Store.Database.Finish | internal/repository/postgres/tx_manager.go:52-62 | the owner commits or restores, and restores whether its body failed, panicked or COMMIT failed; whoever joined leaves both tables and undo log alone |
| OrderService.MenuRepository.GetItemsByIDsForUpdate | internal/repository/postgres/menu_repo.go:254-296 | returns exactly the requested rows that exist, in ascending id order, at their current versions |
| OrderService.MenuRepository.DecrementStock | internal/repository/postgres/menu_repo.go:492-510 | sells if and only if the dish exists, is available and has the quantity; otherwise out of stock and nothing changes |
| OrderService.MenuRepository.IncrementStock | internal/repository/postgres/menu_repo.go:513-531 | adds the quantity, or reports a missing dish or an int4 overflow and changes nothing |
| OrderService.OrderRepository.CreateOrder | internal/repository/postgres/order_repo.go:27-73 | stores the order with the system's audit entry; a negative total or a taken id changes nothing |
| OrderService.OrderRepository.AddStatusHistory | internal/repository/postgres/order_repo.go:287-313 | appends one entry to one order's trail |
| OrderService.OrderService.SellLines | internal/service/order_service.go:83-108 | the loop ends with the first refusal in id order, or with the whole receipt, its wrapped total and the receipt out of stock |
| OrderService.OrderService.RefundLines | internal/service/order_service.go:196-200 | the loop returns the whole receipt, or stops with the first line that cannot be returned |
| OrderService.OrderService.ApplyStatusChange | internal/service/order_service.go:297-321 | the order gets its new status and one entry from the old status by this actor |
| OrderService.OrderService.CreateOrder | internal/service/order_service.go:41-135 | answer, tables and dispatch are those of the sequential checkout with the restaurant as it is at the call; it succeeds only for an active restaurant, with the stored order as its answer and one created event to that restaurant's address; on any error, a failing statement or a failed COMMIT included, the tables are as before and nothing is dispatched; inside an open transaction the tables are left to its owner |
| OrderService.OrderService.UpdateOrderStatus | internal/service/order_service.go:165-231 | the same for a status change: it succeeds only for an order of the caller's restaurant, with one status event to that restaurant's address; a comment over its limit changes nothing |
| OrderService.OrderService.CancelOrderByCustomer | internal/service/order_service.go:236-294 | the same for a cancellation and its reason: it succeeds only for the customer's own created order, with one cancellation event to its restaurant's address |
| MenuService.MenuStatements.UpdateItem | internal/repository/postgres/menu_repo.go:411-475 | each column the patch names gets its value and each other keeps its own; constraint failures change nothing |
| MenuService.MenuService.CreateCategory | internal/service/menu_service.go:37-57 | exactly the sequential call, after the check that the restaurant exists: a taken name is a conflict |
| MenuService.MenuService.UpdateCategory | internal/service/menu_service.go:60-69 | exactly the sequential call: category ownership, then the rename, or nothing when no name is given |
| MenuService.MenuService.CreateItem | internal/service/menu_service.go:80-112 | exactly the sequential call, after the check that the restaurant exists: validation, category ownership, insert |
| MenuService.MenuService.UpdateItem | internal/service/menu_service.go:151-165 | exactly the sequential call: dish ownership, category ownership, update |
| MenuService.MenuService.DeleteItem | internal/service/menu_service.go:168-173 | exactly the sequential call: a dish on any receipt stays |
| MenuService.MenuService.DeleteCategory | internal/service/menu_service.go:72-77 | exactly the sequential call: a category with dishes stays |
| MenuService.MenuService.GetFullMenu | internal/service/menu_service.go:116-148 | a nil restaurant is invalid and an unknown one not found; otherwise a section for each of its categories, holding every dish of that category, or every available one, exactly once, and no dish of the restaurant is missing |
| Like.AcceptsIsMatches | internal/repository/postgres/menu_repo.go:363-373 | the backtracking matcher accepts exactly the texts that section 8.5 of ISO/IEC 9075-2 lets match: those that can be cut into one fitting substring per specifier |
| Like.UnescapeEscaped | internal/repository/postgres/restaurant_repo.go:129-131 | removing the escapes gives the search text back |
| Like.PatternTokens | internal/repository/postgres/restaurant_repo.go:133-142 | every built pattern is valid, without a dangling escape, and reads as: anything, the search text literally, anything |
| Like.LiteralSearch | internal/repository/postgres/restaurant_repo.go:133-142 | for every search and text, LIKE with the built pattern accepts exactly the texts that contain the search |
| Like.FoldedSearch | internal/repository/postgres/menu_repo.go:363-373 | the same under any per-character case fold that keeps the metacharacters apart |
| Search.SearchesAgree | internal/repository/inmem/inmem.go:343-352 | the in-memory filter and the SQL condition select the same dishes, as long as the restaurant is active; of an inactive restaurant the SQL condition selects none |
| Search.ResultUnique | internal/repository/inmem/inmem.go:357-362 | sorting by name and then unique id makes the result independent of the order the map was walked in |
| Search.PageUnique | internal/repository/inmem/inmem.go:357-370 | nor does any page of it |
| Search.PagesJoin | internal/repository/inmem/inmem.go:364-370 | consecutive pages of any positive limit, put together, are the whole result |
| Search.ResultShows | internal/repository/inmem/inmem.go:339-362 | a result holds exactly the available dishes with the search text in their name or description, character by character up to case; names ascend at their first differing character, identifiers among equal names |
| Search.PageShows | internal/repository/inmem/inmem.go:364-371 | a page is the stretch of the result from its offset on, cut after a positive limit |
| Search.MemoryMenu.SearchItems | internal/repository/inmem/inmem.go:339-371 | filter, sort and cut give the requested page of the unique sorted result |
| Catalogue.GetFullMenu | internal/service/menu_service.go:135-145 | the in-place grouping keeps category order and gives each category exactly the dishes with its id, in input order |
| Catalogue.HavingInOrder | internal/service/menu_service.go:141-145 | the dishes of a group keep the order in which they were listed |
| Catalogue.GroupsKeepAll | internal/service/menu_service.go:135-145 | grouping keeps every row if and only if every row's key has a group |
| Catalogue.NoDishLost | migrations/000001_init.up.sql:40-43 | under the composite foreign key, a menu grouped from one snapshot loses no dish |
| TwoReads.KeptWhenRead | internal/service/menu_service.go:125-145 | categories read at one state of a run and dishes at a later one: the menu keeps every dish it read, if and only if each has its category among those of the earlier state |
| TwoReads.LostIsNew | internal/service/menu_service.go:125-145 | a dish the menu loses is in a category whose addition was committed between the two reads, so without one no dish is lost |
| TwoReads.DishLost | internal/service/menu_service.go:125-145 | a run in which the menu loses a dish |
| Catalogue.LoadItems | internal/repository/postgres/order_repo.go:221-260 | the batched load gives each listed order the rows with its id |
| Catalogue.BatchLoadsTheSame | internal/repository/postgres/order_repo.go:221-260 | whatever the row order, each order gets the same multiset of lines as when loaded alone |
| Retry.RetrySafety | cmd/partner-restaurant/main.go:163-215 | with requests and replies lost, delayed or duplicated, permanent answers from anywhere and others moving the order, the statuses one lifecycle gets applied are a prefix of accepted, cooking, ready, after at most nine requests |
| Retry.KitchenIsService | internal/service/order_service.go:191-203 | the kitchen of that protocol accepts and refuses exactly as the order service does |
| Simulator.SimulatorSafety | cmd/partner-restaurant/main.go:163-253 | the same against the order service itself: each delivery is one of the concurrent machine's transactions among all the others, rolled back or committed at any point; a lifecycle that reports three stages done has had all three committed |
| Partner.PartnerServer.UpdateOrderStatusWithRetry | cmd/partner-restaurant/main.go:191-215 | succeeds if and only if one of at most three requests does, each failure before it being transient and followed by its whole back-off; sends exactly the requests up to the deciding one; gives up only on a permanent refusal, a cancellation, or the third transient failure; and takes the client automaton's steps for the stage |
| Partner.PartnerServer.SimulateCookingLifecycle | cmd/partner-restaurant/main.go:163-187 | the number of stages it reports is the number that pass, one after the other, and no more could; it sends exactly their requests, and the failing stage's; and takes the automaton's steps to its end |
| Partner.CompletesExactly | cmd/partner-restaurant/main.go:163-215 | a lifecycle completes all three stages if and only if each one's timer fires and one of its three requests succeeds after transient failures |
| Partner.LifecycleRequests | cmd/partner-restaurant/main.go:163-215 | every lifecycle ends, sends at most nine requests and never asks for an earlier stage again |
| Partner.SameClient | cmd/partner-restaurant/main.go:191-215 | the loops and the client of the composed protocol take the same steps and send the same requests |
| Partner.PartnerServer.Remember | cmd/partner-restaurant/main.go:133-138 | the history holds the latest events received, a thousand at most |
| Partner.PartnerServer.ListEvents | cmd/partner-restaurant/main.go:256-267 | the copy holds the history, event by event |
| Webhook.BoundedDeliveries | internal/service/webhook_client.go:48-108 | in every interleaving of calls, goroutines starting, returning and giving back: filled slots equal starting plus running plus ending deliveries and never exceed the capacity, the accepted calls are the slots given back plus the deliveries in flight, and a call is turned away exactly when the deliveries in flight fill the pool |
| Webhook.CallVerdict | internal/service/webhook_client.go:48-72 | a call with an address, an encodable payload and fewer deliveries in flight than the capacity fills exactly one slot and adds exactly one new delivery; any other changes nothing, and says which of the three was missing |
| Webhook.StartedAreCalled | internal/service/webhook_client.go:64-75 | over every interleaving the deliveries whose goroutine begins are exactly those calls, each once |
| Webhook.HTTPWebhookDispatcher.Dispatch | internal/service/webhook_client.go:48-72 | never waits: ignores an empty URL, refuses when saturated, and otherwise, whenever a slot is free, fills one slot for one new delivery |
| Webhook.HTTPWebhookDispatcher.Deliver | internal/service/webhook_client.go:72-105 | whichever way a delivery goes, it ends with its slot still filled |
| Webhook.HTTPWebhookDispatcher.Release | internal/service/webhook_client.go:73 | the deferred receive empties the slot of one ended delivery, and its receive never waits |

## Left out

- HTTP routing, JSON, authentication, API keys, URL filtering, configuration and logging: no behaviour of the order engine rests on them.
- Creating, updating and listing restaurants: the services read them as fixed rows, and the concurrent machine takes what a call reads of its restaurant as an input, because the code reads it without a lock. The check that a new category's or dish's restaurant exists is proved in `MenuService` only; nothing in the code deletes a restaurant.
- Tables.ApplyKeeps: does not include the CHECKs that a category name, a dish name and an address are not blank, nor the length limits of migrations/000006_text_length_limits.up.sql; the handlers' checks of names and of the sort order are not modelled, and order rows of the model carry neither address nor comment.
- Timestamps: trails are in append order, because created_at defaults to the start of the transaction; ListOrders' sort by created_at is not modelled, only its item load.
- The separate inserts of one order, its lines and its first entry, and the UPDATE and INSERT of one status change, are one step each in the concurrent machine: nobody sees them before commit, and they touch only rows the call already holds.
- Locks on restaurant rows and the key-share locks of an order's insert: nothing updates a restaurant's key, and the dishes of the order are held already. An update that only changes a category's place in the list takes that category's row lock in PostgreSQL and is not a call of the machine.
- Waiting.DeadlockFree: the constraint check of a deletion is taken to wait while any dish of the category is held by a checkout; PostgreSQL stops at the first such dish that it finds, so it may fail without waiting. The rings of `Tangle` do not depend on this.
- The order of a menu's listings, by sort order and name: the listings are taken in some order, each row once, and the grouping keeps it.
- Text that is not valid UTF-8 and the errors PostgreSQL raises for it: texts are sequences of characters.
- Where a transaction's body fails: at its end, as after a failing last read. An earlier failure is the interrupt that the concurrent machine allows at every program counter.
- MenuService.MenuService.UpdateItem: includes the input validation that the HTTP handler performs before the call.
- MenuService.MenuService.UpdateCategory: an update that only moves the category in the list changes no column of the model, since sort order is not one.
- MenuService.MenuService.GetFullMenu: runs alone, so both of its reads see the same tables; `TwoReads` is about its reads in a concurrent run.
- Catalogue.NoDishLost: is about one snapshot; `TwoReads.KeptWhenRead` has the exact condition for the service's two reads.
- Like.FoldedSearch: the case fold works character by character; folds that change the length of a text are not modelled.
- Search.MemoryMenu.SearchItems: the library sort is an insertion into a sorted sequence; only its result matters.
- Partner.PartnerServer.SimulateCookingLifecycle: timers and answers are oracles, an answer being the class of the HTTP status that came back; the goroutine per event and the shutdown of the server are not modelled.
- Simulator.SimulatorSafety: the order exists when the lifecycle begins, as the webhook that starts it is sent after the order's commit; the link from one to the other is not part of the model.
- GetOrderByID and GetByAPIKey, which return one row by its key and change nothing, the in-memory repositories other than the menu search, which stand in for PostgreSQL in unit tests, and the demo seed, a migration of rows.
