# Order allocation: a verified Dafny model

This project models the core of a small order-allocation service. Stock is held in
batches. Each batch has a reference, a SKU, a purchased quantity and an optional
arrival date (ETA). An order line asks for a quantity of one SKU. The service picks
one batch for each line. Batches already in the warehouse (no ETA) come first. After
them come shipments, earliest ETA first. Within that order the first batch that
fits gets the line. Every service call runs inside a unit of work: the call enters
the scope, works on a copy of the store, commits only when it succeeds, and on exit
always rolls back and closes the session.

The modules follow the source files:

- `Models` (`models.dfy`) covers `src/allocation/domain/models.py`.
  - `OrderLine` is a datatype, so equality uses all three fields.
  - `Batch` is a class. Its allocation set is a field, updated in place by `Allocate` and `Deallocate`.
  - `BatchState` is the value of a batch at one moment. The quantities are defined on it from the sum of the allocated quantities.
  - The batch priority order (`__gt__` and the reflected `<`) is here too.
- `Ordering` (`ordering.dfy`) covers the in-place `batches.sort()` of the module-level `allocate`. Python's sort is stable, so its result is the unique stable sort by `<`. `SortOrder` computes that sort as an insertion sort of positions. `SortByPriority` rearranges an array of batches into that order.
- `Uow` (`uow.dfy`) covers `src/allocation/service_layer/unit_of_work.py`.
  - The database is an in-memory stand-in: the committed rows.
  - A session holds the batch objects it loaded. Those objects are the working copy.
  - A repository is bound to one session.
  - `UnitOfWork` records its lifecycle events in a ghost log.
- `Service` (`service.dfy`) covers `src/allocation/service_layer/allocation_service.py`: the module-level `allocate` and `is_valid_sku`, the three domain failures, and `AllocationService`.
- `Schemas` (`schemas.dfy`) covers `src/allocation/domain/schemas.py`: `to_camel` and the quantity validator.
- `Scenarios` (`scenarios.dfy`) holds client code that drives a unit of work the way the integration tests do.
- `Wrappers` (`wrappers.dfy`) holds `Option` and `Result`.

Exceptions are modelled as `Result` failures. `AllocationError` has one case per exception class, and `SchemaError` covers the two errors the schema helpers raise.

The module-level `allocate` sorts the caller's list in place and mutates the chosen batch; `Service.AllocateLine` does the same.

The domain `OrderLine` does not require a positive quantity, so `OrderLine.qty` is any integer; only the schema validator `Schemas.QtyGreaterThanZero` rejects quantities that are not positive.

## Model

| member | source | states |
|---|---|---|
| Models.SumQtyRemove | src/allocation/domain/models.py:82 | the sum of quantities does not depend on the order in which the set is traversed: it is any member's quantity plus the sum of the rest |
| Models.SumQtyAdd | src/allocation/domain/models.py:82 | adding a line not yet in the set adds exactly its quantity to the sum |
| Models.Batch.constructor | src/allocation/domain/models.py:35-40 | a new batch has the given reference, SKU, quantity and ETA, and an empty allocation set |
| Models.Batch.AllocatedQuantity | src/allocation/domain/models.py:74-82 | the loop over the allocation set returns the sum of the quantities of the allocated lines |
| Models.Batch.AvailableQuantity | src/allocation/domain/models.py:84-92 | the available quantity is the purchased quantity minus the allocated sum |
| Models.Batch.CanAllocate | src/allocation/domain/models.py:62-72 | true exactly when the SKUs match and the available quantity is at least the line's quantity |
| Models.Batch.Allocate | src/allocation/domain/models.py:42-50 | the line is added to the set when it fits; otherwise the set is unchanged |
| Models.Batch.Deallocate | src/allocation/domain/models.py:52-60 | the new set is the old set without the line, whether or not it was present |
| Models.Batch.Equals | src/allocation/domain/models.py:94-97 | `__eq__`: only another batch can be equal, compared by reference; `Models.EqualityIsByReference` proves it is an equivalence on batches and false against any non-batch |
| Models.Batch.HashKey | src/allocation/domain/models.py:99-100 | `__hash__` hashes the reference; `Models.EqualityIsByReference` proves equal batches hash alike |
| Models.Batch.GreaterThan | src/allocation/domain/models.py:102-107 | `__gt__` holds only for a batch with an ETA, never against itself, and always against a batch without ETA; `Models.PriorityIsStrictWeakOrder` proves the full case split and the order laws |
| Models.LessThan | src/allocation/domain/models.py:102-107 | the reflected `a < b` the sort uses holds exactly when `b` has an ETA and `a` has none or an earlier one |
| Models.NewBatchHasAllAvailable | src/allocation/domain/models.py:35-40 | a new batch has nothing allocated and all of its purchased quantity available |
| Models.AllocateRejectedChangesNothing | src/allocation/domain/models.py:49-50 | allocating a line that cannot be allocated leaves the batch as it was |
| Models.SkuMismatchNeverAllocates | src/allocation/domain/models.py:72 | a SKU mismatch is rejected whatever the quantities, and the batch is unchanged |
| Models.AllocateReducesAvailable | src/allocation/domain/models.py:49-50 | allocating a new line that fits adds it to the set and lowers the available quantity by exactly its quantity |
| Models.AllocateIsIdempotent | src/allocation/domain/models.py:49-50 | allocating a line already held changes nothing, so allocating twice equals allocating once, sets and quantities alike |
| Models.AllocateKeepsAvailableNonNegative | src/allocation/domain/models.py:49-50 | from a non-negative available quantity, allocation keeps it non-negative |
| Models.DeallocateAbsentChangesNothing | src/allocation/domain/models.py:59-60 | deallocating a line the batch does not hold is a no-op |
| Models.DeallocateRestoresAvailable | src/allocation/domain/models.py:59-60 | deallocating a held line removes only that line and gives back exactly its quantity |
| Models.DeallocateUndoesAllocate | src/allocation/domain/models.py:42-60 | for a line the batch did not hold, deallocating after allocating restores the batch |
| Models.PriorityIsStrictWeakOrder | src/allocation/domain/models.py:102-107 | `>` is false when the left ETA is absent, true when only the left one is present, and compares the dates otherwise; it is irreflexive, asymmetric and transitive; two ETAs are incomparable exactly when equal |
| Models.NoEtaIsMinimal | src/allocation/domain/models.py:102-107 | under the reflected `<`, no batch comes before a batch without ETA, and such a batch comes before every dated batch |
| Models.EqualityIsByReference | src/allocation/domain/models.py:94-100 | two batches are equal exactly when their references are equal; the relation is reflexive and symmetric; equal batches hash alike; a batch never equals a non-batch |
| Ordering.Insert | src/allocation/service_layer/allocation_service.py:118 | inserting a position adds exactly that position to the order |
| Ordering.SortOrder | src/allocation/service_layer/allocation_service.py:118 | the sort order lists every position below `n` exactly once |
| Ordering.PrioritySorted | src/allocation/service_layer/allocation_service.py:118 | the result of `batches.sort()` has the same length and the same batches as the input; `Ordering.PrioritySortedIsStableSort` proves it is sorted and stable |
| Ordering.SortByPriority | src/allocation/service_layer/allocation_service.py:118 | the array afterwards holds the stable priority sort of its old contents |
| Ordering.PrecedesIsStrictTotalOrder | src/allocation/service_layer/allocation_service.py:118 | "earlier ETA, ties broken by input position" is a strict total order on positions |
| Ordering.InsertKeepsSorted | src/allocation/service_layer/allocation_service.py:118 | inserting a later position into a sorted order keeps it sorted |
| Ordering.SortOrderIsSorted | src/allocation/service_layer/allocation_service.py:118 | the sort order is sorted by (ETA priority, input position) |
| Ordering.PermuteInsert | src/allocation/service_layer/allocation_service.py:118 | rearranging by an order with one more position adds exactly that element to the multiset |
| Ordering.SortOrderIsPermutation | src/allocation/service_layer/allocation_service.py:118 | rearranging by the sort order is a permutation of the input |
| Ordering.PrioritySortedIsStableSort | src/allocation/service_layer/allocation_service.py:118 | the sorted list is a permutation of the input; no element is `<` an earlier one; elements with equal ETAs keep their input order |
| Ordering.PriorityFirstHasEarliestEta | src/allocation/service_layer/allocation_service.py:118-123 | no fitting position has an earlier ETA than the priority-first one; the input order only breaks ties between equal ETAs |
| Ordering.PriorityFirstIsUnique | src/allocation/service_layer/allocation_service.py:118-123 | at most one fitting position is first in priority order |
| Ordering.FirstFitInSortedIsPriorityFirst | src/allocation/service_layer/allocation_service.py:118-123 | the first fitting element of the sorted list is the priority-first fitting element of the input |
| Ordering.NoFitInSortedMeansNoFit | src/allocation/service_layer/allocation_service.py:120-125 | when nothing in the sorted list fits, nothing in the input fits |
| Service.AllocationError.Message | src/allocation/service_layer/allocation_service.py:10-42 | each of the three exceptions carries a non-empty message; `InvalidSku` also carries the SKU |
| Service.MessageIdentifiesKind | src/allocation/service_layer/allocation_service.py:10-42 | two failures have the same message exactly when they are of the same kind |
| Service.EtasOfStates | src/allocation/service_layer/allocation_service.py:118 | the sort keys read from the batch values are the sort keys read from the batch objects |
| Service.IsValidSku | src/allocation/service_layer/allocation_service.py:128-139 | true exactly when some batch in the list has the SKU |
| Service.AllocateLine | src/allocation/service_layer/allocation_service.py:105-125 | the list ends up priority-sorted; the result is `None` exactly when no batch fits, and then no batch changes; otherwise the result is the reference of the priority-first fitting batch, that batch now holds the line, and no other batch changes |
| Service.SortedFirstFitIsPriorityFirst | src/allocation/service_layer/allocation_service.py:118-123 | the first fitting batch value of the sorted list is the priority-first fitting value of the input |
| Service.SortedNoFitMeansNoFit | src/allocation/service_layer/allocation_service.py:118-125 | when no sorted batch value fits, no input value fits |
| Service.PrefersWarehouseBatch | src/allocation/service_layer/allocation_service.py:118-123 | a warehouse batch is chosen over a shipment of the same SKU that was registered before it |
| Service.PrefersEarlierBatch | src/allocation/service_layer/allocation_service.py:118-123 | of two fitting shipments the earlier one is chosen, and a batch of another SKU is not |
| Service.FirstFit | src/allocation/service_layer/allocation_service.py:120-125 | the first batch in list order that can take the line receives it and its reference is returned; the result is `None` exactly when none can; only that batch changes |
| Service.AllocateBatches | src/allocation/service_layer/allocation_service.py:73-84 | fails with `NoBatchesAvailable` exactly when the list is empty, with `InvalidSku` exactly when it is non-empty and no batch has the SKU, with `OutOfStock` exactly when some batch has the SKU but none fits; otherwise succeeds with the priority-first fitting batch's reference; no batch changes on failure |
| Service.ChosenRowHasEarliestEta | src/allocation/service_layer/allocation_service.py:118-123 | the priority-first batch value has an ETA no later than that of any batch value that can take the line |
| Service.AllocationService.constructor | src/allocation/service_layer/allocation_service.py:50-51 | the service keeps the unit of work it is given |
| Service.AllocationService.Allocate | src/allocation/service_layer/allocation_service.py:53-88 | the three failures in that precedence, from the committed rows; success exactly when some batch fits; a failure leaves the store unchanged and logs enter, rollback, close; a success commits exactly once (enter, commit, rollback, close), and the store then differs from before only in the priority-first fitting batch, which now holds the line; no fitting batch has an earlier ETA than the chosen one, a fact that does not depend on the order in which the rows are read |
| Service.AllocationService.CommitAndExit | src/allocation/service_layer/allocation_service.py:86-88 | the store receives the allocated working copy, and the log shows one commit followed by the rollback and close of the exit |
| Service.AllocationService.AddBatch | src/allocation/service_layer/allocation_service.py:90-102 | the store gains exactly one new batch with the given fields and no allocations, committed once inside one scope |
| Uow.LoadBatches | src/allocation/service_layer/unit_of_work.py:46 | loading the rows yields distinct new batch objects whose values are the rows |
| Uow.Session.constructor | src/allocation/service_layer/unit_of_work.py:46 | a new session is open and its working copy equals the committed rows |
| Uow.Session.Add | src/allocation/adapters/repository.py:79-80 | adding to an open session starts tracking the batch, once |
| Uow.Session.All | src/allocation/adapters/repository.py:88-89 | on an open session, returns a new array holding every tracked batch |
| Uow.Session.Commit | src/allocation/service_layer/unit_of_work.py:50-51 | on an open session the committed rows become the working copy; a closed session tracks nothing (an invariant of `Uow.Session.Valid`, since only an open session can be added to or reloaded), so committing it leaves the store unchanged |
| Uow.Session.Rollback | src/allocation/service_layer/unit_of_work.py:53-54 | on an open session, the working copy is discarded and reloaded from the committed rows |
| Uow.Session.Close | src/allocation/service_layer/unit_of_work.py:56-58 | the session is closed and tracks nothing, and no later operation of the model puts batches back on it |
| Uow.BatchRepository.constructor | src/allocation/service_layer/unit_of_work.py:47 | the repository is bound to the given session |
| Uow.BatchRepository.Save | src/allocation/adapters/repository.py:79-80 | saving hands the batch to the open session |
| Uow.BatchRepository.FindAll | src/allocation/adapters/repository.py:88-89 | returns every batch the open session tracks |
| Uow.UnitOfWork.constructor | src/allocation/service_layer/unit_of_work.py:41-43 | a new unit of work has no session yet and an empty log |
| Uow.UnitOfWork.Enter | src/allocation/service_layer/unit_of_work.py:45-48 | returns the unit of work itself with a new session and a new repository bound to it; the working copy equals the committed rows |
| Uow.UnitOfWork.Commit | src/allocation/service_layer/unit_of_work.py:50-51 | inside a scope the committed rows become the working copy; after the scope has closed the session, which then tracks nothing, the store is unchanged; either way the commit is logged |
| Uow.UnitOfWork.Rollback | src/allocation/service_layer/unit_of_work.py:53-54 | the committed rows stay; the working copy is reloaded from them |
| Uow.UnitOfWork.Exit | src/allocation/service_layer/unit_of_work.py:56-58 | on the scope's open session, always rolls back and then closes the session; the committed rows are unchanged by the exit |
| Scenarios.AllocateAndCommit | tests/integration/test_uow.py:60-81 | an allocation committed inside the scope is in the store after exit, and nothing else in the store changes |
| Scenarios.SaveWithoutCommit | tests/integration/test_uow.py:83-95 | work left uncommitted is absent from the store after exit |
| Scenarios.SaveThenRaise | tests/integration/test_uow.py:97-118 | when the scope body raises, the error reaches the caller and the store is unchanged |
| Scenarios.CommitAfterExit | src/allocation/service_layer/unit_of_work.py:50-58 | a commit after the scope has closed its session leaves the store as it was, and is logged after the rollback and close |
| Scenarios.CommitThenRollback | src/allocation/service_layer/unit_of_work.py:50-54 | a rollback right after a commit keeps the committed batch, and the working copy equals the store |
| Schemas.DropSeparators | src/allocation/domain/schemas.py:17 | drops exactly the leading run of `_` and `-` |
| Schemas.CollapseSeparators | src/allocation/domain/schemas.py:17 | after the substitution, no `_` or `-` is left |
| Schemas.Title | src/allocation/domain/schemas.py:17 | title-casing keeps the length |
| Schemas.TitleChangesCaseOnly | src/allocation/domain/schemas.py:17 | title-casing changes only letter case: every character keeps its lower case and whether it is a letter, and non-letters are kept as they are |
| Schemas.RemoveSpaces | src/allocation/domain/schemas.py:17 | no space is left, and the text does not grow |
| Schemas.LowerFirst | src/allocation/domain/schemas.py:18 | fails with an index error exactly on empty text; otherwise lowers the first character and keeps the rest |
| Schemas.ToCamel | src/allocation/domain/schemas.py:10-18 | `to_camel` fails only with an index error, and a result is non-empty and no longer than the name; `Schemas.ToCamelIsTitleRule` proves it equals the positional reading |
| Schemas.TitleAt | src/allocation/domain/schemas.py:17 | after the first position, title-casing follows the positional rule whatever came before |
| Schemas.TitleIsPositional | src/allocation/domain/schemas.py:17 | title-casing from the start is the positional rule: a letter after a letter is lowered, any other letter raised |
| Schemas.RemoveSpacesIsStripBlanks | src/allocation/domain/schemas.py:17 | in text with no separators, removing spaces removes every blank |
| Schemas.TitleOverSeparators | src/allocation/domain/schemas.py:17 | a leading separator run contributes nothing after stripping and ends the word before it |
| Schemas.CollapseIsInvisible | src/allocation/domain/schemas.py:17 | collapsing separator runs into spaces changes nothing once blanks are stripped |
| Schemas.ToCamelIsTitleRule | src/allocation/domain/schemas.py:17-18 | `to_camel` equals the positional reading: title rule at every position, all `_`, `-` and spaces dropped, first character lowered |
| Schemas.ToCamelHasNoBlanks | src/allocation/domain/schemas.py:17 | the result contains no `_`, `-` or space |
| Schemas.ToCamelFailsIffAllBlank | src/allocation/domain/schemas.py:18 | `to_camel` fails, with an index error, exactly when the name holds only `_`, `-` and spaces (including the empty name) |
| Schemas.ToCamelKeepsCharacters | src/allocation/domain/schemas.py:17-18 | the result has one character per non-blank character of the name, in the same order, equal to it up to letter case |
| Schemas.TitleAppend | src/allocation/domain/schemas.py:17 | title-casing a concatenation is title-casing each part, the second one read after the first |
| Schemas.BlanksStripToNothing | src/allocation/domain/schemas.py:17 | a run of blanks leaves nothing after title-casing and stripping |
| Schemas.TitleAcrossBlankRun | src/allocation/domain/schemas.py:17 | a non-empty blank run ends the word before it, so the text after it is title-cased as if it stood at the start |
| Schemas.BlankRunSplits | src/allocation/domain/schemas.py:17 | across a non-empty blank run, the two sides are title-cased and stripped independently |
| Schemas.SeparatorRunIsOneBoundary | src/allocation/domain/schemas.py:17 | any non-empty run of `_` and `-` gives the same result as a single `_` |
| Schemas.QtyGreaterThanZero | src/allocation/domain/schemas.py:40-54 | rejects every quantity that is not positive with "Quantity must be greater than zero." and returns a positive quantity unchanged |
| Schemas.ValidatedLineTakesStock | src/allocation/domain/schemas.py:51-54 | a line whose quantity passed validation, newly allocated, strictly lowers the batch's available quantity |

## Left out

- SQLAlchemy is not modelled: the engine, the session factory, the table mappings and the SQL the session runs. An in-memory database of committed batch values stands in for them. A session's tracked batch objects stand in for the identity map.
- Uow.Session.Close: a closed SQLAlchemy session can be used again; querying, adding or rolling back through it starts a new transaction. The model does not cover work done through a unit of work after its scope has exited: adding, querying, reloading and exiting require an open session, which every caller in the service meets because it works only inside the scope. A commit after exit is covered, and finds nothing pending (`Scenarios.CommitAfterExit`).
- Uow.BatchRepository.FindAll: `find_all` runs a query without an ordering, so the database may return the rows in any order. The model returns them in stored order. Among fitting batches with equal ETAs, which one `Service.AllocationService.Allocate` picks therefore depends on that order; its contract also states the fact that does not: no fitting batch has an earlier ETA than the chosen one.
- `find_by_id` and `find_by` of the repository are not modelled. They do not occur in the core, and their `.one()` errors belong to SQLAlchemy.
- Uow.Session.Rollback: a rollback loads new batch objects from the committed rows. SQLAlchemy instead expires the same objects and refreshes them on the next access. The model therefore does not capture that references to objects kept from before a rollback see the reverted state.
- Concurrent allocations are left out. The code has no locking or versioning, and two scopes racing on one batch are a concurrency concern outside a sequential model.
- Calendar dates are modelled as day numbers. Only their order is used.
- Uow.UnitOfWork.Exit: the exception arguments of `__exit__` are not modelled. Exit returns nothing, so an exception raised in the scope propagates; the model shows this as a `Result` failure returned after the exit (`Scenarios.SaveThenRaise`, `Service.AllocationService.Allocate`).
- The FastAPI routers, the dependency providers, the mapping of failures to HTTP status codes, the configuration and the logging are left out. They are plumbing around the core.
- Schemas.ToCamel: only the ASCII letters are cased. Python's `str.title` and `str.lower` also change the case of non-ASCII letters, and the model treats those as uncased characters.
- Schemas.QtyGreaterThanZero: pydantic's coercion of the raw request value to `int` before the validator runs is not modelled.
- The `CamelCaseModel` configuration (using `to_camel` as the alias generator, population by field name) is not modelled. It is pydantic configuration.
- Models.Batch.AllocatedQuantity: the source computes the sum as a pure expression. A compiled function cannot pick an arbitrary element of a set, so `allocated_quantity` is a method loop over the set, proved equal to the ghost sum `SumQty`.
- Ordering.SortByPriority: the result of Python's sort is specified, not its algorithm (Timsort). The method writes the stable sort in place, and the lemmas prove what that result is.
- Integers are unbounded, as they are in Python.
