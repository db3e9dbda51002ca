# Ledgers of the warehouse system: model and proofs

The system cuts board sheets, values what was cut, and loads finished goods into
containers. This project models the parts that keep books and proves what those
books keep over every run. One module follows one component:

| module | component |
|---|---|
| `Common`, `Domain`, `Uuid` | ids, results and errors; rectangles and truncating money; UUID order |
| `Inventory`, `Lineage`, `CutTheorems`, `Ownership`, `Recounts`, `CuttingRules`, `DeclaredLink` | the cutting ledger: clients holding validated cuts, commits under row locks, and every other update of sheets and remnants |
| `Valuation` | the waste report and the money charged for a lineage |
| `InventoryStore` | the inventory service and store on mutable tables |
| `LineTable`, `Delivery`, `Loading`, `LoadingLedger`, `OverloadLog`, `LoadingRules`, `LoadingExamples` | container loading: what each transaction reads and commits, what every run keeps, where quantities go |
| `Locking`, `LockingRules` | the same transactions interleaved lock by lock: serialisability and deadlock freedom |
| `DeliveryStore` | the delivery service and store on mutable tables |
| `LoadingPlans`, `PlanDiff` | plan approval and supersession; the plan diff |
| `Costing`, `CostingRules`, `CostingStore` | computing, finalising and adjusting costing records |
| `LoadingException`, `ExceptionRules`, `LoadingExceptionStore` | closing exceptions one by one and in bulk |
| `CycleCount`, `CycleCountRules`, `CycleCountStore` | counting sessions and their posting |
| `ScanHistory`, `ScanInterleaving`, `ScanRules`, `ScanStore` | barcode checkpoints and quality-control rows |

Two forms stand side by side. A `Store` class holds the tables as fields and runs
each operation statement by statement, loops and rollbacks included; its methods
say that the outcome is that of a function on values. The theorems are about those
functions, over all runs. Fresh UUIDs, the clock, roles and the answers of other
modules (orders, SKUs, work orders, the overflow gate, policies) are arguments.

Where clients interleave, the model has a step per transaction or statement and
keeps what a client read earlier as part of the state: a validated cut
(`Inventory.System`), a delivery transaction with its locks and its view
(`Locking.Sys`), a costing write or a cycle-count operation on its way
(`Costing.Sys`, `CycleCount.Sys`).

What the code does and its documentation does not say, or says otherwise:

- Posting a cycle count sets status and location whatever they were, and no owner
  column. It can put a cut sheet or remnant back into use. The conservation and
  one-shot theorems hold for runs in which no posted count moves an entity across
  the spent boundary; `Lineage.CountKeepsInvIff` says that this is exactly what is
  needed, `CutTheorems.CountCanReopenASheet` shows a failure, and
  `Ownership.CountKeepsOwnersIff` says when owners stay in step. With arbitrary
  counts a source is still cut at most once more than counts put it back
  (`Recounts.CutsAgainstCounts`).
- By `migrations/00037` `cutting_records.produced_remnant_id` is a foreign key that
  is not deferrable, and the record is inserted before the remnant it names. As
  declared, a cut that keeps its leftover is refused: a commit succeeds exactly when
  there is no leftover (`DeclaredLink.CommitsIffNoLeftover`,
  `DeclaredLink.NoLeftoverEverKept`; `DeclaredLink.LeftoverIsRefused` is an input). The lineage theorems are proved without the
  key, which admits more runs, and hold with it
  (`DeclaredLink.LinkedLedgersAreReachable`).
- By `migrations/00067` the overload log refers to its line, so a line added over
  capacity can never be deleted, moved as a whole or wiped
  (`OverloadLog.LoggedLinesStay`). Another plan can be approved for a container
  exactly when its capacity was never overridden
  (`OverloadLog.ApprovedIffNeverOverridden`); `OverloadLog.ForcedLineIsStuck` is a
  run in which both fail.
- Reopen does not take back the `qty_shipped` that Seal booked;
  `LoadingLedger.ReopenedIsTheGap` gives the resulting difference for every run,
  `LoadingExamples.ReopenLeavesShipped` a run in which it is not zero.
- `internal/module/delivery/deps.go:23-26` promises that all lines of an order line
  stay within `qty_planned`; AddLine compares only `qty_shipped` plus the new
  quantity. `LoadingLedger.LoadedWithinPlanIff` says in which runs the promise is
  kept, `LoadingExamples.LinesPassThePlan` shows one in which it is not.
- Seal admits OPEN containers, but an OPEN container never has a line, so the edge
  from OPEN to SEALED never occurs (`Loading.StatusLogReplays`).
- `internal/module/loading_exception/service.go:112-114` says that the carry-over
  line and the approval commit together; the sales module commits on its own.
  `LoadingException.CarryOverLedger` counts what that can leave behind,
  `LoadingException.BackorderedTwice` is such a run.
- Cancelling a count session does not repeat its status check when it writes, so a
  cancellation under way can overwrite POSTED (`CycleCount.PostedForeverIff`,
  `CycleCount.CancelOverwritesPosted`).
- A scan that fails after writing its QC row leaves the row
  (`ScanHistory.QcRowsAreInspectionsIff`, `ScanHistory.QcRowIsLeft`).
- Scans in one instant, or scans that overlap, can break the order of checkpoints.
  For scans one after the other, with any clock, `ScanHistory.LanguageIffTimely`
  says exactly when. For scans that overlap `ScanInterleaving.LanguageIffStands`
  does, whatever their times. A scan's time is read before its insert, so inserts
  need not come in the order of their times; if they do,
  `ScanInterleaving.LanguageIffUndisturbed` is a simpler condition, and
  `ScanInterleaving.LateTimesBreakOrder` shows that it is not enough otherwise.

Beside the runs stand the `...Rules` modules: for each operation, exactly which calls
succeed, with which error the others fail, and what is different afterwards, written
out on the request and the rows and apart from the functions that carry it out.

## Model

| member | source | states |
|---|---|---|
| `Locking.EveryInterleavingIsSerial` | internal/module/delivery/service.go:187-824 | however the lock, read and commit steps of any number of the seven calls interleave, the database equals the committed calls run atomically in commit order, and each of them succeeds there |
| `Locking.CommitsOnFreshViews` | internal/module/delivery/pgstore.go:190-251 | whatever a transaction has read under its locks (rows, sums, grouped quantities, approved plan) still is what the tables hold when it commits |
| `Locking.CommitKeepsReaders` | internal/module/delivery/pgstore.go:190-228 | a commit by one transaction leaves every row and aggregate another open transaction has read as it was |
| `Locking.CapacityUnderInterleaving` | internal/module/delivery/service.go:226-245 | in every reachable interleaved state a container is within capacity or dominated by one overload row: concurrent adds cannot jointly pass the check |
| `Locking.LedgersUnderInterleaving` | internal/module/delivery/service.go:464-575 | the quantity ledger and the shipment accounting hold of every interleaving, with the committed calls as the run |
| `Locking.NoDeadlockCycle` | internal/module/delivery/service.go:393-459 | no reachable state has a cycle in the wait-for graph over container and line rows |
| `Locking.SomeoneCanStep` | internal/module/delivery/service.go:393-459 | while any transaction is open, one of them is not blocked |
| `Locking.AllFinish` | internal/module/delivery/service.go:361-459 | from every reachable state each open transaction takes at most five more steps under any schedule, and a schedule can only stop when none is open |
| `Locking.ArgumentOrderDeadlocks` | internal/module/delivery/service.go:418-429 | without the canonical order two opposite transfers reach a wait cycle in which no transaction can ever step |
| `LockingRules.SoloRunIsCall` | internal/module/delivery/service.go:187-824 | a call that begins and advances with nobody beside it ends within five steps with exactly what the atomic call does |
| `LockingRules.LockFails` | internal/module/delivery/service.go:418-459 | a transaction gives up at a lock, for a missing row or a wrong status, only when the atomic call fails |
| `Uuid.LessIsNumericOrder` | internal/module/delivery/service.go:876-881 | on UUIDs the byte comparison is the numeric order, hence a strict total order in which only equal ids tie |
| `Uuid.OrderIsCanonical` | internal/module/delivery/service.go:873-881 | orderUUIDs gives the same ascending pair whichever way round the caller names the two ids |
| `Loading.CallKeepsInv` | internal/module/delivery/service.go:187-824 | every successful call keeps capacity, life cycle, status log, seal stamps and positive lines of every container |
| `Loading.ExecUntouched` | internal/module/delivery/service.go:393-459 | a call changes no row, line or log entry of a container it did not lock |
| `Loading.CapacityDominated` | internal/module/delivery/service.go:828-850 | in every run a container fits its widened maximum in CBM and weight, or one overload-log row of it dominates both totals |
| `Loading.StatusLogReplays` | internal/module/delivery/pgstore.go:295-346 | in every run the status log of a container is a connected walk from OPEN to its status; the seal stamp is set exactly in SEALED and SHIPPED; sealed containers are non-empty, OPEN ones empty |
| `Loading.SealFreezesContent` | internal/module/delivery/service.go:607-688 | from Seal until Reopen a container keeps its lines, non-empty, its stamp, and a sealed status, whatever else is called |
| `Loading.TerminalForever` | internal/module/delivery/service.go:767-824 | SHIPPED and CANCELLED are terminal: row and lines never change again, not even by Reopen |
| `Loading.TransferLoads` | internal/module/delivery/service.go:464-562 | for any selection of lines, a transfer moves exactly the moved part from source to target |
| `Loading.ApproveKeepsInv` | internal/module/delivery/pgstore.go:647-802 | approving a plan, with or without wiping the lines, keeps everything calls keep |
| `LineTable.TotalTakeOut` | internal/module/delivery/pgstore.go:221-228 | the sums do not depend on the order in which rows are visited |
| `LineTable.LoadSplit` | internal/module/delivery/pgstore.go:221-228 | the sums over two disjoint groups of containers add up |
| `LineTable.ItemsAreGroupedQuantities` | internal/module/delivery/pgstore.go:230-251 | the group of an order line is the quantity the selected rows hold for it, zero when there is no group |
| `LineTable.ItemsCoverLines` | internal/module/delivery/pgstore.go:230-251 | an order line has a group exactly when it has a row |
| `LoadingLedger.QuantityLedger` | internal/module/delivery/service.go:247-575 | over any run and any selection of containers, SKU and order line: now + history + deleted + moved out = before + added + moved in, for pieces, CBM and weight |
| `LoadingLedger.TransfersAudited` | internal/module/delivery/service.go:497-562 | the transfer audit accounts for exactly the pieces moved into and out of any group of containers, per SKU |
| `LoadingLedger.ContainerReconciles` | internal/module/delivery/pgstore.go:675-761 | the pieces of a container can be reconciled from additions, deletions, history and the transfer audit alone |
| `LoadingLedger.TransferConserves` | internal/module/delivery/service.go:464-575 | a full or partial transfer conserves pieces, CBM and weight over any containers that include both ends |
| `LoadingLedger.LinesStayPositive` | internal/module/delivery/service.go:509-526 | in every run each live line has qty > 0 and non-negative CBM and weight |
| `LoadingLedger.BookedIsSealed` | internal/module/delivery/service.go:636-688 | qty_shipped of an order line grows by exactly the grouped quantities of the committed seals |
| `LoadingLedger.ReopenedIsTheGap` | internal/module/delivery/service.go:732-762 | booked minus sealed pieces grows by exactly the pieces on containers when they are reopened |
| `LoadingLedger.BookedEqualsSealedIff` | internal/module/delivery/service.go:636-762 | qty_shipped never falls behind the pieces on SEALED and SHIPPED containers, and equals them if and only if no reopened container held a piece of the line, in particular without Reopen |
| `LoadingLedger.ReopenedTerms` | internal/module/delivery/service.go:732-762 | each reopening leaves a difference of at least zero, and they sum to zero exactly when each of them is zero |
| `LoadingExamples.ReopenLeavesShipped` | internal/module/delivery/service.go:732-762 | a run that seals and reopens one piece: qty_shipped is 1, nothing is on a sealed container |
| `LoadingLedger.NeverOverships` | internal/module/delivery/deps.go:42-57 | no run ships more of an order line than is planned |
| `LoadingLedger.LoadedWithinPlanIff` | internal/module/delivery/deps.go:23-26 | over every run from empty tables, all the lines of an order line stay within its plan after every step if and only if each AddLine of it found room beside the pieces already loaded |
| `LoadingRules.AddAcceptedIff` | internal/module/delivery/service.go:187-312 | AddLine succeeds if and only if the request is well formed, an override comes from an admin, the order line as seen is for the SKU, shippable and has pieces left, the container is OPEN or LOADING, and CBM and weight stay within the widened maximum or an override waives that |
| `LoadingRules.AddRefusals` | internal/module/delivery/service.go:187-258 | each error of AddLine has its exact condition; insufficient capacity exactly when CBM or weight would exceed the widened maximum without an override |
| `LoadingRules.AddEffect` | internal/module/delivery/service.go:260-309 | one line as asked, an overload row with both projected totals if and only if there was no room, an OPEN container LOADING, nothing else |
| `LoadingRules.DeleteOutcome` | internal/module/delivery/service.go:359-380 | exactly which deletes succeed, what they remove, and the condition of each error |
| `LoadingRules.TransferOutcome` | internal/module/delivery/service.go:399-526 | exactly which transfers succeed, and which error the first thing wrong gives: status, planner role, ownership, amounts, room at the target |
| `LoadingRules.TransferEffect` | internal/module/delivery/service.go:464-575 | a part moves as asked and the old line keeps the rest; a whole line moves under a new id; the audit row has the pieces moved; an OPEN target becomes LOADING; nothing else changes |
| `LoadingRules.SealOutcome` | internal/module/delivery/service.go:607-657 | exactly when Seal succeeds: no pending exception, no missing component, OPEN or LOADING, before the cutoff, some line, everything in it still planned to ship; and the error otherwise |
| `LoadingRules.SealEffect` | internal/module/delivery/service.go:646-668 | every order line is shipped more by its pieces in the container; the container is SEALED and stamped with time and actor; a log row; nothing else |
| `LoadingRules.ReopenOutcome` | internal/module/delivery/service.go:732-762 | with a reason a SEALED container becomes LOADING, its stamp cleared; anything else is refused |
| `LoadingRules.ShipOutcome` | internal/module/delivery/service.go:767-793 | a SEALED container becomes SHIPPED; anything else is refused |
| `LoadingRules.CancelOutcome` | internal/module/delivery/service.go:795-824 | an OPEN or LOADING container becomes CANCELLED; anything else is refused |
| `LoadingRules.UploadOutcome` | internal/module/delivery/service.go:900-1010 | a parsed file becomes a PARSED plan unless the container has it in an active plan, does not exist or is past loading |
| `LoadingRules.ApproveOutcome` | internal/module/delivery/service.go:1115-1173 | exactly which approvals succeed: lines are wiped only with consent; and which error the first thing wrong gives |
| `LoadingRules.ApproveEffect` | internal/module/delivery/pgstore.go:675-797 | the plan APPROVED by the caller, the other plans of the container SUPERSEDED by it, its lines gone, one history row for each of them |
| `LoadingRules.CreateOutcome` | internal/module/delivery/service.go:101-135 | a container gets the capacities given, or those of its type |
| `LoadingExamples.LinesPassThePlan` | internal/module/delivery/service.go:215-232 | a run in which two AddLines of one piece succeed although one piece is planned |
| `OverloadLog.LoggedLinesStay` | migrations/00067_container_overload_log.sql:2-6 | in every run each line named in the overload log is still in the container it was added to |
| `OverloadLog.OverrideBlocksNewPlans` | internal/module/delivery/pgstore.go:755-761 | once capacity was overridden in a container, no plan can be approved for it that is not approved already, whoever asks and whatever they confirm |
| `OverloadLog.ApprovedIffNeverOverridden` | internal/module/delivery/pgstore.go:647-802 | in every run an undecided plan of an OPEN or LOADING container is approved, with consent to wipe, if and only if no overload row names its container |
| `OverloadLog.ForcedLineIsStuck` | internal/module/delivery/pgstore.go:265-274 | a run that forces a line in over capacity, after which deleting it and approving the parsed plan both fail |
| `DeliveryStore.Store.AddLine` | internal/module/delivery/service.go:187-339 | the result and the new tables are those of the atomic call; the near-capacity flag is about the load after the call; the rows asked for are a prefix of the lock plan |
| `DeliveryStore.Store.AddLineTx` | internal/module/delivery/service.go:235-312 | the transaction alone: locked row, sums, capacity, insert, overload row, flip to LOADING; nothing changes on an error |
| `DeliveryStore.Store.DeleteLine` | internal/module/delivery/service.go:359-380 | result and new tables are those of the atomic call, including the refusal to delete a line of the overload log; locks in plan order |
| `DeliveryStore.Store.TransferLine` | internal/module/delivery/service.go:399-581 | result and new tables are those of the atomic call, including the rollback of a half-written partial move; locks in plan order |
| `DeliveryStore.Store.LockPair` | internal/module/delivery/service.go:418-440 | both containers are locked in UUID order and come back as source and target |
| `DeliveryStore.Store.MoveLine` | internal/module/delivery/service.go:473-562 | a full move and a split leave the lines as the specification of a transfer says, or report why not |
| `DeliveryStore.Store.Seal` | internal/module/delivery/service.go:607-688 | result and new tables are those of the atomic call: pending exceptions, components, status, cutoff, emptiness and shipment are checked in this order |
| `DeliveryStore.Store.Reopen` | internal/module/delivery/service.go:732-762 | result and new tables are those of the atomic call |
| `DeliveryStore.Store.Ship` | internal/module/delivery/service.go:767-793 | result and new tables are those of the atomic call |
| `DeliveryStore.Store.Cancel` | internal/module/delivery/service.go:795-824 | result and new tables are those of the atomic call |
| `DeliveryStore.Store.CreateContainer` | internal/module/delivery/service.go:101-135 | an unknown type, a missing creator or a taken id is refused, otherwise an OPEN container with the given or default capacities is added |
| `DeliveryStore.Store.UploadLoadingPlan` | internal/module/delivery/service.go:900-1010 | result and new tables are those of the atomic upload of a parsed file |
| `DeliveryStore.Store.UpdateContainerStatus` | internal/module/delivery/pgstore.go:295-346 | status, seal stamp and log row change together and nothing else does |
| `DeliveryStore.Store.UpdateLineQty` | internal/module/delivery/pgstore.go:276-293 | a quantity that is not positive is refused, a missing row is reported, otherwise just that row changes |
| `DeliveryStore.Store.RemoveLine` | internal/module/delivery/pgstore.go:265-274 | a missing row is reported, a row the overload log refers to is refused, otherwise it is deleted |
| `DeliveryStore.Store.CopyLines` | internal/module/delivery/pgstore.go:684-753 | the loop copies every live line of the container once |
| `DeliveryStore.Store.Supersede` | internal/module/delivery/pgstore.go:647-802 | a missing, superseded or approved plan changes nothing; otherwise the live lines move to the history, the other active plans become SUPERSEDED by this one, and the number of wiped lines is reported; a line of the overload log makes it all fail |
| `DeliveryStore.Store.ApproveOnly` | internal/module/delivery/pgstore.go:571-641 | approving an approved plan changes nothing, a missing or superseded one is refused, otherwise it is promoted |
| `DeliveryStore.Store.ApproveLoadingPlan` | internal/module/delivery/service.go:1115-1173 | result and new tables are those of the atomic approval |
| `LoadingPlans.OneLivePlan` | internal/module/delivery/pgstore.go:600-632 | in every run of uploads, approvals and calls a container has at most one APPROVED plan |
| `LoadingPlans.WalksDoNotCycle` | internal/module/delivery/pgstore.go:600-612 | following superseded_by never leaves the container and never meets a plan twice |
| `LoadingPlans.ChainEndsAtLivePlan` | internal/module/delivery/pgstore.go:763-797 | from every SUPERSEDED plan the chain ends at the one APPROVED plan of its container |
| `LoadingPlans.SupersededForever` | internal/module/delivery/pgstore.go:589-598 | a SUPERSEDED row never changes again |
| `LoadingPlans.ApprovedStaysOrRetires` | internal/module/delivery/pgstore.go:589-632 | a plan that was APPROVED is APPROVED or SUPERSEDED ever after |
| `LoadingPlans.PromoteKeeps` | internal/module/delivery/pgstore.go:600-632 | promoting a plan keeps: at most one live plan, links to later approvals in the same container, a live plan wherever one was ever approved |
| `LoadingPlans.OneActivePlanPerFile` | internal/module/delivery/service.go:925-935 | in every run no container has two active plans from the same file |
| `PlanDiff.LastRowWins` | internal/module/delivery/service.go:1082-1088 | the row kept for a SKU is the last one of the plan with that SKU |
| `PlanDiff.CollectBySku` | internal/module/delivery/service.go:1082-1088 | the loop builds exactly the by-SKU map |
| `PlanDiff.DiffMaps` | internal/module/delivery/service.go:1092-1111 | whatever order the maps are visited in, Added, Removed and Changed hold exactly the rows they should, each once |
| `PlanDiff.DiffLoadingPlans` | internal/module/delivery/service.go:1062-1113 | which error is reported when, and otherwise the diff of the two plans |
| `PlanDiff.DiffRoundTrip` | internal/module/delivery/service.go:1082-1111 | applying the diff to the old SKU quantities gives the new ones |
| `PlanDiff.DiffListsAreDisjoint` | internal/module/delivery/service.go:1092-1111 | each SKU is on the list that says what happened to it and on no other |
| `CutTheorems.NoDoubleCut` | internal/module/inventory/pgstore.go:851-944 | in every reachable ledger two different cutting records have different sources, however many clients hold a validated cut |
| `CutTheorems.IssuedIffCut` | internal/module/inventory/pgstore.go:851-880 | a sheet is ISSUED if and only if a cutting record of it exists |
| `CutTheorems.ConsumedIffCut` | internal/module/inventory/pgstore.go:881-944 | a remnant is CONSUMED if and only if a cutting record of it exists |
| `CutTheorems.LateCommitIsRefused` | internal/module/inventory/pgstore.go:836-880 | a validated cut whose source was cut meanwhile is refused with the precondition error |
| `CutTheorems.AreaConserved` | internal/module/inventory/service.go:252-294 | in every reachable ledger the area of a cut sheet is what its cuts used and wasted plus its one live remnant; no waste is negative |
| `CutTheorems.LineageShape` | internal/module/inventory/service.go:388-407 | every remnant fits its parent and its root sheet on both axes, is strictly smaller than both, and has the same board and material |
| `CutTheorems.OneParentChain` | internal/module/inventory/service.go:388-407 | the remnants of a sheet form one finite parent chain without forks |
| `CutTheorems.CutsAreBounded` | internal/domain/dimension.go:11-25 | a sheet is cut at most as often as it has square millimetres |
| `CutTheorems.CountCanReopenASheet` | internal/module/inventory/pgstore.go:1563-1642 | a run of receiving, QC, validated cuts and one posted count in which a sheet is cut twice and charged 200 of its 100 square millimetres; without the count it is cut once |
| `Lineage.PreparedIsOK` | internal/module/inventory/service.go:203-407 | a cut that passes validation agrees with the immutable part of its source: areas, fit, board, parent, material |
| `Lineage.CommitExtendsChain` | internal/module/inventory/pgstore.go:836-950 | a cut that commits extends the chain of its root sheet by one link whose source is the uncut sheet or the last leftover |
| `Lineage.CommitFrame` | internal/module/inventory/pgstore.go:836-950 | a commit spends one unspent source, adds its record and at most its leftover, and leaves the rest of the ledger as it is |
| `Lineage.LedgerStepFrame` | internal/module/inventory/pgstore.go:955-1140 | allocate, waste, release, expire, receive, QC pass, reject and pre-assign neither spend nor revive a source, nor move or resize anything |
| `Lineage.NextKeepsInv` | internal/module/inventory/pgstore.go:836-1140 | every step of every client keeps the chain of every sheet and the validity of every pending cut |
| `Lineage.CountKeepsInvIff` | internal/module/inventory/pgstore.go:1596-1614 | a posted adjustment keeps the invariant if and only if it does not move its entity across the spent boundary |
| `Recounts.CutsAgainstCounts` | internal/module/inventory/pgstore.go:1596-1614 | over every run, counts included: the records of a source and the counts that retired it are as many as the counts that revived it, plus one if it is spent; so it is cut at most once more than counts put it back |
| `CuttingRules.PrepareOutcome` | internal/module/inventory/service.go:203-345 | exactly which inputs RecordCut validates, and which error the first thing wrong gives: source, sizes, fit, area, box |
| `CuttingRules.PreparedWrite` | internal/module/inventory/service.go:346-407 | a leftover is kept if and only if one was given and it meets every enabled threshold on its axis; record and leftover carry the given sizes, box, parents and material |
| `CuttingRules.RemnantsMeetThePolicy` | internal/module/inventory/service.go:346-357 | if every cut of a run is validated under thresholds of at least so much, every remnant of the ledger is at least so long and wide |
| `CuttingRules.CommitOutcome` | internal/module/inventory/pgstore.go:836-920 | a commit succeeds if and only if its source is still usable and its ids are fresh; otherwise the error says what was wrong |
| `CuttingRules.CommitEffect` | internal/module/inventory/pgstore.go:871-944 | the sheet is ISSUED to the work order or the remnant CONSUMED and released, the record and the leftover are added, nothing else changes |
| `CuttingRules.AllocateOutcome` | internal/module/inventory/pgstore.go:955-999 | an AVAILABLE remnant becomes ALLOCATED with owner and time; anything else is refused |
| `CuttingRules.WasteOutcome` | internal/module/inventory/pgstore.go:1005-1051 | an AVAILABLE or ALLOCATED remnant becomes WASTE without owner; anything else is refused |
| `CuttingRules.SweepsEffect` | internal/module/inventory/pgstore.go:1060-1140 | a release frees exactly the remnants ALLOCATED since before the deadline, an expiry exactly the AVAILABLE ones created before the cutoff |
| `CuttingRules.ReceiveOutcome` | internal/module/inventory/service.go:68-107 | so many new sheets wait for inspection, one per id, or none is added |
| `CuttingRules.InspectionEffect` | internal/module/inventory/pgstore.go:1654-1674 | exactly the waiting sheets of the lot come into stock |
| `CuttingRules.RejectOutcome` | internal/module/inventory/pgstore.go:1676-1740 | chosen waiting sheets of the lot are rejected together, or none is |
| `CuttingRules.PreAssignOutcome` | internal/module/inventory/pgstore.go:402-434 | a sheet in stock is marked for the work order; anything else is refused |
| `Ownership.OwnersInEveryRun` | internal/module/inventory/pgstore.go:836-1071 | in every run without posted counts a remnant has an owner exactly while ALLOCATED, and a cut sheet is issued to the work order of its cutting record |
| `Ownership.CountKeepsOwnersIff` | internal/module/inventory/pgstore.go:1596-1614 | a posted adjustment keeps the owner columns in step if and only if it does not move a remnant into or out of ALLOCATED, nor a cut sheet out of ISSUED |
| `Ownership.ReleaseLeavesNoneExpired` | internal/module/inventory/pgstore.go:1060-1071 | after the release no remnant is held since before the deadline, in every run without posted counts |
| `DeclaredLink.CommitsIffNoLeftover` | migrations/00037_add_produced_remnant_id_to_cutting_records.sql:7-8 | with the foreign key as declared a validated cut commits if and only if it would without and keeps no leftover, and then does the same |
| `DeclaredLink.LeftoverIsRefused` | internal/module/inventory/pgstore.go:904-944 | a cut of half a sheet that passes its checks and would commit without the key, refused with it |
| `DeclaredLink.NoLeftoverEverKept` | internal/module/inventory/pgstore.go:904-944 | with the foreign key as declared no run ever keeps a leftover |
| `DeclaredLink.LinkedLedgersAreReachable` | internal/module/inventory/pgstore.go:836-950 | every ledger reached with the foreign key is one of the reachable ledgers, so their theorems hold of it |
| `InventoryStore.Store.MakeSheets` | internal/module/inventory/service.go:82-98 | the loop makes one pending sheet per id |
| `InventoryStore.Store.ReceiveStock` | internal/module/inventory/service.go:68-107 | bad input or a taken id refuses the whole batch, otherwise exactly the new sheets are added |
| `InventoryStore.Store.BuildCut` | internal/module/inventory/service.go:203-407 | the step-by-step validation yields the specified write or the specified error |
| `InventoryStore.Store.RecordCutAtomically` | internal/module/inventory/pgstore.go:836-950 | the statements under the lock amount to the atomic commit, or to no change; with or without the foreign key on produced_remnant_id |
| `InventoryStore.Store.RecordCut` | internal/module/inventory/service.go:203-441 | validation and commit in sequence, with the produced remnant id as result; with the foreign key on produced_remnant_id in force a kept leftover is refused |
| `InventoryStore.Store.AllocateRemnant` | internal/module/inventory/pgstore.go:955-999 | an AVAILABLE remnant becomes ALLOCATED to the work order; otherwise the error says why and nothing changes |
| `InventoryStore.Store.MarkRemnantWaste` | internal/module/inventory/pgstore.go:1005-1051 | an AVAILABLE or ALLOCATED remnant becomes WASTE; otherwise the error says why and nothing changes |
| `Domain.TruncatesTowardZero` | internal/domain/money.go:17-25 | the quotient of Scale leaves a remainder smaller than the divisor and of the sign of the dividend |
| `Valuation.ReportAgreesWithLink` | internal/module/costing/pgstore.go:254-297 | for every cut the report finds exactly the remnant of produced_remnant_id, the true root sheet and the true waste, and its clamp never fires |
| `Valuation.LineageCostBounded` | internal/module/costing/pgstore.go:291-315 | the material cost of the direct cut plus the report's waste cost of all cuts of a sheet never exceeds the sheet cost in magnitude |
| `Valuation.TruncationLossBounded` | internal/domain/money.go:17-25 | charging all used, wasted and live areas of n cuts loses at least 0 and fewer than 2n + 1 units |
| `Valuation.ChargesWithinCost` | internal/module/costing/service.go:72-79 | charging parts of a sheet by the truncating formula never exceeds its cost, and loses less than one unit a part when the parts fill it |
| `Costing.EveryInterleavingIsSerial` | internal/module/costing/service.go:53-244 | with any number of calls between their read and their write, the tables are those of the committed calls made one after the other, each of which succeeds |
| `Costing.FinalizedIsFrozen` | internal/module/costing/pgstore.go:45-69 | a finalised record never changes, even by a computation that read it before it was finalised |
| `Costing.RefusedByRaceIff` | internal/module/costing/service.go:134-168 | in every interleaved run a late write is refused although the call would succeed now if and only if it is a first computation and another one was written in between |
| `Costing.RaceHappens` | internal/module/costing/service.go:134-168 | a run in which that happens |
| `Costing.RowsAlwaysOK` | internal/module/costing/service.go:187-217 | in every interleaved run totals are the sums of their parts, no ACTUAL record is zero, and adjustments are non-zero and belong to finalised records only |
| `Costing.EffectiveTotals` | internal/module/costing/service.go:272-304 | in every interleaved run the effective total is effective material + auxiliary + labor, and a record that is not finalised has its own amounts |
| `Costing.EffectiveAddsUp` | internal/module/costing/service.go:285-294 | for any list of adjustments whose totals add up, the effective total adds up |
| `CostingRules.MaterialIsSumOfShares` | internal/module/costing/service.go:71-79 | the material cost is the sum over the sheets of cost times used over whole area, each rounded down, and lies between nothing and the cost of the sheets |
| `CostingRules.MaterialIsDirectCharge` | cmd/server/main.go:669-692 | for the cuts joined to a sheet it is the direct charge of the lineage |
| `CostingRules.StoredCostBounded` | internal/module/costing/pgstore.go:291-315 | what ComputeCost stores for the cuts of a sheet plus the waste report over its lineage never exceeds the sheet cost |
| `CostingRules.ComputeOutcome` | internal/module/costing/service.go:53-168 | exactly which computations succeed, and which error the first thing wrong gives |
| `CostingRules.ComputeEffect` | internal/module/costing/service.go:114-168 | one record with the computed costs and their total, estimated for a PLANNED work order; an earlier record keeps id and creation time |
| `CostingRules.FinalizeOutcome` | internal/module/costing/pgstore.go:179-208 | an open record gets the actor as finaliser; anything else is refused |
| `CostingRules.AdjustOutcome` | internal/module/costing/service.go:187-217 | a finalised record gets an adjustment with the given deltas and their total; anything else is refused |
| `CostingRules.EffectiveIsSum` | internal/module/costing/service.go:285-294 | each effective amount is the amount of the record plus the sum of the deltas |
| `CostingRules.AdjustmentsOfAre` | internal/module/costing/pgstore.go:381-400 | the adjustments of a record are all of its rows and no others |
| `CostingStore.Store.Material` | internal/module/costing/service.go:71-79 | the loop sums the truncated shares and skips sheets without an area |
| `CostingStore.Store.ComputeCost` | internal/module/costing/service.go:53-168 | record or error, and the new tables, are those of the atomic call |
| `CostingStore.Store.UpdateCostingRecord` | internal/module/costing/pgstore.go:45-69 | an absent or finalised record is refused, otherwise only the computed columns change |
| `CostingStore.Store.FinalizeCost` | internal/module/costing/pgstore.go:179-208 | an open record is finalised, a finalised or absent one is reported as such |
| `CostingStore.Store.CreateAdjustment` | internal/module/costing/service.go:187-217 | error and new tables are those of the atomic call |
| `CostingStore.Store.GetCostingRecordDetail` | internal/module/costing/service.go:272-304 | the record, its adjustments in order, and the folded effective amounts |
| `LoadingException.BulkLaw` | internal/module/loading_exception/service.go:296-313 | for any ids, with duplicates, missing and closed ones: Approved is the winners in input order, exactly their rows are closed as specified, and both lists together are as long as the input |
| `LoadingException.WinnersAreFirstOccurrences` | internal/module/loading_exception/service.go:296-313 | when every transaction commits, an id is approved if and only if it was pending at the start and this is its first occurrence |
| `LoadingException.WinnersDistinct` | internal/module/loading_exception/service.go:296-313 | no id is approved twice in one bulk call |
| `LoadingException.FailureCodes` | internal/module/loading_exception/service.go:296-313 | the whole Failed list: exactly the refused positions in input order, each with its code; every position is on one of the two lists |
| `LoadingException.PendingDropsByApproved` | internal/module/loading_exception/pgstore.go:267-289 | the pending set and count of each container drop by exactly the approved ids |
| `LoadingException.ClosedAtMostOnce` | internal/module/loading_exception/pgstore.go:320-363 | no exception is closed twice in any run |
| `LoadingException.ClosedForever` | internal/module/loading_exception/pgstore.go:320-363 | a closed row never changes again |
| `LoadingException.ConstraintsNeverFire` | internal/module/loading_exception/service.go:143-187 | in every run backorders name their order line and substitutions their SKU, nothing else does, and pending rows are bare |
| `LoadingException.CarryOverLedger` | internal/module/loading_exception/service.go:144-172 | the order lines made for an exception are one if it is closed as a backorder, plus one for each approval lost before its commit |
| `LoadingException.BackorderedTwice` | internal/module/loading_exception/service.go:144-200 | a run in which an exception is closed once and two order lines are made for it |
| `ExceptionRules.ApproveError` | internal/module/loading_exception/service.go:115-187 | the exact condition of each error of an approval, resolution by resolution |
| `ExceptionRules.ApproveEffect` | internal/module/loading_exception/service.go:133-200 | the row is closed by the caller with resolution, notes, order line or SKU; a backorder makes one line for the missing pieces |
| `ExceptionRules.FailedApproval` | internal/module/loading_exception/service.go:144-187 | a failed approval changes no row, and leaves an order line exactly when it was lost after making one |
| `ExceptionRules.RejectOutcome` | internal/module/loading_exception/service.go:219-254 | exactly which rejections succeed and what they leave |
| `ExceptionRules.CreateOutcome` | internal/module/loading_exception/service.go:44-81 | exactly which exceptions are raised and with what row |
| `ExceptionRules.CarryOversAreForMissing` | internal/module/loading_exception/service.go:144-172 | in every run each order line made for an exception is for as many pieces as it says are missing, and a backordered exception names one made for it |
| `LoadingExceptionStore.Store.CreateOne` | internal/module/loading_exception/service.go:44-81 | tables and error are those of the specified creation, the SKU lookup last |
| `LoadingExceptionStore.Store.ApproveOne` | internal/module/loading_exception/service.go:115-200 | tables and error are those of the specified approval, carry-over included |
| `LoadingExceptionStore.Store.RejectOne` | internal/module/loading_exception/service.go:219-254 | tables and error are those of the specified rejection |
| `LoadingExceptionStore.Store.BulkApprove` | internal/module/loading_exception/service.go:270-314 | 1 to 50 ids and a resolution that needs no more than an id; then the loop gives the specified lists and tables |
| `LoadingExceptionStore.Store.PendingForContainer` | internal/module/loading_exception/pgstore.go:267-289 | exactly the pending ids of the container, oldest first, with their count |
| `LoadingExceptionStore.Store.GuardedUpdate` | internal/module/loading_exception/pgstore.go:320-363 | the update hits a pending row or reports an invalid transition |
| `CycleCount.PostLaw` | internal/module/inventory/service.go:924-998 | after posting every counted row has its counted status and location, every other row is unchanged, and the session is POSTED |
| `CycleCount.AuditReplays` | internal/module/inventory/pgstore.go:1594-1626 | the audit rows of a posting, in any order, lead from the old stock to the new, and undone in any order back again |
| `CycleCount.PostedAtMostOnce` | internal/module/inventory/pgstore.go:1574-1592 | in any interleaving a session is posted at most once and is not open afterwards |
| `CycleCount.LatePostIff` | internal/module/inventory/pgstore.go:1594-1614 | when stock moves or lines arrive between read and write, a counted row ends where it was counted if and only if the posting adjusts it or it is there already |
| `CycleCount.PostedForeverIff` | internal/module/inventory/service.go:1000-1009 | a posted session stays posted whatever happens later if and only if no cancellation of it is under way |
| `CycleCount.CancelOverwritesPosted` | internal/module/inventory/pgstore.go:1502-1516 | a run in which a session is posted and ends CANCELLED |
| `CycleCount.ReplayAnyOrder` | internal/module/inventory/pgstore.go:1594-1614 | unambiguous changes give the same stock in whatever order and however often they are applied |
| `CycleCountRules.LineOutcome` | internal/module/inventory/service.go:858-906 | exactly which lines pass the checks, and which error the first thing wrong gives |
| `CycleCountRules.InsertOutcome` | internal/module/inventory/pgstore.go:1518-1533 | an entity is counted at most once in a session |
| `CycleCountRules.PostOutcome` | internal/module/inventory/service.go:924-960 | a posting is refused exactly for a session that is missing or not open, or when a counted row is gone |
| `CycleCountRules.AuditNames` | internal/module/inventory/service.go:966-991 | one audit row for each line that disagrees, naming session, actor, and the place before and after |
| `CycleCountStore.Store.AddCycleCountLine` | internal/module/inventory/service.go:858-918 | the checks in order, then one line unless the entity is already counted in the session |
| `CycleCountStore.Store.CollectAdjustments` | internal/module/inventory/service.go:938-991 | the loop yields an adjustment for exactly the lines that disagree with their row |
| `CycleCountStore.Store.ApplyAdjustments` | internal/module/inventory/pgstore.go:1594-1626 | the loop applies every adjustment and appends its audit row |
| `CycleCountStore.Store.PostCycleCount` | internal/module/inventory/service.go:924-998 | error and new tables are those of the specified posting |
| `ScanHistory.ChainIffLanguage` | internal/module/barcode/scan_rules.go:5-24 | a history obeys the step rule if and only if it is a prefix of CNC_COMPLETE QC_FAILED* QC_PASSED FINISHED_GOODS SHIPPED |
| `ScanHistory.HistoriesAreInLanguage` | internal/module/barcode/service.go:249-334 | over any run with increasing scan times each barcode's history is in that language, whatever fails after the inserts |
| `ScanHistory.EveryWordHappens` | internal/module/barcode/service.go:249-334 | every history the step rule allows is recorded by some run |
| `ScanHistory.LanguageIffTimely` | internal/module/barcode/pgstore.go:218-232 | over any run, clock or no clock: a history is in the language if and only if each scan that ends or follows the inspections and has a successor was recorded later, by time and then id, than all before it |
| `ScanInterleaving.LanguageIffStands` | internal/module/barcode/service.go:281-316 | with scans that overlap and any times at all: a history is in the language if and only if at each insert the checkpoint the query had found is still the one recorded last, or both belong to the inspections |
| `ScanInterleaving.LanguageIffUndisturbed` | internal/module/barcode/service.go:281-316 | with scans that overlap, provided they are inserted in the order of their times: a history is in the language if and only if between check and insert of each of its scans nothing but failed inspections of the barcode came in |
| `ScanInterleaving.PassedTwice` | internal/module/barcode/service.go:281-316 | a run in which two overlapping scans both record QC_PASSED |
| `ScanInterleaving.LateTimesBreakOrder` | internal/module/barcode/service.go:293-306 | a run whose inserts are out of the order of their times: nothing but a failed inspection comes in between, yet QC_PASSED is recorded twice |
| `ScanHistory.NextIsAllowed` | internal/module/barcode/service.go:104-121 | a reported next checkpoint is accepted by the rule, and none is reported exactly when the rule accepts none |
| `ScanHistory.GuardIsSoundIff` | internal/module/barcode/pgstore.go:218-232 | at any one state, every scan the guard lets through continues the language if and only if the row the query finds allows no more than the row recorded last |
| `ScanHistory.SameInstantBreaksLanguage` | internal/module/barcode/pgstore.go:218-232 | two scans at one time: the same checkpoint is recorded twice |
| `ScanHistory.QcRowsAreInspectionsIff` | internal/module/barcode/service.go:318-342 | the QC rows contain the inspections of the successful scans in order, and are exactly those if and only if no scan failed after writing its row |
| `ScanHistory.QcRowIsLeft` | internal/module/barcode/service.go:318-342 | a run in which a scan reports an error and its QC row stays |
| `ScanRules.ScanAccepted` | internal/module/barcode/service.go:249-309 | a scan records its event if and only if nothing on a list is wrong, the work order being IN_CUTTING for CNC_COMPLETE, COMPLETED for SHIPPED and IN_PROCESSING else; otherwise it changes nothing and the first wrong thing is the error |
| `ScanRules.ScanEffect` | internal/module/barcode/service.go:311-394 | which QC row a recorded scan writes, how it fails afterwards, and which next checkpoint it reports |
| `ScanStore.Store.Record` | internal/module/barcode/service.go:249-394 | tables and result are those of the specified scan, statement by statement without rollback |

## Left out

- Currency tags, float rounding, NUMERIC scale and 64-bit overflow: amounts and areas are integers, CBM and weight reals.
- The overflow gate GREEN/RED: an argument of RecordCut, because it is read before the commit and guarantees nothing under concurrency.
- `ApproveLoadingPlan` between the steps of other calls: it does not lock the container row, so it is one atomic step; inside `Locking` plans do not change.
- Creating containers and uploading plans between lock steps: they are atomic steps of `Delivery.Run` only.
- Row locks taken inside the sales module by the shipment bump: only its contract is used.
- Foreign keys other than the two named above: not modelled, so the model admits more runs than the database. `fg_pool.container_line_id` (`migrations/00052`) belongs to the finished-goods hooks, which are left out.
- Who, when and why columns of lines, plans and audit rows, and best-effort audit, notification and finished-goods hooks: their failures are ignored by design.
- `Lineage.LedgerStepFrame`: the sheets RejectLot picks are any pending sheets of the lot; the order of its query is not modelled.
- `Valuation.LineageCostBounded`: grouping by material, average sheet cost and the scrap revenue offset of the report are not modelled.
- `DeliveryStore.Store.CopyLines`: the history rows are in id order; the query itself promises none.
- `Locking.AllFinish`: clients that never answer or lose their connection are aborts; a client that holds its locks forever is not a schedule.
- `Costing.EveryInterleavingIsSerial`: the reads of cutting, consumption and labor data are arguments of the call, as of when it came in.
- `CycleCount.PostLaw`: a status is a string and a location an id; the rules that other services attach to statuses are not part of it.
- `LoadingException.BulkLaw`: nobody else closes exceptions during the call; each approval is still its own transaction.
- Vessel assignment, cutoff changes, shortage reports after Seal and packing hooks: independent of the ledgers.
- Parsing of uploaded plans, labels, PDF and spreadsheet output, handlers, paging, search, dashboards, catalog, orders and authentication: plumbing or simple queries.
