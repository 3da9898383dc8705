# A verified model of oboete's delivery, transfer and capture logic

oboete remembers what coding agents did and hands it back to them. Most of it is input and output, but the parts that
decide what the model was told, how strict a memory is, and what a captured event belongs to are state machines and
graph algorithms with guarantees written in their comments. This project models those parts in Dafny and proves the
guarantees, or says exactly when they hold.

SQLite tables are maps and sequences, a `BEGIN IMMEDIATE` block is one atomic step, sha256 is an injective function
(a hash is the value it is computed from), and random ids are fresh numbers. Code that updates rows step by step is a
class or a method with loops, proved equal to a transition function; what the source promises about every run is proved
about those functions.

## What is modelled

**Deferred delivery** (`Options`, `PackText`, `Ledger`, `Deferred*`). Grok Build has no channel that reaches the model
before a turn, so a pack is stored, attached to every tool call, and counted as delivered only when a call has run. Each
hook is one transaction (storing a pack takes two, with the text checks in between), and `DeferredRuns` lets any number
of hooks interleave at those points, be killed anywhere, lose the stored text, and find their work guard invalid.
`DeferredStore` is the imperative form. `DeferredOutcomes` says what every hook leaves field by field, without the
functions that compute it, and that every step of every run leaves that. Where the code is weaker than its comments, the exact condition is proved for
every run:

- Hooks that build packs create records already `pending` (`src/injection/inject.ts:173`), so several live records
  exist between a build and its own commit, and a hook may find its record used, delivered or closed by others.
  `DeferredExact` says at which steps, and at no others, each property stops holding. A second live record appears
  exactly when one is built next to a live one. `emitted` is left exactly when the record's own hook commits or is
  cancelled as it begins; `omitted` exactly when its own hook commits and nothing closes it again. The stored text is
  orphaned exactly when it names the record of a hook that closes or merges away that record without replacing the
  text. "Emitted exactly if delivered" fails exactly when such a hook closes or reopens a delivered record.
  `EmittedIsReopened`, `OmittedIsReopened` and `StoredTextIsOrphaned` are runs; `DeferredTidy` draws the consequence
  for runs where no other hook uses a record between its build and its commit.
- A row is included without having been received exactly when a receipt confirms it through an undelivered attempt of
  its call on the open record, the unique index is free for it, and no text the call carried has its key
  (`DeferredReceipts.UnreceivedExactly`); every included row of a run was received if and only if the run has no such
  step (`EveryInclusionReceivedExactly`). A later commit then handed the row over, wherever a text of that record was
  carried (`IncludedWasAdopted`). That takes a commit under a waiting attempt, or the receipt of an attempt
  already dropped while its record is open - which a deny leaves behind, or the closing of a record that its own hook
  opens again. `CarrierIncludesUnreceived`, `LateReceiptIncludesUnreceived` and `ReopenedIncludesUnreceived` are the three
  runs; `TidyRunsIncludeOnlyReceived` excludes them by conditions on the hooks alone (records built in capture order,
  no other hook in the window, no call id used again after a deny).
- `delivery_count` equals the delivered attempts unless a call is denied after it delivered; the difference is exactly
  those denies.

**Transfer** (`Graphs`, `LineageCycles`, `SensitivityRaise`, `TransferMerge`). The paged cycle check, the worklist that
pushes sensitivity down a possibly cyclic content-hash graph, and the two-pass merge. A preview gives every identity
exactly the join of its local state and its matched rows, then exactly the strictest rank over its ancestors, for every
file order. In an apply the local privacy trigger can raise a row before its own record is looked up, so cached ranks can
depend on file order. `EveryOrderJoinsExactly` gives the exact condition: every order of a file yields the join if and
only if no row that raises its own identity has a local descendant in the file whose join is weaker and whose records
may all come later. Local lineage is between rows of the destination, as its foreign keys demand.

**Capture** (`CaptureSessions`, `CaptureIdentity`, `Compaction`, `WorkBindings`, `WorkOutcomes`). Which events are one
event delivered twice, turn numbers, reopening, context epochs under two racing hooks, and the spans that bind a
session's sources to a work.

**Sharing** (`Sharing`), **schema upgrades** (`Migrations`), and the self-contained algorithms: canonical JSON with a
reader that undoes it (`CanonicalJson`) and the values that share a text (`CanonicalValues`), shell quoting read back by
the POSIX shell's rules (`ShellQuote`), the chunked secret scan over one array (`SecretScan`), and range coverage
(`Coverage`).

## Model

| member | source | states |
|---|---|---|
| PackText.FoldPlanned | src/injection/deferred.ts:208-234 | by item: left out as a duplicate exactly if its memory is in the starting blocks or was added from an earlier item, else as over budget exactly if what is used, the costs added before and its own cost exceed the budget, else added; the new blocks and the omissions are these, in item order |
| PackText.VerdictsAreDetermined | src/injection/deferred.ts:208-234 | those rules leave one verdict for each item |
| PackText.TextIsFramed | src/injection/pack-format.ts:97-107 | the text is the header, the repository line, the blocks' lines, the degraded notice and the footer, one to a line |
| PackText.BlockIsInText | src/injection/pack-format.ts:97-107 | the lines of every block stand together in the rendered text |
| PackText.MergedTextFitsBudget | src/injection/deferred.ts:241-279 | existing blocks stay in front; the merged text fits the budget unless nothing was added |
| DeferredSafety.StoredMergeFits | src/injection/deferred.ts:241-279 | in every run a merge stores a text that fits the live record's budget, or adds no item to what it replaces; carried blocks stay in front |
| PackText.FoldAccountsForItems | src/injection/deferred.ts:208-234 | every planned item of the new pack becomes a block or a recorded omission |
| PackText.FoldKeepsMemoriesUnique | src/injection/deferred.ts:208-234 | no memory is carried by two blocks |
| PackText.RenderGrowth | src/injection/pack-format.ts:97-107 | adding a block grows the rendered text by its weight, at most its cost |
| Ledger.LiveRecordIs | src/injection/deferred.ts:84-101 | the oldest undelivered record, by creation time and id, is the one selected |
| Ledger.ReportedRecordIs | src/injection/deferred.ts:103-114 | the live record, or the last emitted one when none is live |
| DeferredStore.LedgerStore.SelectLive | src/injection/deferred.ts:88-101 | the search over rows returns exactly that record |
| DeferredStore.LedgerStore.SelectReported | src/injection/deferred.ts:104-114 | the two selections in order return exactly that record |
| DeferredStore.LedgerStore.FindAttempt | src/injection/deferred.ts:509-509 | the first attempt of the call |
| DeferredStore.LedgerStore.CloseUnrendered | src/injection/deferred.ts:141-161 | planned rows whose block was not rendered are closed one by one, no other row changes |
| DeferredStore.LedgerStore.Confirm | src/injection/ledger.ts:156-177 | rows are confirmed in order against the unique index as earlier rows left it, then the record is emitted |
| DeferredStore.LedgerStore.Cancel | src/injection/ledger.ts:180-199 | the record is closed as not delivered with no planned row left; every other row and record stays |
| DeferredStore.LedgerStore.Adopt | src/injection/deferred.ts:164-170 | every row moves to the live record before the merged-away record goes; no row is lost and no other row or record changes |
| DeferredStore.LedgerStore.ReadCurrent | src/injection/deferred.ts:70-80 | a stored text whose guard fails is dropped with its record unless a call carries it |
| DeferredStore.LedgerStore.PreserveCarrier | src/injection/deferred.ts:377-382 | the pack is cancelled exactly when the oldest other live record has a waiting attempt |
| DeferredStore.LedgerStore.PlanMerge | src/injection/deferred.ts:241-279 | the plan keeps the stored heading, starts from the stored blocks with the choices in front, adds the pack's items by the rules of the fold under the live record's budget, and renders the result; nothing is written |
| DeferredStore.LedgerStore.BeginStore | src/injection/deferred.ts:391-396 | a stale text is dropped unless carried, and the pack is given up exactly if the oldest other open record is carried |
| DeferredStore.LedgerStore.RefusePending | src/injection/deferred.ts:317-333 | a refused merge keeps the live record, except for control characters |
| DeferredStore.LedgerStore.MergePending | src/injection/deferred.ts:336-374 | the merged pack replaces the live record's text; its omissions fall on the new pack's own rows |
| DeferredStore.LedgerStore.StoreFirstPending | src/injection/deferred.ts:292-314 | a pack with no live record becomes the pending one |
| DeferredStore.LedgerStore.CommitStore | src/injection/deferred.ts:401-423 | row by row: the pack is given up, becomes the stored text with its planned items' blocks in order, or joins the oldest other record - omitted as not validated or as rejected, or merged with the plan's omissions and the union of the sources |
| DeferredStore.LedgerStore.AttachOnPreToolUse | src/injection/deferred.ts:430-458 | the call carries the stored text if it may be shown, its attempt is noted once, and exactly the planned rows of the oldest open record with a block in the text stay planned |
| DeferredStore.LedgerStore.DeliverCall | src/injection/deferred.ts:528-598 | a receipt through an undelivered attempt, or one that prints the stored text, emits the reported record and decides each of its planned rows by what it showed; otherwise it counts, waits, closes the record or changes nothing |
| DeferredStore.LedgerStore.MarkDenied | src/injection/deferred.ts:503-525 | a deny drops the call's first attempt, or notes a dropped one on an open record, and changes nothing else |
| DeferredStore.LedgerStore.CloseOnStop | src/injection/deferred.ts:604-637 | exactly the waiting attempts are dropped; an open record is closed, whether or not the turn ran a tool, with its planned rows not delivered and its stored text gone |
| DeferredOutcomes.ReceiptDecidesRows | src/injection/deferred.ts:528-598 | in every run, a row planned for the record a receipt emits becomes included if and only if it is the first of its memory among the rows shown - all planned rows for a call with an attempt, those with a block in the text returned for one without - and is otherwise omitted as a duplicate or as not delivered |
| DeferredOutcomes.EmitsExactly | src/injection/deferred.ts:528-598 | in every run, a receipt emits a record if and only if it is the reported one, open, and the call's first attempt is undelivered or, without one, the stored text may be shown |
| DeferredOutcomes.EveryStepMeans | src/injection/deferred.ts:377-637 | every step of every run leaves rows, records and stored text as stated for its hook field by field, without the functions that compute the hooks |
| DeferredOutcomes.ReportedExactly | src/injection/deferred.ts:84-114 | the reported record is the open one created first, by id among equals, or without one the record emitted last |
| DeferredOutcomes.CommitMeans | src/injection/deferred.ts:292-424 | what a commit leaves, for any ledger |
| DeferredOutcomes.BuildMeans | src/injection/ledger.ts:84-154 | a built pack is a pending record with one row for each item, the considered ones after its own |
| DeferredOutcomes.CommitsOnceInOrder | src/injection/deferred.ts:391-424 | in every run, a pack is committed at most once, after its build, the beginning of its own hook and a validation |
| DeferredRows.ConfirmRowsEffect | src/injection/ledger.ts:156-177 | confirming leaves each planned row included or marked a duplicate of an included row, and memories included once |
| DeferredRows.ConfirmIncludesExactly | src/injection/ledger.ts:156-177 | a planned row becomes included if and only if no included row and no earlier planned row of the record is for its memory and epoch |
| DeferredRows.CommitKeeps | src/injection/deferred.ts:401-423 | storing a pack includes, loses and reopens no row |
| DeferredRows.DeliverKeeps | src/injection/deferred.ts:528-598 | a receipt keeps rows homed and decides each row once |
| DeferredRecords.CommitEffect | src/injection/deferred.ts:401-423 | which records, rows and text a commit may change |
| DeferredSafety.RunInvariant | src/injection/deferred.ts:377-637 | every interleaving keeps rows, records, flights and text consistent |
| DeferredSafety.DecisionsAreFinal | src/injection/deferred.ts:163-170 | no item row is ever lost and a decision is written once |
| DeferredSafety.FinishedHasNoPlanned | src/injection/deferred.ts:317-374 | finished records have no planned row; a memory is included once per epoch |
| DeferredSafety.LiveRecordsAreSettledOnce | src/injection/deferred.ts:84-101 | of two live records one is still between its build and its commit |
| DeferredSafety.StoredTextWasChecked | src/injection/deferred.ts:384-424 | every stored text is a builder's own or one that passed the whole-pack checks |
| DeferredSafety.PassedMeansValidated | src/injection/deferred.ts:397-399 | a text counts as passed only when exactly it was planned and not rejected |
| DeferredExact.SecondLiveRecordExactly | src/injection/deferred.ts:84-101 | in every run, a second live record appears if and only if a record is built next to a live one |
| DeferredExact.OneLiveRecordExactly | src/injection/deferred.ts:84-101 | at most one record is live throughout a run if and only if the run has no such step |
| DeferredExact.FinishedIsLeftExactly | src/injection/deferred.ts:377-424 | in every run, a finished record leaves its state or the ledger if and only if its own hook commits or is cancelled under the stated guards |
| DeferredExact.FinishedStaysExactly | src/injection/deferred.ts:377-424 | `emitted` and `omitted` are kept over a stretch of a run if and only if it has no such step |
| DeferredExact.EmittedIsLeftExactly | src/injection/deferred.ts:377-424 | `emitted` is left if and only if the record's own hook commits, or begins while a call carries another record |
| DeferredExact.ReopenedExactly | src/injection/deferred.ts:292-314 | a finished record is live again if and only if its own hook stores its text with no other live record |
| DeferredExact.StoredTextIsOrphanedExactly | src/injection/deferred.ts:391-424 | in every run, the stored text stops naming a live record if and only if it names the committing or cancelled hook's own record and is not replaced |
| DeferredExact.StoredTextNamesALiveRecordExactly | src/injection/deferred.ts:391-424 | the stored text names a live record throughout a run if and only if the run has no such step |
| DeferredExact.DeliveryIsForgottenExactly | src/injection/deferred.ts:377-424 | in every run, a delivered record stops being emitted if and only if its own hook closes or reopens it |
| DeferredExact.EmittedIffDeliveredExactly | src/injection/deferred.ts:587-597 | emitted means delivered, both ways, throughout a run if and only if the run has no such step |
| DeferredReceipts.DroppedWereDeniedOrReopened | src/injection/deferred.ts:503-525 | in every run, a dropped attempt of an open record belongs to a denied call, or the record's own hook reopened it |
| DeferredReceipts.CarriedExactly | src/injection/deferred.ts:430-458 | what calls carried is exactly what their PreToolUse hooks printed |
| DeferredReceipts.PlannedSinceCarriage | src/injection/deferred.ts:376-382 | after a call carried a text, its record's planned rows are in that text or were handed over by a later commit |
| DeferredReceipts.UnreceivedExactly | src/injection/deferred.ts:528-598 | in every run, a step includes a row unreceived if and only if its call confirms an undelivered attempt of the open record, the row is planned there with the index free for it, and the call carried no text with its key |
| DeferredReceipts.IncludedWasAdopted | src/injection/deferred.ts:336-382 | an included row whose key a carried text of its record lacks was handed over by a commit after that carriage |
| DeferredReceipts.EveryInclusionReceivedExactly | src/injection/deferred.ts:528-598 | every row included in a run was received by the call that confirmed it if and only if the run has no such step |
| DeferredDelivery.CarriageMeansPrinted | src/injection/deferred.ts:430-458 | a carriage is recorded only when a hook prints exactly the stored text |
| DeferredDelivery.IncludedOnlyIfReceived | src/injection/deferred.ts:528-598 | a row becomes included only by a call that carried its block or prints it, outside the two exceptions |
| DeferredCounts.DeliveriesAreCounted | src/injection/deferred.ts:587-591 | deliveries counted are delivered attempts plus those a later deny overwrote; emitted records have one |
| DeferredTidy.FinishedIsFinal | src/injection/deferred.ts:84-101 | consequence of FinishedIsLeftExactly: `emitted` and `omitted` are never left where no other hook uses a record before its own commit |
| DeferredTidy.EmittedIffDelivered | src/injection/deferred.ts:587-597 | consequence of DeliveryIsForgottenExactly: on those runs a record is emitted if and only if it was delivered |
| DeferredTidy.StoredTextNamesTheLiveRecord | src/injection/deferred.ts:26-37 | consequence of StoredTextIsOrphanedExactly: on those runs the stored text names a live record, the only one but for records in flight |
| DeferredTidy.TidyRunsIncludeOnlyReceived | src/injection/deferred.ts:376-382 | on those runs, with records built in order and no denied call id used again, included means received |
| DeferredFailures.LateReceiptIncludesUnreceived | src/injection/deferred.ts:528-598 | a reachable run where a denied call's late receipt includes what it never carried |
| DeferredFailures.EmittedIsReopened | src/injection/deferred.ts:292-314 | a reachable run where a slow hook turns an emitted record back to pending |
| DeferredFailures.StoredTextIsOrphaned | src/injection/deferred.ts:405-408 | a reachable run where the stored text is left naming a closed record |
| DeferredReopened.OmittedIsReopened | src/injection/deferred.ts:292-314 | a reachable run where Stop closed a record and its own slow hook opens it again |
| DeferredReopened.ReopenedIncludesUnreceived | src/injection/deferred.ts:528-598 | in that run, without a deny and with records built in order, a receipt includes what its call never carried |
| DeferredCarrier.CarrierIncludesUnreceived | src/injection/deferred.ts:401-423 | a reachable run where a commit merges under a carrier and the receipt includes the merged row |
| LineageCycles.CheckRelation | src/transfer-plan.ts:209-224 | accepts exactly the relations without a directed cycle, for any pages of ready nodes, and ends |
| LineageCycles.Acyclic | src/transfer-plan.ts:185-226 | on the rows: a file is refused if and only if it has a closed walk whose every step is a checkpoint parent or a source dependency, or one whose every step is a superseded_by |
| LineageCycles.MixedCycleIsAccepted | src/transfer-plan.ts:185-226 | a concrete file whose only cycle mixes the two relations is accepted |
| LineageCycles.StuckMeansCycle | src/transfer-plan.ts:223-224 | nodes left with no ready one among them hold a cycle |
| SensitivityRaise.FeedBack | src/transfer-merge.ts:141-144 | what the trigger raised reaches the cache and the queue |
| SensitivityRaise.RaiseChild | src/transfer-merge.ts:135-145 | one raised child, its live row and its local descendants |
| SensitivityRaise.RaiseToParents | src/transfer-merge.ts:108-147 | ends on every graph; children end as strict as their parents; no rank appears without an ancestor that had it; a raised live row has local children and a cache row as strict |
| SensitivityRaise.PreviewRaise | src/transfer-merge.ts:108-147 | without a destination every identity ends at exactly the strictest rank over itself and its ancestors |
| SensitivityRaise.ClosedIsStrictest | src/transfer-merge.ts:101-107 | ranks that are closed under the edges and caused by ancestors are that maximum |
| SensitivityRaise.RaiseLiveSound | src/db/migrations/0005_work_continuity.sql:84-101 | the trigger gives descendants only ranks an ancestor has |
| TransferMerge.MergeMemory | src/transfer-merge.ts:191-244 | one row's effect on the target table and the destination, and which one counter rises: a new tombstone, a new row, a stricter rank, or none of these |
| TransferMerge.FoundIffMatched | src/transfer-merge.ts:81-93 | a redacted personal row finds an identity exactly when it is a known personal projection |
| TransferMerge.PlacedStays | src/transfer-merge.ts:191-244 | each row keeps the repository, tombstone, ownership and live rank of every identity traced to the destination or to a matched row |
| TransferMerge.MergeTransferPlan | src/transfer-merge.ts:354-376 | targets are the join of local state and matched rows unless a row overtakes another in an apply; each keeps the local repository and tombstone or takes a matched row's; nothing softens, and local children of a raised row follow; each matched origin gets its row's identity; on the file's pairs a child ends as strict as its parent, cached and live, in a preview as the strictest identity reached from child to parent, in an apply as one so reached had; counters add up |
| TransferMerge.MergeJoins | src/transfer-merge.ts:191-244 | each row keeps every identity the join of the rows so far |
| TransferMerge.MergeHardens | src/transfer-merge.ts:200-235 | no live rank drops, no tombstone is cleared, and the destination is as strict as the cache |
| TransferMerge.OrderDoesNotMatter | src/transfer-merge.ts:365-375 | files that differ only in order join to the same rank and tombstone |
| TransferMerge.RedactedNeverHoldsRepositoryMemory | src/transfer-merge.ts:81-93 | an unverifiable personal row never touches a repository's memory |
| TransferMerge.EveryOrderJoinsExactly | src/transfer-merge.ts:365-375 | an apply gives the join in every order of a file if and only if no row can overtake another |
| TransferMerge.DescendantsShowOrder | src/transfer-merge.ts:207-214 | any file and destination: with an overtaking row first, the overtaken identity ends stricter than its join |
| TransferMerge.ApplyDependsOnOrder | src/transfer-merge.ts:207-214 | a concrete destination and two rows for which it does |
| CanonicalJson.StringReadsBack | src/events.ts:168-176 | escaped strings are read back, lone surrogates and pairs included |
| CanonicalJson.ParseUndoesCanonical | src/events.ts:168-176 | reading the canonical text gives the value back up to absent members and member order |
| CanonicalJson.SameTextIffSameValue | src/events.ts:168-176 | equal texts mean equal values, and conversely |
| CanonicalJson.MemberOrderDoesNotMatter | src/events.ts:168-176 | the order of an object's members does not change its text |
| CanonicalValues.OneTextExactly | src/events.ts:168-176 | two values have one text if and only if they are equal member by member, undefined members counting as none and other undefined values as null |
| CanonicalValues.MembersInOrder | src/events.ts:172-174 | an object's text lists exactly its defined members, in ascending order of keys |
| CanonicalValues.BeforeExactly | src/events.ts:173-173 | keys are ordered by the first code unit that differs, a proper prefix first |
| CanonicalValues.PlainTextStays | src/events.ts:169-175 | a string is printed as it is if and only if it has no quote, backslash, control character or lone surrogate |
| CaptureSessions.KeyDependsOnTurnExactly | src/events.ts:210-231 | which events' keys carry the turn ordinal |
| CaptureIdentity.KeysMatchExactly | src/events.ts:210-231 | two rows have one key if and only if agent, session and kind agree and so do the call id of tool events, the prompt id of prompts with one, the compaction key where set, and otherwise turn and content, or name and payload hash |
| CaptureIdentity.StoredExactly | src/capture.ts:487-502 | in every run from empty tables, an event is stored if and only if it is not the same as an earlier stored one, each in the turn counted when it arrived; its row names its session and that turn |
| CaptureIdentity.StoreRowMeans | src/capture.ts:333-555 | for any tables, what one event leaves of sessions, roots, epochs, turns and rows, field by field |
| CaptureIdentity.FlatTellsApart | src/capture.ts:510-511 | compactions without a key of their own are told apart by their events' keys, whose parts have no NUL |
| CaptureSessions.TurnsAreNumbered | src/capture.ts:410-443 | turn ordinals are 1 to turn_count, and a session is ended exactly by its last new row |
| CaptureSessions.EpochsOnlyGrow | src/capture.ts:382-408 | epochs never decrease and no raw row is lost |
| CaptureSessions.RedeliveryChangesNothing | src/capture.ts:487-502 | a stored event whose key needs no ordinal, delivered again at any time, changes no turn, epoch, status or row |
| CaptureSessions.CaptureTables.UpsertSession | src/capture.ts:333-369 | a session is created once, and detached from its root by a new conversation |
| CaptureSessions.CaptureTables.ReopenSession | src/capture.ts:325-331 | an ended session becomes active; its turns and epoch and every other session stay |
| CaptureSessions.CaptureTables.MoveEpoch | src/capture.ts:382-408 | only a whole event moves the epoch, never down, only on the root of its conversation, and nothing else changes |
| CaptureSessions.CaptureTables.PlaceTurn | src/capture.ts:419-443 | a prompt opens the next turn, a turn end closes the open one |
| CaptureSessions.CaptureTables.StoreCapturedRow | src/capture.ts:506-555 | the effects of a new row, in order |
| CaptureSessions.CaptureTables.StoreAll | src/capture.ts:461-504 | the rows of a delivery in order, skipping those seen and counting those inserted; CaptureIdentity.StoredExactly says which are skipped |
| Compaction.DeliveryAdvancesOnce | src/capture-compaction.ts:26-61 | one compaction with a new key advances the epoch once, whichever of its hooks commits first |
| Compaction.EpochCountsCompactions | src/capture-compaction.ts:15-25 | n compactions whose neighbouring keys differ advance the epoch by n, even when companion hooks never arrive |
| Compaction.RepeatChangesNothing | src/capture-compaction.ts:48-49 | a compaction reported again changes nothing |
| Compaction.LostPostCompactMergesEpochs | src/capture-compaction.ts:50-54 | without its PostCompact a compaction swallows the next one's epoch |
| Compaction.EpochCountsChanges | src/capture-compaction.ts:46-60 | for the other agents the epoch counts the changes of key |
| Compaction.SecondReportAdvancesExactly | src/capture-compaction.ts:26-61 | a second report opens another epoch if and only if it tells another key, or without a key comes from another event |
| WorkBindings.BoundSpansCapture | src/work.ts:84-151 | the binding returned is the session's and the context's and spans the capture time |
| WorkBindings.LateSourceChangesOnlyLateSpans | src/work.ts:103-121 | the late branch changes no work item, no open binding and no binding that is not late |
| WorkBindings.OneOpenBindingPerSession | src/work.ts:44-47 | a session never has two open bindings, and sources are bound within their own session |
| WorkBindings.WorkNeverChanges | src/work.ts:232-298 | a binding's work never changes once set, nor its session, context or start; nothing closed reopens |
| WorkBindings.WorkTables.BindCapturedWork | src/work.ts:84-151 | the rows are selected and the session bound as WorkOutcomes.BindMeans says |
| WorkBindings.WorkTables.ChooseForBinding | src/work.ts:232-261 | an explicit choice of work for a binding, as WorkOutcomes.ChooseMeans says |
| WorkBindings.WorkTables.ChooseForSource | src/work.ts:269-298 | a legacy source gets a closed binding of its own, as WorkOutcomes.SourceMeans says |
| WorkOutcomes.BindMeans | src/work.ts:84-151 | a late source keeps a late or only span or gets one up to the next start; otherwise the binding stays, or a new one opens for a new work if a purpose is declared or no work is active here, for the only active work, or for none |
| WorkOutcomes.ChooseMeans | src/work.ts:232-261 | which bindings may be given a work, what becomes of the work and the binding, and when a new binding opens instead |
| WorkOutcomes.SourceMeans | src/work.ts:269-298 | exactly the unbound selectable sources get a binding, spanning one millisecond from their capture |
| Sharing.DecisionsAreFinal | src/sharing.ts:183-194 | a decided proposal never changes again |
| Sharing.ApprovedExactly | src/sharing.ts:45-207 | in every run, a proposal becomes approved if and only if a person approves it unchanged since it was checked, or an exact direct declaration is recorded for its text; the rank must not be secret nor the text's memory anything but a live projection of it |
| Sharing.ShareMeans | src/sharing.ts:45-207 | the proposals, memories and grants each sharing transaction writes, field by field |
| Sharing.OneProjectionPerText | src/sharing.ts:45-62 | approvals share a projection exactly when their texts are equal |
| Sharing.ProjectionIsStrictest | src/sharing.ts:63-64 | a projection is as strict as the strictest approval of its text, or of what else raised it |
| Sharing.ApprovedIsVisible | src/db/queries.ts:56-64 | while it is not deleted or secret, one stored grant satisfies the personal clause in every repository |
| Sharing.VisibleWasApproved | src/db/queries.ts:56-64 | what the personal clause shows was approved with exactly its text |
| Sharing.SharingTables.ApproveProjection | src/sharing.ts:45-75 | the rows an approval writes, or none |
| Sharing.SharingTables.RecordSharing | src/sharing.ts:127-138 | an exact direct declaration approves its own new proposal |
| Sharing.SharingTables.DecideSharing | src/sharing.ts:183-207 | whatever others do in between, a decision is returned exactly if the proposal already holds it, or is still pending - for an approval, still what was checked - and the write goes through; then it is the one the proposal holds |
| SecretScan.NewOccurrenceIsInWindow | src/fixture/replay-evaluate.ts:165-170 | an occurrence not seen before lies in the carried and the new bytes |
| SecretScan.SecretsInFiles | src/fixture/replay-evaluate.ts:171-198 | exactly the ids of non-empty secrets that occur in some file, for any chunk size and short reads, inside the buffer |
| Coverage.MergeSpans | src/fixture/replay-evaluate.ts:83-88 | separated ranges in order, covering exactly what the spans cover |
| Coverage.SourceCoverage | src/fixture/replay-evaluate.ts:74-92 | full exactly when every offset of the latest version was received, and the ranges are what was received |
| Coverage.CompleteExactly | src/fixture/replay-evaluate.ts:74-92 | said of the receipts: the newest one with a length decides the version, and receipts of that version with a hash and a portion inside the source hold every offset, or some |
| Coverage.CoverageStage | src/fixture/replay-evaluate.ts:91-96 | the stage passes exactly when one of the first fifty sources is complete, and is partial exactly when none is but one has a received offset |
| Migrations.AppliedOnceInOrder | src/db/open.ts:210-255 | user_version counts the migrations applied, each once and in order, for any number of migrators |
| Migrations.AppliedOnlyGrows | src/db/open.ts:237-243 | nothing applied is undone, and what is added is this bundle's |
| Migrations.ReturnsAtLatest | src/db/open.ts:254-254 | a migrator that returns does so at the latest version |
| Migrations.UpgradeFencesWorker | src/db/open.ts:202-208 | an upgrade of an existing schema commits only over an absent lease or a heartbeat more than six seconds old or a minute ahead, and takes the lease away |
| Migrations.BusyExactly | src/db/open.ts:202-208 | a migrator gives up as busy exactly when it would upgrade an existing schema under a lease renewed in the last six seconds, or by a clock at most a minute ahead |
| Migrations.StepMeans | src/db/open.ts:192-255 | in every run, what each transaction of a migrator leaves and where it goes next, by the version, the hashes and the lease it reads |
| Migrations.Connection.Migrate | src/db/open.ts:210-255 | the loop is a migrator of a run in which others take any steps between its own; it fails, or returns at the latest version |
| ShellQuote.QuoteIsOneWord | src/setup/shell-quote.ts:6-9 | the quoted value is read by the shell as one word equal to it |
| ShellQuote.CommandLineReads | src/setup/shell-quote.ts:1-5 | a command line of quoted words is read as exactly those words |

## Left out

- Deferred delivery of other conversations, the direct lanes of the other agents, `pack_hash`, `chars_used` and
  `attempted_at`: no modelled decision reads them.
- The secret and directive detectors, work guard validity and privacy stamps: their verdicts are parameters of the steps.
- DeferredRuns: a validation may read any live record and any stored text, which covers reads torn by other hooks but
  also texts no real read would produce.
- DeferredSafety.LiveRecordsAreSettledOnce: says who the two live records are, one way; DeferredExact.SecondLiveRecordExactly
  says when there are two.
- DeferredDelivery.IncludedOnlyIfReceived: one way, without the two kinds of step; DeferredReceipts.UnreceivedExactly is the
  exact form.
- DeferredTidy.FinishedIsFinal: on the runs described there; DeferredExact.FinishedIsLeftExactly is the exact form.
- DeferredTidy.EmittedIffDelivered: on the runs described there; DeferredExact.DeliveryIsForgottenExactly is the exact form.
- DeferredTidy.StoredTextNamesTheLiveRecord: on the runs described there; DeferredExact.StoredTextIsOrphanedExactly is the
  exact form.
- DeferredTidy.TidyRunsIncludeOnlyReceived: on the runs described there; DeferredReceipts.EveryInclusionReceivedExactly is
  the exact form.
- The tombstone trigger of migration 0005: it fires for rows of a work, whose checkpoint hashes no imported row matches.
- Grants, provenance rows, receipts and repository mapping of an import, and the truncation of a memory id to 24 digits.
- Kahn's pages are any non-empty sets of at most 1000 ready nodes; the order of ids within them is not fixed.
- CanonicalJson: numbers are safe integers; fractions, exponents and `toJSON` are not modelled.
- CaptureSessions: metadata columns, pack recognition, batch triggers and the spool path's own writer are not modelled;
  rows are not purged.
- CaptureIdentity.StoredExactly: runs start from empty tables, which hold no version-1 ids; CaptureIdentity.StoreRowMeans
  covers tables that do.
- WorkBindings: the declaration pattern, sensitivities, context roots and timestamps of last use; all tables belong to
  one repository, and capture times are below the largest safe integer, where the source closes unbounded late spans.
- Sharing: the privacy checks are one verdict; `sync_approvals`, work and project grants, and rows written by sync or import
  promotion are not modelled.
- Migrations: the SQL of each migration and the waiting for locks; a killed migrator is one that takes no further step.
- ShellQuote: the reader rejects unquoted characters that expand, redirect or open other quoting, which the quoted text never
  exposes.
- Process, file and network work, front ends, adapters, retrieval and observers.
