# Hubnot: signed streams, their history, and contribution intake

Hubnot keeps signed facts in append-only Git streams, one per actor. It writes them with
durable intents, expected-old ref updates, and locks that vanish when a process dies; it reads
them back as a graph, exports closed parts of that graph, and takes in contributions through a
charged, crash-recoverable journal. This project models that logic and proves what it promises.
`dafny verify dfyconfig.toml` checks everything.

## What is modelled

**The mutation protocol** (`Streams`, `Protocol`, `ProtocolInvariant`, `ProtocolSteps`,
`ProtocolTheorems`, `ProtocolHeads`, `ProtocolStatus`, `ProtocolProgress`, `ProtocolRuns`,
`ProtocolRace`). Any number of writers, status readers and importers run over one durable state: refs, intents, lock files, held locks and immutable objects. Each action
is one observation, one decision or one durable write of one process, in any interleaving, and a
process may stop between any two of them, which drops only its locks and local variables. Digests
are injective, so a request, an artifact and a commit stand for their own digests. The protocol is
a step system rather than a class because its whole point is what interleaved and interrupted
attempts do to each other; the durable record updates are those of the source.

**History, validation, catalog, closure, export, diagnostics, loading** (`History`, `Validation`,
`Catalog`, `Closure`, `Export`, `Diagnostics`, `Admission`, `Load`, `Reread`, and `Bridge` to the
protocol's artifacts).
A loaded history is a map of verified envelopes and one chain for each actor. Parent edges are
acyclic because an ID is the digest of content that names its parents; the model states this as a
rank on IDs. Link edges may form cycles. `Admission` and `Load` start lower, from a commit graph in
which nothing rules out cycles, because excluding them is the reader's job.

**Contribution intake** (`Manifests`, `Ledgers`, `Journal`, `JournalLoad`, `JournalSteps`, `Intake`,
`Retention`, `Exchange`, `IntakeRuns`, `Outgrown`). `ContributionExchange` is a class with the
journal, the retained artifact files, the Git objects it has written and the contribution refs. Each method is given the faults it meets and
the number of durable writes it completes before the process dies. Its contract holds for every
such number, hence at every crash point: `Valid()` is the invariant, `Evolves` what no operation may
undo. `IntakeRuns` executes any sequence of operations and states what holds along the whole run.

**Fast forms and walks** (`Depth`, `Checkpoints`, `Collision`, `Search`). The memoised depth walk,
the two policy-history walks, the binary-search path collision test, and the search page loop with
its work budget in 64-bit arithmetic; each method is proved equal to a plain specification.

## Assumptions

- Digests and signatures are injective: equal IDs have equal content, and a verified envelope has
  the lineage fields its kind requires (`History.EnvelopeOk`, `Load.IdsAgree`, `Load.Decodes`).
- A ref update with an old value is an atomic compare-and-swap; a private file save is atomic;
  objects are immutable and those that a ref reaches are present; a file lock excludes other
  processes until its holder dies.
- A history load sees the source refs at one instant: the source compares the complete source list
  before and after and refuses otherwise. Reads of immutable objects need no instant.

## Results that a reader may not expect

- A lost ref race is final. `ProtocolTheorems.LostRaceIsFinal`: an intent whose expected head the
  local stream has passed is never published by any later retry. The source refuses such retries as
  uncertain (`artifact_store.go:745-747`), which is a deliberate choice.
- A checked successor need not become the only head of its record. The heads are checked against the
  loaded history, and the swap compares only the actor's own ref, so that two actors can both publish
  (`ProtocolRace.RaceLeavesTwoHeads`). `ProtocolHeads.SuccessorHeads` says exactly what happens.
- Checkpoint verification needs no separate continuity check when the tip carries the adopted
  policy: the discontinuity refusal is unreachable then, and the last refusal of the walk always
  (`Checkpoints.VerifyCheckpoints`), as long as no checkpoint names the zero reference.
- Retrying an interrupted retention can never be refused for differing material or charge
  (`Retention.SamePlan`).
- Retention journals a plan, and writes its objects, before it measures the history the plan leads
  to. A plan that fits while that history does not is stuck for good (`Retention.DoomedPlan`);
  `Outgrown.RetainInVain` drives an exchange there, `Outgrown.RetainSecondInVain` on one input.
- Intake can lock itself up. An attempt that failed only because of its refs stays journaled; once
  its artifact becomes durable through another attempt, no later intake can settle
  (`IntakeRuns.LockUp`); `IntakeRuns.SettlesUnlessLocked` says exactly when one can.

- An attempt in conflict may carry no measurements. One that died after its artifact became durable
  is marked by a clashing artifact as it stands (`IntakeRuns.MarkUnmeasured`); a pending attempt always
  carries the exact ones, and recovering an attempt measures it (`IntakeRuns.RunAll`).
- Checkpoint verification can fail in a governed history only for checkpoints that are as old as the
  adopted policy (`Checkpoints.GovernedEstablishes`).

## Model

| member | source | states |
|---|---|---|
| ProtocolSteps.ActionKeeps | artifact_store.go:670-878 | every action of every process, including stopping, keeps the protocol invariant and only grows the durable state |
| ProtocolTheorems.RunKeeps | artifact_store.go:670-878 | the invariant holds in every state of every run |
| ProtocolTheorems.RunGrows | artifact_store.go:437-463 | between any two states of a run streams only grow, no object or intent disappears, and an intent keeps request, semantic bytes, expected head and any written candidate while its stage only moves prepared, publishing, published |
| ProtocolTheorems.OneArtifactPerOperation | artifact_store.go:670-749 | in every state of every run no local stream holds two artifacts with one operation key |
| ProtocolTheorems.PublishedWasJournaled | artifact_store.go:785-863 | whatever a run adds to a local stream is, then and later, the journaled candidate of its key, with the bound request and on the expected head |
| ProtocolTheorems.LocalRefMovesByIntent | artifact_store.go:853-863 | a local ref moves only from the expected head to the candidate of an intent that already was durable in stage publishing |
| ProtocolTheorems.LockIsHeld | artifact_store.go:699-714 | in every state of every run a held lock has its lock file and belongs to a running attempt for its key, so that stopping a process frees its locks |
| ProtocolTheorems.PublishedIsAccepted | artifact_store.go:750-768 | a published intent never changes again and its candidate, with the intent's own request, is and stays on an accepted stream of its actor |
| ProtocolTheorems.AcceptedOnlyGrows | artifact_exchange.go:761-829 | over a whole run of importers and writers every ref's stream keeps its old stream as a prefix |
| ProtocolSteps.PromotionContinues | artifact_exchange.go:773-800 | an admitted promotion takes every imported ref to a commit whose stream contains the old one, even when other refs moved since it was checked |
| ProtocolProgress.PromotionImports | artifact_exchange.go:773-800 | in every run each promotion sets the imported ref of every incoming actor to its incoming commit, leaves all other refs alone, and accepts exactly the old artifacts and those of the incoming streams |
| ProtocolProgress.ImportCompletes | artifact_exchange.go:602-617 | an undisturbed import of promotable streams ends done with exactly that effect |
| ProtocolRuns.ImportRuns | artifact_exchange.go:738-829 | in every state that loads, an import of promotable streams can run to its end, with that effect and no intent touched |
| ProtocolTheorems.LostRaceIsFinal | artifact_store.go:745-749 | once the local stream has passed an intent's expected head without its key, no later state carries the key |
| ProtocolTheorems.SecondObservation | artifact_store.go:966-996 | a coherent read determines an earlier state inside the same read in which the refs were the loaded ones and, if no intent was seen, no intent existed |
| ProtocolTheorems.VerifiedAbsentWasTrue | artifact_store.go:1097-1121 | a verified_absent answer was true at the second ref observation, under any concurrent writers and importers |
| ProtocolStatus.StatusAnswer | artifact_store.go:966-1121 | a status answer rests on nine instants of its own read and is found exactly when the intent reads, lock-file probes and second ref observation agreed with the first and a source of the actor carried the key at that observation, verified_absent exactly when they agreed, no probe met a held lock, no intent existed and no source carried the key, uncertain otherwise |
| ProtocolHeads.SuccessorOnTop | artifact_revision.go:146-179 | for any earlier part of a history with sound lineage, a successor whose parents are all heads of that part supersedes exactly the current heads in it, and no head of another record |
| ProtocolHeads.RunValidates | artifact_read.go:923-998 | in every state of every run what is accepted has its lineage, unless no process has loaded it yet, and what a process has loaded is part of it |
| ProtocolHeads.SwapPublishes | artifact_store.go:853-863 | in every run a swap adds exactly one artifact, checked against what its process had loaded, a part of what is then accepted |
| ProtocolHeads.DecidedWhileCurrent | artifact_store.go:719-749 | an attempt replays, finishes or appends only after the refs it had loaded were seen again with the intent it had read |
| ProtocolHeads.SwapWasCurrent | artifact_store.go:853-863 | before every swap, after the candidate was journaled, there was an instant at which the refs were the loaded ones, so that a successor then named exactly the heads of its record |
| ProtocolHeads.SignedWhileCurrent | artifact_store.go:805-848 | every candidate to be written passed the source check at an instant when the refs were the loaded ones, and continues the chain they had then |
| ProtocolHeads.SuccessorHeads | artifact_revision.go:172-179 | in every run, whoever else writes or imports, a published successor names exactly the heads its process had loaded, several only in a resolution; it becomes a head and removes exactly those; the heads collapse to it exactly when every current head was loaded, and no other record changes |
| ProtocolRace.RaceLeavesTwoHeads | artifact_store.go:853-863 | two actors who start successors of one record can both pass the source check before either swaps, and the record then has two heads |
| ProtocolRace.RaceExists | artifact_store.go:853-863 | such a start exists: a repository with one opened record |
| ProtocolHeads.OpeningHeads | artifact_store.go:853-863 | in every run, publishing an opening makes it the only head of its new record, and publishing an opening or a declaration leaves all other heads alone |
| ProtocolHeads.SoloHasOneHead | artifact_revision.go:97-105 | with one writing actor and no imports, every record has exactly one head in every state that concurrent and crashing attempts reach |
| Bridge.HeadsAgree | artifact_revision.go:172-179 | the heads that the protocol checks and collapses are the heads of the history with the same artifacts |
| Bridge.SoloHistoryHasOneHead | artifact_revision.go:97-105 | with one writer and no imports the history of every reachable state has one head for each record |
| ProtocolProgress.AttemptCompletes | artifact_store.go:670-878 | an undisturbed attempt, the first or a retry over a prepared or publishing intent, ends with its stream extended by exactly one artifact with its request, the journaled candidate if there is one, and a published intent |
| ProtocolProgress.AcceptedCompletes | artifact_store.go:722-768 | an undisturbed attempt for a key already accepted moves no ref and ends with an unfinished intent published for the accepted artifact |
| ProtocolRuns.TryPublishes | artifact_store.go:670-878 | in every reachable state, after any crash, an attempt on an unattended and unused key whose intent expects the current head can run to its end and publishes exactly one artifact, the journaled candidate if there is one |
| ProtocolRuns.TryFinishes | artifact_store.go:722-768 | in every reachable state an attempt on an accepted key can run to its end: no ref moves, and an unfinished intent ends published with the accepted artifact |
| Validation.Validate | artifact_read.go:923-998 | the validation loop, check by check and in any order, accepts exactly the histories whose artifacts all satisfy the lineage rules and whose operation keys are distinct |
| Validation.ValidateParents | internal/artifact/content.go:156-188 | the pass over a successor's parents, with its list of changed type revisions compared to the conversion sources, accepts exactly when every parent satisfies the rules |
| Validation.DeclarationsRise | artifact_read.go:935-955 | on a validated history everything a declaration descends from is a declaration of its type and shape, and versions rise by at least one with each step |
| Validation.RevisionsKeepType | internal/artifact/content.go:141-165 | everything a revision descends from is a revision of the same record with the opening's type and shape, down to the opening alone |
| Validation.RecordEdge | internal/artifact/content.go:156-188 | a revision keeps its parent's type revision, a conversion changes it, and any edge changes it exactly when it is listed as a conversion |
| Validation.OnlyConversionsChange | internal/artifact/content.go:156-188 | along a descent without a listed conversion the type revision is constant |
| Validation.FieldsFitSchema | internal/artifact/content.go:96-112 | every record's fields lie in the schema of a present declaration of its own type and shape |
| Catalog.RecordHeads | artifact_catalog.go:39-59 | the scan returns, in increasing order, exactly the unsuperseded revisions of the record |
| Catalog.RecordHeadCount | artifact_store.go:522-537 | the count is the number of unsuperseded revisions |
| Catalog.SameIds | artifact_revision.go:206-221 | element-by-element comparison decides list equality |
| Catalog.CheckHeads | artifact_revision.go:172-179 | a successor is current exactly when its parents are all the heads of its record, as a set, and a revision or conversion of a record with several heads is a resource conflict |
| Catalog.BuildCatalog | artifact_catalog.go:60-134 | construction succeeds exactly when every record artifact has its lineage and every record an active revision; it lists revisions and active revisions in order |
| Catalog.IndexEqualsScan | artifact_catalog.go:106-133 | on a validated history the one-pass index and the per-record scan have the same heads |
| Catalog.EveryRecordHasHead | artifact_catalog.go:128-130 | acyclic ancestry leaves every record a head |
| Catalog.LoadedIsIndexable | artifact_catalog.go:60-134 | no refusal of catalog construction is reachable on a loaded history |
| Catalog.HeadsBothWays | artifact_catalog.go:39-133 | on a loaded history index and scan are the same sorted list, whose length is the head count and at least one |
| Closure.Queue.Add | artifact_closure.go:29-45 | an ID is queued once, and refused only beyond the read limit |
| Closure.Drain | artifact_closure.go:80-150 | the worklist ends, whatever the links cycle, with exactly the least closed set over the roots |
| Closure.ClosedHoldsPrefix | artifact_closure.go:173-187 | a closed set holds a prefix of every actor chain |
| Closure.AncestryIsClosure | artifact_closure.go:173-187 | the ancestry of the selected tips is exactly the closed set |
| Closure.SelectTips | artifact_closure.go:173-187 | for each actor the tip is the last selected artifact of the chain, and only touched actors have one |
| Closure.NoteLinks | artifact_closure.go:114-133 | one note for each link to an absent target or to a logical target with several heads, and no other |
| Closure.SelectClosure | artifact_closure.go:47-187 | on a loaded history selection succeeds exactly for nonempty known roots and returns the sorted least closure, exactly the notes each artifact deserves, and tips whose ancestry it is |
| Export.RequiredHeadsKept | artifact_closure.go:110-150 | a record whose heads all lie in a closed set has the same heads in the exported part |
| Export.NeedsKept | artifact_closure.go:80-150 | a selected artifact needs the same artifacts in the export as in the full history |
| Export.ClosureKept | artifact_closure.go:80-150 | recomputing the closure of the same roots in the export gives the same set |
| Export.ValidationKept | artifact_read.go:923-998 | the exported part of a validated history validates |
| Export.ChainKept | artifact_closure.go:173-187 | each actor chain, cut after its tip, is still linked from genesis |
| Export.ExportLoads | artifact_exchange.go:648-737 | the export consists of exactly the selected artifacts, loads, and can be catalogued |
| Export.ExportRoundTrip | artifact_closure.go:47-187 | export, then re-read: it loads, the closure is the same set, and every required logical target keeps exactly its heads |
| Diagnostics.Diagnose | artifact_catalog.go:172-262 | the diagnostics walk ends on cyclic links with one note for each noteworthy link on exactly the artifacts that required links reach |
| Diagnostics.RecordDiagnostics | artifact_catalog.go:145-167 | a record view's diagnostics are those of the reach of its current heads |
| Diagnostics.NothingRequiredIsMissing | artifact_catalog.go:219-226 | on a loaded history the note for a missing required target is unreachable |
| Diagnostics.RequiredNotesKept | artifact_catalog.go:219-233 | exporting changes no note on a required link |
| Admission.PreflightSource | artifact_read.go:498-539 | walking one source keeps every finished commit grounded, its parent finished and all sizes counted; any refusal, for size, count, cycle or a missing commit, means nothing could be admitted |
| Admission.Preflight | artifact_read.go:485-541 | a pass puts the sources in a parent-closed, cycle-free set of at most 100000 commits within both byte limits; a refusal proves that no such set exists |
| Load.Reverse | artifact_read.go:432-434 | swapping from both ends reverses the chain |
| Load.Reader.Visit | artifact_read.go:406-430 | a cycle refusal means the tip never descends to a genesis, a count refusal that more commits are needed than the limit |
| Load.Reader.Walk | artifact_read.go:404-431 | the walk returns the whole ancestry of the tip, all by the source's actor, and caches exactly that |
| Load.Reader.Verify | artifact_read.go:435-452 | an accepted chain starts at genesis and each envelope continues its predecessor; exactly its commits are indexed by ID |
| Load.Reader.Merge | artifact_read.go:453-467 | the longer of two agreeing chains is kept, and a refusal means neither is a prefix of the other |
| Load.Reader.ReadSource | artifact_read.go:393-468 | an accepted source keeps cache, index and chains consistent, shrinks no chain and lies on its actor's chain, also when its tip was cached already; a refusal other than for a cycle or the count means that no verified streams continue the known chains and pass through the tip |
| Load.StaysListed | artifact_read.go:448-451 | indexing a longer stream never changes which commit an indexed ID means |
| Load.ReadHistory | artifact_read.go:383-468 | succeeds exactly when the preflight passes and all sources fit one family of verified streams; then every source's stream is a prefix of its actor's chain, every chain is some source's stream, the index is exactly their union and within the read limit; after a passed preflight the cycle and count refusals of the full walk are unreachable |
| Load.IndexWithin | artifact_read.go:485-541 | the index is no larger than the set the preflight admitted |
| Load.LoadedIsChained | artifact_read.go:435-467 | a loaded result has the chain structure that closure and export rely on |
| Load.LoadHistory | artifact_read.go:383-477 | reading and validating succeeds exactly when the preflight passes, the sources fit one family of verified streams and the result validates, and then yields a loaded history, the premise of every catalog, closure, export and diagnostics result |
| Reread.SelectedTips | artifact_closure.go:173-187 | the selected tips are the commits that end the selected parts of the chains |
| Reread.RereadIsRestriction | artifact_exchange.go:648-737 | whoever reads the selected tips in a repository that holds the selected commits gets exactly the exported part of the history |
| Reread.ExportAdmitted | artifact_read.go:485-541 | the preflight of an export passes: the selected commits are a parent-closed part of what was admitted |
| Reread.ExportCoherent | artifact_read.go:435-467 | the selected parts of the chains are verified streams through every exported tip, so that no check of the full walk refuses them |
| Reread.RereadLoads | artifact_exchange.go:648-737 | a delivered reading of an export of a loaded history is loaded and selects the same closure |
| Reread.ReadExport | artifact_exchange.go:648-737 | loading the selected tips, in any repository that holds the selected commits, succeeds and yields exactly the exported part of the history |
| Depth.Walker.Walk | contribution_exchange.go:776-803 | a depth is returned only if it is the exact longest path from the node and within the limit; a refusal means the graph is not admissible |
| Depth.GraphDepth | contribution_exchange.go:772-815 | succeeds exactly on dependency-closed graphs whose paths fit the limit, with the longest path's node count, in any iteration order |
| Depth.AdmissionMeaning | contribution_exchange.go:780-801 | that condition holds exactly when the graph is closed, acyclic, and its longest path fits |
| Depth.Pump | contribution_exchange.go:780-782 | a cycle yields arbitrarily long paths |
| Depth.AcyclicIsShort | contribution_exchange.go:780-782 | in a closed acyclic graph no path has more nodes than the graph |
| Checkpoints.VerifyCheckpoints | contribution_records.go:242-316 | succeeds exactly when, within the bound, every current checkpoint is present from the tip down to a commit whose first parent lacks it and whose merge is ratified; discontinuity needs a tip policy other than the current one, the final refusal a zero reference |
| Checkpoints.NotPresent | contribution_records.go:289-292 | a pending checkpoint can be missing only at the tip |
| Checkpoints.VerifyPolicyHistory | contribution_records.go:192-238 | succeeds exactly when, within the bound, every policy is readable and every change of digest after adoption is ratified |
| Checkpoints.GovernedEstablishes | contribution_records.go:270-316 | in a governed history every current checkpoint that the adopted policy lacks is established by a ratified introduction |
| Collision.PrefixBlock | automerge.go:586-590 | strings with a given prefix are contiguous from the first string not below that prefix |
| Collision.SearchStrings | automerge.go:582 | binary search finds the boundary below which all elements are smaller |
| Collision.BoundaryFindsPrefix | automerge.go:586-590 | some element has the prefix exactly when the element at the boundary has it |
| Collision.IgnoredPathCollision | automerge.go:579-605 | for every sorted list and path the fast test holds exactly when some changed path equals the path, lies below it or is one of its ancestor components |
| Collision.PredecessorHidesAncestor | automerge.go:579-580 | a concrete list in which the lexical predecessor of a path hides its changed ancestor |
| Search.AddWorkExact | artifact_search.go:138-147 | in 64-bit arithmetic a charge is accepted exactly when the true sum fits the budget, and is then the true sum |
| Search.Preflight | artifact_search.go:228-252 | the whole selection is admitted exactly when instructions times the bytes of all its fields are within the budget, in wrapped arithmetic |
| Search.SelectRecords | artifact_search.go:205-211 | the selection is the sorted list of the records of the wanted type |
| Search.ScanPage | artifact_search.go:255-279 | the page and what its end stands for make up what the scan began with; stopping early means a full page and a further match |
| Search.ReadSearch | artifact_search.go:181-300 | succeeds exactly for a limit in 1..200, an acceptable cursor, an admitted selection and an unchanged cut, with each refusal's code; the page is the next matches, its cursor exists exactly when another match remains, and is always accepted |
| Search.EveryMatchOnce | artifact_search.go:205-300 | following cursors with any limits to the end yields, exactly once and in ID order, every record of the wanted type with a field that the expression accepts or that holds the text |
| Search.CursorPagesAreFull | artifact_search.go:267-281 | a page with a cursor holds exactly its limit, and a run has at most one page more than there are matches |
| Manifests.TraverseObjects | project_snapshot.go:359-393 | enumeration succeeds exactly when all objects reachable over the whole history fit the object and byte limits |
| Manifests.FrameObjects | contribution_exchange.go:1985-1992 | framing succeeds exactly when before each object the material so far, the allowance and the object fit |
| Manifests.OnlyLastFrameMatters | contribution_exchange.go:1985-1992 | checking before every object comes to checking before the last |
| Manifests.GraphOfHistory | contribution_exchange.go:691-771 | the object graph of a history is dependency-closed and its longest path has two nodes more than the history has commits |
| Manifests.ReadManifest | contribution_exchange.go:2058-2155 | reading a contribution commit, with the memoised depth walk, succeeds exactly when its whole history fits every limit and its manifest is well formed |
| Ledgers.ValidateLedger | internal/contribution/policy.go:341-378 | the pass over windows and reservations accepts exactly the ledgers with distinct windows and intents, known windows and true counters |
| Ledgers.TryReserve | internal/contribution/policy.go:266-306 | an identical reservation is replayed, a new one charged and appended exactly when it is within the limits and both budgets |
| Ledgers.ReserveAfforded | internal/contribution/policy.go:290-305 | a reservation keeps all windows and the retained total within their budgets |
| Ledgers.RollLedger | internal/contribution/policy.go:315-338 | a window rolls over exactly when authorized, expected, charged to and followed by a window never used |
| Ledgers.RollKeeps | internal/contribution/policy.go:315-338 | rolling over keeps the ledger consistent and within every budget, with retention not reset |
| JournalLoad.LoadJournal | contribution_exchange.go:1096-1159 | the checks made on reading the journal back, in one pass, accept exactly the loadable journals |
| JournalSteps.GoodLoads | contribution_exchange.go:1096-1159 | every journal that satisfies the invariant passes all structural checks of the next load |
| JournalSteps.ThreePerPlan | contribution_exchange.go:1149-1151 | the reservation always covers three objects for each retention plan |
| JournalSteps.WrittenIsCharged | contribution_exchange.go:2511-2540 | every object ever written belongs to a journaled plan with its exact charge, and baseline plus all plans of that attempt stay within the reservation |
| JournalSteps.AppendKeeps | contribution_exchange.go:1214-1226 | saving a reservation with its fresh attempt keeps the invariant |
| JournalSteps.RolloverKeeps | contribution_exchange.go:1595-1611 | saving a rolled-over ledger keeps the invariant |
| JournalSteps.SettleKeeps | contribution_exchange.go:1404-1428 | saving an outcome with its marks keeps the invariant when a pending outcome clashes with no durable artifact |
| JournalSteps.AddPlanKeeps | contribution_exchange.go:2511-2540 | journaling a plan that fits keeps baseline plus all charges within the reservation |
| JournalSteps.ObjectKeeps | contribution_exchange.go:2291-2300 | an object of a journaled plan may be written at any time |
| JournalSteps.RefKeeps | contribution_exchange.go:2432-2444 | moving a ref along a durable plan loses no retained record |
| Intake.FindCrossConflict | contribution_exchange.go:1383-1402 | true exactly when the two artifacts hold different records for one actor and intent |
| Intake.FindIntentConflict | contribution_exchange.go:1369-1382 | true exactly when one artifact does so by itself |
| Intake.MarkConflicts | contribution_exchange.go:1404-1428 | exactly the attempts with clashing durable artifacts are marked, and the new attempt is in conflict exactly when it clashes, with itself or another, or was so before |
| Intake.Read | contribution_exchange.go:1254-1292 | a source is read exactly when it is the artifact and passes inspection, with its exact measurements; otherwise at most its length is recorded |
| Intake.Replay | contribution_exchange.go:1194-1213 | a known intent is answered with its attempt exactly when it repeats artifact and refs and is not in conflict, and a repeated artifact and selection with the first settled attempt of them |
| Exchange.ContributionExchange.Examine | contribution_exchange.go:1230-1328 | at every fault and crash the outcome can be saved without breaking the invariant; an undisturbed pass settles the attempt exactly when its artifact and every other durable one can be inspected, and otherwise makes nothing durable |
| Exchange.ContributionExchange.Receive | contribution_exchange.go:1176-1328 | keeps the invariant at every crash point, charges exactly new affordable intakes and before anything becomes durable, answers replays without change and exactly as the journal has them; undisturbed, the new attempt settles with exact outcome, measurements and marks or fails with nothing durable, exactly as the fields of the artifact allow |
| Exchange.ContributionExchange.Rollover | contribution_exchange.go:1595-1611 | replaces the ledger by the rolled-over one exactly when that is allowed, and nothing else |
| IntakeRuns.Execute | contribution_exchange.go:1176-2560 | each operation, with any faults and any crash, keeps the invariant, undoes nothing, moves refs only along durable plans and touches only what its kind may |
| IntakeRuns.RunAll | contribution_exchange.go:1176-2560 | in every world of every run of operations on a fresh exchange the journal passes the next load; no two pending attempts clash; every settled attempt's artifact verifies, belongs to the project and has the attempt's refs, and its bytes, objects, events and depth with all allowances are within the reservation and, when pending, recorded exactly; the charges of each window and of all time are within their budgets; every object is charged to a journaled plan, and every attempt with plans keeps baseline plus full charges within its reservation; between any two worlds conflicts stay and no file, object, plan or retained record is lost |
| IntakeRuns.ChargedWhenAffordable | internal/contribution/policy.go:285-305 | a new intake is charged exactly when the limits are positive, fewer than 16384 attempts exist and one more fits both budgets |
| IntakeRuns.MarkUnmeasured | contribution_exchange.go:1404-1428 | an input at which an attempt in conflict carries no measurements: its process died after the artifact became durable and a clash marked it; recovering measures it |
| IntakeRuns.SettlesUnlessLocked | contribution_exchange.go:404-486 | a new intake can settle exactly when its artifact verifies, belongs to the project, has the selected refs and with 4096 bytes and three objects for each actor and 512 bytes, two objects and an event for each record is within the limits, and no journaled attempt names a durable artifact that fails the refs or limits of that attempt |
| IntakeRuns.LockUp | contribution_exchange.go:1404-1418 | an input that brings a lock about: one artifact taken in first with wrong and then with right refs, after which no intake ever settles again |
| Exchange.ContributionExchange.Recover | contribution_exchange.go:1509-1555 | settles an interrupted attempt from its durable artifact exactly when everything can be inspected, answering it exactly when it ends pending and a signed conflict otherwise; changes nothing otherwise and never undoes a conflict |
| Retention.PlanManifest | contribution_exchange.go:2172-2289 | the plan is the union commit of expected and new records, or expected itself when nothing is new, with its object count and charge; refused exactly when the expected commit cannot be read within the limits or the new one exceeds them |
| Retention.HasRoom | contribution_exchange.go:2512-2530 | replacing the allowances in the measured size by the charges of all plans leaves room exactly when baseline plus charges fit the reservation |
| Exchange.ContributionExchange.WriteObjects | contribution_exchange.go:2291-2300 | objects are written one by one, each crash leaving only objects of the journaled plan |
| Exchange.ContributionExchange.Finish | contribution_exchange.go:2418-2453 | the ref moves only from the plan's expected to its head, and success means the records are retained |
| Exchange.ContributionExchange.Install | contribution_exchange.go:2541-2557 | objects, then the durable flag, then the ref; succeeds undisturbed exactly when the whole resulting history fits the object, byte and depth limits and the ref is the expected one or already moved |
| Exchange.ContributionExchange.Resume | contribution_exchange.go:2457-2510 | an undisturbed later try succeeds exactly when it names the same expected commit, the ref can still move or has moved, and, before its objects are durable, the history fits |
| Exchange.ContributionExchange.Start | contribution_exchange.go:2470-2557 | an undisturbed first try succeeds exactly with records of the actor, the expected ref, a readable prior history, a plan within the limits and the room left, and a resulting history within the limits; if only the last fails, exactly its plan is journaled, not durable, and the ref is unmoved |
| Exchange.ContributionExchange.RetainActor | contribution_exchange.go:2376-2560 | at every fault and crash the invariant holds and refs follow durable plans; success means the actor's records are retained; an undisturbed try, first or later, succeeds exactly when it is allowed, and a first try refused only for the resulting history leaves exactly its plan journaled |
| Retention.DoomedPlan | contribution_exchange.go:2291-2310 | a journaled plan whose history would exceed the limits never becomes durable, and no later try for its actor in that attempt succeeds |
| Outgrown.RetainInVain | contribution_exchange.go:2502-2557 | whenever planning and room allow a plan but its history does not fit, taking in the artifact and retaining leaves exactly that plan journaled, not durable, with the ref unmoved, and no later try for the actor ever succeeds |
| Outgrown.RetainSecondInVain | contribution_exchange.go:2502-2557 | a complete input at which this happens: one record retained, a second needing seven objects under a limit of nine, a history of ten |
| Retention.SamePlan | contribution_exchange.go:2507-2510 | recomputing an interrupted plan gives the journaled plan, within its limits |

## Left out

- Git subprocesses and pipes, file modes, fsync, path safety, temporary directories: only atomic saves, immutable objects and compare-and-swap remain.
- Cryptography, hashing, base64, JSON and schema validation: injective or abstract (`Artifact.fields`, `Artifact.schema`, `Bundle.sound`, `Stored.readable`).
- `Reduce` and `Evaluate` of `internal/contribution`: policy evaluation is not part of this model, and whether a maintainer authorized a rollover is an input.
- Fetch and push (`artifact_replication.go`): they rest on the behaviour of a remote repository.
- Timeouts and cancellation: one more place where a step may stop or fail, not a separate outcome.
- Closure.SelectClosure: the inventory of commits, trees and blobs behind the selected artifacts is not part of its result.
- Command lines, output rendering, forge adapters, runners and sandboxes.
- Legacy manifest plans without material, which permit exact replay only, and local native descriptors, which have no artifact file.
- ProtocolTheorems.VerifiedAbsentWasTrue: refusals that the source raises between the first observations are merged into not continuing, and reasons inside an uncertain answer are collapsed.
- Intents carry the request and the produced artifact, not the result details (head count, conflict flag) that are printed from them.
- Which error text a refused mutation prints is not modelled; the refusal ends the attempt.
- Load.ReadHistory: the full reader's own byte budget and the final comparison of source witnesses are not modelled; validation follows in `Load.LoadHistory`.
- Checkpoints.VerifyPolicyHistory: whether one merge ratifies a transition is an input; what a valid merge event is belongs to validators that are not part of this model.
- Search.ReadSearch: compiling an expression and the 8 MiB response limit are not modelled; cursors are values, so their encoding is not either.
- Exchange.ContributionExchange.RetainActor: other programs that write the same contribution refs are not modelled.
- Manifests.ReadManifest: schema, tree names, signatures and single-object ceilings of a commit are one input, `Universe.canonical`; the bound on the listing of its tree is implied, since the closure framed before it holds every listed blob with a longer header.
- Exchange.ContributionExchange.Receive: the syntax checks on intent text and ref names, failure texts and elapsed milliseconds are not modelled.
- A journal save that is refused for its size acts like a crash before the save; the exact conditions of `Receive`, `Recover` and `RetainActor` do not mention that refusal.
- Machine-integer overflow outside the search budget: depths and journal sums are bounded by configured limits before they are compared.
