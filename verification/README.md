# Verified models of the bridge and of two repository gates

A Dafny 4.11 model of the parts of this repository whose correctness is a matter of whole runs: the matching
behind the wording baseline, the row-lock audit as an abstract interpreter, the device journal with its crash
recovery and the executors it brackets, the native copy/move helper, the folder-trigger pipeline, the dual
transport, and the terminal's fragmenter and authority lease.
`dafny verify dfyconfig.toml` checks the whole project.

| files | what they model |
|---|---|
| Kuhn, Exchange, BaselineGate, BaselineOrder, BaselineCurrent, BaselineCheck | `scripts/user-text-regex-gate.ts`: the matching, growth and notices, order, and the multiset check |
| RowLockLanguage | a TypeScript-like language with a concrete semantics over a heap and an oracle, which the audit is proved against |
| RowLockAudit, RowLockFacts, RowLockLocals, RowLockHeap, RowLockSound, RowLockRuns, RowLockReach, RowLockRoutes, RowLockExact, RowLockGaps | `scripts/row-lock-audit.ts`: the pruned walk, its soundness, the search, where it is exact and where it is unsound |
| Journal, JournalRuns, FileCommands, FolderTriggers | `apps/rice-bridge/src/journal.ts` as transactions over durable tables, and all runs of them |
| Statuses, Changeset | `changeset-executor.ts`, `executor.ts` and `file-organization.ts` over the journal and the native helper, with a crash at any point |
| NativeMove | `Mutation` of `native/FileGuardian.swift` over an abstract directory that others change meanwhile |
| Watcher, DualTransport, Fragmenter, Lease | the watcher's queue, the two carriers, the screen fragments, the terminal authority |

State that the source changes step by step is a class whose methods are proved against functions on values;
the properties of whole runs are lemmas about those functions. Interleavings are sequences of events, and a
lemma over every sequence is a lemma over every interleaving.

## Where the code and its documentation differ

- The comment on `baselineChange` says that no owner and no `#2` kind gains a site. For a given comparison, a group
  of sites (those of some owners, of some kinds, or any other) gains nothing beyond `growth` in any order of the
  current entries if and only if no more of its sites can be matched than it had before (`GainsExactly`). Over all
  inputs, a set of kinds never gains exactly when it is empty, the whole of `PENDING` or all kinds (`BaselineChange`,
  `UnstableKindsGain`), and every non-empty set of owners can gain (`OwnersGain`); it gains at most what `growth` and
  the notices of moves into it show (`BaselineChange`).
- The same comment says that the order of entries never decides the result. The number of growth sites, hence of
  matched sites, and the list for a given current baseline do not depend on order (`CountIgnoresOrder`,
  `ListIgnoresBaseOrder`). Which current sites are called growth is the same for every order of the current entries
  if and only if the copies of each site and the other sites can be matched to the full together
  (`OrderDecidesNothing`); `ListDependsOnCurrentOrder` is an input where they cannot. `notices` depend on order too:
  a site with an edited and a moved candidate is paired with the one listed first in the base. What holds of
  `notices` in every order is that they are those of a largest matching (`BaselineChange`).
- The audit loses locks when it knows what a switch is on but not a label (`UnknownLabelMissed`), when a name
  unpacked with `let` is assigned later (`ReassignedUnpackMissed`), when a parameter's default assigns another
  parameter (`AssigningInitializerMissed`), when a local shadows a pinned parameter (`ShadowedNameMissed`), when a
  name is unpacked in two scopes (`RepeatedUnpackMissed`), and when a pinned property is written through another
  name (`SharedObjectMissed`), in a callee (`CalleeWriteMissed`) or by code it does not see (`UnseenWriteMissed`).
  The soundness theorems exclude each of these by a condition that can be checked: `Auditable` on the program, and
  `Settled` on the program and the states reported, which asks that known switches have known labels and that no
  property a reported state relies on is assigned anywhere in the program. Where every branch and switch of a settled
  route is decided the report is also exact (`RouteExact`).

## Model

| member | source | states |
|---|---|---|
| Kuhn.Augment | scripts/user-text-regex-gate.ts:1458-1468 | one search either gives the site a partner and keeps every other matched site matched, or leaves the owners alone and returns the exhausted set of base sites that certifies failure |
| Kuhn.CertificateBounds | scripts/user-text-regex-gate.ts:1458-1469 | the exhausted sets of all failed searches bound every matching, so the one found is a largest |
| Kuhn.TriedStep | scripts/user-text-regex-gate.ts:1469 | the certificate of earlier failures survives each later search, whether it succeeds or not |
| Kuhn.MatchAll | scripts/user-text-regex-gate.ts:1457-1471 | the searches run over all sites give a matching of maximum size, and a site stays unmatched exactly when the maximum over the sites up to it does not grow with it |
| Kuhn.SurplusCounts | scripts/user-text-regex-gate.ts:1469-1476 | the number of unmatched sites is the number of sites minus the size of a maximum matching |
| Exchange.Swap | scripts/user-text-regex-gate.ts:1457-1469 | of two matchings, a site only the second has can join the sites of the first, or its place in the second can go to a site only the first has |
| Exchange.HeldTogether | scripts/user-text-regex-gate.ts:1457-1476 | one maximum matching holds exactly the sites that are not surplus, independently of the searches |
| Kuhn.EmbeddedSize | scripts/user-text-regex-gate.ts:1421-1423 | relabelling the sites on either side cannot lower the size of a maximum matching |
| BaselineGate.BaselineChange | scripts/user-text-regex-gate.ts:1429-1490 | growth is exactly the surplus sites, with as many as the sites now minus the maximum matching; each matched pair that differs in text, in place, or by leaving PENDING has one notice saying so, and no other notice exists; stable sets of kinds, PENDING among them, and sets of owners no edge leads out of never gain beyond growth, and any set of owners gains at most growth and the moves that notices show |
| BaselineGate.SitesListed | scripts/user-text-regex-gate.ts:1411-1419 | the sites compared are exactly those of all entries, each as often as it is listed |
| BaselineGate.PairsReviewed | scripts/user-text-regex-gate.ts:1474-1488 | every matched pair whose texts differ, whose file or owner differs, or whose kind left PENDING is shown with exactly that, once, and a pair that agrees in all of these is not shown |
| BaselineGate.EdgeDiffers | scripts/user-text-regex-gate.ts:1435-1445 | two sites of one kind have an edge exactly if they differ in at most one of text, file and owner, and two of different kinds exactly if they differ in nothing else and the kind does not go into PENDING |
| BaselineGate.Adjacent | scripts/user-text-regex-gate.ts:1447-1456 | the candidates of a site are exactly the base sites it has an edge to |
| BaselineGate.AdjacentOrder | scripts/user-text-regex-gate.ts:1447-1456 | candidates are tried once each, exact pairs first and otherwise in the order of the base |
| BaselineGate.GroupHolds | scripts/user-text-regex-gate.ts:1435-1476 | under any one-to-one pairing along edges a group of sites gains at most the unpaired sites and the pairs that lead into it from outside |
| BaselineGate.KindsHold | scripts/user-text-regex-gate.ts:1435-1445 | any one-to-one pairing along edges keeps a stable set of kinds from growing beyond the unpaired sites |
| BaselineGate.OwnersHold | scripts/user-text-regex-gate.ts:1474-1488 | a set of owners gains at most the unpaired sites and the moves into it that notices show |
| BaselineGate.ClosedHold | scripts/user-text-regex-gate.ts:1435-1476 | a group that no edge of the comparison leads out of gains nothing beyond the unpaired sites |
| BaselineGate.GrowthIsWithout | scripts/user-text-regex-gate.ts:1474-1476 | growth is the list of sites without a partner, in order |
| BaselineOrder.GrowthCount | scripts/user-text-regex-gate.ts:1469-1476 | the number of growth sites and the maximum matching add up to the sites now, for all inputs |
| BaselineOrder.CountIgnoresOrder | scripts/user-text-regex-gate.ts:1421-1423 | reordering the entries on either side does not change the number of growth sites |
| BaselineOrder.ListIgnoresBaseOrder | scripts/user-text-regex-gate.ts:1421-1423 | reordering the base does not change the list of growth sites |
| BaselineOrder.ListDependsOnCurrentOrder | scripts/user-text-regex-gate.ts:1469-1476 | reordering the current entries can change which sites are called growth |
| BaselineOrder.FirstListedWins | scripts/user-text-regex-gate.ts:1458-1476 | of two sites that compete for one base site the later one is growth |
| BaselineOrder.OwnersGain | scripts/user-text-regex-gate.ts:1421-1428 | every non-empty set of owners can gain a site without any growth |
| BaselineCurrent.Extremes | scripts/user-text-regex-gate.ts:1458-1476 | listed first, as many copies of a site are kept as can be matched alone; listed last, only as many as the others leave |
| BaselineCurrent.Between | scripts/user-text-regex-gate.ts:1458-1476 | every order of the current entries keeps a number of copies between those two |
| BaselineCurrent.OrderDecidesNothing | scripts/user-text-regex-gate.ts:1421-1423 | the growth sites are the same for every order of the current entries if and only if, for each site, its copies alone and the other sites alone add up to the maximum of all |
| BaselineCurrent.GainsExactly | scripts/user-text-regex-gate.ts:1421-1428 | a group of sites, by owner, by kind or otherwise, gains nothing beyond growth in any order of the current entries if and only if a largest matching of its sites alone is no larger than the group was before |
| BaselineCurrent.GroupFirst | scripts/user-text-regex-gate.ts:1458-1476 | listed first, a group keeps exactly as many sites as can be matched alone |
| BaselineCurrent.KeptBound | scripts/user-text-regex-gate.ts:1458-1476 | in every order a group keeps at most as many sites as can be matched alone |
| BaselineOrder.StableKinds | scripts/user-text-regex-gate.ts:1435-1445 | the stable sets of kinds are exactly those no edge leads out of |
| BaselineOrder.UnstableKindsGain | scripts/user-text-regex-gate.ts:1421-1428 | every set of kinds that is not stable can gain a site without any growth |
| BaselineCheck.CheckBaseline | scripts/user-text-regex-gate.ts:1362-1401 | added and stale are the two exact multiset differences between the sites that are not exempt and the baseline |
| BaselineCheck.UseUp | scripts/user-text-regex-gate.ts:1388-1395 | counting sites down leaves exactly the baseline minus the sites and reports exactly the sites minus the baseline |
| BaselineCheck.SplitKey | scripts/user-text-regex-gate.ts:1347-1399 | a key splits back into its file, owner and text exactly when none of the three holds a NUL |
| BaselineCheck.KeysDiffer | scripts/user-text-regex-gate.ts:1347-1348 | different entries without a NUL have different keys |
| BaselineCheck.IdsKeepKeys | scripts/user-text-regex-gate.ts:1396-1399 | the stale entries split from keys of clean baseline entries have those keys |
| RowLockFacts.PinningMore | scripts/row-lock-audit.ts:298-381 | every known result survives further pinning if and only if no property is newly pinned on a name known to be absent |
| RowLockFacts.EvaluateMonotone | scripts/row-lock-audit.ts:298-381 | a known result stays the same under compatible further pins |
| RowLockFacts.StmtReached | scripts/row-lock-audit.ts:458-497 | each write that the environment leaves live in a statement is a recorded write whose path it does not exclude |
| RowLockAudit.Pruned | scripts/row-lock-audit.ts:458-497 | going up the guards between a node and the root answers exactly whether a decided one excludes it |
| RowLockLocals.BindersHold | scripts/row-lock-audit.ts:499-592 | what is pinned for a local is what its declaration gives it in every frame that fits the pins, and a name declared more than once is pinned by none of its declarations |
| RowLockLocals.WritesHold | scripts/row-lock-audit.ts:499-552 | a write that a fitting run can reach changes no pinned name and no property pinned on that name |
| RowLockLocals.PinsFromCall | scripts/row-lock-audit.ts:499-592 | what is pinned for a parameter after the locals were added was pinned by the call |
| RowLockSound.CalleeOk | scripts/row-lock-audit.ts:383-456 | the pins computed from a call's arguments fit the values the call passes, defaults, patterns and objects shared with the caller included |
| RowLockHeap.RunBodyGrows | scripts/row-lock-audit.ts:499-552 | no run of any function, calls and code out of sight included, changes a property of any object that is assigned nowhere, through whatever name the object is reached |
| RowLockHeap.ExecGrows | scripts/row-lock-audit.ts:499-552 | the same for every statement, however it ends |
| RowLockRuns.EvalSound | scripts/row-lock-audit.ts:298-381 | in every run from a store and heap that fit the environment a known result is the value computed, store and heap keep fitting and only accounted locks are taken |
| RowLockRuns.InvokeSound | scripts/row-lock-audit.ts:682-787 | a call takes only locks accounted for by the specialization followed, by the unpinned one after the cap, or behind a barrier, and leaves the caller's pins true of the objects they share |
| RowLockRuns.IfSound | scripts/row-lock-audit.ts:867-881 | skipping a branch decided by the environment loses no lock and no exit |
| RowLockRuns.DecidedPure | scripts/row-lock-audit.ts:298-381 | an expression the environment decides changes nothing when it is run and has the decided value |
| RowLockRuns.FindDecided | scripts/row-lock-audit.ts:890-897 | with decided labels a run starts at the clause the walk starts at |
| RowLockRuns.SwitchSound | scripts/row-lock-audit.ts:886-915 | the walk of a switch accounts for every clause a run can get into, by match, default or fall-through, and for the labels it runs when the discriminant is unknown |
| RowLockRuns.ThroughSound | scripts/row-lock-audit.ts:896-915 | fall-through is followed until a clause surely exits, with breaks nested anywhere in a clause |
| RowLockRuns.ClauseFlowSound | scripts/row-lock-audit.ts:919-949 | a clause called exiting does not fall through, and one called leaving does not go on to the next |
| RowLockRuns.TrySound | scripts/row-lock-audit.ts:955-1106 | a try statement takes only the locks its three parts account for, however its body ends |
| RowLockRuns.ExecSound | scripts/row-lock-audit.ts:863-917 | every statement takes only accounted locks, and a statement said to exit never completes normally |
| RowLockRuns.BodySound | scripts/row-lock-audit.ts:669-1106 | a function run on values and a heap that fit its pins takes only locks that its summary and the summaries it leads to account for |
| RowLockReach.StatesSize | scripts/row-lock-audit.ts:640-652 | with at most 513 specializations a function there are at most 513 states a function |
| RowLockReach.Audit.StateOf | scripts/row-lock-audit.ts:640-652 | a state is the one asked for unless it is new and its function already has 512 specializations, and then it is the unpinned one; no function ever has more than 513 |
| RowLockReach.Audit.StatesOf | scripts/row-lock-audit.ts:640-652 | each callee keeps its pins unless its function is full without it |
| RowLockReach.Audit.SummaryOf | scripts/row-lock-audit.ts:669-1106 | a summary is computed once, says what the walk found, and its callees are registered states, each the one the walk named unless its function is full |
| RowLockReach.Advance | scripts/row-lock-audit.ts:1113-1125 | one round of the search finishes one state and queues exactly its unseen callees that are no barrier, with their caller recorded |
| RowLockReach.Audit.Reach | scripts/row-lock-audit.ts:1109-1126 | the search ends within 513 states a function and reports a set closed under calls up to barriers, each state once and after its recorded caller |
| RowLockReach.PathReported | scripts/row-lock-audit.ts:1109-1126 | every state at the end of a call path without a barrier is reported |
| RowLockReach.Chain | scripts/row-lock-audit.ts:1197-1216 | the chain followed back through the recorded callers is a call path from the handler to the reported state |
| RowLockReach.Audit.RouteLocks | scripts/row-lock-audit.ts:1175-1234 | the locks of a route are exactly those in the summaries of the states reached, from the entry itself unless its function is full |
| RowLockRoutes.EveryLockReported | scripts/row-lock-audit.ts:669-1126 | every lock acquired in any run of a handler from any heap, outside barriers, is in the summary of a state the search reported, if the reported states are settled and code out of sight spares the properties they rely on |
| RowLockRoutes.AuditRoute | scripts/row-lock-audit.ts:1175-1234 | whatever earlier routes left in the caches, the locks returned for a route are exactly those found in its states and, when the states are settled, hold every lock of every fitting run of its handler; while no function is full the states are exactly the specializations the entry leads to |
| RowLockRoutes.AuditRoutes | scripts/row-lock-audit.ts:669-1234 | the same for all routes of a program audited one after the other over shared caches |
| RowLockRoutes.RouteFits | scripts/row-lock-audit.ts:1128-1160 | a request with the route's method fits the pin the route starts from |
| RowLockRoutes.FixedSettled | scripts/row-lock-audit.ts:886-897 | with literal labels, or labels that need no pin, states are settled if and only if no property they rely on is assigned in the program |
| RowLockRoutes.RouteFollows | scripts/row-lock-audit.ts:1109-1216 | while no function is full a route starts at its entry and reports exactly the specializations that the walk's own callees lead to, each once and after a caller |
| RowLockExact.RouteExact | scripts/row-lock-audit.ts:669-1234 | on a settled route whose every branch and switch is decided, with no function full, a run of the handler that comes to its end takes exactly the locks reported: pruning, exits, switches and specializations report none too many |
| RowLockExact.BodyExact | scripts/row-lock-audit.ts:669-1106 | a decided function run to its end takes all the locks its summary names, and those of its callees to any depth |
| RowLockExact.EvalExact | scripts/row-lock-audit.ts:955-989 | an expression whose skipped operands are decided takes, when it completes, every lock the visit found and makes every call it named |
| RowLockExact.ExecExact | scripts/row-lock-audit.ts:863-917 | a decided statement that completes or returns takes what the walk found, and one that returns was said to exit |
| RowLockExact.ThroughExact | scripts/row-lock-audit.ts:896-949 | a decided switch is walked exactly as it runs, from the matching clause to the one that leaves or returns |
| RowLockExact.NothingBehindExits | scripts/row-lock-audit.ts:863-885 | nothing is reported from behind a return or throw, or behind a branch of which both sides exit, decided or not |
| RowLockExact.LeavesExactly | scripts/row-lock-audit.ts:919-949 | a clause may leave its switch exactly if it holds a break or continue that no inner loop or switch owns |
| RowLockExact.GroundedKnown | scripts/row-lock-audit.ts:298-381 | whatever is made of literals and of pinned names and properties is known |
| RowLockExact.SkippedUnknown | scripts/row-lock-audit.ts:298-381 | an operand that a known one skips need not be known |
| RowLockExact.PlainPinned | scripts/row-lock-audit.ts:383-456 | a plain parameter is pinned exactly if its argument or, where that is undefined, its initializer is known, and a property of it exactly if the argument is a name with that pin or a literal whose field is known |
| RowLockExact.PatternPinned | scripts/row-lock-audit.ts:383-456 | an element of a pattern is pinned exactly if the field of a literal argument or, where that is undefined, its initializer is known |
| RowLockExact.CallPinsStay | scripts/row-lock-audit.ts:499-552 | a pin of the call that nothing assigns holds in the frame |
| RowLockExact.PickPinned | scripts/row-lock-audit.ts:553-574 | a name unpacked from a pinned property that nothing assigns is pinned to it |
| RowLockExact.LocalPinned | scripts/row-lock-audit.ts:575-588 | a local declared once, decided by the call's pins, is pinned if it is fixed or assigned only in excluded branches |
| RowLockGaps.UnknownLabelMissed | scripts/row-lock-audit.ts:888-895 | a function that switches on a known value with an unknown label takes a lock no summary has |
| RowLockGaps.ReassignedUnpackMissed | scripts/row-lock-audit.ts:553-568 | a function that assigns a name unpacked with let takes a lock no summary has |
| RowLockGaps.AssigningInitializerMissed | scripts/row-lock-audit.ts:499-552 | a function whose parameter default assigns a pinned parameter takes a lock no summary has |
| RowLockGaps.ShadowedNameMissed | scripts/row-lock-audit.ts:575-588 | a function whose local shadows a pinned parameter takes a lock no summary has |
| RowLockGaps.RepeatedUnpackMissed | scripts/row-lock-audit.ts:553-568 | a function that unpacks one name from two objects in two scopes takes a lock no summary has |
| RowLockGaps.SharedObjectMissed | scripts/row-lock-audit.ts:499-552 | a function that writes a pinned property through a second name for the object takes a lock no summary has, though it meets every other condition |
| RowLockGaps.CalleeWriteMissed | scripts/row-lock-audit.ts:499-552 | a function whose callee writes a property pinned in the caller takes a lock no summary has, though both meet every other condition |
| RowLockGaps.UnseenWriteMissed | scripts/row-lock-audit.ts:499-552 | a function that hands an object to code out of sight, which writes a pinned property, takes a lock no summary has, though it meets every other condition |
| Changeset.Session.Checkpoint | apps/rice-bridge/src/journal.ts:1005-1052 | a checkpoint is one transaction of the journal: durable or not at all, it changes the status of that file and nothing else, never a final one, and after an error of the disk the journal takes no more |
| Changeset.Session.WriteFile | apps/rice-bridge/src/executor.ts:160-363 | a write or removal takes effect exactly if every check before its commit goes well and the commit happens; one refused by type had no effect, and one that returned had it |
| Changeset.Session.Native | apps/rice-bridge/src/file-guardian.ts:20-128 | by the helper's own report, a native step that failed without effect is told from one whose outcome is open, one reported as done had its effect, and one that nothing disturbs is done |
| Changeset.ExecuteOne | apps/rice-bridge/src/changeset-executor.ts:64-120 | one file is changed exactly if every point up to its commit goes well, and applied exactly if all do; lost authority is saved as canceled and a typed refusal as conflict; wherever it stops its status and its effect agree |
| Changeset.Execute | apps/rice-bridge/src/changeset-executor.ts:37-133 | the first file that is not as expected stops the run before any file is touched; otherwise files are taken in order, each changed exactly if every point up to its commit goes well, and all are applied exactly if all goes well; wherever it stops the durable statuses bracket the effects, and a run that returns reports what it saved |
| Changeset.CheckAll | apps/rice-bridge/src/changeset-executor.ts:63-88 | all files are checked before one is touched; the first that is not as expected is saved as refused and nothing is changed |
| Changeset.ExactWhenStopped | apps/rice-bridge/src/changeset-executor.ts:89-131 | a run that stopped at one file changed exactly the files whose points up to the commit all went well |
| Changeset.Organize | apps/rice-bridge/src/file-organization.ts:51-200 | the first file that is not as surveyed stops the plan before any file is touched; otherwise files are taken in order, none is touched without authority or after an abort, and all are applied if nothing goes wrong; statuses and effects agree at every stop |
| Changeset.StopAndReopen | apps/rice-bridge/src/journal.ts:302-413 | a changeset stopped anywhere, and a journal reopened and cut short and reopened again, leave one receipt more for it, true of the files really changed, and no row active |
| Changeset.StopPlanAndReopen | apps/rice-bridge/src/journal.ts:302-413 | the same for native copies and moves |
| Statuses.RecoveryTrue | apps/rice-bridge/src/journal.ts:356-404 | after a stop anywhere an applied file was written, a pending, conflicting or canceled one was not, every effect is applied or unknown, at most one file is unknown, and with none unknown the verdict says exactly whether all or none happened |
| Journal.StepFits | apps/rice-bridge/src/journal.ts:737-1003 | every transaction keeps each operation's receipts in line with its state |
| Journal.ReceiptsOfRuns | apps/rice-bridge/src/journal.ts:737-1247 | in every run with crashes the receipts of an operation are none, one final, one uncertain, or an uncertain and then a final one, with a final one exactly when it is completed |
| Journal.BegunAtMostOnce | apps/rice-bridge/src/journal.ts:798-811 | in every run with crashes an operation is claimed for execution at most once |
| Journal.NothingSavedBefore | apps/rice-bridge/src/journal.ts:798-811 | in every run with crashes an operation that is about to be begun, or has just been, has no checkpoint saved |
| Journal.LifeStep | apps/rice-bridge/src/journal.ts:737-1247 | an operation comes in by a receive with room, keeps what it was received as, and changes state only by a claim, a conclusion, a recovery or, when its outcome is open and it ran offline, by later evidence |
| Journal.ReceivedAgain | apps/rice-bridge/src/journal.ts:737-757 | a repeated dispatch is taken exactly if it is the same one, and changes nothing |
| Journal.OutboxStep | apps/rice-bridge/src/journal.ts:855-1247 | a receipt is written exactly by a step that settles its operation, and marked delivered exactly by its own acknowledgement |
| Journal.RecoversOpen | apps/rice-bridge/src/journal.ts:356-404 | recovery leaves an outcome open exactly for an execution, unless of a changeset none of whose files is open |
| Journal.CheckpointStepIs | apps/rice-bridge/src/journal.ts:1005-1052 | a checkpoint is kept exactly for a file of a running changeset without a final status |
| JournalRuns.RecoveryResumes | apps/rice-bridge/src/journal.ts:302-413 | a recovery interrupted any number of times and then completed leaves every row and its receipts as one uninterrupted recovery does, and no row active |
| JournalRuns.CrashedChangeset | apps/rice-bridge/src/journal.ts:356-404 | the receipt that recovery writes for a crashed changeset is true of the effects and uncertain exactly when one file is unknown |
| JournalRuns.ReopenedChangeset | apps/rice-bridge/src/journal.ts:302-413 | recovery adds exactly that one receipt, however often it was itself interrupted |
| JournalRuns.OutputOfRuns | apps/rice-bridge/src/journal.ts:1250-1301 | in every run the chunks of an operation are numbered without gaps from 0 and hold at most 65,536 bytes |
| JournalRuns.RecordedExactly | apps/rice-bridge/src/journal.ts:1250-1301 | in every run output is taken exactly if it repeats a recorded chunk or is the next of a running process within 256 chunks and 65,536 bytes |
| JournalRuns.OverRun | apps/rice-bridge/src/journal.ts:1250-1301 | once an operation is over its output never changes but for the marks of delivery, which only grow |
| JournalRuns.MarkedExactly | apps/rice-bridge/src/journal.ts:1316-1324 | in every run a chunk is marked delivered exactly when it was acknowledged by its own number after it was recorded |
| JournalRuns.OfferedExactly | apps/rice-bridge/src/journal.ts:1344-1360 | in every run a receipt is offered exactly if it is not delivered and each chunk of its operation was acknowledged |
| JournalRuns.OfferedReceiptIsLast | apps/rice-bridge/src/journal.ts:1344-1360 | when a receipt is offered, every chunk its operation will ever have is already delivered, each acknowledged by its own number |
| JournalRuns.BridgeJournal.Transact | apps/rice-bridge/src/journal.ts:685-708 | a transaction happens as a whole or not at all; a refusal leaves the journal usable, and an error of the disk, and nothing else, poisons it for this process |
| JournalRuns.BridgeJournal.BeginOperation | apps/rice-bridge/src/journal.ts:798-811 | an operation is claimed only from received, and the claim is durable before it is reported |
| JournalRuns.BridgeJournal.RecoverRows | apps/rice-bridge/src/journal.ts:351-413 | recovery cut short anywhere has closed a prefix of the rows, and a complete one leaves none active |
| FileCommands.FitsAlways | apps/rice-bridge/src/journal.ts:467-584 | in every run a command is executing exactly while it has no answer, and only answered commands are delivered |
| FileCommands.StepKeeps | apps/rice-bridge/src/journal.ts:467-584 | no step changes an answer; a row goes away only when completed, by an acknowledgement, its own or after it was delivered; and only a begin makes one |
| FileCommands.PruneFinds | apps/rice-bridge/src/journal.ts:564-584 | pruning removes delivered completed rows only and leaves every other row as it was |
| FileCommands.BegunOncePerRetention | apps/rice-bridge/src/journal.ts:467-498 | a command was begun once for each time it was pruned and once more if it is retained |
| FileCommands.AnswersStay | apps/rice-bridge/src/journal.ts:500-532 | from any point of a run on an answered command keeps its answer for as long as it is retained |
| FileCommands.BeginExactly | apps/rice-bridge/src/journal.ts:467-498 | a command is begun exactly if no row has its id and there is room for a row more |
| FileCommands.CompleteExactly | apps/rice-bridge/src/journal.ts:500-532 | an answer is taken exactly for the command it belongs to, the first time or again, and changes no other row |
| FileCommands.RecoverExactly | apps/rice-bridge/src/journal.ts:304-327 | recovery answers exactly an unanswered command, as unknown |
| FileCommands.PruneExactly | apps/rice-bridge/src/journal.ts:572-582 | a row stays exactly if it may not be dropped or fewer than the retained number of droppable ones came after it |
| FileCommands.AcknowledgeExactly | apps/rice-bridge/src/journal.ts:564-584 | an acknowledgement marks exactly its own answered command and then drops exactly the delivered completed rows beyond the newest that are retained |
| FileCommands.NewestIsKept | apps/rice-bridge/src/journal.ts:564-584 | the newest command survives its own acknowledgement, so that a repeat of it is not begun again |
| FileCommands.Queue.BeginCommand | apps/rice-bridge/src/journal.ts:467-498 | a command is begun exactly when it has no row and there is room for one more row and its bytes |
| FileCommands.Queue.RecoverRows | apps/rice-bridge/src/journal.ts:304-327 | recovery answers exactly the lost commands it gets to, as unknown, and leaves every other row as it was |
| NativeMove.Mutation.VerifySource | apps/rice-bridge/native/FileGuardian.swift:435-444 | nothing is created or renamed before the source is verified, and then the source is the verified file and the destination is free |
| NativeMove.Mutation.CommitTarget | apps/rice-bridge/native/FileGuardian.swift:459-466 | the copy gets the target name only when that is free, and the step ends well only if it is still there with the verified bytes and the source unchanged |
| NativeMove.Mutation.DetachSource | apps/rice-bridge/native/FileGuardian.swift:467-482 | the source name is detached whatever it holds, and the step ends well only if that is the verified file and the target holds the committed copy |
| NativeMove.Mutation.RemoveSource | apps/rice-bridge/native/FileGuardian.swift:467-492 | only the verified file is ever unlinked, and only after the target was seen to hold the committed copy |
| NativeMove.Mutation.Execute | apps/rice-bridge/native/FileGuardian.swift:435-501 | wherever it stops, and whatever others do to the target, the verified bytes are under the source or quarantine name until the source is unlinked, unless others changed the source before it was detached; a committed target others left alone holds them; no file of others is overwritten or lost; and it finishes if nobody disturbs it and the source and target are as asked for |
| NativeMove.Mutation.Failure | apps/rice-bridge/native/FileGuardian.swift:502-510 | a report is failed exactly if the helper changed nothing, and an unknown report names every file left behind, a private one exactly if it is there |
| FolderTriggers.Tables.CommitSnapshot | apps/rice-bridge/src/journal.ts:1461-1612 | the transaction commits exactly what the specification says or changes nothing |
| FolderTriggers.CommitFiles | apps/rice-bridge/src/journal.ts:1497-1525 | a complete scan replaces the snapshot, and any other scan only adds to it and drops no known file |
| FolderTriggers.CommitEvents | apps/rice-bridge/src/journal.ts:1508-1598 | each changed file gets one row if it had none, and exactly the changes not yet delivered are queued, each once |
| FolderTriggers.CommitWhen | apps/rice-bridge/src/journal.ts:1461-1612 | when a scan is committed, and otherwise for which first reason it is refused: unreadable, expired, another rule, another folder, no baseline, or no room |
| FolderTriggers.LimitsAre | apps/rice-bridge/src/journal.ts:1427-1459 | at most 1,000 events and no more than the entries are pending, and the history holds four times the entries within 32 and 10,000 |
| FolderTriggers.ForgetExactly | apps/rice-bridge/src/journal.ts:1635-1656 | a path is forgotten exactly for a matching rule and the folder of the scope, and nothing else changes |
| FolderTriggers.AcknowledgeExactly | apps/rice-bridge/src/journal.ts:1680-1697 | an event is marked delivered exactly by an acknowledgement for its own rule, and no other row changes |
| FolderTriggers.RetireExactly | apps/rice-bridge/src/journal.ts:1699-1722 | a scope is retired with exactly its rows exactly if all its events were delivered |
| FolderTriggers.FitsAlways | apps/rice-bridge/src/journal.ts:1427-1459 | in every run event rows are unique, belong to a live scope and stay within the pending, history, scope and file limits |
| FolderTriggers.StepKeepsRow | apps/rice-bridge/src/journal.ts:1680-1722 | a row only goes from queued to delivered by its acknowledgement, and only retiring removes it, when it was delivered |
| FolderTriggers.NewOncePerScope | apps/rice-bridge/src/journal.ts:1555-1598 | a version of a path is queued as new once in the life of a scope, across unlink and reappearance |
| FolderTriggers.SnapshotExplained | apps/rice-bridge/src/journal.ts:1461-1612 | every version in a snapshot is from the first baseline of the scope or has exactly one event row |
| FolderTriggers.DeliveredNotQueuedAgain | apps/rice-bridge/src/journal.ts:1566-1582 | until its scope is retired a delivered event is never queued again |
| Watcher.SoundAlways | apps/rice-bridge/src/folder-trigger-watcher.ts:531-580 | in every run a path has an entry exactly while it has its one job, a waiting job has a dirty entry, and there are at most 2,000 |
| Watcher.NoWakeupLost | apps/rice-bridge/src/folder-trigger-watcher.ts:531-580 | while the watcher has not failed or closed every accepted notification has a later observation or is owed one by a job |
| Watcher.IdleOwesNothing | apps/rice-bridge/src/folder-trigger-watcher.ts:511-580 | once idle every accepted notification was followed by an observation that started after it |
| Watcher.Drains | apps/rice-bridge/src/folder-trigger-watcher.ts:511-580 | without new notifications the queue gets to idle, whatever its jobs return |
| Watcher.AcceptedExactly | apps/rice-bridge/src/folder-trigger-watcher.ts:531-557 | a change is taken in exactly while the watcher runs and has the path or room for it; a known path is only marked, a new one gets its job, and one too many makes it fail |
| Watcher.RootIsChecked | apps/rice-bridge/src/folder-trigger-watcher.ts:531-545 | a change of the folder itself queues a check, and a path no rule matches does nothing |
| Watcher.StartsInOrder | apps/rice-bridge/src/folder-trigger-watcher.ts:511-518 | jobs run one at a time in the order queued, and an observation starts with a clean entry |
| Watcher.ObservesAgain | apps/rice-bridge/src/folder-trigger-watcher.ts:558-585 | a job observes again exactly while its path is dirty, up to eight times, and the watcher fails if it throws or would need a ninth |
| Watcher.FailedExactly | apps/rice-bridge/src/folder-trigger-watcher.ts:531-590 | the watcher has failed exactly if it was closed, threw, had a path too many or observed one eight times in vain |
| Watcher.ClearedWhenDone | apps/rice-bridge/src/folder-trigger-watcher.ts:511-590 | a reconciliation queues a check, and a failed watcher forgets its paths once no job of it is left |
| Watcher.Queue.OnNotify | apps/rice-bridge/src/folder-trigger-watcher.ts:531-557 | a notification marks, enqueues, fails at the limit or is ignored as specified, and keeps the queue sound |
| Watcher.Queue.StartNext | apps/rice-bridge/src/folder-trigger-watcher.ts:511-518 | the next job starts when none runs, with its entry made clean before the observation begins |
| Watcher.Queue.FinishJob | apps/rice-bridge/src/folder-trigger-watcher.ts:554-585 | the last look at the dirty flag and the removal of the entry are one step |
| DualTransport.NeverReplayed | apps/rice-bridge/src/dual-transport.ts:284-383 | in every interleaving a start, or a next without claim recovery, is on the wire at most once over both carriers, every request at most once on each, and at most 8 are pending |
| DualTransport.SentExactlyOnce | apps/rice-bridge/src/dual-transport.ts:313-383 | without a close or a refusal every request that ended was sent, exactly once if it may not be repeated |
| DualTransport.RepeatedOverHttp | apps/rice-bridge/src/dual-transport.ts:360-383 | after a lost reply exactly evidence and a next with claim recovery go to HTTP, a request never sent always does, and after close none |
| DualTransport.SentWhenUp | apps/rice-bridge/src/dual-transport.ts:284-311 | a request goes to the socket exactly when it waits for it, the link is up and takes it, and fewer than 8 pend |
| DualTransport.LinkEnds | apps/rice-bridge/src/dual-transport.ts:120-218 | the loss of the socket in use, a second or invalid greeting, or a reply before the greeting breaks exactly what pends on it, as sent |
| DualTransport.LinkStep | apps/rice-bridge/src/dual-transport.ts:80-218 | otherwise the link changes only by dialling and by the first valid greeting |
| DualTransport.CallStarts | apps/rice-bridge/src/dual-transport.ts:313-359 | a new call is refused after close, goes over HTTP if it only ever uses that, and waits for the socket otherwise |
| DualTransport.DeniedStaysOff | apps/rice-bridge/src/dual-transport.ts:284-311 | after the server refused the credentials no request goes to a socket again |
| DualTransport.LateReplyIgnored | apps/rice-bridge/src/dual-transport.ts:212-218 | no reply sends anything, a late one changes nothing, and an awaited one ends its own request only |
| DualTransport.ClosedIsSilent | apps/rice-bridge/src/dual-transport.ts:313-401 | after a close nothing more is sent for any request, in whatever phase it was |
| DualTransport.Transport.Rpc | apps/rice-bridge/src/dual-transport.ts:284-311 | a request is sent, refused or found unavailable as specified |
| DualTransport.Transport.HandleUnavailable | apps/rice-bridge/src/dual-transport.ts:360-383 | a request found unavailable goes to HTTP or ends as specified |
| DualTransport.Transport.RejectAll | apps/rice-bridge/src/dual-transport.ts:140-144 | everything pending is rejected as sent and nothing else is touched |
| Fragmenter.BytesCut | apps/rice-bridge/src/human-terminal-relay.ts:357-368 | cutting a text keeps its UTF-8 size, except that a cut inside a surrogate pair costs exactly two bytes more |
| Fragmenter.Fragment | apps/rice-bridge/src/human-terminal-relay.ts:354-371 | the parts join to the text, hold 1 to 131,072 units, all but the last at least 131,071, split no surrogate pair, and their sizes sum to the whole |
| Fragmenter.EmitNative | apps/rice-bridge/src/human-terminal-relay.ts:339-371 | a screen is refused above 2 MiB, whole up to 500,000 bytes, and otherwise 2 to 17 fragments |
| Fragmenter.FewFragments | packages/contracts/src/workbench-terminal.ts:210-219 | a screen within the limit needs at most 17 of the 32 fragments a reader takes |
| Fragmenter.RoundTrip | apps/web/app/chatflow/terminal-transport.ts:241-272 | the browser puts the very text together, with its buffer as before, exactly when the buffer has room for the whole |
| Fragmenter.RejectedExactly | apps/web/app/chatflow/terminal-transport.ts:241-258 | a fragment is refused exactly if it is malformed, out of order or of another screen, or does not fit the buffer |
| Fragmenter.TakenExactly | apps/web/app/chatflow/terminal-transport.ts:259-273 | a fragment that is taken is held, and the last one delivers the joined text and gives the room back |
| Lease.LeaseIsLastCurrent | apps/rice-bridge/src/human-terminal-host.ts:244-262 | in every interleaving the lease dates from the last current taken over and an observation is revoked exactly when revoked was, so no unknown and no late reply moves it |
| Lease.LeaseHolds | apps/rice-bridge/src/human-terminal-host.ts:227-291 | a call is let through only for the observation still in the table, with its last current less than five seconds old and never revoked |
| Lease.LeaseIsEnough | apps/rice-bridge/src/human-terminal-host.ts:271-291 | a call without refresh is let through at once exactly when the lease runs |
| Lease.NeverRevived | apps/rice-bridge/src/human-terminal-host.ts:248-270 | an observation that was removed or replaced lets no call through again, whatever arrives late |
| Lease.RemovedStaysOut | apps/rice-bridge/src/human-terminal-host.ts:248-270 | removing an owner drops its entry, and its observation lets no call through again |
| Lease.EnterExactly | apps/rice-bridge/src/human-terminal-host.ts:227-280 | a call is refused by a closed host, a full table or a revoked observation, passes at once exactly under a running lease and without refresh, and otherwise waits; a check is asked exactly if none is in flight and the call is a refresh or the last reply is 500 ms old |
| Lease.ResumeExactly | apps/rice-bridge/src/human-terminal-host.ts:281-291 | a waiting call goes on exactly when its check is cleared away and passes exactly under a running lease of the entry in the table |
| Lease.TakenExactly | apps/rice-bridge/src/human-terminal-host.ts:244-262 | a reply is taken over exactly if it is the first, the host is open and the table still has the observation |
| Lease.ClearedExactly | apps/rice-bridge/src/human-terminal-host.ts:266-269 | clearing away ends exactly a check that was replied to and lets the next one be asked |
| Lease.CheckedIsLastReply | apps/rice-bridge/src/human-terminal-host.ts:241-256 | the 500 ms count from the last reply taken over, whatever it said |
| Lease.OwnersAndClock | apps/rice-bridge/src/human-terminal-host.ts:215-225 | owners are those added and not removed since, and an entry goes only with its owner or from a full table |
| Lease.SoundAlways | apps/rice-bridge/src/human-terminal-host.ts:227-268 | in every interleaving the table has at most 128 entries, each observation has at most one check in flight, and no question about a revoked one is open |
| Lease.Host.Authorize | apps/rice-bridge/src/human-terminal-host.ts:227-280 | a call enters as specified, with one answer or one wait |
| Lease.Host.PruneEntries | apps/rice-bridge/src/human-terminal-host.ts:231-236 | exactly the entries without owner and without a check in flight are dropped |
| Lease.Host.ClearCheck | apps/rice-bridge/src/human-terminal-host.ts:266-269 | the later turn clears the check away from the observation that waited for it |
| Lease.Host.TakeAnswer | apps/rice-bridge/src/human-terminal-host.ts:244-265 | a reply is recorded only for the observation still in the table of a host that is not disposed |

## Left out

- The TypeScript compiler API, symbol and interface resolution, and `valuesOf` and its kin in the wording gate:
  the audit is modelled on a small language instead.
- From that language: spread arguments and properties, rest parameters, defaults in local destructuring and
  pattern defaults other than `{}`, loose equality, getters and setters, closures and nested functions, and callbacks
  passed as parameters. Writes other than `name = …` and `name.property = …`, such as `x[k] = …`, `delete` and
  `Object.assign`, count as code out of sight.
- EveryLockReported: asks that no local is named like a parameter, that no name is unpacked and declared again, that a
  name unpacked with let is not assigned, that initializers assign nothing, that an object literal names each
  property once, that each reported state decides the labels of the switches whose discriminant it decides, and that
  no property a reported state relies on is assigned in the program or written by code out of sight. RowLockGaps
  shows what fails without these, but for the object literals. The conditions are sufficient only: an
  assignment may never run, or write the value that was there.
- RouteExact: of states whose branches and switches are all decided, without loops, try statements, locks in
  initializers and breaks from within a branch; elsewhere the walk may name locks that no run takes.
- EveryLockReported: runs are cut off at a depth of calls and iterations; since the depth is arbitrary and a cut
  run keeps its locks, every lock of an unbounded run is in some cut one.
- CalleeOk: spread arguments and rest parameters are not in the language.
- InvokeSound: callees declared inside the caller, which inherit its pins, are not in the language.
- Pruned: the guards between a node and the root are given as a list; climbing the tree to find them is not modelled.
- CheckBaseline: does not model the `problems` list, which only reports malformed entries.
- SQLite, fsync, file modes, inode checks and path security: a transaction is atomic, and how the disk fails is a
  parameter. Digests and event ids are taken to be injective and generated ids fresh.
- Byte budgets of the journal: whether a dispatch, receipt or snapshot fits is a parameter of the transaction;
  recovery receipts are taken to fit, and a chunk number of 256 or more is a refusal.
- `LocalServiceJournal`: whether an operation's service events are delivered is the parameter `quiet`.
- Workspace selections, local MCP calls and diagnostics counts of the journal: they only add easy members.
- NativeMove: the helper's private names are not touched by others; hashing, metadata and directory checks are one
  outcome per step.
- FolderTriggers: which paths a rule matches, the clock of its admission and the byte budgets are parameters.
- Watcher: what an observation reads and records, the settling delay and the expiry timer; an observation is an
  atomic start and end with any outcome.
- `FolderTriggerCore` in `core.ts`: delivery and renewal around the watcher.
- DualTransport: reconnect timing, preview and terminal frames, and the answer of an HTTP request. A request that
  the socket library throws back counts as sent for the decision to repeat it, but not as being on the wire.
- Lease: owners are known by key, and removing an owner is an event that may come at any time; the clock may move
  either way, and ages are differences of its readings.
- `TerminalInputQueue`, the bridge app, menus, updater, HTTP clients, keychain, renderers, PDF and image tools and
  `LocalBrowserController`.
