# NICO assessment worker: a verified model

This project models the parts of NICO that decide whether evidence may be believed:

- **Runtime evidence.** The staged C/C++ runtime collection (functional tests, two
  sanitizers, fuzzing) and the independent validator that later rebuilds every command
  and accepts or refuses the record. `RuntimeTypes`, `RuntimeProducer` and
  `RuntimeCollector` are the producer, `RuntimeValidator`, `RuntimeOperations` and
  `RuntimeCollection` the checks; the other `Runtime*` modules prove that the two
  programs agree and what an accepted value means.
- **Receipt budget.** `CaptureLimits`: capped, weighted integer water-filling.
- **Delivery ledger.** `DeliveryStore` (the transactions, in place), `DeliveryProtocol`
  (all interleavings of redemptions, receipts, revocations and reconcilers),
  `DeliverySafety`, `DeliveryHistory`, and `Acknowledgments`.
- **Compiler commands.** `CompilerAllowlist` (the parser), `CompilerRewrite` (placeholder
  substitution in general), `CompilerSyntax`, `CompilerCommands`, `CompilerGenerated`,
  `CompilerProject`, `CompilerConfinement` (what accepted commands may read and write),
  and `CompilerScanners` (the loops).
- **Native test replays.** `NativeReplay` (the controller), `NativeTests` (the validator's
  loops and what an accepted record shows), `NativeAgreement`, `NativeExample`.
- **Snapshots, plans, accounting.** `ProjectPaths`, `ProjectSnapshot`,
  `FullProjectSteps`, `FullProjectRun`, `ParallelTime`, `FunctionalResults`,
  `JunitResults`.

`Names`, `Text`, `Sums` and `Results` are shared tools. Code the source runs in place is
a class or a method with loops (`RuntimeCollector.Collector`,
`RuntimeOperations.OperationCheck`, `DeliveryStore.Ledger`, `Acknowledgments.AckStore`,
`ProjectSnapshot.Staging`, the allocator, the scanners, the executor, the replay and
its validator); each is proved
equal to, or exactly described by, the functions the theorems are about. Automatic
induction is switched off on every lemma, so every induction is written out.

Outside inputs are parameters: what a command does (`RuntimeProducer.Outcome`), digests and the JSON,
CSV, XML and text readers (`World` records of functions), clocks as integers, fresh
identifiers as steps that choose an unused one. Results hold for every choice of them.

## What the proofs found

- The runtime validator accepts an honest record exactly when the run ended in a recorded
  native failure, in the campaign, or at a deadline after the corpus was staged, and the
  retained diagnostics can be summarised. A deadline before that point, unusable content
  from a read that exited 0, and CTest exiting 0 over a failing JUnit file are refused
  (`RuntimeFinish.ProducerAndValidatorAgree`; `RuntimeExample` shows a run on each side).
- The full validator binds each operation to its command but not each row to its field:
  two rows can trade places and the verdict stays (`RuntimePlaces.PlacesAreNotChecked`).
  So can the discovery rows of two sanitizers, exactly when they listed the same names
  (`RuntimePlaces.DiscoveriesTrade`, `RuntimeExample.TradedIsAccepted`). Completeness is
  therefore stated per operation, and a population is tied to its own sanitizer's
  discovery where the rows carry their fields' identities. Failed prefixes do bind rows to
  places.
- Reconciling is safe exactly when the grace period covers the receipt delay plus the
  time a commit may lag behind its stamp; the receipt delay alone is not enough, because
  stamps need not commit in order (`DeliveryHistory.SafeExactlyWhenPatient`).
- A durable two-step redemption can count after its grant expired: by any delay below
  the commit lag, and by no other (`DeliveryHistory.LateExactlyWithinLag`).
- The allowlist counts the source among all tokens, so a source named only by an output
  operand (`CompilerCommands.SourceMayVanish`) or only by `-include`
  (`CompilerConfinement.OnlyIncluded`) is accepted although it is never compiled by
  itself. For the allowlist alone the source stands once exactly when no output,
  dependency or include operand names it (`CompilerConfinement.AllowedIsConfined`). The
  routes that swap include operands first do not count those: there the condition is that
  no output or dependency operand names it (`CompilerCommands.AcceptedIsConfined`,
  `CompilerConfinement.GeneratedIsConfined`, `CompilerConfinement.OptionsAreConfined`).
- A source whose path is spelled like an include placeholder can be taken for named by a
  command that never names it (`CompilerConfinement.BorrowedStandsIn`); a dot in the path
  rules this out (`CompilerConfinement.DottedNotBorrowed`). This concerns the rewriter by
  itself: the full-project runner first checks the database, and that check demands every
  source in its own argument list.
- A captured snapshot is accepted exactly when no generated unit is also listed as a
  link (`ProjectSnapshot.CaptureAcceptedExactly`), which a tree that shows a file where it
  lists a link brings about (`ProjectSnapshot.DeceivingIsRefused`).
- The record of a native replay is accepted exactly when every answer it kept can be read
  strictly (`NativeAgreement.ReplayAccepted`). The replay reads JSON more loosely than its
  validator, keeps outputs that the redaction test refuses, and renames planning errors
  that are not its own: such honest records are refused
  (`NativeExample.RepeatedMemberIsRefused`, `NativeExample.PrintedSecretIsRefused`,
  `NativeExample.RenamedErrorIsRefused`).

## Model

| member | source | states |
|---|---|---|
| RuntimeFinish.ProducerAndValidatorAgree | nico/assessment_cpp_runtime_execution.py:417-1155 | for every released plan, command behaviour and clock, evidence is accepted iff the run's end is corroborated and its diagnostics readable; the verdict then has the producer's `complete` and charges the failure to the operation that caused it |
| RuntimeClock.CollectInTime | nico/assessment_cpp_runtime_execution.py:423-432 | clipping every command to the time left keeps the whole collection within five seconds of its budget |
| RuntimeClock.PromptCollectionsAgree | nico/assessment_cpp_runtime_execution.py:417-588 | the agreement theorem with hypotheses on plan, transport and controller delays only |
| RuntimeExample.SuccessIsAccepted | nico/assessment_cpp_runtime_execution.py:417-588 | a concrete V4 plan, command behaviour and readers meet every hypothesis of the agreement theorem, and the record of that run is accepted as complete |
| RuntimeExample.HonestRecordIsRefused | nico/assessment_cpp_runtime_execution.py:668-721 | a concrete run whose every command exits 0 is refused when the functional table it reads is unusable |
| RuntimeCollector.ExecuteRuntimePlan | nico/assessment_cpp_runtime_execution.py:417-588 | the loops over sanitizers that fill the record in place compute the staged collection, whatever stops them |
| RuntimeCollector.Collector.Run | nico/assessment_cpp_runtime_execution.py:426-433 | a command gives its row, or ends the collection when the budget is spent |
| RuntimeCollector.Collector.Functional | nico/assessment_cpp_runtime_execution.py:441-468 | the functional stage leaves the row of every command it ran and the parsed results, and stops with its own error at the first failure |
| RuntimeCollector.Collector.ReclaimPhase | nico/assessment_cpp_runtime_execution.py:121-127 | the reclamation row is retained before it is interpreted |
| RuntimeCollector.Collector.Prepare | nico/assessment_cpp_runtime_execution.py:471-494 | configure, build and discover stop at the first failure, each row already recorded |
| RuntimeCollector.Collector.Exercise | nico/assessment_cpp_runtime_execution.py:495-502 | a failed test run is followed by its two diagnostic reads |
| RuntimeCollector.Collector.Diagnose | nico/assessment_cpp_runtime_execution.py:503-513 | log and resources are recorded one by one as they are read |
| RuntimeCollector.Collector.Conclude | nico/assessment_cpp_runtime_execution.py:514-528 | JUnit decides: success, an ordinary completed failure that lets collection go on, or a stop |
| RuntimeCollector.Collector.Sanitizer | nico/assessment_cpp_runtime_execution.py:470-529 | one sanitizer appends exactly one record and at most one diagnostic |
| RuntimeCollector.Collector.StageFuzzing | nico/assessment_cpp_runtime_execution.py:530-557 | staging, configuring and building the fuzz target, recorded step by step |
| RuntimeCollector.Collector.Fuzz | nico/assessment_cpp_runtime_execution.py:558-585 | corpus entries are replayed in order until one fails, then the campaign runs |
| RuntimeCollector.Collector.Campaign | nico/assessment_cpp_runtime_execution.py:566-582 | the campaign is recorded before its outcome and metrics are judged |
| RuntimeReports.FunctionalStageReport | nico/assessment_cpp_runtime_execution.py:441-465 | every way the functional stage can end, and what it leaves recorded |
| RuntimeReports.KindStageReport | nico/assessment_cpp_runtime_execution.py:470-529 | every way a sanitizer stage can end |
| RuntimeReports.FuzzStagingReport | nico/assessment_cpp_runtime_execution.py:530-582 | every way the fuzz stage can end |
| RuntimeHistory.CollectHasHistory | nico/assessment_cpp_runtime_execution.py:437-588 | every collection is a list of reported stages, all but the last of which ran to their end |
| RuntimePrefix.NativeAccepted | nico/assessment_cpp_runtime_execution.py:889-934 | a gap-free record whose first fatal failure has its own error and allowed tail is accepted and charged to it |
| RuntimePrefix.NativeRefused | nico/assessment_cpp_runtime_execution.py:905-915 | the same record under any other error is refused |
| RuntimePrefix.LateAccepted | nico/assessment_cpp_runtime_execution.py:889-904 | a deadline inside the fuzz stage is accepted without a charged operation |
| RuntimePrefix.CleanRefused | nico/assessment_cpp_runtime_execution.py:889-909 | before fuzzing, a record without a fatal failure is refused |
| RuntimeAgreement.FunctionalStop | nico/assessment_cpp_runtime_execution.py:668-721 | agreement for runs that stop in the functional stage |
| RuntimeStops.ReclaimStop | nico/assessment_cpp_runtime_execution.py:773-790 | agreement for runs that stop in a reclamation |
| RuntimeKindStops.KindStop | nico/assessment_cpp_runtime_execution.py:724-934 | agreement for runs that stop inside a sanitizer |
| RuntimeFuzzStops.FuzzStop | nico/assessment_cpp_runtime_execution.py:724-934 | agreement for runs that stop inside the fuzz stage |
| RuntimeFinish.CampaignAgreed | nico/assessment_cpp_runtime_execution.py:1005-1142 | agreement for runs that reached the campaign |
| RuntimeOperations.OperationCheck.Operation | nico/assessment_cpp_runtime_execution.py:976-1000 | a row is accepted iff it is planned, matches, is new and still fits in the measured time together with all rows before it |
| RuntimeSoundness.CompleteMeans | nico/assessment_cpp_runtime_execution.py:936-1142 | any value accepted as complete, under any schema, holds every needed operation exactly once with its planned command and successful, nothing else, all selected and all discovered tests passed, and durations within `duration_ms`+2; where the discovery and result rows of a sanitizer carry their fields' identities, the counted population is the one its own discovery listed and its own result file counted |
| RuntimePrefixShape.PrefixMeans | nico/assessment_cpp_runtime_execution.py:724-934 | any V4 record the prefix path accepts past the functional stage, for any distinct sanitizers, is gap-free in canonical order, each row its place's planned command; everything before the charged operation succeeded or was tolerated, and only its own log, resource and JUnit reads follow an aborting test run |
| RuntimePlaces.PlacesAreNotChecked | nico/assessment_cpp_runtime_execution.py:1008-1012 | two functional rows can trade places without changing the verdict |
| RuntimePlaces.DiscoveriesTrade | nico/assessment_cpp_runtime_execution.py:1030-1075 | complete evidence with the discovery rows of two sanitizers traded is accepted, with the same verdict, iff both listed the same names |
| RuntimeExample.TradedIsAccepted | nico/assessment_cpp_runtime_execution.py:1030-1075 | in a concrete complete record the two discovery rows trade places and the verdict stays |
| RuntimeCollection.ValidateCollection | nico/assessment_cpp_runtime_collection.py:24-85 | the stricter acceptance, decided by the loops over sanitizers and diagnostics |
| RuntimeCollection.CollectionMeans | nico/assessment_cpp_runtime_collection.py:24-106 | an accepted collection ran every required operation exactly once as planned; only completed test failures stand unsuccessful, each in the tests place of a sanitizer; `passed` implies completeness |
| FunctionalResults.OrderIndependent | nico/assessment_cpp_runtime_execution.py:258-287 | every permutation of the test rows parses to the same result |
| FunctionalResults.Exhaustive | nico/assessment_cpp_runtime_execution.py:258-287 | executed and skipped partition the selection, passed and failed partition the executed tests, in selected order, and the ALL row agrees |
| FunctionalResults.PassedRan | nico/assessment_cpp_runtime_execution.py:258-287 | a fully passed selection was fully executed |
| JunitResults.Accounted | nico/assessment_cpp_runtime_execution.py:301-304 | every expected test is executed or skipped once, and passed tests are executed ones |
| CaptureLimits.CaptureLimits | nico/assessment_cpp_full_project_execution.py:173-220 | limits come from one final rational level and reach 1024 bytes each, or the plan is refused for lack of bytes |
| CaptureLimits.Pour | nico/assessment_cpp_full_project_execution.py:202-217 | the redistribution loop terminates at one level that settles every slot |
| CaptureLimits.LimitIsMinimum | nico/assessment_cpp_full_project_execution.py:202-217 | every limit is the smaller of its ceiling and the floored share at the final level |
| CaptureLimits.OnePouring | nico/assessment_cpp_full_project_execution.py:202-217 | the limits depend on slots and budget only, not on order or rounds |
| CaptureLimits.RoundsEqualOneByOne | nico/assessment_cpp_full_project_execution.py:202-217 | capping whole rounds equals capping one slot at a time in any order |
| CaptureLimits.SafeAndTight | nico/assessment_cpp_full_project_execution.py:200-217 | limits sum to at most the budget, and fewer bytes than uncapped slots are lost |
| CaptureLimits.ReceiptFits | nico/assessment_cpp_full_project_execution.py:192-200 | the base64 text of every capture plus the reserve stays within the receipt cap |
| CaptureLimits.CapMonotone | nico/assessment_cpp_full_project_execution.py:173-220 | a larger receipt cap never lowers a limit and never refuses an accepted plan |
| DeliveryStore.Ledger.DeliverAtomically | nico/approved_delivery_atomic.py:88-226 | count and receipt are committed together, or nothing changes |
| DeliveryStore.Ledger.Consume | nico/approved_delivery_access.py:263-308 | one download is counted iff the grant is active, unexpired and below its cap |
| DeliveryStore.Ledger.Revoke | nico/approved_delivery_access.py:229-260 | revocation changes the status of that grant only |
| DeliveryStore.Ledger.PutReceipt | nico/approved_delivery_receipts.py:121-165 | a receipt is inserted once and never replaced |
| DeliveryStore.Ledger.ConditionalRepair | nico/approved_delivery_operational_readiness.py:192-242 | the repair goes through iff the grant still shows the expected count and stamp |
| DeliverySafety.RunSound | nico/approved_delivery_access.py:263-308 | in every interleaving receipts never outnumber downloads and downloads never exceed the cap |
| DeliverySafety.StepKeeps | nico/approved_delivery_operational_readiness.py:245-337 | every step of every party keeps the invariant behind that |
| DeliverySafety.RepairsAreExact | nico/approved_delivery_operational_readiness.py:270-312 | a successful repair leaves exactly the number of receipts the grant has and no receipt still to come; one that saw older values changes nothing |
| DeliverySafety.StaleWorkersChangeNothing | nico/approved_delivery_operational_readiness.py:192-242 | a reconciler whose receipt listing is out of date leaves the store as it is |
| DeliveryHistory.SafeExactlyWhenPatient | nico/approved_delivery_operational_readiness.py:245-337 | every run stays sound iff the grace period covers the commit lag plus the receipt delay |
| DeliveryHistory.AtomicGrantsInStep | nico/approved_delivery_atomic.py:88-226 | a grant redeemed only atomically has one receipt per download, numbered exactly 1 to its count |
| DeliveryHistory.NothingAfterTheEnd | nico/approved_delivery_access.py:263-308 | nothing is redeemed after revocation, nor after expiry; the durable two-step path compares the expiry with its stamp, so there the end is the expiry plus the commit lag |
| DeliveryHistory.LateExactlyWithinLag | nico/approved_delivery_access.py:266-288 | some run counts a durable redemption a given delay after expiry iff the delay is below the commit lag |
| DeliveryHistory.GrantLasts | nico/approved_delivery_access.py:229-308 | identity, cap and expiry of a grant never change and revocation is final |
| Acknowledgments.AckStore.Put | nico/approved_delivery_acknowledgments.py:134-175 | insert once: the record already kept for a receipt wins |
| Acknowledgments.AckStore.ByReceipt | nico/approved_delivery_acknowledgments.py:178-189 | the scan finds the receipt's record iff there is one |
| Acknowledgments.StoredOnceForAll | nico/approved_delivery_acknowledgments.py:292-419 | in any interleaving a stored acknowledgment stays unaltered, is the only one for its receipt, and shares that receipt's identity |
| Acknowledgments.AnswersAgree | nico/approved_delivery_acknowledgments.py:330-419 | all calls that answer acknowledged for a receipt report the same record and recipient |
| CompilerAllowlist.SafeCompileArgv | nico/assessment_cpp_compiler_evidence.py:29-80 | the parser's index loop keeps, drops or rejects tokens as the recursive reading does |
| CompilerRewrite.SwapsBack | nico/assessment_cpp_generated_context.py:219-257 | if placeholders stand for the tokens along the parser's own path, swapping back what it kept is the direct rewrite, and it rejects exactly when the rewrite does |
| CompilerCommands.RoutesAgree | nico/assessment_cpp_project_compiler.py:83-140 | the syntax command through placeholders equals the direct rewrite, rejections included, for every file set and every context that is generated, or names its file as the database check demands, or whose file is not spelled with the reserved name |
| CompilerCommands.AcceptedIsConfined | nico/assessment_cpp_project_compiler.py:105-140 | an accepted command compiles once, reads only sources, pinned directories and the private snapshot, and writes only analyst-owned files; when the analysed file stands in it exactly once |
| CompilerCommands.SourceMayVanish | nico/assessment_cpp_compiler_evidence.py:35-53 | a source named only as the output operand is accepted and dropped |
| CompilerGenerated.MarkersAgree | nico/assessment_cpp_generated_context.py:219-257 | with captured headers, every command equals its direct rewrite unless a needed placeholder already stands in it, and is then refused; a placeholder spelled like the source counts as naming it |
| CompilerGenerated.NamedRewritten | nico/assessment_cpp_generated_context.py:219-257 | for a command that names its source, the route is the plain direct rewrite |
| CompilerGenerated.ClashFree | nico/assessment_cpp_generated_context.py:246-248 | without a clash no user token is taken for a placeholder |
| CompilerProject.OptionsAgree | nico/assessment_cpp_generated_context.py:312-345 | every database row comes out as its own direct rewrite with reviewed options in place, whatever the other rows hold; a row holding the reserved prefix refuses the database |
| CompilerConfinement.GeneratedIsConfined | nico/assessment_cpp_generated_context.py:197-257 | an accepted command with captured headers reads only sources, pinned directories and the private snapshot, never a build tree, has one "-c", writes only analyst-owned files, and names the source alone exactly once iff it names it outside output and dependency operands |
| CompilerConfinement.OptionsAreConfined | nico/assessment_cpp_generated_context.py:312-345 | the same of every row of a database with reviewed options |
| CompilerConfinement.AllowedIsConfined | nico/assessment_cpp_compiler_evidence.py:29-80 | an accepted command of the allowlist reads sources only, has one "-c", writes only analyst-owned files, and names the source alone exactly once iff no output, dependency or include operand names it |
| CompilerConfinement.OnlyIncluded | nico/assessment_cpp_compiler_evidence.py:35-59 | a source named only by "-include" is accepted and never stands alone |
| CompilerConfinement.BorrowedStandsIn | nico/assessment_cpp_generated_context.py:246-257 | a source spelled like a placeholder is accepted in a command that never names it |
| CompilerConfinement.DottedNotBorrowed | nico/assessment_cpp_generated_context.py:246-257 | a source with a dot in its path is never taken for a placeholder |
| CompilerProject.TablesAgree | nico/assessment_cpp_generated_context.py:322-345 | the one replacement table of all rows reads each row's marks correctly |
| CompilerScanners.SyntaxArgv | nico/assessment_cpp_project_compiler.py:83-140 | the in-place scanner computes the placeholder route |
| CompilerScanners.SafeGeneratedCompileArgv | nico/assessment_cpp_generated_context.py:219-257 | the in-place include scanner computes the placeholder route |
| ProjectPaths.FastIsPair | nico/assessment_cpp_project_snapshot.py:61-72 | the prefix-set check accepts exactly what comparing every pair accepts |
| ProjectPaths.FastMeansOneTree | nico/assessment_cpp_project_snapshot.py:61-72 | a population passes iff one directory tree can hold it |
| ProjectPaths.AboveMeans | nico/assessment_cpp_generated_context.py:47-55 | starting with another path and a slash is having its parts as a proper prefix |
| ProjectSnapshot.Capture | nico/assessment_cpp_project_snapshot.py:209-262 | a returned snapshot holds bytes both passes saw, within both budgets; a tree that shows a sound population twice is refused only for its serialised size |
| ProjectSnapshot.FirstPass | nico/assessment_cpp_project_snapshot.py:231-242 | the first pass succeeds iff every path fits its own and the aggregate budget |
| ProjectSnapshot.SecondPass | nico/assessment_cpp_project_snapshot.py:243-247 | the second pass succeeds iff every path still reads the same |
| ProjectSnapshot.CaptureAcceptedExactly | nico/assessment_cpp_project_snapshot.py:265-297 | the controller accepts a capture iff no generated unit is also listed as a link |
| ProjectSnapshot.DeceivingIsRefused | nico/assessment_cpp_project_snapshot.py:209-297 | a tree that lists a unit as a link and shows a file there is captured, within every limit, and refused |
| ProjectSnapshot.Restore | nico/assessment_cpp_project_snapshot.py:347-410 | a restore publishes exactly the recorded path-to-bytes map, or nothing, and publishes iff the request is sound, every digest holds and every written file reads back |
| ProjectSnapshot.CaptureRestores | nico/assessment_cpp_project_snapshot.py:209-410 | a capture holds every header and generated unit once and nothing else, and can be restored |
| ProjectSnapshot.Staging.MakeParents | nico/assessment_cpp_project_snapshot.py:388-390 | the directories above a file can be made iff none of them is a file |
| ProjectSnapshot.Staging.CreateNew | nico/assessment_cpp_project_snapshot.py:391-392 | a file is created only where nothing stands |
| FullProjectSteps.ExecutionSteps | nico/assessment_cpp_full_project.py:149-211 | the plan built by appending is the plan the proofs are about |
| FullProjectSteps.PlanInOrder | nico/assessment_cpp_full_project.py:149-211 | no step is planned twice and every step comes after all it needs |
| FullProjectRun.RunSteps | nico/assessment_cpp_full_project_execution.py:287-391 | the executor's rows, filled in place with early stops |
| FullProjectRun.PlannedRunsAreGated | nico/assessment_cpp_full_project_execution.py:287-391 | under any outcomes and early stops, every direct or indirect need of an attempted step was attempted, exited 0, and was neither timed out nor truncated |
| FullProjectRun.NeedsArePlanned | nico/assessment_cpp_full_project.py:149-211 | every need is an earlier step of the plan |
| ParallelTime.HonestSchedulesAccepted | nico/assessment_cpp_project_static.py:231-362 | for every schedule the truncated durations sum to at most the worker count times the truncated span, so no honest schedule is refused |
| ParallelTime.CheckDurations | nico/assessment_cpp_clang_fallback.py:241-281 | the accumulated durations are compared as the bound says |
| ParallelTime.BoundIsReached | nico/assessment_cpp_project_compiler.py:273-347 | busy workers reach the bound |
| NativeTests.Validate | nico/assessment_cpp_native_tests.py:260-377 | the loops, with a running duration refused as soon as it passes the enclosing one, a growing set of inspected binaries and checks collected row by row, accept exactly the records whose every part is sound and whose total time fits, and their lists are those of the rows' classes |
| NativeTests.ReadRow | nico/assessment_cpp_native_tests.py:344-367 | one row is refused iff an operation of it is unsound, unreadable or late, and is otherwise bound iff it ran and both checks and the probe name the copy of an inspected binary |
| NativeTests.ReadInspections | nico/assessment_cpp_native_tests.py:329-342 | inspections are accepted iff they cover the first binaries in order, each sound and in time, and leave exactly the instrumented, pinned ones |
| NativeTests.BoundIsTraced | nico/assessment_cpp_native_tests.py:340-366 | in an accepted record a test is bound iff its whole chain is recorded at the one path of its binary: copied, found instrumented, seen unchanged before and after by root, seen with the same digest by its own user, and run by that user as planned |
| NativeTests.BoundMeansTraced | nico/assessment_cpp_native_tests.py:360-377 | a name counts as bound, or passed, iff a test of that name has such a chain, or also exited 0, whoever wrote the record |
| NativeTests.PassingMeansAll | nico/assessment_cpp_native_tests.py:368-371 | all tests passed iff no error is recorded and the whole planned population in order has such a chain and exited 0 |
| NativeTests.PathsTellBinaries | nico/assessment_cpp_native_tests.py:319-323 | one snapshot path belongs to one binary |
| NativeReplay.RunBoundTests | nico/assessment_cpp_native_tests.py:198-257 | the controller's loops record the inspections and rows up to the first thing that ends the replay |
| NativeReplay.ReplayTest | nico/assessment_cpp_native_tests.py:237-254 | one row is filled in as its operations return, and stops at the first that fails or does not match |
| NativeAgreement.ReplayAccepted | nico/assessment_cpp_native_tests.py:198-377 | for every plan, behaviour of the invocations and reader, the record of a replay is accepted iff the enclosing duration is at most 302 seconds and every answer that was kept needs no redaction and, where it succeeded, has the form its strict reader wants |
| NativeAgreement.RecordTime | nico/assessment_cpp_native_tests.py:204-216 | recorded durations never sum to more than the replay took |
| NativeAgreement.BindsWhatItSawThrough | nico/assessment_cpp_native_tests.py:237-366 | in an accepted record of a replay, whatever ran had been inspected and named twice before, and exactly the tests whose last check names the copy are bound |
| NativeAgreement.CompleteWhenSeenThrough | nico/assessment_cpp_native_tests.py:198-371 | a replay is complete iff nothing ended it and every planned test's last check names its copy |
| NativeExample.ReplayPasses | nico/assessment_cpp_native_tests.py:198-377 | a concrete replay meets every hypothesis, is accepted, and its test is bound and passed |
| NativeExample.PrintedSecretIsRefused | nico/assessment_cpp_configuration.py:186-196 | a replay in which everything succeeds and matches is refused because its test printed what the redactor rewrites |
| NativeExample.RepeatedMemberIsRefused | nico/assessment_cpp_native_tests.py:218-220 | a replay that read JSON with a repeated member and went on is refused |
| NativeExample.RenamedErrorIsRefused | nico/assessment_cpp_native_tests.py:255-257 | a planning error of another stage is renamed by the replay and its record refused |
| NativeTests.UsersDistinct | nico/assessment_cpp_native_tests.py:22-24 | runtime users differ within and across configurations exactly up to 64 tests |

## Left out

- `project_options=None` (options inferred from recorded commands) and `native_evidence_sha256` in runtime verdicts.
- JSON shape checks (unknown or missing fields, wrong types): the record types cannot express such values.
- Argument vectors are one constructor per command (`RuntimeTypes.Command`), not token lists, in the runtime core; regular expressions, XML, CSV and JSON decoding are `World` functions there.
- Floating-point rounding of `time.monotonic()`: clocks are integers of nanoseconds or seconds, or reals in `ParallelTime`.
- RuntimeFinish.ProducerAndValidatorAgree: proved for the current evidence schema and the released sanitizers (address, undefined); the older schemas have no failure diagnostics and are covered by the soundness results only.
- RuntimePrefixShape.PrefixMeans: speaks of distinct sanitizers; a plan that repeats one is not covered.
- DeliverySafety.RunSound: assumes each two-step redemption writes at most one receipt and writes it within the receipt window or never, as the source leaves that to its caller.
- DeliveryHistory.SafeExactlyWhenPatient: the reconciler's loop over grants is split into its reads and writes, so that they interleave with everything else; the report it returns and its global refusal on over-receipting are not modelled, which only removes writes.
- Recipient text normalisation, PDF decoding, digests of receipts and approval lookups (`approved_delivery_status`) are oracles or absent; passwords and administrator checks are not modelled.
- CompilerCommands.RoutesAgree: an original file spelled with the reserved name in a command that does not name it is not covered; the database check refuses such a command.
- CompilerProject.OptionsAgree: row numbers have at most 4000 digits, so that a mark is a token the parser takes; rows are taken with their own arguments and output index; sorting the database by file and pairing it with the unit list is not modelled, nor is `shlex` splitting of `command` strings.
- Regular expressions in the compiler modules are predicates on characters; control characters, which the parser rejects, are the only ones they treat alike.
- `ProjectSnapshot`: the descriptor-level traversal, the file modes and the checks on the destination directory are not modelled; `is_project_snapshot_capacity_failure` and the request digests would only add easy members.
- FullProjectRun.RunSteps: container control before and after the steps, and the contents of streams, are not modelled; `validate_native` and `compilation_contexts` are not part of this model.
- `NativeTests`: the test plan parser is an input (the planned tests, or its error); per-test outcomes, digests and the fixed texts of the verdict are not modelled; a JSON number equal to another of a different type counts as different.
- NativeAgreement.ReplayAccepted: an invocation raises only errors the controller catches; any other error leaves no record.
- Clang fallback planning and `merge_static_analysis`, static-analysis collection beyond its duration accounting, fuzz-plan evidence, parent and child scan composition: they repeat patterns proved here with easier members.
