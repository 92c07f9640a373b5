/** The independent validator: it rebuilds every planned command and accepts an
    evidence value only if the value could come from running them. */
module RuntimeValidator {
  import opened Results
  import opened Names
  import FunctionalResults
  import opened JunitResults
  import opened RuntimeTypes

  // ---------- planned operations ----------

  datatype OpSpec = OpSpec(command: Command, user: Option<User>, environment: set<Setting>, workdir: Option<Directory>,
                           seconds: nat, limit: nat)

  /** What the validator knows besides the evidence. */
  datatype Case = Case(w: World, plan: Plan, options: map<string, string>, schema: Schema)

  predicate AtLeastV2(schema: Schema) { !schema.V1? }
  predicate AtLeastV3(schema: Schema) { schema.V3? || schema.V4? }

  /** The identities of the rebuilt commands. */
  predicate Planned(c: Case, id: OpId) {
    var kinds := c.plan.sanitizers.kinds;
    match id
    case FunctionalSetup | FunctionalRun | FunctionalRead => true
    case Reclaim(phase) => AtLeastV2(c.schema) && phase in PHASES
    case Configure(k) => k in kinds
    case Build(k) => k in kinds
    case Discover(k) => k in kinds
    case Tests(k) => k in kinds
    case TestLog(k) => AtLeastV3(c.schema) && k in kinds
    case Resources(k) => AtLeastV3(c.schema) && k in kinds
    case Junit(k) => k in kinds
    case FuzzStage | FuzzConfigure | FuzzBuild | FuzzCampaign => true
    case FuzzReplay(i) => i < |c.plan.fuzz.corpus|
    case UnknownOp(_) => false
  }

  function ReadSpec(file: File, limit: nat): OpSpec {
    OpSpec(ReadFile(file, limit), None, {}, None, 15, limit * 2 + 4096)
  }

  function PlainSpec(command: Command, seconds: nat, limit: nat): OpSpec {
    OpSpec(command, None, {}, None, seconds, limit)
  }

  function SanitizerEnvironment(plan: Plan, kind: Kind): set<Setting> {
    if plan.unitTestData then
      if kind == Address then {AsanHalt, UnitTestData} else {UbsanHalt, UnitTestData}
    else
      if kind == Address then {AsanHalt} else {UbsanHalt}
  }

  function TestSpec(plan: Plan, kind: Kind): OpSpec {
    var workers := match TestParallel(plan) case Some(n) => n case None => 0;
    OpSpec(RunTests(Sanitized(kind), CtestLog(kind), kind == Address && plan.schema == PlanV4, workers,
                    plan.sanitizers.caseSeconds, JunitXml(kind)),
           None, SanitizerEnvironment(plan, kind), None, plan.sanitizers.testSeconds, MIB)
  }

  function FuzzRunSpec(plan: Plan, runs: int, input: FuzzInput, seconds: nat): OpSpec {
    OpSpec(RunFuzz(plan.fuzz.binary, runs, input), None, {FuzzTarget(plan.fuzz.target), AsanHalt, UbsanHalt}, None, seconds, MIB)
  }

  /** The rebuilt command of one planned operation. */
  function SpecFor(c: Case, id: OpId): OpSpec {
    var plan := c.plan;
    match id
    case FunctionalSetup => PlainSpec(MakeFunctionalDirectory, 10, MIB)
    case FunctionalRun =>
      OpSpec(RunFunctional(plan.functional.parallel, plan.functional.selected), None, {PythonGil}, Some(BaselineBuild),
             plan.functional.seconds, MIB)
    case FunctionalRead => ReadSpec(FunctionalCsv, MIB)
    case Reclaim(phase) => PlainSpec(ReclaimSpace(phase), 30, 4096)
    case Configure(k) => PlainSpec(ConfigureSanitized(k, c.options), 90, MIB)
    case Build(k) => PlainSpec(BuildTree(Sanitized(k), plan.sanitizers.parallel, None), plan.sanitizers.buildSeconds, MIB)
    case Discover(k) => PlainSpec(ListTests(Sanitized(k)), 60, 4 * MIB)
    case Tests(k) => TestSpec(plan, k)
    case TestLog(k) => ReadSpec(CtestLog(k), MIB)
    case Resources(k) => PlainSpec(ProbeResources, 5, 4096)
    case Junit(k) => ReadSpec(JunitXml(k), 4 * MIB)
    case FuzzStage => OpSpec(StageCorpus, Some(Root), {}, None, 20, MIB)
    case FuzzConfigure => PlainSpec(ConfigureFuzz, 90, MIB)
    case FuzzBuild =>
      PlainSpec(BuildTree(Fuzzing, match FuzzBuildParallel(plan) case Some(n) => n case None => 0, Some(plan.fuzz.buildTarget)), 1200, MIB)
    case FuzzReplay(i) => FuzzRunSpec(plan, plan.fuzz.replayRuns, Seed(i), 60)
    case FuzzCampaign => FuzzRunSpec(plan, plan.fuzz.campaignRuns, CampaignFor(plan.fuzz.campaignSeconds), plan.fuzz.campaignSeconds + 30)
    case UnknownOp(_) => PlainSpec(OtherCommand([]), 0, 0)
  }

  // ---------- the check every recorded operation goes through ----------

  predicate Matches(row: Row, spec: OpSpec) {
    row.command == spec.command && row.user == spec.user && row.environment == spec.environment && row.workdir == spec.workdir
  }

  predicate RowOk(c: Case, row: Row, maximum: nat) {
    && -255 <= row.exitCode <= 255 && row.durationMs >= 0
    && Planned(c, row.id)
    && Matches(row, SpecFor(c, row.id))
    && row.durationMs <= SpecFor(c, row.id).seconds * 1000 + 2000
    && Output(c.w, row, Min(maximum, SpecFor(c, row.id).limit)).Some?
  }

  /** A recorded operation and the size its reader allows. */
  datatype Entry = Entry(row: Row, maximum: nat)

  function TotalMs(entries: seq<Entry>): int {
    if entries == [] then 0 else TotalMs(entries[..|entries| - 1]) + entries[|entries| - 1].row.durationMs
  }

  /** Every operation is planned and matches, none appears twice, and together they
      fit in the measured duration. */
  predicate OperationsOk(c: Case, entries: seq<Entry>, durationMs: int) {
    && (forall i :: 0 <= i < |entries| ==> RowOk(c, entries[i].row, entries[i].maximum))
    && (forall i, j :: 0 <= i < j < |entries| ==> entries[i].row.id != entries[j].row.id)
    && (entries != [] ==> TotalMs(entries) <= durationMs + 2)
  }

  // ---------- verdicts ----------

  datatype State = NotExecuted | TimedOut | FailedState | CompleteState
  datatype FunctionalVerdict = FunctionalVerdict(state: Option<State>, required: seq<string>, executed: Option<seq<string>>,
                                                 passed: Option<seq<string>>, failed: Option<seq<string>>, skipped: Option<seq<string>>)
  datatype KindVerdict = KindVerdict(kind: Kind, state: Option<State>, required: Option<seq<string>>, executed: Option<seq<string>>,
                                     passed: Option<seq<string>>, skipped: Option<seq<string>>)
  datatype LogSummary = Unavailable | Captured(bytes: nat, truncated: bool)
  datatype DiagnosticSummary = DiagnosticSummary(kind: Kind, log: LogSummary, resources: Option<ResourceReading>)
  datatype FuzzVerdict = FuzzVerdict(executed: bool, replayCount: nat, campaignCompleted: bool, metrics: Option<Metrics>, corpusSha: seq<string>)
  datatype Verdict = Verdict(complete: bool, error: Option<ErrorCode>, failure: Option<OpId>, firstFailure: Option<OpId>,
                             functional: FunctionalVerdict, sanitizers: seq<KindVerdict>, notExecuted: seq<Kind>,
                             fuzz: FuzzVerdict, diagnostics: seq<DiagnosticSummary>)

  function Known(s: FunctionalResults.Summary, state: Option<State>): FunctionalVerdict {
    FunctionalVerdict(state, s.required, Some(s.executed), Some(s.passed), Some(s.failed), Some(s.skipped))
  }

  function Counted(kind: Kind, state: Option<State>, p: Population): KindVerdict {
    KindVerdict(kind, state, Some(p.required), Some(p.executed), Some(p.passed), Some(p.skipped))
  }

  predicate AllPassed(s: FunctionalResults.Summary, selected: seq<string>) {
    s.passed == selected && s.executed == selected && s.failed == [] && s.skipped == []
  }

  function Summarise(w: World, d: Diagnostic): DiagnosticSummary
    requires d.logRead.Some? && d.resources.Some?
    requires DiagnosticsReadable(w, d.logRead.value, d.resources.value)
  {
    var log, resources := d.logRead.value, d.resources.value;
    DiagnosticSummary(d.kind,
      if Good(log) then var e := w.envelope(log.output.value); Captured(|e.data.value|, e.truncated) else Unavailable,
      if Good(resources) then w.resources(resources.output.value) else None)
  }

  // ---------- a failure inside the functional stage ----------

  function FunctionalFile(c: Case, row: Row): Option<Bytes> {
    if row.output.None? then None else FileBytes(c.w, row.output.value, MIB)
  }

  function UnexecutedFuzz(): FuzzVerdict {
    FuzzVerdict(false, 0, false, None, [])
  }

  function EarlyVerdict(c: Case, ev: Evidence, failed: OpId, functional: FunctionalVerdict): Verdict {
    Verdict(false, ev.error, Some(failed), None, functional, [], c.plan.sanitizers.kinds, UnexecutedFuzz(), [])
  }

  function ValidateFunctionalPrefix(c: Case, ev: Evidence): Option<Verdict> {
    if ev.functional.None? || ev.diagnostics != [] || ev.functional.value.setup.None? then None
    else
      var f := ev.functional.value;
      var maximum := 2 * MIB + 4096;
      var required := c.plan.functional.selected;
      if f.setup.value.id != FunctionalSetup then None
      else if !Good(f.setup.value) then
        if OperationsOk(c, [Entry(f.setup.value, maximum)], ev.durationMs) && f == FunctionalPart(f.setup, None, None, None, None)
           && ev.error == Some(FunctionalFailed)
        then Some(EarlyVerdict(c, ev, FunctionalSetup, FunctionalVerdict(Some(NotExecuted), required, Some([]), Some([]), Some([]), Some([]))))
        else None
      else if f.operation.None? || f.resultsRead.None? || f.operation.value.id != FunctionalRun || f.resultsRead.value.id != FunctionalRead
              || !OperationsOk(c, [Entry(f.setup.value, maximum), Entry(f.operation.value, maximum), Entry(f.resultsRead.value, maximum)], ev.durationMs)
      then None
      else JudgeFunctionalPrefix(c, ev, f, f.operation.value, f.resultsRead.value)
  }

  function JudgeFunctionalPrefix(c: Case, ev: Evidence, f: FunctionalPart, runner: Row, read: Row): Option<Verdict> {
    var required := c.plan.functional.selected;
    var state := Some(if runner.timedOut then TimedOut else FailedState);
    if Good(read) then
      match FunctionalFile(c, read)
      case None => None
      case Some(raw) =>
        match ReadCsv(c.w, raw, required)
        case None => None
        case Some(parsed) =>
          if f.results == Some(parsed) && f.resultsSha == Some(c.w.sha(raw)) && ev.error == Some(FunctionalFailed)
             && (!Good(runner) || !AllPassed(parsed, required))
          then Some(EarlyVerdict(c, ev, FunctionalRun, Known(parsed, state)))
          else None
    else if f.results.None? && f.resultsSha.None? && ev.error == Some(ArtifactUnavailable) then
      Some(EarlyVerdict(c, ev, if Good(runner) then FunctionalRead else FunctionalRun,
                        FunctionalVerdict(state, required, None, None, None, None)))
    else None
  }

  // ---------- a failure after the functional stage ----------

  /** A place in the canonical order and the row recorded for it. */
  datatype Slot = Slot(id: OpId, row: Option<Row>)

  /** The functional stage is recorded in full, read back and passed. */
  predicate FunctionalPassed(c: Case, f: FunctionalPart) {
    && Has(f.setup) && Has(f.operation) && Has(f.resultsRead)
    && FunctionalFile(c, f.resultsRead.value).Some?
    && (var raw := FunctionalFile(c, f.resultsRead.value).value;
        && ReadCsv(c.w, raw, c.plan.functional.selected).Some?
        && f.results == ReadCsv(c.w, raw, c.plan.functional.selected)
        && f.resultsSha == Some(c.w.sha(raw))
        && AllPassed(f.results.value, c.plan.functional.selected))
  }

  predicate FunctionalComplete(c: Case, ev: Evidence) {
    ev.functional.Some? && FunctionalPassed(c, ev.functional.value)
  }

  function FunctionalSlots(f: FunctionalPart): seq<Slot> {
    [Slot(FunctionalSetup, f.setup), Slot(FunctionalRun, f.operation), Slot(FunctionalRead, f.resultsRead)]
  }

  function ReclaimRow(ev: Evidence, phase: Phase): Option<Row> {
    if phase == Baseline && |ev.reclamations| > 0 then Some(ev.reclamations[0])
    else if phase == Of(Address) && |ev.reclamations| > 1 then Some(ev.reclamations[1])
    else if phase == Of(Undefined) && |ev.reclamations| > 2 then Some(ev.reclamations[2])
    else None
  }

  predicate ReclamationsNamed(ev: Evidence) {
    && |ev.reclamations| <= |PHASES|
    && forall i :: 0 <= i < |ev.reclamations| ==> ev.reclamations[i].id == Reclaim(PHASES[i])
  }

  predicate ReclaimSound(c: Case, ev: Evidence, phase: Phase) {
    var row := ReclaimRow(ev, phase);
    Has(row) ==> row.value.output.Some? && ReclaimedWell(c.w, row.value.output.value, phase)
  }

  function DiagnosticFor(diagnostics: seq<Diagnostic>, kind: Kind): Option<Diagnostic> {
    if diagnostics == [] then None
    else if diagnostics[0].kind == kind then Some(diagnostics[0])
    else DiagnosticFor(diagnostics[1..], kind)
  }

  predicate DiagnosticsNamed(c: Case, ev: Evidence) {
    && |ev.diagnostics| <= |c.plan.sanitizers.kinds|
    && (forall i :: 0 <= i < |ev.diagnostics| ==> ev.diagnostics[i].kind in c.plan.sanitizers.kinds)
    && (forall i, j :: 0 <= i < j < |ev.diagnostics| ==> ev.diagnostics[i].kind != ev.diagnostics[j].kind)
  }

  function KindSlots(kind: Kind, part: Option<SanitizerPart>, diagnostic: Option<Diagnostic>): seq<Slot> {
    var none: Option<Row> := None;
    [Slot(Configure(kind), if part.Some? then part.value.configure else none),
     Slot(Build(kind), if part.Some? then part.value.build else none),
     Slot(Discover(kind), if part.Some? then part.value.discovery else none),
     Slot(Tests(kind), if part.Some? then part.value.tests else none)]
    + (if diagnostic.Some? then [Slot(TestLog(kind), diagnostic.value.logRead), Slot(Resources(kind), diagnostic.value.resources)] else [])
    + [Slot(Junit(kind), if part.Some? then part.value.junitRead else none)]
  }

  /** A test run that completed with ordinary failures: collection may go on after it. */
  predicate Continuable(c: Case, part: SanitizerPart) {
    && c.schema.V4? && Has(part.junitRead) && part.tests.Some? && part.results.Some?
    && part.junitRead.value.output.Some?
    && FileBytes(c.w, part.junitRead.value.output.value, 4 * MIB).Some?
    && TestsCompleted(c.w, part.tests.value, part.results.value, FileBytes(c.w, part.junitRead.value.output.value, 4 * MIB).value)
  }

  function KindNames(c: Case, part: SanitizerPart): Option<seq<string>> {
    if Has(part.discovery) && part.discovery.value.output.Some? then ReadNames(c.w, part.discovery.value.output.value) else None
  }

  predicate FailedTests(part: SanitizerPart) {
    part.tests.Some? && !Good(part.tests.value)
  }

  predicate JunitSound(c: Case, part: SanitizerPart) {
    if Has(part.junitRead) then
      && KindNames(c, part).Some? && part.tests.Some?
      && part.junitRead.value.output.Some?
      && FileBytes(c.w, part.junitRead.value.output.value, 4 * MIB).Some?
      && (var raw := FileBytes(c.w, part.junitRead.value.output.value, 4 * MIB).value;
          && ReadJunit(c.w, raw, KindNames(c, part).value).Some?
          && part.results == ReadJunit(c.w, raw, KindNames(c, part).value)
          && part.junitSha == Some(c.w.sha(raw)))
    else part.results.None? && part.junitSha.None?
  }

  /** Everything one recorded sanitizer must satisfy, whether it finished or not,
      apart from the content of its diagnostic reads. */
  predicate KindConsistent(c: Case, part: SanitizerPart, diagnostic: Option<Diagnostic>) {
    && part.configure.Some?
    && (diagnostic.Some? <==> AtLeastV3(c.schema) && FailedTests(part))
    && (diagnostic.Some? ==> diagnostic.value.logRead.Some? && diagnostic.value.resources.Some?)
    && (Has(part.discovery) ==> KindNames(c, part).Some?)
    && JunitSound(c, part)
  }

  predicate Readable(c: Case, diagnostic: Option<Diagnostic>) {
    diagnostic.Some? && diagnostic.value.logRead.Some? && diagnostic.value.resources.Some? ==>
      DiagnosticsReadable(c.w, diagnostic.value.logRead.value, diagnostic.value.resources.value)
  }

  predicate KindSound(c: Case, part: SanitizerPart, diagnostic: Option<Diagnostic>) {
    KindConsistent(c, part, diagnostic) && Readable(c, diagnostic)
  }

  predicate KindSucceeded(part: SanitizerPart) {
    && Has(part.configure) && Has(part.build) && Has(part.discovery) && Has(part.tests) && Has(part.junitRead)
    && part.results.Some?
    && (var p := part.results.value;
        p.passed == p.required && p.executed == p.required && p.skipped == [])
  }

  predicate KindTimedOut(part: SanitizerPart) {
    || (part.configure.Some? && part.configure.value.timedOut)
    || (part.build.Some? && part.build.value.timedOut)
    || (part.discovery.Some? && part.discovery.value.timedOut)
    || (part.tests.Some? && part.tests.value.timedOut)
    || (part.junitRead.Some? && part.junitRead.value.timedOut)
  }

  function JudgeKind(c: Case, part: SanitizerPart): KindVerdict {
    var state := if KindTimedOut(part) then TimedOut else FailedState;
    if part.results.Some? then Counted(part.kind, Some(if KindSucceeded(part) then CompleteState else state), part.results.value)
    else KindVerdict(part.kind, Some(state), KindNames(c, part), None, None, None)
  }

  function JudgeKinds(c: Case, parts: seq<SanitizerPart>): seq<KindVerdict> {
    if parts == [] then [] else [JudgeKind(c, parts[0])] + JudgeKinds(c, parts[1..])
  }

  function SlotsFrom(c: Case, ev: Evidence, i: nat): seq<Slot>
    requires i <= |c.plan.sanitizers.kinds|
    decreases |c.plan.sanitizers.kinds| - i
  {
    if i == |c.plan.sanitizers.kinds| then []
    else
      var kind := c.plan.sanitizers.kinds[i];
      KindSlots(kind, if i < |ev.sanitizers| then Some(ev.sanitizers[i]) else None, DiagnosticFor(ev.diagnostics, kind))
      + [Slot(Reclaim(Of(kind)), ReclaimRow(ev, Of(kind)))]
      + SlotsFrom(c, ev, i + 1)
  }

  function ReplaySlots(replays: seq<Option<Row>>, n: nat): (r: seq<Slot>)
    ensures |r| == n
    ensures forall i :: 0 <= i < n ==> r[i] == Slot(FuzzReplay(i), if i < |replays| then replays[i] else None)
  {
    if n == 0 then []
    else ReplaySlots(replays, n - 1) + [Slot(FuzzReplay(n - 1), if n - 1 < |replays| then replays[n - 1] else None)]
  }

  function FuzzSlots(fuzz: Option<FuzzPart>, n: nat): seq<Slot> {
    var none: Option<Row> := None;
    [Slot(FuzzStage, if fuzz.Some? then fuzz.value.corpusStage else none),
     Slot(FuzzConfigure, if fuzz.Some? then fuzz.value.configure else none),
     Slot(FuzzBuild, if fuzz.Some? then fuzz.value.build else none)]
    + ReplaySlots(if fuzz.Some? then fuzz.value.replays else [], n)
  }

  /** Every planned place before the campaign, in canonical order. */
  function AllSlots(c: Case, ev: Evidence): seq<Slot>
    requires ev.functional.Some?
  {
    FunctionalSlots(ev.functional.value)
    + [Slot(Reclaim(Baseline), ReclaimRow(ev, Baseline))]
    + SlotsFrom(c, ev, 0)
    + FuzzSlots(ev.fuzz, |c.plan.fuzz.corpus|)
  }

  /** The recorded rows, in canonical order. */
  function Recorded(slots: seq<Slot>): seq<Row> {
    if slots == [] then []
    else Recorded(slots[..|slots| - 1]) + (if slots[|slots| - 1].row.Some? then [slots[|slots| - 1].row.value] else [])
  }

  function Entries(rows: seq<Row>, maximum: nat): (r: seq<Entry>)
    ensures |r| == |rows|
    ensures forall i :: 0 <= i < |rows| ==> r[i] == Entry(rows[i], maximum)
  {
    seq(|rows|, i requires 0 <= i < |rows| => Entry(rows[i], maximum))
  }

  predicate SlotsNamed(slots: seq<Slot>) {
    forall i :: 0 <= i < |slots| && slots[i].row.Some? ==> slots[i].row.value.id == slots[i].id
  }

  function Ids(slots: seq<Slot>): (r: seq<OpId>)
    ensures |r| == |slots|
    ensures forall i :: 0 <= i < |slots| ==> r[i] == slots[i].id
  {
    seq(|slots|, i requires 0 <= i < |slots| => slots[i].id)
  }

  function RecordedIds(slots: seq<Slot>): set<OpId> {
    set i | 0 <= i < |slots| && slots[i].row.Some? :: slots[i].id
  }

  function FailedIds(slots: seq<Slot>): set<OpId> {
    set i | 0 <= i < |slots| && slots[i].row.Some? && !Good(slots[i].row.value) :: slots[i].id
  }

  function Keep(ids: seq<OpId>, keep: set<OpId>): (r: seq<OpId>)
    ensures forall x :: x in r <==> x in ids && x in keep
  {
    if ids == [] then []
    else
      var tail := Keep(ids[1..], keep);
      assert ids == [ids[0]] + ids[1..];
      if ids[0] in keep then [ids[0]] + tail else tail
  }

  /** What follows the first occurrence of `id`. */
  function After(ids: seq<OpId>, id: OpId): seq<OpId> {
    if ids == [] then [] else if ids[0] == id then ids[1..] else After(ids[1..], id)
  }

  function ContinuableTests(c: Case, parts: seq<SanitizerPart>): set<OpId> {
    set i | 0 <= i < |parts| && Continuable(c, parts[i]) :: Tests(parts[i].kind)
  }

  /** Operations whose failure does not end a collection: completed test runs and
      their two diagnostic reads. */
  function Nonfatal(continuable: set<OpId>): set<OpId> {
    continuable
    + (set id | id in continuable && id.Tests? :: TestLog(id.kind))
    + (set id | id in continuable && id.Tests? :: Resources(id.kind))
  }

  predicate FuzzSound(c: Case, fuzz: FuzzPart) {
    && fuzz.target == c.plan.fuzz.target && fuzz.corpusSha == Digests(c.plan.fuzz.corpus)
    && |fuzz.replays| <= |c.plan.fuzz.corpus|
    && fuzz.campaign.None? && fuzz.metrics.None?
    && fuzz.corpusStage.Some?
    && if Good(fuzz.corpusStage.value) then
         && fuzz.corpusStage.value.output.Some?
         && c.w.staged(fuzz.corpusStage.value.output.value) == Some(ExpectedSeeds(c.plan.fuzz.corpus, 0))
         && fuzz.staged == Some(ExpectedSeeds(c.plan.fuzz.corpus, 0))
       else fuzz.staged.None?
  }

  /** A sanitizer that neither succeeded nor may be continued ends the collection. */
  predicate EndsCollection(c: Case, ev: Evidence) {
    forall i :: 0 <= i < |ev.sanitizers| && !KindSucceeded(ev.sanitizers[i]) && !Continuable(c, ev.sanitizers[i]) ==>
      i == |ev.sanitizers| - 1 && ev.fuzz.None? && ReclaimRow(ev, Of(ev.sanitizers[i].kind)).None?
  }

  predicate StructureSound(c: Case, ev: Evidence) {
    var kinds := c.plan.sanitizers.kinds;
    && FunctionalComplete(c, ev)
    && ReclamationsNamed(ev) && DiagnosticsNamed(c, ev)
    && |ev.sanitizers| <= |kinds|
    && (forall i :: 0 <= i < |ev.sanitizers| ==> ev.sanitizers[i].kind == kinds[i])
    && ReclaimSound(c, ev, Baseline)
    && (forall i :: 0 <= i < |ev.sanitizers| ==> KindSound(c, ev.sanitizers[i], DiagnosticFor(ev.diagnostics, kinds[i])))
    && (forall i :: |ev.sanitizers| <= i < |kinds| ==> DiagnosticFor(ev.diagnostics, kinds[i]).None?)
    && (forall i :: 0 <= i < |kinds| ==> ReclaimSound(c, ev, Of(kinds[i])))
    && (ev.fuzz.Some? ==> FuzzSound(c, ev.fuzz.value))
    && EndsCollection(c, ev)
  }

  function ExpectedError(slots: seq<Slot>, kinds: seq<Kind>, failed: OpId): ErrorCode {
    match failed
    case Reclaim(_) => ReclamationFailed
    case FuzzStage | FuzzConfigure | FuzzBuild | FuzzReplay(_) | FuzzCampaign => FuzzFailed
    case Junit(_) => ArtifactUnavailable
    case Tests(k) =>
      if k in kinds && (Junit(k) !in RecordedIds(slots) || Junit(k) in FailedIds(slots)) then ArtifactUnavailable else SanitizerFailed
    case _ => SanitizerFailed
  }

  /** What may be recorded after the aborting operation. */
  predicate SuffixAllowed(schema: Schema, kinds: seq<Kind>, failed: OpId, after: seq<OpId>) {
    if failed.Tests? && failed.kind in kinds then
      var tail := if AtLeastV3(schema) then [TestLog(failed.kind), Resources(failed.kind)] else [];
      after == tail || after == tail + [Junit(failed.kind)]
    else after == []
  }

  function First(ids: seq<OpId>): Option<OpId> {
    if ids == [] then None else Some(ids[0])
  }

  function ValidateRuntimePrefix(c: Case, ev: Evidence): Option<Verdict> {
    if ev.sanitizers == [] && ev.fuzz.None? && ev.reclamations == [] then ValidateFunctionalPrefix(c, ev)
    else if !StructureSound(c, ev) then None
    else
      var slots := AllSlots(c, ev);
      if !SlotsNamed(slots) || !OperationsOk(c, Entries(Recorded(slots), 8 * MIB + 4096), ev.durationMs) then None
      else JudgePrefix(c, ev, slots)
  }

  function Present(slots: seq<Slot>): seq<OpId> {
    Keep(Ids(slots), RecordedIds(slots))
  }

  function Aborting(c: Case, ev: Evidence, slots: seq<Slot>): seq<OpId> {
    Keep(Present(slots), FailedIds(slots) - Nonfatal(ContinuableTests(c, ev.sanitizers)))
  }

  predicate DeadlineAbort(c: Case, ev: Evidence, aborting: seq<OpId>) {
    && ev.schema.V4? && ev.error == Some(DeadlineReached) && ev.durationMs >= c.plan.totalSeconds * 1000
    && ev.fuzz.Some? && aborting == []
  }

  function JudgePrefix(c: Case, ev: Evidence, slots: seq<Slot>): Option<Verdict> {
    var kinds := c.plan.sanitizers.kinds;
    var present := Present(slots);
    var aborting := Aborting(c, ev, slots);
    if !(present <= Ids(slots)) then None
    else if DeadlineAbort(c, ev, aborting) then Some(LateVerdict(c, ev, slots, None))
    else if aborting == [] then None
    else if !SuffixAllowed(c.schema, kinds, aborting[0], After(present, aborting[0])) then None
    else if ev.error != Some(ExpectedError(slots, kinds, aborting[0])) then None
    else Some(LateVerdict(c, ev, slots, Some(aborting[0])))
  }

  function Summaries(c: Case, parts: seq<SanitizerPart>, diagnostics: seq<Diagnostic>): seq<DiagnosticSummary>
    requires forall i :: 0 <= i < |parts| && DiagnosticFor(diagnostics, parts[i].kind).Some? ==>
      (var d := DiagnosticFor(diagnostics, parts[i].kind).value;
       d.logRead.Some? && d.resources.Some? && DiagnosticsReadable(c.w, d.logRead.value, d.resources.value))
  {
    if parts == [] then []
    else
      var d := DiagnosticFor(diagnostics, parts[0].kind);
      assert forall i :: 0 <= i < |parts[1..]| ==> parts[1..][i] == parts[i + 1];
      (if d.Some? then [Summarise(c.w, d.value)] else []) + Summaries(c, parts[1..], diagnostics)
  }

  predicate Summarisable(c: Case, ev: Evidence) {
    forall i :: 0 <= i < |ev.sanitizers| && DiagnosticFor(ev.diagnostics, ev.sanitizers[i].kind).Some? ==>
      (var d := DiagnosticFor(ev.diagnostics, ev.sanitizers[i].kind).value;
       d.logRead.Some? && d.resources.Some? && DiagnosticsReadable(c.w, d.logRead.value, d.resources.value))
  }

  function LateVerdict(c: Case, ev: Evidence, slots: seq<Slot>, failed: Option<OpId>): Verdict {
    var replays := if ev.fuzz.Some? then |ev.fuzz.value.replays| else 0;
    var digests := Digests(c.plan.fuzz.corpus);
    Verdict(false, ev.error, failed, if c.schema.V4? then First(Keep(Present(slots), FailedIds(slots))) else None,
            if ev.functional.Some? && ev.functional.value.results.Some? then Known(ev.functional.value.results.value, None)
            else FunctionalVerdict(None, [], None, None, None, None),
            JudgeKinds(c, ev.sanitizers),
            if |ev.sanitizers| <= |c.plan.sanitizers.kinds| then c.plan.sanitizers.kinds[|ev.sanitizers|..] else [],
            FuzzVerdict(ev.fuzz.Some?, replays, false, None, if replays <= |digests| then digests[..replays] else []),
            if AtLeastV3(c.schema) && Summarisable(c, ev) then Summaries(c, ev.sanitizers, ev.diagnostics) else [])
  }

  // ---------- evidence that reached the campaign ----------

  predicate FunctionalRetained(c: Case, ev: Evidence) {
    ev.functional.Some? &&
    (var f := ev.functional.value;
     && f.setup.Some? && f.operation.Some? && f.resultsRead.Some?
     && FunctionalFile(c, f.resultsRead.value).Some?
     && (var raw := FunctionalFile(c, f.resultsRead.value).value;
         && ReadCsv(c.w, raw, c.plan.functional.selected).Some?
         && f.results == ReadCsv(c.w, raw, c.plan.functional.selected)
         && f.resultsSha == Some(c.w.sha(raw))))
  }

  /** Names are read from whatever row stands in the discovery place. */
  function ListedNames(c: Case, part: SanitizerPart): Option<seq<string>> {
    if part.discovery.Some? && Output(c.w, part.discovery.value, 4 * MIB).Some?
    then ReadNames(c.w, part.discovery.value.output.value) else None
  }

  predicate Retained(part: SanitizerPart) {
    part.configure.Some? && part.build.Some? && part.discovery.Some? && part.tests.Some? && part.junitRead.Some?
  }

  predicate KindRead(c: Case, part: SanitizerPart) {
    && Retained(part)
    && ListedNames(c, part).Some?
    && part.junitRead.value.output.Some?
    && FileBytes(c.w, part.junitRead.value.output.value, 4 * MIB).Some?
    && (var raw := FileBytes(c.w, part.junitRead.value.output.value, 4 * MIB).value;
        && ReadJunit(c.w, raw, ListedNames(c, part).value).Some?
        && part.results == ReadJunit(c.w, raw, ListedNames(c, part).value)
        && part.junitSha == Some(c.w.sha(raw)))
  }

  /** The stricter rules of the current schema for a finished sanitizer. */
  predicate KindFinished(c: Case, part: SanitizerPart, diagnostic: Option<Diagnostic>)
    requires KindRead(c, part)
  {
    var failed := !Good(part.tests.value);
    var p := part.results.value;
    && (diagnostic.Some? <==> failed)
    && (failed ==>
          && TestsCompleted(c.w, part.tests.value, p, FileBytes(c.w, part.junitRead.value.output.value, 4 * MIB).value)
          && diagnostic.value.logRead.Some? && diagnostic.value.resources.Some?
          && diagnostic.value.logRead.value.id == TestLog(part.kind)
          && diagnostic.value.resources.value.id == Resources(part.kind)
          && DiagnosticsReadable(c.w, diagnostic.value.logRead.value, diagnostic.value.resources.value))
    && Has(part.configure) && Has(part.build) && Has(part.discovery) && Has(part.junitRead)
    && p.executed == ListedNames(c, part).value && p.skipped == []
    && (!failed ==> p.passed == ListedNames(c, part).value)
  }

  function KindEntries(c: Case, part: SanitizerPart, diagnostic: Option<Diagnostic>): seq<Entry>
    requires Retained(part)
  {
    [Entry(part.configure.value, 4 * MIB), Entry(part.build.value, 4 * MIB), Entry(part.discovery.value, 4 * MIB),
     Entry(part.tests.value, 4 * MIB), Entry(part.junitRead.value, 8 * MIB + 4096)]
    + (if c.schema.V4? && diagnostic.Some? && diagnostic.value.logRead.Some? && diagnostic.value.resources.Some?
       then [Entry(diagnostic.value.logRead.value, 2 * MIB + 4096), Entry(diagnostic.value.resources.value, 4096)] else [])
  }

  predicate KindsRead(c: Case, ev: Evidence) {
    && |ev.sanitizers| == |c.plan.sanitizers.kinds|
    && forall i :: 0 <= i < |ev.sanitizers| ==>
         && ev.sanitizers[i].kind == c.plan.sanitizers.kinds[i]
         && KindRead(c, ev.sanitizers[i])
         && (c.schema.V4? ==> KindFinished(c, ev.sanitizers[i], DiagnosticFor(ev.diagnostics, ev.sanitizers[i].kind)))
  }

  function KindsEntries(c: Case, parts: seq<SanitizerPart>, diagnostics: seq<Diagnostic>): seq<Entry>
    requires forall i :: 0 <= i < |parts| ==> Retained(parts[i])
  {
    if parts == [] then []
    else
      assert forall i :: 0 <= i < |parts[1..]| ==> parts[1..][i] == parts[i + 1];
      KindEntries(c, parts[0], DiagnosticFor(diagnostics, parts[0].kind)) + KindsEntries(c, parts[1..], diagnostics)
  }

  predicate FuzzRead(c: Case, ev: Evidence) {
    ev.fuzz.Some? &&
    (var f := ev.fuzz.value;
     && f.target == c.plan.fuzz.target && f.corpusSha == Digests(c.plan.fuzz.corpus)
     && |f.replays| == |c.plan.fuzz.corpus|
     && f.corpusStage.Some? && f.configure.Some? && f.build.Some? && f.campaign.Some?
     && (forall i :: 0 <= i < |f.replays| ==> f.replays[i].Some?)
     && Output(c.w, f.corpusStage.value, MIB).Some?
     && c.w.staged(f.corpusStage.value.output.value) == Some(ExpectedSeeds(c.plan.fuzz.corpus, 0))
     && f.staged == Some(ExpectedSeeds(c.plan.fuzz.corpus, 0))
     && f.metrics == CampaignMetrics(c.w, f.campaign.value))
  }

  function FuzzEntries(f: FuzzPart): seq<Entry>
    requires f.corpusStage.Some? && f.configure.Some? && f.build.Some? && f.campaign.Some?
    requires forall i :: 0 <= i < |f.replays| ==> f.replays[i].Some?
  {
    [Entry(f.corpusStage.value, 4 * MIB), Entry(f.configure.value, 4 * MIB), Entry(f.build.value, 4 * MIB), Entry(f.campaign.value, 4 * MIB)]
    + seq(|f.replays|, i requires 0 <= i < |f.replays| => Entry(f.replays[i].value, 4 * MIB))
  }

  predicate ReclamationsRead(c: Case, ev: Evidence) {
    AtLeastV2(c.schema) ==>
      && |ev.reclamations| == |PHASES|
      && forall i :: 0 <= i < |PHASES| ==>
           && ev.reclamations[i].id == Reclaim(PHASES[i])
           && ev.reclamations[i].output.Some?
           && ReclaimedWell(c.w, ev.reclamations[i].output.value, PHASES[i])
           && Good(ev.reclamations[i])
  }

  function AllEntries(c: Case, ev: Evidence): seq<Entry>
    requires FunctionalRetained(c, ev) && KindsRead(c, ev) && FuzzRead(c, ev)
  {
    var f := ev.functional.value;
    assert forall i :: 0 <= i < |ev.sanitizers| ==> KindRead(c, ev.sanitizers[i]);
    [Entry(f.setup.value, 4 * MIB), Entry(f.operation.value, 4 * MIB), Entry(f.resultsRead.value, 2 * MIB + 4096)]
    + KindsEntries(c, ev.sanitizers, ev.diagnostics)
    + FuzzEntries(ev.fuzz.value)
    + (if AtLeastV2(c.schema) then Entries(ev.reclamations, 4096) else [])
  }

  function SeenIds(entries: seq<Entry>): set<OpId> {
    set e | e in entries :: e.row.id
  }

  predicate RowHasId(row: Option<Row>, id: OpId) {
    row.Some? && row.value.id == id
  }

  predicate Diagnoses(d: Diagnostic, id: OpId) {
    RowHasId(d.logRead, id) || RowHasId(d.resources, id)
  }

  /** Planned operations that must be recorded; diagnostic reads only for kinds that have them. */
  predicate RequiredOp(c: Case, ev: Evidence, id: OpId) {
    if id.TestLog? || id.Resources? then
      c.schema.V4? && exists i :: 0 <= i < |ev.diagnostics| && Diagnoses(ev.diagnostics[i], id)
    else Planned(c, id)
  }

  ghost predicate AllSeen(c: Case, ev: Evidence, entries: seq<Entry>) {
    forall id :: id in SeenIds(entries) <==> RequiredOp(c, ev, id)
  }

  predicate FuzzSucceeded(f: FuzzPart) {
    && Has(f.corpusStage) && Has(f.configure) && Has(f.build) && Has(f.campaign)
    && (forall i :: 0 <= i < |f.replays| ==> Has(f.replays[i]))
    && f.metrics.Some?
  }

  predicate TestsFailed(ev: Evidence) {
    exists i :: 0 <= i < |ev.sanitizers| && FailedTests(ev.sanitizers[i])
  }

  /** Success recomputed from the rows alone. */
  predicate Derived(c: Case, ev: Evidence)
    requires FunctionalRetained(c, ev) && KindsRead(c, ev) && FuzzRead(c, ev)
  {
    var f := ev.functional.value;
    && Has(f.setup) && Has(f.operation) && Has(f.resultsRead)
    && AllPassed(f.results.value, c.plan.functional.selected)
    && (forall i :: 0 <= i < |ev.sanitizers| ==> KindSucceeded(ev.sanitizers[i]))
    && FuzzSucceeded(ev.fuzz.value)
  }

  ghost predicate FullSound(c: Case, ev: Evidence) {
    && (c.schema.V3? ==> ev.diagnostics == [])
    && FunctionalRetained(c, ev)
    && (c.schema.V4? ==> DiagnosticsNamed(c, ev))
    && KindsRead(c, ev)
    && FuzzRead(c, ev)
    && ReclamationsRead(c, ev)
    && OperationsOk(c, AllEntries(c, ev), ev.durationMs)
    && AllSeen(c, ev, AllEntries(c, ev))
    && (c.schema.V4? && TestsFailed(ev) && FuzzSucceeded(ev.fuzz.value) ==> ev.error == Some(SanitizerFailed))
    && (ev.complete <==> Derived(c, ev) && ev.error.None?)
  }

  function FinishedKinds(c: Case, parts: seq<SanitizerPart>): seq<KindVerdict>
    requires forall i :: 0 <= i < |parts| ==> parts[i].results.Some?
  {
    if parts == [] then []
    else
      assert forall i :: 0 <= i < |parts[1..]| ==> parts[1..][i] == parts[i + 1];
      var state := if c.schema.V4? then Some(if Has(parts[0].tests) then CompleteState else FailedState) else None;
      [Counted(parts[0].kind, state, parts[0].results.value)] + FinishedKinds(c, parts[1..])
  }

  function FailedTestIds(parts: seq<SanitizerPart>): seq<OpId> {
    if parts == [] then []
    else (if FailedTests(parts[0]) then [Tests(parts[0].kind)] else []) + FailedTestIds(parts[1..])
  }

  function FailedRowIds(rows: seq<Option<Row>>): seq<OpId> {
    if rows == [] then []
    else (if rows[0].Some? && !Good(rows[0].value) then [rows[0].value.id] else []) + FailedRowIds(rows[1..])
  }

  function FullVerdict(c: Case, ev: Evidence): Verdict
    requires FunctionalRetained(c, ev) && KindsRead(c, ev) && FuzzRead(c, ev)
  {
    var f := ev.fuzz.value;
    var failures := FailedTestIds(ev.sanitizers) + FailedRowIds(f.replays + [f.campaign])
                    + (if f.metrics.None? then [FuzzCampaign] else []);
    Verdict(ev.complete, ev.error, None, if c.schema.V4? then First(failures) else None,
            Known(ev.functional.value.results.value, None), FinishedKinds(c, ev.sanitizers), [],
            FuzzVerdict(true, |f.replays|, Has(f.campaign), f.metrics, f.corpusSha),
            if c.schema.V4? && Summarisable(c, ev) then Summaries(c, ev.sanitizers, ev.diagnostics) else [])
  }

  // ---------- the validator ----------

  predicate Shape(c: Case, ev: Evidence) {
    && c.schema == ev.schema
    && (ev.schema.V1? ==> ev.reclamations == [])
    && (!AtLeastV3(ev.schema) ==> ev.diagnostics == [])
    && ev.planSha == c.w.planSha(c.plan)
    && c.plan.totalSeconds == TOTAL_SECONDS
    && 0 <= ev.durationMs <= (TOTAL_SECONDS + 5) * 1000
    && (ev.error.Some? ==> !ev.error.value.Unmatched?)
    && FuzzBuildParallel(c.plan).Some?
  }

  predicate StoppedEarly(c: Case, ev: Evidence) {
    && AtLeastV2(c.schema) && !ev.complete && ev.error.Some?
    && (ev.fuzz.None? || ev.fuzz.value.campaign.None?)
  }

  ghost function Validate(c: Case, ev: Evidence): Option<Verdict> {
    if !Shape(c, ev) then None
    else if StoppedEarly(c, ev) then ValidateRuntimePrefix(c, ev)
    else if FullSound(c, ev) then Some(FullVerdict(c, ev))
    else None
  }
}
