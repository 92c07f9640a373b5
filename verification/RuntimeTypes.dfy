/** Plans, operations, evidence and decoders of the C/C++ runtime stage. */
module RuntimeTypes {
  import opened Results
  import FunctionalResults
  import opened JunitResults
  import opened Names

  // ---------- identities ----------

  datatype Kind = Address | Undefined | OtherKind(name: string)
  datatype Phase = Baseline | Of(kind: Kind)

  /** The phases a workspace can be reclaimed for, in release order. */
  const PHASES: seq<Phase> := [Baseline, Of(Address), Of(Undefined)]

  datatype OpId =
    | FunctionalSetup | FunctionalRun | FunctionalRead
    | Reclaim(phase: Phase)
    | Configure(kind: Kind) | Build(kind: Kind) | Discover(kind: Kind) | Tests(kind: Kind)
    | TestLog(kind: Kind) | Resources(kind: Kind) | Junit(kind: Kind)
    | FuzzStage | FuzzConfigure | FuzzBuild | FuzzReplay(index: nat) | FuzzCampaign
    | UnknownOp(text: string)

  datatype Tree = Sanitized(kind: Kind) | Fuzzing
  datatype File = FunctionalCsv | CtestLog(kind: Kind) | JunitXml(kind: Kind)
  datatype FuzzInput = Seed(index: nat) | CampaignFor(seconds: int)

  /** One constructor for every argv the controller can send; each field is a value
      the controller interpolates into it. */
  datatype Command =
    | MakeFunctionalDirectory
    | RunFunctional(jobs: int, tests: seq<string>)
    | ReadFile(file: File, limit: nat)
    | ConfigureSanitized(kind: Kind, options: map<string, string>)
    | BuildTree(tree: Tree, parallel: int, target: Option<string>)
    | ListTests(tree: Tree)
    | RunTests(tree: Tree, log: File, scheduled: bool, parallel: int, caseSeconds: int, junit: File)
    | ProbeResources
    | ReclaimSpace(phase: Phase)
    | StageCorpus
    | ConfigureFuzz
    | RunFuzz(binary: string, runs: int, input: FuzzInput)
    | OtherCommand(argv: seq<string>)

  datatype Setting = PythonGil | AsanHalt | UbsanHalt | UnitTestData | FuzzTarget(target: string) | OtherSetting(text: string)
  datatype User = Root | OtherUser(name: string)
  datatype Directory = BaselineBuild | FunctionalTests | SanitizeTree(kind: Kind) | OtherDirectory(name: string)

  // ---------- plans ----------

  datatype PlanSchema = PlanV1 | PlanV2 | PlanV3 | PlanV4
  datatype Schedule = RetainedAddressCosts | OtherSchedule
  datatype SeedFile = SeedFile(sha: string, bytes: nat)
  datatype StagedSeed = StagedSeed(index: nat, sha: string, bytes: nat)

  datatype FunctionalPlan = FunctionalPlan(selected: seq<string>, parallel: int, seconds: nat)
  datatype SanitizerPlan = SanitizerPlan(kinds: seq<Kind>, parallel: int, testParallel: Option<int>, schedule: Option<Schedule>,
                                         buildSeconds: nat, testSeconds: nat, caseSeconds: int)
  datatype FuzzPlan = FuzzPlan(target: string, binary: string, buildTarget: string, parallel: int, buildParallel: Option<int>,
                               corpus: seq<SeedFile>, replayRuns: int, campaignRuns: int, campaignSeconds: nat)
  datatype Plan = Plan(schema: PlanSchema, totalSeconds: int, functional: FunctionalPlan, sanitizers: SanitizerPlan,
                       fuzz: FuzzPlan, unitTestData: bool)

  const TOTAL_SECONDS := 6000
  const MIB := 1048576

  function Min(a: int, b: int): int {
    if a < b then a else b
  }

  /** Workers of the sanitizer test run; None is the source's scheduling error. */
  function TestParallel(plan: Plan): Option<int> {
    var s := plan.sanitizers;
    if plan.schema.PlanV4? && s.schedule != Some(RetainedAddressCosts) then None
    else if !plan.schema.PlanV4? && s.schedule.Some? then None
    else if !(1 <= s.parallel <= 4) then None
    else if plan.schema.PlanV1? && s.testParallel.None? then Some(s.parallel)
    else if !plan.schema.PlanV1? && s.testParallel == Some(Min(2, s.parallel)) then s.testParallel
    else None
  }

  function FuzzBuildParallel(plan: Plan): Option<int> {
    if TestParallel(plan).None? || plan.fuzz.parallel != 1 then None
    else if plan.schema.PlanV1? || plan.schema.PlanV2? then
      if plan.fuzz.buildParallel.None? then Some(1) else None
    else if plan.fuzz.buildParallel == Some(Min(2, plan.sanitizers.parallel)) then plan.fuzz.buildParallel
    else None
  }

  // ---------- evidence ----------

  newtype Byte = b: int | 0 <= b < 256
  type Bytes = seq<Byte>

  /** One recorded operation; `output` is None when the recorded text is not base64. */
  datatype Row = Row(id: OpId, command: Command, user: Option<User>, environment: set<Setting>, workdir: Option<Directory>,
                     exitCode: int, timedOut: bool, truncated: bool, durationMs: int, output: Option<Bytes>, outputSha: string)

  datatype ErrorCode =
    | FunctionalFailed | ReclamationFailed | SanitizerFailed | FuzzFailed | FuzzMetricsInvalid
    | ArtifactUnavailable | DeadlineReached | ResultsInvalid | DiscoveryInvalid | EvidenceInvalid | GenericFailure
    | OtherCode(text: string)     // any other worker_runtime_ code
    | Unmatched(text: string)     // text outside that alphabet

  datatype FunctionalPart = FunctionalPart(setup: Option<Row>, operation: Option<Row>, resultsRead: Option<Row>,
                                           results: Option<FunctionalResults.Summary>, resultsSha: Option<string>)
  datatype SanitizerPart = SanitizerPart(kind: Kind, configure: Option<Row>, build: Option<Row>, discovery: Option<Row>,
                                         tests: Option<Row>, junitRead: Option<Row>, results: Option<Population>, junitSha: Option<string>)
  datatype Diagnostic = Diagnostic(kind: Kind, logRead: Option<Row>, resources: Option<Row>)
  datatype Metrics = Metrics(executions: int, coverage: int, durationMs: int)
  datatype FuzzPart = FuzzPart(corpusStage: Option<Row>, staged: Option<seq<StagedSeed>>, configure: Option<Row>, build: Option<Row>,
                               replays: seq<Option<Row>>, campaign: Option<Row>, metrics: Option<Metrics>,
                               target: string, corpusSha: seq<string>)

  datatype Schema = V1 | V2 | V3 | V4
  datatype Evidence = Evidence(schema: Schema, planSha: string, functional: Option<FunctionalPart>, sanitizers: seq<SanitizerPart>,
                               fuzz: Option<FuzzPart>, complete: bool, error: Option<ErrorCode>, durationMs: int,
                               reclamations: seq<Row>, diagnostics: seq<Diagnostic>)

  predicate Good(row: Row) {
    row.exitCode == 0 && !row.timedOut && !row.truncated
  }

  predicate Has(row: Option<Row>) {
    row.Some? && Good(row.value)
  }

  // ---------- decoders ----------

  datatype Envelope = NotJson | WrongShape | Wrapped(data: Option<Bytes>, truncated: bool)
  datatype Space = Space(capacity: int, available: int)
  datatype Reclamation = Reclamation(phase: Phase, removed: seq<Directory>, before: Space, after: Space)
  datatype ResourceReading = ResourceReading(current: Option<int>, peak: Option<int>, events: Option<map<string, int>>,
                                             capacity: Option<int>, available: Option<int>)

  /** Every way raw bytes are read: digests and the JSON, CSV, XML and text readers.
      All results hold for every choice of these functions. */
  datatype World = World(
    sha: Bytes -> string,
    planSha: Plan -> string,
    envelope: Bytes -> Envelope,
    csv: Bytes -> Option<seq<seq<string>>>,
    suite: Bytes -> Option<Suite>,
    listed: Bytes -> Option<seq<string>>,
    staged: Bytes -> Option<seq<StagedSeed>>,
    reclamation: Bytes -> Option<Reclamation>,
    resources: Bytes -> Option<ResourceReading>,
    counters: Bytes -> Option<(int, int)>)

  /** The row's bytes, when they decode, fit and match their recorded digest. */
  function Output(w: World, row: Row, maximum: nat): Option<Bytes> {
    if row.output.Some? && |row.output.value| <= maximum && row.outputSha == w.sha(row.output.value) then row.output else None
  }

  /** The whole file behind a successful bounded read. */
  function FileBytes(w: World, raw: Bytes, limit: nat): Option<Bytes> {
    match w.envelope(raw)
    case Wrapped(Some(data), false) => if 0 < |data| <= limit then Some(data) else None
    case _ => None
  }

  function ReadCsv(w: World, raw: Bytes, selected: seq<string>): Option<FunctionalResults.Summary> {
    match w.csv(raw)
    case None => None
    case Some(rows) => FunctionalResults.Parse(rows, selected)
  }

  function ReadNames(w: World, raw: Bytes): Option<seq<string>> {
    match w.listed(raw)
    case None => None
    case Some(names) =>
      if names == [] || !Distinct(names) || "" in names then None else Some(Sort(names))
  }

  function ReadJunit(w: World, raw: Bytes, names: seq<string>): Option<Population> {
    match w.suite(raw)
    case None => None
    case Some(suite) => JunitResults.Read(suite, names)
  }

  /** A completed CTest failure: exit 8, no timeout, all results retained. */
  predicate TestsCompleted(w: World, tests: Row, p: Population, raw: Bytes) {
    && tests.exitCode == 8 && !tests.timedOut && !tests.truncated
    && w.suite(raw).Some? && CompletedFailure(w.suite(raw).value, p)
  }

  function Removed(phase: Phase): Option<seq<Directory>> {
    match phase
    case Baseline => Some([BaselineBuild, FunctionalTests])
    case Of(Address) => Some([SanitizeTree(Address)])
    case Of(Undefined) => Some([SanitizeTree(Undefined)])
    case Of(OtherKind(_)) => None
  }

  predicate SpaceValid(s: Space) {
    0 <= s.available <= s.capacity && s.capacity > 0
  }

  predicate ReclaimedWell(w: World, raw: Bytes, phase: Phase) {
    w.reclamation(raw).Some? &&
    (var r := w.reclamation(raw).value;
     && r.phase == phase && Some(r.removed) == Removed(phase)
     && SpaceValid(r.before) && SpaceValid(r.after)
     && r.before.capacity == r.after.capacity && r.before.available <= r.after.available)
  }

  predicate Counter(n: Option<int>) {
    n.None? || 0 <= n.value < 0x1_0000_0000_0000_0000
  }

  predicate ResourcesValid(r: ResourceReading) {
    && Counter(r.current) && Counter(r.peak) && Counter(r.capacity) && Counter(r.available)
    && (r.events.Some? ==> |r.events.value| <= 32 && forall k :: k in r.events.value ==> Counter(Some(r.events.value[k])))
    && (r.capacity.None? <==> r.available.None?)
    && (r.capacity.Some? ==> r.available.value <= r.capacity.value)
  }

  /** The two diagnostic reads of a failed test run can be summarised. */
  predicate DiagnosticsReadable(w: World, log: Row, resources: Row) {
    && (Good(log) ==> LogReadable(w, log.output))
    && (Good(resources) ==> ResourcesReadable(w, resources.output))
  }

  predicate LogReadable(w: World, raw: Option<Bytes>) {
    && raw.Some? && w.envelope(raw.value).Wrapped?
    && w.envelope(raw.value).data.Some? && |w.envelope(raw.value).data.value| <= MIB
  }

  predicate ResourcesReadable(w: World, raw: Option<Bytes>) {
    raw.Some? && w.resources(raw.value).Some? && ResourcesValid(w.resources(raw.value).value)
  }

  function CampaignMetrics(w: World, row: Row): Option<Metrics> {
    if !Good(row) || Output(w, row, MIB).None? then None
    else
      match w.counters(row.output.value)
      case Some((executions, coverage)) =>
        if executions < 1 || coverage < 0 then None else Some(Metrics(executions, coverage, row.durationMs))
      case None => None
  }

  function ExpectedSeeds(corpus: seq<SeedFile>, from: nat): (r: seq<StagedSeed>)
    ensures |r| == |corpus|
    ensures forall i :: 0 <= i < |corpus| ==> r[i] == StagedSeed(from + i, corpus[i].sha, corpus[i].bytes)
  {
    if corpus == [] then []
    else [StagedSeed(from, corpus[0].sha, corpus[0].bytes)] + ExpectedSeeds(corpus[1..], from + 1)
  }

  function Digests(corpus: seq<SeedFile>): (r: seq<string>)
    ensures |r| == |corpus|
    ensures forall i :: 0 <= i < |corpus| ==> r[i] == corpus[i].sha
  {
    if corpus == [] then [] else [corpus[0].sha] + Digests(corpus[1..])
  }
}
