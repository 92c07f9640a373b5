/** The staged runtime collection: what it records, stage by stage, for every
    behaviour of the commands it runs. */
module RuntimeProducer {
  import opened Results
  import opened Names
  import opened JunitResults
  import opened RuntimeTypes

  /** What one command does: nanoseconds spent before it starts, nanoseconds it would
      run if left alone, nanoseconds needed to stop it, and what comes back. */
  datatype Outcome = Outcome(gap: nat, work: nat, overrun: nat, exitCode: int, timedOut: bool, truncated: bool, output: Bytes)

  /** One collection. Every planned operation runs at most once, so an outcome for
      each operation describes every possible run; `tail` is spent after the last. */
  datatype Session = Session(w: World, plan: Plan, options: map<string, string>, capture: bool,
                             outcome: OpId -> Outcome, tail: nat)

  const MS := 1_000_000
  const DEADLINE := TOTAL_SECONDS * 1000 * MS

  /** Why collection ended early; the operation is the one the end is charged to. */
  datatype Stop =
    | NativeFailure(op: OpId)    // a recorded command failed
    | BadContent(op: OpId)       // a successful read returned something unusable
    | Mismatch(op: OpId)         // CTest exited 0 although its results did not all pass
    | OutOfTime(op: OpId)        // the budget was spent before this operation
    | CampaignUnsuccessful       // the campaign ran, and failed or gave no metrics

  datatype Halt = Running | Raised(code: ErrorCode, stop: Stop)

  datatype Observation = Late(now: nat) | Seen(row: Row, now: nat)

  /** Seconds the controller asks for. */
  function Requested(plan: Plan, id: OpId): nat {
    match id
    case FunctionalSetup => 10
    case FunctionalRun => plan.functional.seconds
    case FunctionalRead => 15
    case Reclaim(_) => 30
    case Configure(_) => 90
    case Build(_) => plan.sanitizers.buildSeconds
    case Discover(_) => 60
    case Tests(_) => plan.sanitizers.testSeconds
    case TestLog(_) => 15
    case Resources(_) => 5
    case Junit(_) => 15
    case FuzzStage => 20
    case FuzzConfigure => 90
    case FuzzBuild => 1200
    case FuzzReplay(_) => 60
    case FuzzCampaign => plan.fuzz.campaignSeconds + 30
    case UnknownOp(_) => 0
  }

  /** Nanoseconds a command starting at `start` may take: what is asked for or what is
      left of the budget, but never less than a millisecond. */
  function Allowed(plan: Plan, id: OpId, start: nat): nat
    requires start < DEADLINE
  {
    var wanted := Min(Requested(plan, id) * 1000 * MS, DEADLINE - start);
    if wanted < MS then MS else wanted
  }

  function Elapsed(s: Session, id: OpId, start: nat): nat
    requires start < DEADLINE
  {
    Min(s.outcome(id).work, Allowed(s.plan, id, start)) + s.outcome(id).overrun
  }

  function Observe(s: Session, now: nat, id: OpId, command: Command, user: Option<User>,
                   environment: set<Setting>, workdir: Option<Directory>): Observation
  {
    var o := s.outcome(id);
    var start := now + o.gap;
    if start >= DEADLINE then Late(start)
    else Seen(Row(id, command, user, environment, workdir, o.exitCode, o.timedOut, o.truncated,
                  Elapsed(s, id, start) / MS, Some(o.output), s.w.sha(o.output)), start + Elapsed(s, id, start))
  }

  function Plain(s: Session, now: nat, id: OpId, command: Command): Observation {
    Observe(s, now, id, command, None, {}, None)
  }

  function TimeUp(op: OpId): Halt {
    Raised(DeadlineReached, OutOfTime(op))
  }

  /** The content of a bounded file read, or the error the read raises. */
  function Fetch(w: World, row: Row, limit: nat): Result<Bytes, ErrorCode> {
    if !Good(row) then Err(ArtifactUnavailable)
    else
      match Output(w, row, limit * 2 + 4096)
      case None => Err(EvidenceInvalid)
      case Some(raw) =>
        match w.envelope(raw)
        case NotJson => Err(GenericFailure)
        case WrongShape => Err(ArtifactUnavailable)
        case Wrapped(_, true) => Err(ArtifactUnavailable)
        case Wrapped(None, false) => Err(GenericFailure)
        case Wrapped(Some(data), false) => if 0 < |data| <= limit then Ok(data) else Err(ArtifactUnavailable)
  }

  // ---------- functional stage ----------

  datatype FunctionalOutcome = FunctionalOutcome(part: FunctionalPart, now: nat, halt: Halt)

  const NO_FUNCTIONAL := FunctionalPart(None, None, None, None, None)

  function FunctionalStage(s: Session): FunctionalOutcome {
    match Plain(s, 0, FunctionalSetup, MakeFunctionalDirectory)
    case Late(t) => FunctionalOutcome(NO_FUNCTIONAL, t, TimeUp(FunctionalSetup))
    case Seen(setup, t) =>
      var part := NO_FUNCTIONAL.(setup := Some(setup));
      if !Good(setup) then FunctionalOutcome(part, t, Raised(FunctionalFailed, NativeFailure(FunctionalSetup)))
      else RunFunctionalTests(s, part, t)
  }

  function RunFunctionalTests(s: Session, part: FunctionalPart, now: nat): FunctionalOutcome {
    var f := s.plan.functional;
    match Observe(s, now, FunctionalRun, RunFunctional(f.parallel, f.selected), None, {PythonGil}, Some(BaselineBuild))
    case Late(t) => FunctionalOutcome(part, t, TimeUp(FunctionalRun))
    case Seen(operation, t) =>
      var part := part.(operation := Some(operation));
      match Plain(s, t, FunctionalRead, ReadFile(FunctionalCsv, MIB))
      case Late(t) => FunctionalOutcome(part, t, TimeUp(FunctionalRead))
      case Seen(read, t) => JudgeFunctional(s, part.(resultsRead := Some(read)), operation, read, t)
  }

  function JudgeFunctional(s: Session, part: FunctionalPart, operation: Row, read: Row, now: nat): FunctionalOutcome {
    var selected := s.plan.functional.selected;
    match Fetch(s.w, read, MIB)
    case Err(code) =>
      var stop := if Good(read) then BadContent(FunctionalRead)
                  else if Good(operation) then NativeFailure(FunctionalRead) else NativeFailure(FunctionalRun);
      FunctionalOutcome(part, now, Raised(code, stop))
    case Ok(raw) =>
      match ReadCsv(s.w, raw, selected)
      case None => FunctionalOutcome(part, now, Raised(ResultsInvalid, BadContent(FunctionalRead)))
      case Some(summary) =>
        var part := part.(results := Some(summary), resultsSha := Some(s.w.sha(raw)));
        if Good(operation) && summary.passed == selected && summary.failed == [] && summary.skipped == []
        then FunctionalOutcome(part, now, Running)
        else FunctionalOutcome(part, now, Raised(FunctionalFailed, NativeFailure(FunctionalRun)))
  }

  // ---------- workspace reclamation ----------

  datatype ReclaimOutcome = ReclaimOutcome(row: Option<Row>, now: nat, halt: Halt)

  function ReclaimStage(s: Session, now: nat, phase: Phase): ReclaimOutcome {
    match Plain(s, now, Reclaim(phase), ReclaimSpace(phase))
    case Late(t) => ReclaimOutcome(None, t, TimeUp(Reclaim(phase)))
    case Seen(row, t) =>
      if !Good(row) then ReclaimOutcome(Some(row), t, Raised(ReclamationFailed, NativeFailure(Reclaim(phase))))
      else
        match Output(s.w, row, 4096)
        case None => ReclaimOutcome(Some(row), t, Raised(EvidenceInvalid, BadContent(Reclaim(phase))))
        case Some(raw) =>
          if ReclaimedWell(s.w, raw, phase) then ReclaimOutcome(Some(row), t, Running)
          else ReclaimOutcome(Some(row), t, Raised(ReclamationFailed, BadContent(Reclaim(phase))))
  }

  // ---------- one sanitizer ----------

  /** `completed` marks a finished CTest run with ordinary test failures. */
  datatype KindOutcome = KindOutcome(part: SanitizerPart, diagnostic: Option<Diagnostic>, now: nat, completed: bool, halt: Halt)

  function Halted(part: SanitizerPart, diagnostic: Option<Diagnostic>, now: nat, code: ErrorCode, stop: Stop): KindOutcome {
    KindOutcome(part, diagnostic, now, false, Raised(code, stop))
  }

  function TestSettings(s: Session, kind: Kind): set<Setting> {
    (if kind == Address then {AsanHalt} else {UbsanHalt}) + (if s.plan.unitTestData then {UnitTestData} else {})
  }

  function KindStage(s: Session, now: nat, kind: Kind): KindOutcome {
    var part := SanitizerPart(kind, None, None, None, None, None, None, None);
    match Plain(s, now, Configure(kind), ConfigureSanitized(kind, s.options))
    case Late(t) => Halted(part, None, t, DeadlineReached, OutOfTime(Configure(kind)))
    case Seen(c, t) =>
      var part := part.(configure := Some(c));
      if !Good(c) then Halted(part, None, t, SanitizerFailed, NativeFailure(Configure(kind)))
      else BuildKind(s, part, t, kind)
  }

  function BuildKind(s: Session, part: SanitizerPart, now: nat, kind: Kind): KindOutcome {
    match Plain(s, now, Build(kind), BuildTree(Sanitized(kind), s.plan.sanitizers.parallel, None))
    case Late(t) => Halted(part, None, t, DeadlineReached, OutOfTime(Build(kind)))
    case Seen(b, t) =>
      var part := part.(build := Some(b));
      if !Good(b) then Halted(part, None, t, SanitizerFailed, NativeFailure(Build(kind)))
      else DiscoverKind(s, part, t, kind)
  }

  function DiscoverKind(s: Session, part: SanitizerPart, now: nat, kind: Kind): KindOutcome {
    match Plain(s, now, Discover(kind), ListTests(Sanitized(kind)))
    case Late(t) => Halted(part, None, t, DeadlineReached, OutOfTime(Discover(kind)))
    case Seen(d, t) =>
      var part := part.(discovery := Some(d));
      if !Good(d) then Halted(part, None, t, SanitizerFailed, NativeFailure(Discover(kind)))
      else
        match Output(s.w, d, 4 * MIB)
        case None => Halted(part, None, t, EvidenceInvalid, BadContent(Discover(kind)))
        case Some(raw) =>
          match ReadNames(s.w, raw)
          case None => Halted(part, None, t, DiscoveryInvalid, BadContent(Discover(kind)))
          case Some(names) => TestKind(s, part, t, kind, names)
  }

  function TestKind(s: Session, part: SanitizerPart, now: nat, kind: Kind, names: seq<string>): KindOutcome {
    var parallel := TestParallel(s.plan);
    var command := RunTests(Sanitized(kind), CtestLog(kind), s.plan.schema.PlanV4? && kind == Address,
                            if parallel.Some? then parallel.value else 0, s.plan.sanitizers.caseSeconds, JunitXml(kind));
    match Observe(s, now, Tests(kind), command, None, TestSettings(s, kind), None)
    case Late(t) => Halted(part, None, t, DeadlineReached, OutOfTime(Tests(kind)))
    case Seen(tests, t) =>
      var part := part.(tests := Some(tests));
      if s.capture && !Good(tests) then DiagnoseKind(s, part, t, kind, names, tests)
      else CollectJunit(s, part, None, t, kind, names, tests)
  }

  function DiagnoseKind(s: Session, part: SanitizerPart, now: nat, kind: Kind, names: seq<string>, tests: Row): KindOutcome {
    var diagnostic := Diagnostic(kind, None, None);
    match Plain(s, now, TestLog(kind), ReadFile(CtestLog(kind), MIB))
    case Late(t) => Halted(part, Some(diagnostic), t, DeadlineReached, OutOfTime(TestLog(kind)))
    case Seen(log, t) => ProbeKind(s, part, diagnostic.(logRead := Some(log)), t, kind, names, tests)
  }

  function ProbeKind(s: Session, part: SanitizerPart, diagnostic: Diagnostic, now: nat, kind: Kind, names: seq<string>, tests: Row): KindOutcome {
    match Plain(s, now, Resources(kind), ProbeResources)
    case Late(t) => Halted(part, Some(diagnostic), t, DeadlineReached, OutOfTime(Resources(kind)))
    case Seen(resources, t) =>
      CollectJunit(s, part, Some(diagnostic.(resources := Some(resources))), t, kind, names, tests)
  }

  function CollectJunit(s: Session, part: SanitizerPart, diagnostic: Option<Diagnostic>, now: nat, kind: Kind,
                        names: seq<string>, tests: Row): KindOutcome {
    match Plain(s, now, Junit(kind), ReadFile(JunitXml(kind), 4 * MIB))
    case Late(t) => Halted(part, diagnostic, t, DeadlineReached, OutOfTime(Junit(kind)))
    case Seen(read, t) => InterpretJunit(s, part.(junitRead := Some(read)), diagnostic, t, kind, names, tests, read)
  }

  function InterpretJunit(s: Session, part: SanitizerPart, diagnostic: Option<Diagnostic>, now: nat, kind: Kind,
                          names: seq<string>, tests: Row, read: Row): KindOutcome {
    match Fetch(s.w, read, 4 * MIB)
    case Err(code) =>
      var stop := if Good(read) then BadContent(Junit(kind))
                  else if Good(tests) then NativeFailure(Junit(kind)) else NativeFailure(Tests(kind));
      Halted(part, diagnostic, now, code, stop)
    case Ok(raw) =>
      match ReadJunit(s.w, raw, names)
      case None => Halted(part, diagnostic, now, GenericFailure, BadContent(Junit(kind)))
      case Some(p) =>
        JudgeKind(s, part, diagnostic, now, kind, names, tests, p, raw)
  }

  function JudgeKind(s: Session, part: SanitizerPart, diagnostic: Option<Diagnostic>, now: nat, kind: Kind,
                     names: seq<string>, tests: Row, p: Population, raw: Bytes): KindOutcome {
    Judged(s, part.(results := Some(p), junitSha := Some(s.w.sha(raw))), diagnostic, now, kind, names, tests, p, raw)
  }

  function Judged(s: Session, part: SanitizerPart, diagnostic: Option<Diagnostic>, now: nat, kind: Kind,
                  names: seq<string>, tests: Row, p: Population, raw: Bytes): KindOutcome {
    if Good(tests) && p.executed == names && p.passed == names && p.skipped == [] then
      KindOutcome(part, diagnostic, now, false, Running)
    else if s.capture && TestsCompleted(s.w, tests, p, raw) then
      KindOutcome(part, diagnostic, now, true, Running)
    else
      Halted(part, diagnostic, now, SanitizerFailed, if Good(tests) then Mismatch(Tests(kind)) else NativeFailure(Tests(kind)))
  }

  // ---------- fuzzing ----------

  datatype FuzzOutcome = FuzzOutcome(part: Option<FuzzPart>, now: nat, halt: Halt)

  function FuzzSettings(s: Session): set<Setting> {
    {FuzzTarget(s.plan.fuzz.target), AsanHalt, UbsanHalt}
  }

  function FuzzStaging(s: Session, now: nat): FuzzOutcome {
    var f := s.plan.fuzz;
    match Observe(s, now, FuzzStage, StageCorpus, Some(Root), {}, None)
    case Late(t) => FuzzOutcome(None, t, TimeUp(FuzzStage))
    case Seen(stage, t) =>
      var part := FuzzPart(Some(stage), None, None, None, [], None, None, f.target, Digests(f.corpus));
      if !Good(stage) then FuzzOutcome(Some(part), t, Raised(FuzzFailed, NativeFailure(FuzzStage)))
      else
        match Output(s.w, stage, MIB)
        case None => FuzzOutcome(Some(part), t, Raised(EvidenceInvalid, BadContent(FuzzStage)))
        case Some(raw) =>
          match s.w.staged(raw)
          case None => FuzzOutcome(Some(part), t, Raised(GenericFailure, BadContent(FuzzStage)))
          case Some(staged) =>
            var part := part.(staged := Some(staged));
            if staged != ExpectedSeeds(f.corpus, 0) then FuzzOutcome(Some(part), t, Raised(FuzzFailed, BadContent(FuzzStage)))
            else ConfigureFuzzing(s, part, t)
  }

  function ConfigureFuzzing(s: Session, part: FuzzPart, now: nat): FuzzOutcome {
    match Plain(s, now, FuzzConfigure, ConfigureFuzz)
    case Late(t) => FuzzOutcome(Some(part), t, TimeUp(FuzzConfigure))
    case Seen(c, t) =>
      var part := part.(configure := Some(c));
      if !Good(c) then FuzzOutcome(Some(part), t, Raised(FuzzFailed, NativeFailure(FuzzConfigure)))
      else BuildFuzzing(s, part, t)
  }

  function BuildFuzzing(s: Session, part: FuzzPart, now: nat): FuzzOutcome {
    var parallel := FuzzBuildParallel(s.plan);
    match Plain(s, now, FuzzBuild, BuildTree(Fuzzing, if parallel.Some? then parallel.value else 0, Some(s.plan.fuzz.buildTarget)))
    case Late(t) => FuzzOutcome(Some(part), t, TimeUp(FuzzBuild))
    case Seen(b, t) =>
      var part := part.(build := Some(b));
      if !Good(b) then FuzzOutcome(Some(part), t, Raised(FuzzFailed, NativeFailure(FuzzBuild)))
      else ReplayCorpus(s, part, t, 0)
  }

  function ReplayCorpus(s: Session, part: FuzzPart, now: nat, i: nat): FuzzOutcome
    requires i <= |s.plan.fuzz.corpus|
    decreases |s.plan.fuzz.corpus| - i
  {
    var f := s.plan.fuzz;
    if i == |f.corpus| then RunCampaign(s, part, now)
    else
      match Observe(s, now, FuzzReplay(i), RunFuzz(f.binary, f.replayRuns, Seed(i)), None, FuzzSettings(s), None)
      case Late(t) => FuzzOutcome(Some(part), t, TimeUp(FuzzReplay(i)))
      case Seen(r, t) =>
        var part := part.(replays := part.replays + [Some(r)]);
        if !Good(r) then FuzzOutcome(Some(part), t, Raised(FuzzFailed, NativeFailure(FuzzReplay(i))))
        else ReplayCorpus(s, part, t, i + 1)
  }

  function RunCampaign(s: Session, part: FuzzPart, now: nat): FuzzOutcome {
    var f := s.plan.fuzz;
    match Observe(s, now, FuzzCampaign, RunFuzz(f.binary, f.campaignRuns, CampaignFor(f.campaignSeconds)), None, FuzzSettings(s), None)
    case Late(t) => FuzzOutcome(Some(part), t, TimeUp(FuzzCampaign))
    case Seen(c, t) => JudgeCampaign(part.(campaign := Some(c), metrics := CampaignMetrics(s.w, c)), Good(c), t)
  }

  function JudgeCampaign(part: FuzzPart, succeeded: bool, now: nat): FuzzOutcome {
    if !succeeded then FuzzOutcome(Some(part), now, Raised(FuzzFailed, CampaignUnsuccessful))
    else if part.metrics.None? then FuzzOutcome(Some(part), now, Raised(FuzzMetricsInvalid, CampaignUnsuccessful))
    else FuzzOutcome(Some(part), now, Running)
  }

  // ---------- the whole collection ----------

  datatype Progress = Progress(ev: Evidence, now: nat, testFailed: bool, halt: Halt)

  function Begin(s: Session): Progress {
    var f := FunctionalStage(s);
    Progress(Evidence(if s.capture then V4 else V2, s.w.planSha(s.plan), Some(f.part), [], None, false, None, 0, [], []),
             f.now, false, f.halt)
  }

  function WithReclaim(s: Session, p: Progress, phase: Phase): Progress {
    if p.halt.Raised? then p
    else
      var r := ReclaimStage(s, p.now, phase);
      var rows := if r.row.Some? then [r.row.value] else [];
      p.(ev := p.ev.(reclamations := p.ev.reclamations + rows), now := r.now, halt := r.halt)
  }

  function WithKind(s: Session, p: Progress, kind: Kind): Progress {
    if p.halt.Raised? then p
    else
      var k := KindStage(s, p.now, kind);
      var noted := if k.diagnostic.Some? then [k.diagnostic.value] else [];
      Progress(p.ev.(sanitizers := p.ev.sanitizers + [k.part], diagnostics := p.ev.diagnostics + noted),
               k.now, p.testFailed || k.completed, k.halt)
  }

  function Kinds(s: Session, p: Progress, i: nat): Progress
    requires i <= |s.plan.sanitizers.kinds|
    decreases |s.plan.sanitizers.kinds| - i
  {
    if i == |s.plan.sanitizers.kinds| then p
    else
      var kind := s.plan.sanitizers.kinds[i];
      Kinds(s, WithReclaim(s, WithKind(s, p, kind), Of(kind)), i + 1)
  }

  function WithFuzz(s: Session, p: Progress): Progress {
    if p.halt.Raised? then p
    else
      var f := FuzzStaging(s, p.now);
      p.(ev := p.ev.(fuzz := f.part), now := f.now, halt := f.halt)
  }

  function Collect(s: Session): Progress {
    WithFuzz(s, Kinds(s, WithReclaim(s, Begin(s), Baseline), 0))
  }

  function Finish(s: Session, p: Progress): Evidence {
    var error := if p.halt.Raised? then Some(p.halt.code) else if p.testFailed then Some(SanitizerFailed) else None;
    p.ev.(complete := p.halt.Running? && !p.testFailed, error := error, durationMs := (p.now + s.tail) / MS)
  }

  /** Plans the producer accepts; for any other it raises before doing anything. */
  predicate Runnable(plan: Plan) {
    plan.totalSeconds == TOTAL_SECONDS && FuzzBuildParallel(plan).Some?
  }

  function Execute(s: Session): Evidence {
    Finish(s, Collect(s))
  }
}
