/** The budget holds by construction: clipping each command to what is left keeps the
    whole collection within five seconds of its budget. */
module RuntimeClock {
  import opened Results
  import opened JunitResults
  import opened RuntimeTypes
  import opened RuntimeProducer
  import V = RuntimeValidator
  import opened RuntimeReports
  import opened RuntimeAgreement
  import RuntimeFinish

  /** The controller itself is quick: at most a second before a planned command and
      two seconds after the last one. */
  ghost predicate Prompt(s: Session) {
    && s.tail <= 2000 * MS
    && forall id: OpId :: V.Planned(CaseOf(s), id) ==> s.outcome(id).gap <= 1000 * MS
  }

  const SOFT := DEADLINE + 2000 * MS
  const HARD := DEADLINE + 3000 * MS

  ghost predicate Careful(s: Session) {
    Honest(s) && Prompt(s) && s.capture
  }

  /** A running or ended stage within the budget. */
  predicate InTime(halt: Halt, now: nat) {
    now <= HARD && (halt.Running? ==> now <= SOFT)
  }

  predicate SeenInTime(o: Observation) {
    match o
    case Late(t) => t <= HARD
    case Seen(_, t) => t <= SOFT
  }

  lemma {:induction false} ObserveInTime(s: Session, now: nat, id: OpId, command: Command, user: Option<User>, environment: set<Setting>, workdir: Option<Directory>)
    requires Careful(s) && V.Planned(CaseOf(s), id) && now <= SOFT
    ensures SeenInTime(Observe(s, now, id, command, user, environment, workdir))
  {
    assert Bounded(CaseOf(s), id, s.outcome(id));
  }

  lemma {:induction false} FunctionalInTime(s: Session)
    requires Careful(s)
    ensures InTime(FunctionalStage(s).halt, FunctionalStage(s).now)
  {
    hide Observe, Careful, Fetch, ReadCsv;
    var f := s.plan.functional;
    ObserveInTime(s, 0, FunctionalSetup, MakeFunctionalDirectory, None, {}, None);
    match Plain(s, 0, FunctionalSetup, MakeFunctionalDirectory)
    case Late(_) =>
    case Seen(setup, t) =>
      var command := RunFunctional(f.parallel, f.selected);
      ObserveInTime(s, t, FunctionalRun, command, None, {PythonGil}, Some(BaselineBuild));
      match Observe(s, t, FunctionalRun, command, None, {PythonGil}, Some(BaselineBuild))
      case Late(_) =>
      case Seen(operation, t') =>
        ObserveInTime(s, t', FunctionalRead, ReadFile(FunctionalCsv, MIB), None, {}, None);
  }

  lemma {:induction false} ReclaimInTime(s: Session, now: nat, phase: Phase)
    requires Careful(s) && now <= SOFT && phase in PHASES
    ensures InTime(ReclaimStage(s, now, phase).halt, ReclaimStage(s, now, phase).now)
  {
    hide Observe;
    ObserveInTime(s, now, Reclaim(phase), ReclaimSpace(phase), None, {}, None);
  }

  ghost predicate AtKind(s: Session, now: nat, kind: Kind) {
    Careful(s) && now <= SOFT && kind in s.plan.sanitizers.kinds
  }

  lemma {:induction false} KindInTime(s: Session, now: nat, kind: Kind)
    requires AtKind(s, now, kind)
    ensures InTime(KindStage(s, now, kind).halt, KindStage(s, now, kind).now)
  {
    hide Observe, Careful, BuildKind;
    var part := SanitizerPart(kind, None, None, None, None, None, None, None);
    ObserveInTime(s, now, Configure(kind), ConfigureSanitized(kind, s.options), None, {}, None);
    match Plain(s, now, Configure(kind), ConfigureSanitized(kind, s.options))
    case Late(_) =>
    case Seen(c, t) => BuildInTime(s, part.(configure := Some(c)), t, kind);
  }

  lemma {:induction false} BuildInTime(s: Session, part: SanitizerPart, now: nat, kind: Kind)
    requires AtKind(s, now, kind)
    ensures InTime(BuildKind(s, part, now, kind).halt, BuildKind(s, part, now, kind).now)
  {
    hide Observe, Careful, DiscoverKind;
    var command := BuildTree(Sanitized(kind), s.plan.sanitizers.parallel, None);
    ObserveInTime(s, now, Build(kind), command, None, {}, None);
    match Plain(s, now, Build(kind), command)
    case Late(_) =>
    case Seen(b, t) => DiscoverInTime(s, part.(build := Some(b)), t, kind);
  }

  lemma {:induction false} DiscoverInTime(s: Session, part: SanitizerPart, now: nat, kind: Kind)
    requires AtKind(s, now, kind)
    ensures InTime(DiscoverKind(s, part, now, kind).halt, DiscoverKind(s, part, now, kind).now)
  {
    hide Observe, Careful, TestKind, ReadNames, Output;
    ObserveInTime(s, now, Discover(kind), ListTests(Sanitized(kind)), None, {}, None);
    match Plain(s, now, Discover(kind), ListTests(Sanitized(kind)))
    case Late(_) =>
    case Seen(d, t) =>
      forall names ensures InTime(TestKind(s, part.(discovery := Some(d)), t, kind, names).halt, TestKind(s, part.(discovery := Some(d)), t, kind, names).now) {
        TestInTime(s, part.(discovery := Some(d)), t, kind, names);
      }
  }

  lemma {:induction false} TestInTime(s: Session, part: SanitizerPart, now: nat, kind: Kind, names: seq<string>)
    requires AtKind(s, now, kind)
    ensures InTime(TestKind(s, part, now, kind, names).halt, TestKind(s, part, now, kind, names).now)
  {
    hide Observe, Careful, DiagnoseKind, CollectJunit;
    var parallel := TestParallel(s.plan);
    var command := RunTests(Sanitized(kind), CtestLog(kind), s.plan.schema.PlanV4? && kind == Address,
                            if parallel.Some? then parallel.value else 0, s.plan.sanitizers.caseSeconds, JunitXml(kind));
    ObserveInTime(s, now, Tests(kind), command, None, TestSettings(s, kind), None);
    match Observe(s, now, Tests(kind), command, None, TestSettings(s, kind), None)
    case Late(_) =>
    case Seen(tests, t) =>
      DiagnoseInTime(s, part.(tests := Some(tests)), t, kind, names, tests);
      JunitInTime(s, part.(tests := Some(tests)), None, t, kind, names, tests);
  }

  lemma {:induction false} CaptureIs(s: Session, id: OpId)
    requires Careful(s) && (id.TestLog? || id.Resources?) && id.kind in s.plan.sanitizers.kinds
    ensures V.Planned(CaseOf(s), id)
  {}

  lemma {:induction false} DiagnoseInTime(s: Session, part: SanitizerPart, now: nat, kind: Kind, names: seq<string>, tests: Row)
    requires AtKind(s, now, kind)
    ensures InTime(DiagnoseKind(s, part, now, kind, names, tests).halt, DiagnoseKind(s, part, now, kind, names, tests).now)
  {
    hide Observe, Careful, CollectJunit;
    CaptureIs(s, TestLog(kind));
    CaptureIs(s, Resources(kind));
    ObserveInTime(s, now, TestLog(kind), ReadFile(CtestLog(kind), MIB), None, {}, None);
    match Plain(s, now, TestLog(kind), ReadFile(CtestLog(kind), MIB))
    case Late(_) =>
    case Seen(log, t) =>
      ObserveInTime(s, t, Resources(kind), ProbeResources, None, {}, None);
      match Plain(s, t, Resources(kind), ProbeResources)
      case Late(_) =>
      case Seen(resources, t') =>
        JunitInTime(s, part, Some(Diagnostic(kind, Some(log), Some(resources))), t', kind, names, tests);
  }

  lemma {:induction false} JunitInTime(s: Session, part: SanitizerPart, d: Option<Diagnostic>, now: nat, kind: Kind, names: seq<string>, tests: Row)
    requires AtKind(s, now, kind)
    ensures InTime(CollectJunit(s, part, d, now, kind, names, tests).halt, CollectJunit(s, part, d, now, kind, names, tests).now)
  {
    hide Observe, Careful, Fetch, ReadJunit, TestsCompleted;
    ObserveInTime(s, now, Junit(kind), ReadFile(JunitXml(kind), 4 * MIB), None, {}, None);
  }

  lemma {:induction false} FuzzInTime(s: Session, now: nat)
    requires Careful(s) && now <= SOFT
    ensures InTime(FuzzStaging(s, now).halt, FuzzStaging(s, now).now)
  {
    hide Observe, Careful, ConfigureFuzzing, Output;
    ObserveInTime(s, now, FuzzStage, StageCorpus, Some(Root), {}, None);
    match Observe(s, now, FuzzStage, StageCorpus, Some(Root), {}, None)
    case Late(_) =>
    case Seen(stage, t) =>
      forall part ensures InTime(ConfigureFuzzing(s, part, t).halt, ConfigureFuzzing(s, part, t).now) {
        ConfigureInTime(s, part, t);
      }
  }

  lemma {:induction false} ConfigureInTime(s: Session, part: FuzzPart, now: nat)
    requires Careful(s) && now <= SOFT
    ensures InTime(ConfigureFuzzing(s, part, now).halt, ConfigureFuzzing(s, part, now).now)
  {
    hide Observe, Careful, ReplayCorpus;
    ObserveInTime(s, now, FuzzConfigure, ConfigureFuzz, None, {}, None);
    match Plain(s, now, FuzzConfigure, ConfigureFuzz)
    case Late(_) =>
    case Seen(c, t) =>
      var parallel := FuzzBuildParallel(s.plan);
      var command := BuildTree(Fuzzing, if parallel.Some? then parallel.value else 0, Some(s.plan.fuzz.buildTarget));
      ObserveInTime(s, t, FuzzBuild, command, None, {}, None);
      match Plain(s, t, FuzzBuild, command)
      case Late(_) =>
      case Seen(b, t') => ReplaysInTime(s, part.(configure := Some(c)).(build := Some(b)), t', 0);
  }

  lemma {:induction false} ReplaysInTime(s: Session, part: FuzzPart, now: nat, i: nat)
    requires Careful(s) && now <= SOFT && i <= |s.plan.fuzz.corpus|
    ensures InTime(ReplayCorpus(s, part, now, i).halt, ReplayCorpus(s, part, now, i).now)
    decreases |s.plan.fuzz.corpus| - i
  {
    hide Observe, Careful, CampaignMetrics;
    var f := s.plan.fuzz;
    if i == |f.corpus| {
      ObserveInTime(s, now, FuzzCampaign, RunFuzz(f.binary, f.campaignRuns, CampaignFor(f.campaignSeconds)), None, FuzzSettings(s), None);
    } else {
      var command := RunFuzz(f.binary, f.replayRuns, Seed(i));
      ObserveInTime(s, now, FuzzReplay(i), command, None, FuzzSettings(s), None);
      match Observe(s, now, FuzzReplay(i), command, None, FuzzSettings(s), None)
      case Late(_) =>
      case Seen(r, t) => ReplaysInTime(s, part.(replays := part.replays + [Some(r)]), t, i + 1);
    }
  }

  lemma {:induction false} KindsInTime(s: Session, p: Progress, i: nat)
    requires Careful(s) && InTime(p.halt, p.now) && i <= |s.plan.sanitizers.kinds|
    requires forall kind :: kind in s.plan.sanitizers.kinds ==> Of(kind) in PHASES
    ensures InTime(Kinds(s, p, i).halt, Kinds(s, p, i).now)
    decreases |s.plan.sanitizers.kinds| - i
  {
    hide KindStage, ReclaimStage, Careful;
    if i < |s.plan.sanitizers.kinds| {
      var kind := s.plan.sanitizers.kinds[i];
      if p.halt.Running? {
        KindInTime(s, p.now, kind);
        var q := WithKind(s, p, kind);
        if q.halt.Running? {
          ReclaimInTime(s, q.now, Of(kind));
        }
      }
      KindsInTime(s, WithReclaim(s, WithKind(s, p, kind), Of(kind)), i + 1);
    }
  }

  /** Whatever the commands do, a released collection ends within five seconds of its
      budget, so the validator never refuses it for its duration. */
  lemma {:induction false} CollectInTime(s: Session)
    requires Released(s) && Careful(s)
    ensures Timely(s, Collect(s))
  {
    hide KindStage, ReclaimStage, FunctionalStage, FuzzStaging, Careful, Kinds;
    FunctionalInTime(s);
    var p := Begin(s);
    if p.halt.Running? {
      ReclaimInTime(s, p.now, Baseline);
    }
    var q := WithReclaim(s, p, Baseline);
    KindsInTime(s, q, 0);
    var r := Kinds(s, q, 0);
    if r.halt.Running? {
      FuzzInTime(s, r.now);
    }
    TimelyWhen(s, WithFuzz(s, r));
  }

  lemma {:induction false} TimelyWhen(s: Session, p: Progress)
    requires Careful(s) && InTime(p.halt, p.now)
    ensures Timely(s, p)
  {
    hide Honest;
  }

  /** The agreement theorem with every hypothesis on the inputs alone. */
  lemma {:induction false} PromptCollectionsAgree(s: Session)
    requires Released(s) && Careful(s)
    ensures var p, v := Collect(s), V.Validate(CaseOf(s), Execute(s));
            && (v.Some? <==> Corroborated(p.halt) && NotesReadable(CaseOf(s), Execute(s).diagnostics))
            && (v.Some? ==> v.value.complete == Execute(s).complete && v.value.failure == Charged(p.halt))
  {
    hide Collect, Timely, Corroborated, NotesReadable, V.Validate, Execute;
    CollectInTime(s);
    RuntimeFinish.ProducerAndValidatorAgree(s);
  }
}
