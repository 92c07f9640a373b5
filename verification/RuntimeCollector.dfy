/** The collector as it runs: one object whose record, clock and ending are updated in
    place, command by command. */
module RuntimeCollector {
  import opened Results
  import opened JunitResults
  import opened RuntimeTypes
  import opened RuntimeProducer

  class Collector {
    const s: Session
    var evidence: Evidence
    var now: nat
    var testFailed: bool
    var halt: Halt

    function State(): Progress
      reads this
    {
      Progress(evidence, now, testFailed, halt)
    }

    constructor (s: Session)
      ensures this.s == s
      ensures State() == Progress(Evidence(if s.capture then V4 else V2, s.w.planSha(s.plan), None, [], None, false, None, 0, [], []), 0, false, Running)
    {
      this.s := s;
      evidence := Evidence(if s.capture then V4 else V2, s.w.planSha(s.plan), None, [], None, false, None, 0, [], []);
      now := 0;
      testFailed := false;
      halt := Running;
    }

    /** One command: its row, or the end of the collection when no time is left. */
    method Run(id: OpId, command: Command, user: Option<User>, environment: set<Setting>, workdir: Option<Directory>) returns (row: Option<Row>)
      modifies this`now, this`halt
      ensures match Observe(s, old(now), id, command, user, environment, workdir)
              case Late(t) => row.None? && now == t && halt == TimeUp(id)
              case Seen(r, t) => row == Some(r) && now == t && halt == old(halt)
    {
      var o := s.outcome(id);
      var start := now + o.gap;
      if start >= DEADLINE {
        now, halt := start, TimeUp(id);
        return None;
      }
      var elapsed := Elapsed(s, id, start);
      row := Some(Row(id, command, user, environment, workdir, o.exitCode, o.timedOut, o.truncated, elapsed / MS, Some(o.output), s.w.sha(o.output)));
      now := start + elapsed;
    }

    /** The functional tests, their result file and its interpretation. */
    method Functional()
      modifies this
      requires halt.Running? && now == 0
      ensures var f := FunctionalStage(s);
              State() == Progress(old(evidence).(functional := Some(f.part)), f.now, old(testFailed), f.halt)
    {
      var plan, part := s.plan.functional, NO_FUNCTIONAL;
      evidence := evidence.(functional := Some(part));
      var setup := Run(FunctionalSetup, MakeFunctionalDirectory, None, {}, None);
      if setup.None? { return; }
      part := part.(setup := setup);
      evidence := evidence.(functional := Some(part));
      if !Good(setup.value) {
        halt := Raised(FunctionalFailed, NativeFailure(FunctionalSetup));
        return;
      }
      var operation := Run(FunctionalRun, RunFunctional(plan.parallel, plan.selected), None, {PythonGil}, Some(BaselineBuild));
      if operation.None? { return; }
      part := part.(operation := operation);
      evidence := evidence.(functional := Some(part));
      var read := Run(FunctionalRead, ReadFile(FunctionalCsv, MIB), None, {}, None);
      if read.None? { return; }
      part := part.(resultsRead := read);
      evidence := evidence.(functional := Some(part));
      var fetched := Fetch(s.w, read.value, MIB);
      if fetched.Err? {
        halt := Raised(fetched.error, if Good(read.value) then BadContent(FunctionalRead)
                                      else if Good(operation.value) then NativeFailure(FunctionalRead) else NativeFailure(FunctionalRun));
        return;
      }
      var summary := ReadCsv(s.w, fetched.value, plan.selected);
      if summary.None? {
        halt := Raised(ResultsInvalid, BadContent(FunctionalRead));
        return;
      }
      part := part.(results := summary, resultsSha := Some(s.w.sha(fetched.value)));
      evidence := evidence.(functional := Some(part));
      if !(Good(operation.value) && summary.value.passed == plan.selected && summary.value.failed == [] && summary.value.skipped == []) {
        halt := Raised(FunctionalFailed, NativeFailure(FunctionalRun));
      }
    }

    /** Frees the workspaces of a finished phase; the row is kept before it is read. */
    method ReclaimPhase(phase: Phase)
      modifies this
      requires halt.Running?
      ensures State() == WithReclaim(s, old(State()), phase)
    {
      var row := Run(Reclaim(phase), ReclaimSpace(phase), None, {}, None);
      if row.None? { return; }
      evidence := evidence.(reclamations := evidence.reclamations + [row.value]);
      if !Good(row.value) {
        halt := Raised(ReclamationFailed, NativeFailure(Reclaim(phase)));
        return;
      }
      var raw := Output(s.w, row.value, 4096);
      if raw.None? {
        halt := Raised(EvidenceInvalid, BadContent(Reclaim(phase)));
      } else if !ReclaimedWell(s.w, raw.value, phase) {
        halt := Raised(ReclamationFailed, BadContent(Reclaim(phase)));
      }
    }

    /** The evidence with this sanitizer's record and diagnostics on the end. */
    function Noting(ev: Evidence, part: SanitizerPart, d: Option<Diagnostic>): Evidence {
      ev.(sanitizers := ev.sanitizers + [part], diagnostics := ev.diagnostics + (if d.Some? then [d.value] else []))
    }

    /** Configure, build and discover one sanitizer; the names are None when it stopped. */
    method Prepare(kind: Kind, ghost base: Evidence) returns (part: SanitizerPart, names: Option<seq<string>>)
      modifies this
      requires halt.Running?
      requires evidence == Noting(base, SanitizerPart(kind, None, None, None, None, None, None, None), None)
      ensures evidence == Noting(base, part, None) && testFailed == old(testFailed)
      ensures names.Some? ==> halt.Running? && KindStage(s, old(now), kind) == TestKind(s, part, now, kind, names.value)
      ensures names.None? ==> halt.Raised? && KindStage(s, old(now), kind) == KindOutcome(part, None, now, false, halt)
    {
      hide TestKind;
      var n := |evidence.sanitizers| - 1;
      part, names := SanitizerPart(kind, None, None, None, None, None, None, None), None;
      var c := Run(Configure(kind), ConfigureSanitized(kind, s.options), None, {}, None);
      if c.None? { return; }
      part := part.(configure := c);
      evidence := evidence.(sanitizers := evidence.sanitizers[..n] + [part]);
      if !Good(c.value) {
        halt := Raised(SanitizerFailed, NativeFailure(Configure(kind)));
        return;
      }
      var b := Run(Build(kind), BuildTree(Sanitized(kind), s.plan.sanitizers.parallel, None), None, {}, None);
      if b.None? { return; }
      part := part.(build := b);
      evidence := evidence.(sanitizers := evidence.sanitizers[..n] + [part]);
      if !Good(b.value) {
        halt := Raised(SanitizerFailed, NativeFailure(Build(kind)));
        return;
      }
      var d := Run(Discover(kind), ListTests(Sanitized(kind)), None, {}, None);
      if d.None? { return; }
      part := part.(discovery := d);
      evidence := evidence.(sanitizers := evidence.sanitizers[..n] + [part]);
      if !Good(d.value) {
        halt := Raised(SanitizerFailed, NativeFailure(Discover(kind)));
        return;
      }
      var raw := Output(s.w, d.value, 4 * MIB);
      if raw.None? {
        halt := Raised(EvidenceInvalid, BadContent(Discover(kind)));
        return;
      }
      names := ReadNames(s.w, raw.value);
      if names.None? {
        halt := Raised(DiscoveryInvalid, BadContent(Discover(kind)));
      }
    }

    /** Run the tests, and after a failure read its log and resources. */
    method Exercise(kind: Kind, names: seq<string>, start: SanitizerPart, ghost base: Evidence)
        returns (part: SanitizerPart, d: Option<Diagnostic>, tests: Option<Row>)
      modifies this
      requires halt.Running? && evidence == Noting(base, start, None)
      ensures evidence == Noting(base, part, d) && testFailed == old(testFailed)
      ensures halt.Running? ==> tests.Some? && TestKind(s, start, old(now), kind, names) == CollectJunit(s, part, d, now, kind, names, tests.value)
      ensures halt.Raised? ==> TestKind(s, start, old(now), kind, names) == KindOutcome(part, d, now, false, halt)
    {
      hide CollectJunit, DiagnoseKind, Observe;
      var n := |evidence.sanitizers| - 1;
      part, d := start, None;
      var parallel := TestParallel(s.plan);
      tests := Run(Tests(kind), RunTests(Sanitized(kind), CtestLog(kind), s.plan.schema.PlanV4? && kind == Address,
                                         if parallel.Some? then parallel.value else 0, s.plan.sanitizers.caseSeconds, JunitXml(kind)),
                   None, TestSettings(s, kind), None);
      if tests.None? { return; }
      part := part.(tests := tests);
      evidence := evidence.(sanitizers := evidence.sanitizers[..n] + [part]);
      if s.capture && !Good(tests.value) {
        d := Diagnose(kind, names, part, tests.value, base);
      }
    }

    /** The two reads that keep evidence of a failed test run. */
    method Diagnose(kind: Kind, names: seq<string>, part: SanitizerPart, tests: Row, ghost base: Evidence) returns (d: Option<Diagnostic>)
      modifies this
      requires halt.Running? && evidence == Noting(base, part, None)
      ensures evidence == Noting(base, part, d) && testFailed == old(testFailed)
      ensures halt.Running? ==> DiagnoseKind(s, part, old(now), kind, names, tests) == CollectJunit(s, part, d, now, kind, names, tests)
      ensures halt.Raised? ==> DiagnoseKind(s, part, old(now), kind, names, tests) == KindOutcome(part, d, now, false, halt)
    {
      hide CollectJunit, Observe;
      var m := |evidence.diagnostics|;
      d := Some(Diagnostic(kind, None, None));
      evidence := evidence.(diagnostics := evidence.diagnostics + [d.value]);
      var log := Run(TestLog(kind), ReadFile(CtestLog(kind), MIB), None, {}, None);
      if log.None? { return; }
      d := Some(d.value.(logRead := log));
      evidence := evidence.(diagnostics := evidence.diagnostics[..m] + [d.value]);
      var resources := Run(Resources(kind), ProbeResources, None, {}, None);
      if resources.None? { return; }
      d := Some(d.value.(resources := resources));
      evidence := evidence.(diagnostics := evidence.diagnostics[..m] + [d.value]);
    }

    /** Read the JUnit file and judge the run; an ordinary completed failure goes on. */
    method Conclude(kind: Kind, names: seq<string>, start: SanitizerPart, d: Option<Diagnostic>, tests: Row, ghost base: Evidence)
      modifies this
      requires halt.Running? && evidence == Noting(base, start, d)
      ensures var k := CollectJunit(s, start, d, old(now), kind, names, tests);
              State() == Progress(Noting(base, k.part, k.diagnostic), k.now, old(testFailed) || k.completed, k.halt)
    {
      hide Observe, Fetch, ReadJunit, TestsCompleted;
      var n := |evidence.sanitizers| - 1;
      var part := start;
      var read := Run(Junit(kind), ReadFile(JunitXml(kind), 4 * MIB), None, {}, None);
      if read.None? { return; }
      part := part.(junitRead := read);
      evidence := evidence.(sanitizers := evidence.sanitizers[..n] + [part]);
      var fetched := Fetch(s.w, read.value, 4 * MIB);
      if fetched.Err? {
        halt := Raised(fetched.error, if Good(read.value) then BadContent(Junit(kind))
                                      else if Good(tests) then NativeFailure(Junit(kind)) else NativeFailure(Tests(kind)));
        return;
      }
      var p := ReadJunit(s.w, fetched.value, names);
      if p.None? {
        halt := Raised(GenericFailure, BadContent(Junit(kind)));
        return;
      }
      part := part.(results := p, junitSha := Some(s.w.sha(fetched.value)));
      evidence := evidence.(sanitizers := evidence.sanitizers[..n] + [part]);
      if !(Good(tests) && p.value.executed == names && p.value.passed == names && p.value.skipped == []) {
        if s.capture && TestsCompleted(s.w, tests, p.value, fetched.value) {
          testFailed := true;
        } else {
          halt := Raised(SanitizerFailed, if Good(tests) then Mismatch(Tests(kind)) else NativeFailure(Tests(kind)));
        }
      }
    }

    method Sanitizer(kind: Kind)
      modifies this
      requires halt.Running?
      ensures State() == WithKind(s, old(State()), kind)
    {
      hide TestKind, CollectJunit, KindStage;
      ghost var base := evidence;
      var part := SanitizerPart(kind, None, None, None, None, None, None, None);
      evidence := evidence.(sanitizers := evidence.sanitizers + [part]);
      var names;
      part, names := Prepare(kind, base);
      if names.None? { return; }
      var d, tests;
      part, d, tests := Exercise(kind, names.value, part, base);
      if halt.Raised? { return; }
      Conclude(kind, names.value, part, d, tests.value, base);
    }

    /** Stage the corpus, then configure and build the fuzz target. */
    method StageFuzzing() returns (part: Option<FuzzPart>)
      modifies this
      requires halt.Running? && evidence.fuzz.None?
      ensures evidence == old(evidence).(fuzz := part) && testFailed == old(testFailed)
      ensures halt.Running? ==> part.Some? && FuzzStaging(s, old(now)) == ReplayCorpus(s, part.value, now, 0)
      ensures halt.Raised? ==> FuzzStaging(s, old(now)) == FuzzOutcome(part, now, halt)
    {
      hide ReplayCorpus;
      var f := s.plan.fuzz;
      part := None;
      var stage := Run(FuzzStage, StageCorpus, Some(Root), {}, None);
      if stage.None? { return; }
      part := Some(FuzzPart(stage, None, None, None, [], None, None, f.target, Digests(f.corpus)));
      evidence := evidence.(fuzz := part);
      if !Good(stage.value) {
        halt := Raised(FuzzFailed, NativeFailure(FuzzStage));
        return;
      }
      var raw := Output(s.w, stage.value, MIB);
      if raw.None? {
        halt := Raised(EvidenceInvalid, BadContent(FuzzStage));
        return;
      }
      var staged := s.w.staged(raw.value);
      if staged.None? {
        halt := Raised(GenericFailure, BadContent(FuzzStage));
        return;
      }
      part := Some(part.value.(staged := staged));
      evidence := evidence.(fuzz := part);
      if staged.value != ExpectedSeeds(f.corpus, 0) {
        halt := Raised(FuzzFailed, BadContent(FuzzStage));
        return;
      }
      var c := Run(FuzzConfigure, ConfigureFuzz, None, {}, None);
      if c.None? { return; }
      part := Some(part.value.(configure := c));
      evidence := evidence.(fuzz := part);
      if !Good(c.value) {
        halt := Raised(FuzzFailed, NativeFailure(FuzzConfigure));
        return;
      }
      var parallel := FuzzBuildParallel(s.plan);
      var b := Run(FuzzBuild, BuildTree(Fuzzing, if parallel.Some? then parallel.value else 0, Some(f.buildTarget)), None, {}, None);
      if b.None? { return; }
      part := Some(part.value.(build := b));
      evidence := evidence.(fuzz := part);
      if !Good(b.value) {
        halt := Raised(FuzzFailed, NativeFailure(FuzzBuild));
      }
    }

    /** Replay every corpus entry in turn, then run the campaign. */
    method Fuzz()
      modifies this
      requires halt.Running? && evidence.fuzz.None?
      ensures State() == WithFuzz(s, old(State()))
    {
      hide FuzzStaging, RunCampaign, JudgeCampaign;
      var f := s.plan.fuzz;
      var part := StageFuzzing();
      if halt.Raised? { return; }
      ghost var start, ready := part.value, now;
      var i := 0;
      while i < |f.corpus|
        invariant 0 <= i <= |f.corpus| && halt.Running? && part.Some?
        invariant evidence == old(evidence).(fuzz := part) && testFailed == old(testFailed)
        invariant ReplayCorpus(s, start, ready, 0) == ReplayCorpus(s, part.value, now, i)
      {
        ghost var before, then_ := part.value, now;
        var r := Run(FuzzReplay(i), RunFuzz(f.binary, f.replayRuns, Seed(i)), None, FuzzSettings(s), None);
        if r.None? { return; }
        part := Some(part.value.(replays := part.value.replays + [r]));
        evidence := evidence.(fuzz := part);
        if !Good(r.value) {
          halt := Raised(FuzzFailed, NativeFailure(FuzzReplay(i)));
          return;
        }
        assert ReplayCorpus(s, before, then_, i) == ReplayCorpus(s, part.value, now, i + 1);
        i := i + 1;
      }
      assert ReplayCorpus(s, part.value, now, i) == RunCampaign(s, part.value, now);
      Campaign(part.value);
    }

    method Campaign(start: FuzzPart)
      modifies this
      requires halt.Running? && evidence.fuzz == Some(start)
      ensures var o := RunCampaign(s, start, old(now));
              State() == Progress(old(evidence).(fuzz := o.part), o.now, old(testFailed), o.halt)
    {
      var f := s.plan.fuzz;
      var c := Run(FuzzCampaign, RunFuzz(f.binary, f.campaignRuns, CampaignFor(f.campaignSeconds)), None, FuzzSettings(s), None);
      if c.None? { return; }
      var part := start.(campaign := c, metrics := CampaignMetrics(s.w, c.value));
      evidence := evidence.(fuzz := Some(part));
      if !Good(c.value) {
        halt := Raised(FuzzFailed, CampaignUnsuccessful);
      } else if part.metrics.None? {
        halt := Raised(FuzzMetricsInvalid, CampaignUnsuccessful);
      }
    }
  }

  /** The collection: functional tests, the sanitizers in turn, fuzzing. Whatever
      stops it, the record so far is returned. */
  method ExecuteRuntimePlan(s: Session) returns (ev: Evidence)
    ensures ev == Execute(s)
  {
    hide FunctionalStage, WithKind, WithReclaim, FuzzStaging;
    var run := new Collector(s);
    run.Functional();
    assert run.State() == Begin(s);
    if run.halt.Running? {
      run.ReclaimPhase(Baseline);
    }
    StoppedStays(s, Begin(s));
    ghost var start := run.State();
    assert start == WithReclaim(s, Begin(s), Baseline);
    StartsUnfuzzed(s);
    var i := 0;
    while i < |s.plan.sanitizers.kinds|
      invariant 0 <= i <= |s.plan.sanitizers.kinds| && run.s == s && run.evidence.fuzz.None?
      invariant Kinds(s, start, 0) == Kinds(s, run.State(), i)
    {
      var kind := s.plan.sanitizers.kinds[i];
      ghost var p := run.State();
      KeepsFuzz(s, p, kind);
      StoppedStays(s, p);
      if run.halt.Running? {
        run.Sanitizer(kind);
      }
      StoppedStays(s, run.State());
      assert run.State() == WithKind(s, p, kind);
      if run.halt.Running? {
        run.ReclaimPhase(Of(kind));
      }
      assert run.State() == WithReclaim(s, WithKind(s, p, kind), Of(kind));
      i := i + 1;
    }
    assert Kinds(s, start, 0) == run.State();
    if run.halt.Running? {
      run.Fuzz();
    }
    assert run.State() == Collect(s);
    ev := Finish(s, run.State());
  }

  lemma {:induction false} StoppedStays(s: Session, p: Progress)
    ensures p.halt.Raised? ==> (forall phase :: WithReclaim(s, p, phase) == p) && (forall kind :: WithKind(s, p, kind) == p) && WithFuzz(s, p) == p
  {}

  lemma {:induction false} StartsUnfuzzed(s: Session)
    ensures WithReclaim(s, Begin(s), Baseline).ev.fuzz.None?
  {
    hide FunctionalStage, ReclaimStage;
  }

  lemma {:induction false} KeepsFuzz(s: Session, p: Progress, kind: Kind)
    ensures WithReclaim(s, WithKind(s, p, kind), Of(kind)).ev.fuzz == p.ev.fuzz
  {}
}
