/** Two concrete collections: the hypotheses of the agreement theorem are met by a run
    that completes, and by an honest run whose record is refused. */
module RuntimeExample {
  import opened Results
  import opened Names
  import opened JunitResults
  import FunctionalResults
  import opened RuntimeTypes
  import opened RuntimeProducer
  import V = RuntimeValidator
  import opened RuntimeReports
  import opened RuntimeAgreement
  import opened RuntimeClock
  import S = RuntimeSoundness
  import P = RuntimePlaces

  const PLAN := Plan(PlanV4, TOTAL_SECONDS, FunctionalPlan(["unit"], 1, 60),
                     SanitizerPlan([Address, Undefined], 2, Some(2), Some(RetainedAddressCosts), 600, 600, 60),
                     FuzzPlan("process", "fuzz", "fuzz", 1, Some(2), [SeedFile("digest", 1)], 1, 1000, 60), false)

  const TABLE := [["test", "status", "duration(seconds)"], ["unit", "Passed", "1"], ["ALL", "Passed", "1"]]

  const SUITE := Suite(1, [TestCase("unit", Run, false, None, false)])

  function Freed(phase: Phase): Option<Reclamation> {
    match Removed(phase)
    case None => None
    case Some(removed) => Some(Reclamation(phase, removed, Space(10, 1), Space(10, 2)))
  }

  /** Readers that find a table, if there is one, and the expected contents. */
  function Readers(table: bool): World {
    World(_ => "", _ => "", _ => Wrapped(Some([0]), false),
          _ => if table then Some(TABLE) else None,
          _ => Some(SUITE), _ => Some(["unit"]), _ => Some([StagedSeed(0, "digest", 1)]),
          (raw: Bytes) => Freed(if raw == [] then Baseline else if raw == [1] then Of(Address) else Of(Undefined)),
          _ => None, _ => Some((1000, 7)))
  }

  /** Every command takes a millisecond and exits 0. */
  function Quick(id: OpId): Outcome {
    Outcome(0, MS, 0, 0, false, false,
            if id == Reclaim(Of(Address)) then [1] else if id == Reclaim(Of(Undefined)) then [2] else [])
  }

  function Example(table: bool): Session {
    Session(Readers(table), PLAN, map[], true, Quick, 0)
  }

  lemma {:induction false} ExampleIsCareful(table: bool)
    ensures Released(Example(table)) && Careful(Example(table))
  {
    var s := Example(table);
    forall id: OpId | V.Planned(CaseOf(s), id) ensures Bounded(CaseOf(s), id, s.outcome(id)) {
      assert 2 <= V.SpecFor(CaseOf(s), id).limit;
    }
  }

  const SOON := 1000 * MS

  lemma {:induction false} Runs(table: bool, now: nat, id: OpId, command: Command, user: Option<User>, environment: set<Setting>, workdir: Option<Directory>)
    requires now <= SOON
    ensures var seen := Observe(Example(table), now, id, command, user, environment, workdir);
            && seen.Seen? && seen.now == now + MS && Good(seen.row)
            && seen.row.output == Some(Quick(id).output) && seen.row.outputSha == ""
  {}

  lemma {:induction false} UnitSorts()
    ensures Sort(["unit"]) == ["unit"] && Sort([]) == []
  {
    assert multiset(Sort(["unit"])) == multiset(["unit"]);
    assert multiset(Sort([])) == multiset([]);
  }

  // ---------- the functional stage ----------

  const ALL_UNIT := FunctionalResults.Summary(["unit"], ["unit"], ["unit"], [], [])

  lemma {:induction false} TableReads()
    ensures FunctionalResults.Parse(TABLE, ["unit"]) == Some(ALL_UNIT)
  {
    var row := FunctionalResults.TestRow("unit", FunctionalResults.Passed);
    var middle := TABLE[1..|TABLE| - 1];
    assert middle == [["unit", "Passed", "1"]];
    assert FunctionalResults.Digits("1");
    var tests := FunctionalResults.ReadRows(middle).value;
    assert tests == [row];
    assert FunctionalResults.NameSet(tests) == {"unit"} == set n | n in ["unit"];
    var status := FunctionalResults.StatusByName(tests);
    assert FunctionalResults.StatusByName([]) == map[];
    assert status == map["unit" := FunctionalResults.Passed];
    assert FunctionalResults.Total(status) == FunctionalResults.Passed;
    assert FunctionalResults.TotalRow(TABLE[2], FunctionalResults.Passed);
    assert FunctionalResults.Covers(tests, ["unit"]);
    forall keep ensures Select(["unit"], keep) == if "unit" in keep then ["unit"] else [] {
      assert Select(["unit"][1..], keep) == [];
    }
    assert FunctionalResults.Classify(["unit"], status) == ALL_UNIT;
  }

  lemma {:induction false} FunctionalEnds(table: bool)
    ensures var f := FunctionalStage(Example(table));
            && f.now == 3 * MS
            && f.halt == if table then Running else Raised(ResultsInvalid, BadContent(FunctionalRead))
  {
    hide Observe, FunctionalResults.Parse;
    var s := Example(table);
    var f := PLAN.functional;
    TableReads();
    Runs(table, 0, FunctionalSetup, MakeFunctionalDirectory, None, {}, None);
    Runs(table, MS, FunctionalRun, RunFunctional(f.parallel, f.selected), None, {PythonGil}, Some(BaselineBuild));
    Runs(table, 2 * MS, FunctionalRead, ReadFile(FunctionalCsv, MIB), None, {}, None);
  }

  lemma {:induction false} ReclaimEnds(now: nat, phase: Phase)
    requires now <= SOON && phase in PHASES
    ensures ReclaimStage(Example(true), now, phase).halt == Running && ReclaimStage(Example(true), now, phase).now == now + MS
  {
    hide Observe;
    Runs(true, now, Reclaim(phase), ReclaimSpace(phase), None, {}, None);
  }

  // ---------- a sanitizer ----------

  lemma {:induction false} ContentReads(raw: Bytes)
    ensures ReadNames(Readers(true), raw) == Some(["unit"])
    ensures ReadJunit(Readers(true), raw, ["unit"]) == Some(Population(["unit"], ["unit"], ["unit"], []))
  {
    UnitSorts();
    assert SUITE.cases[1..] == [];
    assert ExecutedNames(SUITE.cases) == ["unit"] == PassedNames(SUITE.cases) == CaseNames(SUITE.cases);
    assert SkippedNames(SUITE.cases) == [];
  }

  /** A clean sanitizer: nothing stops it, nothing failed, nothing to diagnose. */
  predicate Clean(k: KindOutcome, end: nat) {
    k.halt == Running && !k.completed && k.diagnostic.None? && k.now == end
  }

  lemma {:induction false} KindEnds(now: nat, kind: Kind)
    requires now + 5 * MS <= SOON && (kind == Address || kind == Undefined)
    ensures Clean(KindStage(Example(true), now, kind), now + 5 * MS)
  {
    hide Observe, DiscoverKind, Clean;
    var s := Example(true);
    var configure := ConfigureSanitized(kind, s.options);
    var build := BuildTree(Sanitized(kind), PLAN.sanitizers.parallel, None);
    Runs(true, now, Configure(kind), configure, None, {}, None);
    Runs(true, now + MS, Build(kind), build, None, {}, None);
    var part := SanitizerPart(kind, Some(Plain(s, now, Configure(kind), configure).row),
                              Some(Plain(s, now + MS, Build(kind), build).row), None, None, None, None, None);
    DiscoverEnds(part, now + 2 * MS, kind);
  }

  lemma {:induction false} DiscoverEnds(part: SanitizerPart, now: nat, kind: Kind)
    requires now + 3 * MS <= SOON && (kind == Address || kind == Undefined)
    ensures Clean(DiscoverKind(Example(true), part, now, kind), now + 3 * MS)
  {
    hide Observe, TestKind, ReadNames, Clean, Output, Example, Good;
    var s := Example(true);
    Runs(true, now, Discover(kind), ListTests(Sanitized(kind)), None, {}, None);
    var d := Plain(s, now, Discover(kind), ListTests(Sanitized(kind))).row;
    NamesListed(d, kind);
    TestsEnd(part.(discovery := Some(d)), now + MS, kind);
  }

  lemma {:induction false} NamesListed(d: Row, kind: Kind)
    requires d.output == Some(Quick(Discover(kind)).output) && d.outputSha == ""
    ensures Output(Example(true).w, d, 4 * MIB) == Some([]) && ReadNames(Example(true).w, []) == Some(["unit"])
  {
    hide ReadNames;
    ContentReads([]);
  }

  lemma {:induction false} TestsEnd(part: SanitizerPart, now: nat, kind: Kind)
    requires now + 2 * MS <= SOON && (kind == Address || kind == Undefined)
    ensures Clean(TestKind(Example(true), part, now, kind, ["unit"]), now + 2 * MS)
  {
    hide Observe, ReadJunit, TestsCompleted;
    var s := Example(true);
    var command := RunTests(Sanitized(kind), CtestLog(kind), kind == Address, 2, 60, JunitXml(kind));
    Runs(true, now, Tests(kind), command, None, TestSettings(s, kind), None);
    Runs(true, now + MS, Junit(kind), ReadFile(JunitXml(kind), 4 * MIB), None, {}, None);
    ContentReads([0]);
  }

  // ---------- fuzzing ----------

  lemma {:induction false} FuzzEnds(now: nat)
    requires now + 5 * MS <= SOON
    ensures FuzzStaging(Example(true), now).halt == Running
  {
    hide Observe, ConfigureFuzzing;
    var s := Example(true);
    var f := PLAN.fuzz;
    Runs(true, now, FuzzStage, StageCorpus, Some(Root), {}, None);
    var stage := Observe(s, now, FuzzStage, StageCorpus, Some(Root), {}, None).row;
    BuildEnds(FuzzPart(Some(stage), Some(ExpectedSeeds(f.corpus, 0)), None, None, [], None, None, f.target, Digests(f.corpus)), now + MS);
  }

  lemma {:induction false} BuildEnds(part: FuzzPart, now: nat)
    requires now + 4 * MS <= SOON
    ensures ConfigureFuzzing(Example(true), part, now).halt == Running
  {
    hide Observe, ReplayCorpus;
    var s := Example(true);
    var build := BuildTree(Fuzzing, 2, Some(PLAN.fuzz.buildTarget));
    Runs(true, now, FuzzConfigure, ConfigureFuzz, None, {}, None);
    Runs(true, now + MS, FuzzBuild, build, None, {}, None);
    ReplayEnds(part.(configure := Some(Plain(s, now, FuzzConfigure, ConfigureFuzz).row),
                     build := Some(Plain(s, now + MS, FuzzBuild, build).row)), now + 2 * MS);
  }

  lemma {:induction false} ReplayEnds(part: FuzzPart, now: nat)
    requires now + 2 * MS <= SOON
    ensures ReplayCorpus(Example(true), part, now, 0).halt == Running
  {
    hide Observe, CampaignMetrics;
    var s := Example(true);
    var f := PLAN.fuzz;
    var replay, campaign := RunFuzz(f.binary, f.replayRuns, Seed(0)), RunFuzz(f.binary, f.campaignRuns, CampaignFor(f.campaignSeconds));
    Runs(true, now, FuzzReplay(0), replay, None, FuzzSettings(s), None);
    Runs(true, now + MS, FuzzCampaign, campaign, None, FuzzSettings(s), None);
    Measured(Observe(s, now + MS, FuzzCampaign, campaign, None, FuzzSettings(s), None).row);
  }

  lemma {:induction false} Measured(row: Row)
    requires Good(row) && row.output == Some([]) && row.outputSha == ""
    ensures CampaignMetrics(Readers(true), row).Some?
  {}

  // ---------- the two collections ----------

  /** The hypotheses of the agreement theorem can be met, and completely: this record is
      accepted as complete. */
  lemma {:induction false} SuccessIsAccepted()
    ensures Released(Example(true)) && Careful(Example(true))
    ensures var v := V.Validate(CaseOf(Example(true)), Execute(Example(true)));
            v.Some? && v.value.complete && v.value.failure.None? && Execute(Example(true)).complete
  {
    hide FunctionalStage, ReclaimStage, KindStage, FuzzStaging, V.Validate;
    var s := Example(true);
    ExampleIsCareful(true);
    PromptCollectionsAgree(s);
    FunctionalEnds(true);
    ReclaimEnds(3 * MS, Baseline);
    KindEnds(4 * MS, Address);
    ReclaimEnds(9 * MS, Of(Address));
    KindEnds(10 * MS, Undefined);
    ReclaimEnds(15 * MS, Of(Undefined));
    FuzzEnds(16 * MS);
    var p0 := WithReclaim(s, Begin(s), Baseline);
    var p1 := WithReclaim(s, WithKind(s, p0, Address), Of(Address));
    var p2 := WithReclaim(s, WithKind(s, p1, Undefined), Of(Undefined));
    assert Kinds(s, p0, 0) == Kinds(s, p1, 1) == Kinds(s, p2, 2) == p2;
  }

  lemma {:induction false} BothListed(c: V.Case, ev: Evidence)
    requires c.w == Readers(true) && c.plan == PLAN && V.KindsRead(c, ev)
    ensures |ev.sanitizers| == 2 && V.ListedNames(c, ev.sanitizers[0]) == V.ListedNames(c, ev.sanitizers[1])
  {
    hide V.KindFinished, FileBytes, ReadJunit, ReadNames, Output, V.KindRead;
    Listed(c, ev.sanitizers[0]);
    Listed(c, ev.sanitizers[1]);
  }

  lemma {:induction false} Listed(c: V.Case, part: SanitizerPart)
    requires c.w == Readers(true) && V.KindRead(c, part)
    ensures V.ListedNames(c, part) == Some(["unit"])
  {
    hide FileBytes, ReadJunit, ReadNames;
    ContentReads(part.discovery.value.output.value);
  }

  /** In that record the two discovery rows can trade places: the names counted for one
      sanitizer then come from the other's discovery, and the verdict is the same. */
  lemma {:induction false} TradedIsAccepted()
    ensures var c, ev := CaseOf(Example(true)), Execute(Example(true));
            && V.Validate(c, ev).Some? && |ev.sanitizers| == 2
            && P.Traded(ev, 0, 1) != ev && V.Validate(c, P.Traded(ev, 0, 1)) == V.Validate(c, ev)
  {
    hide Execute, V.Validate, V.FullSound, V.Derived, V.ListedNames, V.KindsRead, Readers, PLAN;
    var s := Example(true);
    var c, ev := CaseOf(s), Execute(s);
    SuccessIsAccepted();
    S.CompleteIsFull(c, ev);
    P.FullReads(c, ev);
    BothListed(c, ev);
    P.DiscoveriesTrade(c, ev, 0, 1);
  }

  /** An honest collection whose every command succeeded is refused when a read that
      exited 0 returned an unusable table. */
  lemma {:induction false} HonestRecordIsRefused()
    ensures Released(Example(false)) && Careful(Example(false))
    ensures forall id: OpId :: V.Planned(CaseOf(Example(false)), id) ==> Example(false).outcome(id).exitCode == 0
    ensures V.Validate(CaseOf(Example(false)), Execute(Example(false))).None?
  {
    hide FunctionalStage, V.Validate;
    var s := Example(false);
    ExampleIsCareful(false);
    PromptCollectionsAgree(s);
    FunctionalEnds(false);
    assert Begin(s).halt.Raised?;
    assert WithReclaim(s, Begin(s), Baseline) == Begin(s);
    RaisedStays(s, Begin(s), 0);
  }

  lemma {:induction false} RaisedStays(s: Session, p: Progress, i: nat)
    requires p.halt.Raised? && i <= |s.plan.sanitizers.kinds|
    ensures Kinds(s, p, i) == p
    decreases |s.plan.sanitizers.kinds| - i
  {
    if i < |s.plan.sanitizers.kinds| {
      RaisedStays(s, p, i + 1);
    }
  }
}
