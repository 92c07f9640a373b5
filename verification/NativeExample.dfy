/** Concrete replays: one that meets every hypothesis of the agreement theorem and whose
    one test is bound and passed, and three honest ones whose records are refused. */
module NativeExample {
  import opened Results
  import opened Text
  import opened Names
  import opened NativeTests
  import opened NativeReplay
  import opened NativeAgreement

  /** What is unusual: nothing, a test that prints something the redactor rewrites, a
      verification that repeats a JSON member, or a discovery that does. */
  datatype Trouble = Calm | PrintsSecret | RepeatsMember | DiscoveryRepeats

  const BINARY := "/work/address/unit"
  const SHA := seq(64, (i: int) => 'a')
  const COPY := Snapshot(SnapshotPath(Address, 0), SHA, 64, 0, 0x16D)
  const DOC := Mapping(map[BINARY := COPY])
  const PLANS := [Plan("unit", BINARY, [])]
  const SECRET: Bytes := [1]
  const FOREIGN := "worker_full_project_duplicate_member"

  /** Readers that always find what is expected of the one test. */
  function Readers(t: Trouble): World {
    World(_ => "", raw => raw != SECRET, _ => Strict(DOC), _ => if t.RepeatsMember? then Loose(COPY) else Strict(COPY),
          _ => Some(Expected(SHA, 1002)), _ => ["__asan_init", "__asan_report_load"], _ => Some(Dynamic(["libc"], [])))
  }

  function Planned(t: Trouble): Result<seq<Plan>, string> {
    if t.DiscoveryRepeats? then Err(FOREIGN) else Ok(PLANS)
  }

  /** Every invocation takes a millisecond and exits 0. */
  function Replayed(t: Trouble): Session {
    Session(Readers(t), Address, Planned(t),
            (step: Step) => Returned(MS, 0, false, false, if t.PrintsSecret? && step == Executing(0) then SECRET else []))
  }

  function Question(t: Trouble): Case {
    Case(Readers(t), Address, Planned(t), None)
  }

  lemma {:induction false} Honest(t: Trouble)
    ensures Faithful(Replayed(t)) && Asked(Replayed(t), Question(t)) && EnclosingOk(Question(t))
  {
    hide Run, Readers, Planned;
  }

  lemma {:induction false} OneBinary()
    ensures Binaries(PLANS) == [BINARY]
  {
    hide BINARY;
    assert PLANS[..0] == [];
    assert BinaryNames([]) == [];
    assert BinaryNames(PLANS) == [] + [BINARY] == [BINARY];
    assert [BINARY][1..] == [];
    assert Unique([]) == [] && Unique([BINARY]) == [BINARY];
    assert multiset(Sort([BINARY])) == multiset([BINARY]);
  }

  lemma {:induction false} CopyFits()
    ensures FactsOk(Address, [BINARY], map[BINARY := COPY])
  {
    hide SnapshotPath;
    assert [BINARY][..0] == [];
    assert SnapshotBytes([], map[BINARY := COPY]) == 0;
  }

  lemma {:induction false} LibraryPinned()
    ensures NativeTests.Pinned(Dynamic(["libc"], []))
  {}

  lemma {:induction false} SymbolsInstrumented()
    ensures Instrumented(["__asan_init", "__asan_report_load"], Address)
  {
    var symbols := ["__asan_init", "__asan_report_load"];
    assert symbols[1] in symbols && "__asan_report_" <= symbols[1];
  }

  lemma {:induction false} InspectionPasses(t: Trouble)
    ensures var end := Inspect(Replayed(t), DOC, BINARY, 0);
            end.error.None? && end.shows && end.item.Some?
  {
    hide Instrumented, NativeTests.Pinned, SnapshotPath, BINARY;
    LibraryPinned();
    SymbolsInstrumented();
  }

  /** The test is seen through whatever it prints and however its checks are spelled. */
  lemma {:induction false} TestPasses(t: Trouble)
    ensures var end := Replay(Replayed(t), DOC, {BINARY}, PLANS[0], 0);
            && end.error.None? && ExitedZero(end.row) && end.row.before.Some? && end.row.after.Some?
            && (t.Calm? ==> Naming(Readers(t), end.row.after, COPY))
  {
    hide SnapshotPath, IsCode, BINARY;
  }

  lemma {:induction false} RunsThrough(t: Trouble)
    requires !t.DiscoveryRepeats?
    ensures var ev := Run(Replayed(t)).ev;
            && ev.error.None? && ev.snapshots == DOC && |ev.inspections| == 1
            && ev.tests == [Replay(Replayed(t), DOC, {BINARY}, PLANS[0], 0).row]
  {
    hide Inspect, Replay, Binaries, IsCode, SnapshotPath, BINARY;
    var s := Replayed(t);
    OneBinary();
    InspectionPasses(t);
    TestPasses(t);
    assert InspectStop(s, DOC, [BINARY], 0) == 1;
    assert Items(s, DOC, [BINARY], 0) == [];
    assert GoodSources(s, DOC, [BINARY], 0) == {};
    assert GoodSources(s, DOC, [BINARY], 1) == {BINARY};
    assert ReplayStop(s, DOC, {BINARY}, PLANS, 0) == 1;
    assert Rows(s, DOC, {BINARY}, PLANS, 0) == [];
  }

  lemma {:induction false} CalmIsLegible(step: Step)
    ensures Legible(Replayed(Calm), PLANS, step)
  {
    hide SnapshotPath, BINARY, FactsOk, Binaries;
    OneBinary();
    CopyFits();
  }

  /** The record of the calm replay is accepted; its one planned test is bound and passed. */
  lemma {:induction false} ReplayPasses()
    ensures var s, c := Replayed(Calm), Question(Calm);
            var ev := Run(s).ev;
            && Faithful(s) && Asked(s, c) && RecordOk(c, ev)
            && ev.error.None? && |ev.tests| == |PLANS| == 1 && BoundAt(c, ev, 0) && ExitedZero(ev.tests[0])
  {
    hide Run, Replay, RecordOk, BoundAt, Naming, Legible, Recorded, Faithful, BINARY;
    var s, c := Replayed(Calm), Question(Calm);
    Honest(Calm);
    RunsThrough(Calm);
    TestPasses(Calm);
    forall step: Step ensures Legible(s, PLANS, step) {
      CalmIsLegible(step);
    }
    ReplayAccepted(s, c);
    BindsWhatItSawThrough(s, c, 0);
  }

  lemma {:induction false} PlannedAs(t: Trouble)
    ensures Replayed(t).plan == Question(t).plan == Planned(t)
  {}

  lemma {:induction false} SecretIllegible()
    ensures !Legible(Replayed(PrintsSecret), PLANS, Executing(0))
  {
    hide SnapshotPath, BINARY, PLANS, FactsOk;
  }

  lemma {:induction false} RepeatedIllegible()
    ensures !Legible(Replayed(RepeatsMember), PLANS, Before(0))
  {
    hide SnapshotPath, BINARY, PLANS, FactsOk;
  }

  /** A test that prints what the redactor rewrites: everything succeeds and matches, and
      the record is refused. */
  lemma {:induction false} PrintedSecretIsRefused()
    ensures var s, c := Replayed(PrintsSecret), Question(PrintsSecret);
            && Faithful(s) && Asked(s, c) && Run(s).ev.error.None? && !RecordOk(c, Run(s).ev)
  {
    hide Run, Replay, RecordOk, Faithful, BINARY, Legible, Readers, Replayed;
    var s, c := Replayed(PrintsSecret), Question(PrintsSecret);
    PlannedAs(PrintsSecret);
    SecretIllegible();
    Honest(PrintsSecret);
    RunsThrough(PrintsSecret);
    TestPasses(PrintsSecret);
    ReplayAccepted(s, c);
    assert Recorded(Run(s).ev, Executing(0));
  }

  /** A verification whose JSON repeats a member: the replay reads it and goes on, and the
      record is refused. */
  lemma {:induction false} RepeatedMemberIsRefused()
    ensures var s, c := Replayed(RepeatsMember), Question(RepeatsMember);
            && Faithful(s) && Asked(s, c) && Run(s).ev.error.None? && !RecordOk(c, Run(s).ev)
  {
    hide Run, Replay, RecordOk, Faithful, BINARY, Legible, Readers, Replayed;
    var s, c := Replayed(RepeatsMember), Question(RepeatsMember);
    PlannedAs(RepeatsMember);
    RepeatedIllegible();
    Honest(RepeatsMember);
    RunsThrough(RepeatsMember);
    TestPasses(RepeatsMember);
    ReplayAccepted(s, c);
    assert Recorded(Run(s).ev, Before(0));
  }

  /** A discovery that repeats a member cannot be planned: the replay renames the error,
      and the validator, which expects it as it was, refuses the record. */
  lemma {:induction false} RenamedErrorIsRefused()
    ensures var s, c := Replayed(DiscoveryRepeats), Question(DiscoveryRepeats);
            && Faithful(s) && Asked(s, c) && Run(s).ev == Unplanned(UNAVAILABLE) && !RecordOk(c, Run(s).ev)
  {
    hide RecordOk, Faithful;
    var s, c := Replayed(DiscoveryRepeats), Question(DiscoveryRepeats);
    Honest(DiscoveryRepeats);
    assert FOREIGN[7] == 'f' && CODE[7] == 'n';
    ReplayAccepted(s, c);
  }
}
