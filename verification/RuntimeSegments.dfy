/** The canonical order cut into stages: distinct identities, recorded time, and
    where each stage stopped. */
module RuntimeSegments {
  import opened Results
  import opened RuntimeTypes
  import opened RuntimeProducer
  import V = RuntimeValidator
  import opened RuntimeSlots
  import opened RuntimeReports

  type Slot = V.Slot

  // ---------- canonical ranks ----------

  function KindRank(kind: Kind): nat {
    match kind
    case Address => 10
    case Undefined => 20
    case OtherKind(_) => 0
  }

  /** Position in the canonical order of a released plan. */
  function Rank(id: OpId): nat {
    match id
    case FunctionalSetup => 0
    case FunctionalRun => 1
    case FunctionalRead => 2
    case Reclaim(phase) => if phase == Baseline then 3 else KindRank(phase.kind) + 9
    case Configure(k) => KindRank(k)
    case Build(k) => KindRank(k) + 1
    case Discover(k) => KindRank(k) + 2
    case Tests(k) => KindRank(k) + 3
    case TestLog(k) => KindRank(k) + 4
    case Resources(k) => KindRank(k) + 5
    case Junit(k) => KindRank(k) + 6
    case FuzzStage => 30
    case FuzzConfigure => 31
    case FuzzBuild => 32
    case FuzzReplay(i) => 33 + i
    case FuzzCampaign => 0
    case UnknownOp(_) => 0
  }

  ghost predicate Ranked(slots: seq<Slot>, low: nat, high: nat) {
    && (forall i :: 0 <= i < |slots| ==> low <= Rank(slots[i].id) < high)
    && (forall i, j :: 0 <= i < j < |slots| ==> Rank(slots[i].id) < Rank(slots[j].id))
  }

  lemma {:induction false} RankedConcat(a: seq<Slot>, b: seq<Slot>, low: nat, mid: nat, high: nat)
    requires low <= mid <= high && Ranked(a, low, mid) && Ranked(b, mid, high)
    ensures Ranked(a + b, low, high)
  {}

  lemma {:induction false} RankedDistinct(slots: seq<Slot>, low: nat, high: nat)
    requires Ranked(slots, low, high)
    ensures DistinctIds(slots)
  {}

  // ---------- the whole order of a released plan ----------

  function Part(ev: Evidence, i: nat): Option<SanitizerPart> {
    if i < |ev.sanitizers| then Some(ev.sanitizers[i]) else None
  }

  function ReclaimSlot(ev: Evidence, phase: Phase): seq<Slot> {
    [V.Slot(Reclaim(phase), V.ReclaimRow(ev, phase))]
  }

  function FirstKind(ev: Evidence): seq<Slot> {
    V.KindSlots(Address, Part(ev, 0), V.DiagnosticFor(ev.diagnostics, Address))
  }

  function SecondKind(ev: Evidence): seq<Slot> {
    V.KindSlots(Undefined, Part(ev, 1), V.DiagnosticFor(ev.diagnostics, Undefined))
  }

  function FuzzPlaces(c: V.Case, ev: Evidence): seq<Slot> {
    V.FuzzSlots(ev.fuzz, |c.plan.fuzz.corpus|)
  }

  lemma {:induction false} AllSlotsAre(c: V.Case, ev: Evidence)
    requires c.plan.sanitizers.kinds == [Address, Undefined] && ev.functional.Some?
    ensures V.AllSlots(c, ev) == V.FunctionalSlots(ev.functional.value) + ReclaimSlot(ev, Baseline)
              + FirstKind(ev) + ReclaimSlot(ev, Of(Address)) + SecondKind(ev) + ReclaimSlot(ev, Of(Undefined)) + FuzzPlaces(c, ev)
  {
    hide V.KindSlots, V.FunctionalSlots, V.FuzzSlots, V.ReclaimRow, V.DiagnosticFor;
    assert V.SlotsFrom(c, ev, 2) == [];
    assert V.SlotsFrom(c, ev, 1) == SecondKind(ev) + ReclaimSlot(ev, Of(Undefined)) + V.SlotsFrom(c, ev, 2);
    assert V.SlotsFrom(c, ev, 0) == FirstKind(ev) + ReclaimSlot(ev, Of(Address)) + V.SlotsFrom(c, ev, 1);
  }

  lemma {:induction false} KindRanked(kind: Kind, part: Option<SanitizerPart>, d: Option<Diagnostic>)
    requires kind == Address || kind == Undefined
    ensures Ranked(V.KindSlots(kind, part, d), KindRank(kind), KindRank(kind) + 9)
  {
    var ids := V.Ids(V.KindSlots(kind, part, d));
    if d.Some? {
      assert ids == [Configure(kind), Build(kind), Discover(kind), Tests(kind), TestLog(kind), Resources(kind), Junit(kind)];
    } else {
      assert ids == [Configure(kind), Build(kind), Discover(kind), Tests(kind), Junit(kind)];
    }
    RanksOf(V.KindSlots(kind, part, d), ids, KindRank(kind));
  }

  lemma {:induction false} RanksOf(slots: seq<Slot>, ids: seq<OpId>, base: nat)
    requires ids == V.Ids(slots)
    requires forall i :: 0 <= i < |ids| ==> base <= Rank(ids[i]) < base + 9
    requires forall i, j :: 0 <= i < j < |ids| ==> Rank(ids[i]) < Rank(ids[j])
    ensures Ranked(slots, base, base + 9)
  {
    hide Rank;
  }

  lemma {:induction false} AllDistinct(c: V.Case, ev: Evidence)
    requires c.plan.sanitizers.kinds == [Address, Undefined] && ev.functional.Some?
    ensures DistinctIds(V.AllSlots(c, ev))
  {
    AllSlotsAre(c, ev);
    var n := |c.plan.fuzz.corpus|;
    KindRanked(Address, Part(ev, 0), V.DiagnosticFor(ev.diagnostics, Address));
    KindRanked(Undefined, Part(ev, 1), V.DiagnosticFor(ev.diagnostics, Undefined));
    var a := V.FunctionalSlots(ev.functional.value);
    RankedConcat(a, ReclaimSlot(ev, Baseline), 0, 3, 10);
    var b := a + ReclaimSlot(ev, Baseline);
    RankedConcat(b, FirstKind(ev), 0, 10, 19);
    var d := b + FirstKind(ev);
    RankedConcat(d, ReclaimSlot(ev, Of(Address)), 0, 19, 20);
    var e := d + ReclaimSlot(ev, Of(Address));
    RankedConcat(e, SecondKind(ev), 0, 20, 29);
    var f := e + SecondKind(ev);
    RankedConcat(f, ReclaimSlot(ev, Of(Undefined)), 0, 29, 30);
    FuzzRanked(c, ev);
    RankedConcat(f + ReclaimSlot(ev, Of(Undefined)), FuzzPlaces(c, ev), 0, 30, 33 + n);
    RankedDistinct(V.AllSlots(c, ev), 0, 33 + n);
  }

  /** The fuzz place at index i. */
  function FuzzPlace(fuzz: Option<FuzzPart>, i: nat): Slot {
    var none: Option<Row> := None;
    if i == 0 then V.Slot(FuzzStage, if fuzz.Some? then fuzz.value.corpusStage else none)
    else if i == 1 then V.Slot(FuzzConfigure, if fuzz.Some? then fuzz.value.configure else none)
    else if i == 2 then V.Slot(FuzzBuild, if fuzz.Some? then fuzz.value.build else none)
    else V.Slot(FuzzReplay(i - 3), if fuzz.Some? && i - 3 < |fuzz.value.replays| then fuzz.value.replays[i - 3] else none)
  }

  lemma {:induction false} FuzzPlaceAt(fuzz: Option<FuzzPart>, n: nat, i: nat)
    requires i < n + 3
    ensures |V.FuzzSlots(fuzz, n)| == n + 3
    ensures V.FuzzSlots(fuzz, n)[i] == FuzzPlace(fuzz, i)
  {
    var replays := if fuzz.Some? then fuzz.value.replays else [];
    if i >= 3 {
      assert V.FuzzSlots(fuzz, n)[i] == V.ReplaySlots(replays, n)[i - 3];
    }
  }

  lemma {:induction false} FuzzRanked(c: V.Case, ev: Evidence)
    ensures Ranked(FuzzPlaces(c, ev), 30, 33 + |c.plan.fuzz.corpus|)
  {
    var n := |c.plan.fuzz.corpus|;
    forall i | 0 <= i < |FuzzPlaces(c, ev)| ensures Rank(FuzzPlaces(c, ev)[i].id) == 30 + i {
      FuzzPlaceAt(ev.fuzz, n, i);
    }
  }

  // ---------- recorded time ----------

  function SlotMs(slots: seq<Slot>): int {
    if slots == [] then 0 else SlotMs(slots[..|slots| - 1]) + Ms(slots[|slots| - 1].row)
  }

  lemma {:induction false} RecordedMs(slots: seq<Slot>)
    ensures Millis(V.Recorded(slots)) == SlotMs(slots)
    decreases |slots|
  {
    if slots != [] {
      var last := |slots| - 1;
      RecordedMs(slots[..last]);
      var tail := if slots[last].row.Some? then [slots[last].row.value] else [];
      MillisConcat(V.Recorded(slots[..last]), tail);
      assert tail != [] ==> tail[..0] == [];
    }
  }

  lemma {:induction false} SlotMsConcat(a: seq<Slot>, b: seq<Slot>)
    ensures SlotMs(a + b) == SlotMs(a) + SlotMs(b)
    decreases |b|
  {
    if b == [] {
      assert a + b == a;
    } else {
      var last := |b| - 1;
      assert (a + b)[..|a + b| - 1] == a + b[..last];
      SlotMsConcat(a, b[..last]);
    }
  }

  lemma {:induction false} SlotMsOne(slot: Slot)
    ensures SlotMs([slot]) == Ms(slot.row)
  {
    assert [slot][..0] == [];
  }

  lemma {:induction false} SlotMsTwo(a: Slot, b: Slot)
    ensures SlotMs([a, b]) == Ms(a.row) + Ms(b.row)
  {
    assert [a, b] == [a] + [b];
    SlotMsConcat([a], [b]);
    SlotMsOne(a);
    SlotMsOne(b);
  }

  lemma {:induction false} SlotMsThree(a: Slot, b: Slot, d: Slot)
    ensures SlotMs([a, b, d]) == Ms(a.row) + Ms(b.row) + Ms(d.row)
  {
    assert [a, b, d] == [a, b] + [d];
    SlotMsConcat([a, b], [d]);
    SlotMsTwo(a, b);
    SlotMsOne(d);
  }

  lemma {:induction false} KindSlotMs(kind: Kind, part: SanitizerPart, d: Option<Diagnostic>)
    ensures SlotMs(V.KindSlots(kind, Some(part), d)) == KindMs(part, d)
  {
    var front := [V.Slot(Configure(kind), part.configure), V.Slot(Build(kind), part.build), V.Slot(Discover(kind), part.discovery)];
    var tests := [V.Slot(Tests(kind), part.tests)];
    var noted := if d.Some? then [V.Slot(TestLog(kind), d.value.logRead), V.Slot(Resources(kind), d.value.resources)] else [];
    var junit := [V.Slot(Junit(kind), part.junitRead)];
    assert V.KindSlots(kind, Some(part), d) == ((front + tests) + noted) + junit;
    SlotMsConcat((front + tests) + noted, junit);
    SlotMsConcat(front + tests, noted);
    SlotMsConcat(front, tests);
    SlotMsThree(front[0], front[1], front[2]);
    SlotMsOne(tests[0]);
    SlotMsOne(junit[0]);
    if d.Some? {
      SlotMsTwo(noted[0], noted[1]);
    }
  }

  lemma {:induction false} KindTracked(c: V.Case, kind: Kind, part: SanitizerPart, d: Option<Diagnostic>, t0: nat, t: nat)
    requires t0 <= t && KindPlaced(c, kind, part, d) && KindMs(part, d) * MS <= t - t0
    ensures Tracked(c, V.KindSlots(kind, Some(part), d), t0, t)
  {
    RecordedMs(V.KindSlots(kind, Some(part), d));
    KindSlotMs(kind, part, d);
  }

  lemma {:induction false} FunctionalTracked(c: V.Case, f: FunctionalPart, t: nat)
    requires FunctionalPlaced(c, f) && FunctionalMs(f) * MS <= t
    ensures Tracked(c, V.FunctionalSlots(f), 0, t)
  {
    RecordedMs(V.FunctionalSlots(f));
    SlotMsThree(V.FunctionalSlots(f)[0], V.FunctionalSlots(f)[1], V.FunctionalSlots(f)[2]);
  }

  lemma {:induction false} OneTracked(c: V.Case, slot: Slot, t0: nat, t: nat)
    requires t0 <= t && Placed(c, slot.row, slot.id) && Ms(slot.row) * MS <= t - t0
    ensures Tracked(c, [slot], t0, t)
  {
    RecordedMs([slot]);
    SlotMsOne(slot);
  }

  lemma {:induction false} ReplaySlotMs(replays: seq<Option<Row>>, n: nat)
    requires |replays| <= n
    ensures SlotMs(V.ReplaySlots(replays, n)) == ReplayMs(replays)
    decreases n
  {
    hide SlotMs, ReplayMs, V.ReplaySlots;
    if n == 0 {
      NoReplayMs(replays);
    } else if |replays| == n {
      ReplaySlotMs(replays[..n - 1], n - 1);
      FullReplayMs(replays, n);
    } else {
      ReplaySlotMs(replays, n - 1);
      ShortReplayMs(replays, n);
    }
  }

  lemma {:induction false} NoReplayMs(replays: seq<Option<Row>>)
    requires |replays| == 0
    ensures SlotMs(V.ReplaySlots(replays, 0)) == ReplayMs(replays)
  {
    assert replays == [];
    assert V.ReplaySlots(replays, 0) == [];
  }

  lemma {:induction false} ShortReplayMs(replays: seq<Option<Row>>, n: nat)
    requires |replays| < n
    requires SlotMs(V.ReplaySlots(replays, n - 1)) == ReplayMs(replays)
    ensures SlotMs(V.ReplaySlots(replays, n)) == ReplayMs(replays)
  {
    LastReplayMs(replays, n);
  }

  lemma {:induction false} FullReplayMs(replays: seq<Option<Row>>, n: nat)
    requires |replays| == n > 0
    requires SlotMs(V.ReplaySlots(replays[..n - 1], n - 1)) == ReplayMs(replays[..n - 1])
    ensures SlotMs(V.ReplaySlots(replays, n)) == ReplayMs(replays)
  {
    ShorterReplays(replays, n);
    LastReplayMs(replays, n);
  }

  lemma {:induction false} LastReplayMs(replays: seq<Option<Row>>, n: nat)
    requires n > 0
    ensures SlotMs(V.ReplaySlots(replays, n)) ==
      SlotMs(V.ReplaySlots(replays, n - 1)) + (if n - 1 < |replays| then Ms(replays[n - 1]) else 0)
  {
    var front := V.ReplaySlots(replays, n - 1);
    var last := V.Slot(FuzzReplay(n - 1), if n - 1 < |replays| then replays[n - 1] else None);
    assert V.ReplaySlots(replays, n) == front + [last];
    SlotMsConcat(front, [last]);
    SlotMsOne(last);
  }

  lemma {:induction false} ShorterReplays(replays: seq<Option<Row>>, n: nat)
    requires 0 < n == |replays|
    ensures V.ReplaySlots(replays, n - 1) == V.ReplaySlots(replays[..n - 1], n - 1)
  {}

  lemma {:induction false} FuzzTracked(c: V.Case, f: FuzzPart, t0: nat, t: nat)
    requires t0 <= t && FuzzPlaced(c, f) && f.campaign.None? && FuzzMs(f) * MS <= t - t0
    ensures Tracked(c, V.FuzzSlots(Some(f), |c.plan.fuzz.corpus|), t0, t)
  {
    var n := |c.plan.fuzz.corpus|;
    FuzzSlotMs(f, n);
    RecordedMs(V.FuzzSlots(Some(f), n));
    FuzzNamed(c, f);
  }

  lemma {:induction false} FuzzSlotMs(f: FuzzPart, n: nat)
    requires |f.replays| <= n && f.campaign.None?
    ensures SlotMs(V.FuzzSlots(Some(f), n)) == FuzzMs(f)
  {
    var front := [V.Slot(FuzzStage, f.corpusStage), V.Slot(FuzzConfigure, f.configure), V.Slot(FuzzBuild, f.build)];
    assert V.FuzzSlots(Some(f), n) == front + V.ReplaySlots(f.replays, n);
    SlotMsConcat(front, V.ReplaySlots(f.replays, n));
    SlotMsThree(front[0], front[1], front[2]);
    ReplaySlotMs(f.replays, n);
  }

  lemma {:induction false} FuzzPlaceFaithful(c: V.Case, f: FuzzPart, i: nat)
    requires FuzzPlaced(c, f)
    ensures Placed(c, FuzzPlace(Some(f), i).row, FuzzPlace(Some(f), i).id)
  {
    hide Faithful;
  }

  lemma {:induction false} FuzzNamed(c: V.Case, f: FuzzPart)
    requires FuzzPlaced(c, f)
    ensures var slots := V.FuzzSlots(Some(f), |c.plan.fuzz.corpus|);
            V.SlotsNamed(slots) && forall i :: 0 <= i < |slots| && slots[i].row.Some? ==> Faithful(c, slots[i].row.value)
  {
    hide Faithful, V.FuzzSlots, FuzzPlaced, FuzzPlace;
    var n := |c.plan.fuzz.corpus|;
    var slots := V.FuzzSlots(Some(f), n);
    FuzzPlaceAt(Some(f), n, 0);
    forall i | 0 <= i < |slots| ensures Placed(c, slots[i].row, slots[i].id) {
      FuzzPlaceAt(Some(f), n, i);
      FuzzPlaceFaithful(c, f, i);
    }
  }

  // ---------- where a stage stopped ----------

  function ExplicitPlaces(kind: Kind, part: SanitizerPart, d: Option<Diagnostic>): seq<Slot> {
    match d
    case None =>
      [V.Slot(Configure(kind), part.configure), V.Slot(Build(kind), part.build), V.Slot(Discover(kind), part.discovery),
       V.Slot(Tests(kind), part.tests), V.Slot(Junit(kind), part.junitRead)]
    case Some(noted) =>
      [V.Slot(Configure(kind), part.configure), V.Slot(Build(kind), part.build), V.Slot(Discover(kind), part.discovery),
       V.Slot(Tests(kind), part.tests), V.Slot(TestLog(kind), noted.logRead), V.Slot(Resources(kind), noted.resources),
       V.Slot(Junit(kind), part.junitRead)]
  }

  lemma {:induction false} KindPlaces(kind: Kind, part: SanitizerPart, d: Option<Diagnostic>)
    ensures V.KindSlots(kind, Some(part), d) == ExplicitPlaces(kind, part, d)
  {}

  lemma {:induction false} KindDone(c: V.Case, kind: Kind, k: KindOutcome, nonfatal: set<OpId>)
    requires KindFinished(c, k)
    requires k.completed ==> {Tests(kind), TestLog(kind), Resources(kind)} <= nonfatal
    ensures AllDone(V.KindSlots(kind, Some(k.part), k.diagnostic), nonfatal)
  {
    RowsDone(kind, k.part, k.diagnostic, nonfatal);
  }

  lemma {:induction false} RowsDone(kind: Kind, part: SanitizerPart, d: Option<Diagnostic>, nonfatal: set<OpId>)
    requires Has(part.configure) && Has(part.build) && Has(part.discovery) && Has(part.junitRead)
    requires if Has(part.tests) then d.None?
             else part.tests.Some? && BothReads(d) && {Tests(kind), TestLog(kind), Resources(kind)} <= nonfatal
    ensures AllDone(V.KindSlots(kind, Some(part), d), nonfatal)
  {
    KindPlaces(kind, part, d);
  }

  /** How far a sanitizer's rows reach, and which of them failed. */
  ghost predicate StoppedRows(kind: Kind, part: SanitizerPart, d: Option<Diagnostic>, op: OpId) {
    match op
    case Configure(_) =>
      op == Configure(kind) && part.configure.Some? && !Good(part.configure.value) && part.build.None? && part.discovery.None?
      && part.tests.None? && d.None? && part.junitRead.None?
    case Build(_) =>
      op == Build(kind) && Has(part.configure) && part.build.Some? && !Good(part.build.value) && part.discovery.None?
      && part.tests.None? && d.None? && part.junitRead.None?
    case Discover(_) =>
      op == Discover(kind) && Has(part.configure) && Has(part.build) && part.discovery.Some? && !Good(part.discovery.value)
      && part.tests.None? && d.None? && part.junitRead.None?
    case Tests(_) =>
      op == Tests(kind) && Has(part.configure) && Has(part.build) && Has(part.discovery) && part.tests.Some? && !Good(part.tests.value)
      && BothReads(d)
    case Junit(_) =>
      op == Junit(kind) && Has(part.configure) && Has(part.build) && Has(part.discovery) && Has(part.tests) && d.None?
      && part.junitRead.Some? && !Good(part.junitRead.value)
    case _ => false
  }

  function StopIndex(op: OpId): nat {
    match op
    case Configure(_) => 0
    case Build(_) => 1
    case Discover(_) => 2
    case Tests(_) => 3
    case _ => 4
  }

  function StopEnd(op: OpId, junit: Option<Row>): nat {
    if op.Tests? then (if junit.Some? then 7 else 6) else StopIndex(op) + 1
  }

  lemma {:induction false} KindStopped(kind: Kind, part: SanitizerPart, d: Option<Diagnostic>, op: OpId)
    requires StoppedRows(kind, part, d, op)
    ensures var mid := V.KindSlots(kind, Some(part), d);
            var f, m := StopIndex(op), StopEnd(op, part.junitRead);
            && f < m && FilledTo(mid, m) && mid[f].id == op && !Good(mid[f].row.value)
            && (forall i :: 0 <= i < f ==> Good(mid[i].row.value))
  {
    KindPlaces(kind, part, d);
  }

  lemma {:induction false} KindSuffix(kind: Kind, part: SanitizerPart, d: Option<Diagnostic>, op: OpId)
    requires StoppedRows(kind, part, d, op)
    ensures var mid := V.KindSlots(kind, Some(part), d);
            var f, m := StopIndex(op), StopEnd(op, part.junitRead);
            && f < m <= |mid|
            && V.Ids(mid)[f + 1..m] == Trailing(kind, op, part.junitRead)
            && (op.Tests? ==> |mid| == 7 && mid[6] == V.Slot(Junit(kind), part.junitRead))
  {
    hide V.KindSlots;
    KindPlaces(kind, part, d);
    var ids, m := V.Ids(V.KindSlots(kind, Some(part), d)), StopEnd(op, part.junitRead);
    if op.Tests? {
      assert ids == [Configure(kind), Build(kind), Discover(kind), Tests(kind), TestLog(kind), Resources(kind), Junit(kind)];
      assert ids[4..6] == [TestLog(kind), Resources(kind)] && ids[4..7] == [TestLog(kind), Resources(kind), Junit(kind)];
    } else {
      assert ids[m..m] == [];
    }
  }

  /** What is recorded after the stopping operation: only a failed test run has a tail. */
  function Trailing(kind: Kind, op: OpId, junit: Option<Row>): seq<OpId> {
    if op != Tests(kind) then []
    else if junit.Some? then [TestLog(kind), Resources(kind), Junit(kind)]
    else [TestLog(kind), Resources(kind)]
  }
}
