/** The canonical order of a collection's evidence, stage by stage. */
module RuntimeOrder {
  import opened Results
  import opened RuntimeTypes
  import opened RuntimeProducer
  import V = RuntimeValidator
  import opened RuntimeSlots
  import opened RuntimeReports
  import opened RuntimeSegments
  import opened RuntimePrefix
  import opened RuntimeHistory

  // ---------- the evidence of a history ----------

  function Final(s: Session, h: History): Evidence {
    Finish(s, Reached(s, h))
  }

  /** The functional stage passed, so later stages ran. */
  ghost predicate Beyond(s: Session, h: History) {
    Released(s) && Told(CaseOf(s), h) && h.rs != []
  }

  /** A reclamation that went on was recorded; only the latest may not have. */
  lemma {:induction false} RowRecorded(c: V.Case, h: History, i: nat)
    requires Told(c, h) && i + 1 < |h.rs|
    ensures h.rs[i].row.Some?
  {
    hide FunctionalReport, KindReport, FuzzReport, ReclaimReport;
    RecordedWhenRunning(c, PHASES[i], Clock(h, 2 * i + 1), h.rs[i]);
  }

  lemma {:induction false} RecordedWhenRunning(c: V.Case, phase: Phase, t0: nat, r: ReclaimOutcome)
    requires ReclaimReport(c, phase, t0, r) && r.halt.Running?
    ensures r.row.Some?
  {
    hide Faithful, ReclaimedWell;
  }

  lemma {:induction false} RowsAre(c: V.Case, h: History, n: nat)
    requires Told(c, h) && n <= |h.rs|
    ensures n - 1 <= |RowsIn(h.rs[..n])| <= n
    ensures n < |h.rs| ==> |RowsIn(h.rs[..n])| == n
    ensures forall i :: 0 <= i < |RowsIn(h.rs[..n])| ==> h.rs[i].row == Some(RowsIn(h.rs[..n])[i])
    ensures |RowsIn(h.rs[..n])| < n ==> h.rs[n - 1].row.None?
  {
    hide Told;
    if n > 0 {
      RowsAre(c, h, n - 1);
      var rs := h.rs[..n];
      assert rs[..n - 1] == h.rs[..n - 1];
      if n < |h.rs| {
        RowRecorded(c, h, n - 1);
      }
    }
  }

  lemma {:induction false} RowsHere(c: V.Case, h: History)
    requires Told(c, h)
    ensures |h.rs| - 1 <= |RowsIn(h.rs)| <= |h.rs|
    ensures forall i :: 0 <= i < |RowsIn(h.rs)| ==> h.rs[i].row == Some(RowsIn(h.rs)[i])
    ensures |RowsIn(h.rs)| < |h.rs| ==> Last(h.rs).row.None?
  {
    hide Reported, Continued;
    RowsAre(c, h, |h.rs|);
    assert h.rs[..|h.rs|] == h.rs;
  }

  lemma {:induction false} RowPhase(c: V.Case, h: History, i: nat)
    requires Told(c, h) && i < |h.rs| && h.rs[i].row.Some?
    ensures h.rs[i].row.value.id == Reclaim(PHASES[i])
  {
    hide FunctionalReport, KindReport, FuzzReport;
    assert ReclaimReport(c, PHASES[i], Clock(h, 2 * i + 1), h.rs[i]);
  }

  lemma {:induction false} LaidOut(s: Session, h: History)
    requires Beyond(s, h)
    ensures Laid(CaseOf(s), Final(s, h), h.f.part, RowsIn(h.rs), h.ks)
  {
    hide KindPlaced, V.FunctionalPassed, Told;
    var c := CaseOf(s);
    Fits(c, h);
    RowsHere(c, h);
    LaidParts(c, h);
    forall i | 0 <= i < |RowsIn(h.rs)| ensures RowsIn(h.rs)[i].id == Reclaim(PHASES[i]) {
      RowPhase(c, h, i);
    }
  }

  lemma {:induction false} LaidParts(c: V.Case, h: History)
    requires Told(c, h) && h.rs != []
    ensures V.FunctionalPassed(c, h.f.part)
    ensures |h.ks| <= 2 && forall i :: 0 <= i < |h.ks| ==> h.ks[i].part.kind == KINDS[i] && KindPlaced(c, KINDS[i], h.ks[i].part, h.ks[i].diagnostic)
  {
    hide KindPlaced, V.FunctionalPassed, ReclaimReport, FuzzReport, KindEnding;
    forall i | 0 <= i < |h.ks| ensures h.ks[i].part.kind == KINDS[i] && KindPlaced(c, KINDS[i], h.ks[i].part, h.ks[i].diagnostic) {
      assert KindReport(c, KINDS[i], Clock(h, 2 * i + 2), h.ks[i]);
      KindOf(c, KINDS[i], h.ks[i]);
    }
  }

  lemma {:induction false} KindOf(c: V.Case, kind: Kind, k: KindOutcome)
    requires KindPlaced(c, kind, k.part, k.diagnostic)
    ensures k.part.kind == kind
  {}

  // ---------- segments ----------

  function RowOf(h: History, i: nat): Option<Row> {
    if i < |h.rs| then h.rs[i].row else None
  }

  function PartOf(h: History, i: nat): Option<SanitizerPart> {
    if i < |h.ks| then Some(h.ks[i].part) else None
  }

  /** The places of stage i. */
  function Segment(c: V.Case, h: History, i: nat): seq<Slot>
    requires i < 7
  {
    if i == 0 then V.FunctionalSlots(h.f.part)
    else if i == 6 then V.FuzzSlots(FuzzOf(h), |c.plan.fuzz.corpus|)
    else if i % 2 == 1 then [V.Slot(Reclaim(PHASES[i / 2]), RowOf(h, i / 2))]
    else V.KindSlots(KINDS[i / 2 - 1], PartOf(h, i / 2 - 1), NoteFor(h.ks, i / 2 - 1))
  }

  /** The places of stages a to b - 1. */
  function Stretch(c: V.Case, h: History, a: nat, b: nat): seq<Slot>
    requires b <= 7
    decreases b
  {
    if a >= b then [] else Stretch(c, h, a, b - 1) + Segment(c, h, b - 1)
  }

  lemma {:induction false} StretchSplits(c: V.Case, h: History, i: nat, b: nat)
    requires i < b <= 7
    ensures Stretch(c, h, 0, b) == Stretch(c, h, 0, i) + Segment(c, h, i) + Stretch(c, h, i + 1, b)
    decreases b
  {
    hide Segment;
    if b == i + 1 {
      assert Stretch(c, h, i + 1, b) == [];
    } else {
      StretchSplits(c, h, i, b - 1);
      assert Stretch(c, h, i + 1, b) == Stretch(c, h, i + 1, b - 1) + Segment(c, h, b - 1);
    }
  }

  lemma {:induction false} SlotsOf(s: Session, h: History)
    requires Beyond(s, h)
    ensures V.AllSlots(CaseOf(s), Final(s, h)) == Stretch(CaseOf(s), h, 0, 7)
  {
    hide Told, Laid, V.KindSlots, V.AllSlots, V.FuzzSlots;
    var c, ev := CaseOf(s), Final(s, h);
    LaidOut(s, h);
    SegmentsMatch(s, h);
    AllSlotsAre(c, ev);
    StretchSeven(c, h);
  }

  lemma {:induction false} StretchSeven(c: V.Case, h: History)
    ensures Stretch(c, h, 0, 7) == Segment(c, h, 0) + Segment(c, h, 1) + Segment(c, h, 2) + Segment(c, h, 3)
                                   + Segment(c, h, 4) + Segment(c, h, 5) + Segment(c, h, 6)
  {
    hide Segment;
    assert Stretch(c, h, 0, 1) == Segment(c, h, 0);
    assert Stretch(c, h, 0, 3) == Stretch(c, h, 0, 1) + Segment(c, h, 1) + Segment(c, h, 2);
    assert Stretch(c, h, 0, 5) == Stretch(c, h, 0, 3) + Segment(c, h, 3) + Segment(c, h, 4);
  }

  lemma {:induction false} SegmentsMatch(s: Session, h: History)
    requires Beyond(s, h) && Laid(CaseOf(s), Final(s, h), h.f.part, RowsIn(h.rs), h.ks)
    ensures var c, ev := CaseOf(s), Final(s, h);
            && V.FunctionalSlots(ev.functional.value) == Segment(c, h, 0)
            && ReclaimSlot(ev, Baseline) == Segment(c, h, 1) && FirstKind(ev) == Segment(c, h, 2)
            && ReclaimSlot(ev, Of(Address)) == Segment(c, h, 3) && SecondKind(ev) == Segment(c, h, 4)
            && ReclaimSlot(ev, Of(Undefined)) == Segment(c, h, 5) && FuzzPlaces(c, ev) == Segment(c, h, 6)
  {
    hide V.KindSlots, V.FuzzSlots, V.FunctionalSlots, Told, KindPlaced, V.FunctionalPassed, V.ReclaimRow;
    var c, ev := CaseOf(s), Final(s, h);
    NotesFound(c, ev, h.f.part, RowsIn(h.rs), h.ks);
    RowsMatch(c, h, ev);
    assert Part(ev, 0) == PartOf(h, 0) && Part(ev, 1) == PartOf(h, 1);
  }

  lemma {:induction false} RowsMatch(c: V.Case, h: History, ev: Evidence)
    requires Told(c, h) && ev.reclamations == RowsIn(h.rs)
    ensures V.ReclaimRow(ev, Baseline) == RowOf(h, 0)
    ensures V.ReclaimRow(ev, Of(Address)) == RowOf(h, 1)
    ensures V.ReclaimRow(ev, Of(Undefined)) == RowOf(h, 2)
  {
    hide Told, RowsIn, V.ReclaimRow;
    Fits(c, h);
    RowsHere(c, h);
    assert PHASES[0] == Baseline && PHASES[1] == Of(Address) && PHASES[2] == Of(Undefined);
    ReclaimRowAt(ev, 0);
    ReclaimRowAt(ev, 1);
    ReclaimRowAt(ev, 2);
  }

  // ---------- stages that ran to their end, and stages that never ran ----------

  predicate RanTo(h: History, i: nat) {
    if i == 0 then h.f.halt.Running?
    else if i % 2 == 1 then i / 2 < |h.rs| && h.rs[i / 2].halt.Running?
    else i / 2 - 1 < |h.ks| && h.ks[i / 2 - 1].halt.Running?
  }

  lemma {:induction false} SegmentDone(s: Session, h: History, i: nat)
    requires Beyond(s, h) && i < 6 && RanTo(h, i)
    ensures AllDone(Segment(CaseOf(s), h, i), Tolerated(CaseOf(s), Final(s, h)))
  {
    hide Told, V.KindSlots, V.FunctionalSlots, Tolerated, Final, AllDone;
    var c := CaseOf(s);
    Fits(c, h);
    if i == 0 {
      FunctionalSegmentDone(c, h, Tolerated(c, Final(s, h)));
    } else if i % 2 == 1 {
      ReclaimSegmentDone(c, h, i / 2, Tolerated(c, Final(s, h)));
    } else {
      KindSegmentDone(s, h, i / 2 - 1);
    }
  }

  lemma {:induction false} FunctionalSegmentDone(c: V.Case, h: History, tolerated: set<OpId>)
    requires Told(c, h) && h.f.halt.Running?
    ensures AllDone(V.FunctionalSlots(h.f.part), tolerated)
  {
    hide Told, FunctionalReport;
    Says(c, h);
    FunctionalRowsDone(c, h.f, tolerated);
  }

  lemma {:induction false} FunctionalRowsDone(c: V.Case, f: FunctionalOutcome, tolerated: set<OpId>)
    requires FunctionalReport(c, f) && f.halt.Running?
    ensures AllDone(V.FunctionalSlots(f.part), tolerated)
  {
    hide FunctionalReport, V.FunctionalPassed;
    FunctionalPassedWhen(c, f);
    PassedRowsDone(c, f.part, tolerated);
  }

  lemma {:induction false} FunctionalPassedWhen(c: V.Case, f: FunctionalOutcome)
    requires FunctionalReport(c, f) && f.halt.Running?
    ensures V.FunctionalPassed(c, f.part)
  {
    hide FunctionalPlaced, V.FunctionalPassed;
  }

  lemma {:induction false} PassedRowsDone(c: V.Case, f: FunctionalPart, tolerated: set<OpId>)
    requires V.FunctionalPassed(c, f)
    ensures AllDone(V.FunctionalSlots(f), tolerated)
  {
    hide V.FunctionalFile, ReadCsv;
  }

  /** What each stage reports. */
  lemma {:induction false} Says(c: V.Case, h: History)
    requires Told(c, h)
    ensures Shaped(h) && FunctionalReport(c, h.f)
    ensures forall i :: 0 <= i < |h.rs| ==> ReclaimReport(c, PHASES[i], Clock(h, 2 * i + 1), h.rs[i])
    ensures forall i :: 0 <= i < |h.ks| ==> KindReport(c, KINDS[i], Clock(h, 2 * i + 2), h.ks[i])
  {
    hide FunctionalReport, ReclaimReport, KindReport, FuzzReport, Continued;
  }

  lemma {:induction false} ReclaimSegmentDone(c: V.Case, h: History, k: nat, tolerated: set<OpId>)
    requires Told(c, h) && k < |h.rs| && h.rs[k].halt.Running?
    ensures AllDone([V.Slot(Reclaim(PHASES[k]), h.rs[k].row)], tolerated)
  {
    hide FunctionalReport, KindReport, FuzzReport, Continued, Faithful, Clock;
    assert ReclaimReport(c, PHASES[k], Clock(h, 2 * k + 1), h.rs[k]);
  }

  lemma {:induction false} KindSegmentDone(s: Session, h: History, i: nat)
    requires Beyond(s, h) && i < |h.ks| && h.ks[i].halt.Running?
    ensures AllDone(V.KindSlots(KINDS[i], Some(h.ks[i].part), h.ks[i].diagnostic), Tolerated(CaseOf(s), Final(s, h)))
  {
    hide ReclaimReport, FuzzReport, KindPlaced, V.KindSlots, Tolerated, FunctionalReport, V.Continuable;
    var c := CaseOf(s);
    assert KindReport(c, KINDS[i], Clock(h, 2 * i + 2), h.ks[i]);
    KindOf(c, KINDS[i], h.ks[i]);
    if h.ks[i].completed {
      assert Final(s, h).sanitizers[i] == h.ks[i].part;
      ToleratedKind(c, Final(s, h), i);
    }
    KindDone(c, KINDS[i], h.ks[i], Tolerated(c, Final(s, h)));
  }

  lemma {:induction false} SegmentEmpty(c: V.Case, h: History, i: nat)
    requires Shaped(h) && i < 7
    requires 1 + |h.rs| + |h.ks| <= i && (i == 6 ==> FuzzOf(h).None?)
    ensures AllEmpty(Segment(c, h, i))
  {
    if i == 6 {
      forall j | 0 <= j < |Segment(c, h, 6)| ensures Segment(c, h, 6)[j].row.None? {
        FuzzPlaceAt(None, |c.plan.fuzz.corpus|, j);
      }
    }
  }

  lemma {:induction false} SegmentTracked(c: V.Case, h: History, i: nat)
    requires Told(c, h) && i < 7
    requires FuzzOf(h).Some? ==> FuzzOf(h).value.campaign.None?
    ensures Tracked(c, Segment(c, h, i), Clock(h, i), Clock(h, i + 1))
  {
    hide Told, V.KindSlots, V.FunctionalSlots, V.FuzzSlots, Tracked, Clock;
    Fits(c, h);
    if i >= 1 + |h.rs| + |h.ks| && (i == 6 ==> FuzzOf(h).None?) {
      SegmentEmpty(c, h, i);
      ClockGrows(c, h, i);
      TrackedEmpty(c, Segment(c, h, i), Clock(h, i), Clock(h, i + 1));
    } else if i == 0 {
      FunctionalSegmentTracked(c, h);
    } else if i == 6 {
      FuzzSegmentTracked(c, h);
    } else if i % 2 == 1 {
      ReclaimSegmentTracked(c, h, i / 2);
    } else {
      KindSegmentTracked(c, h, i / 2 - 1);
    }
  }

  lemma {:induction false} FunctionalSegmentTracked(c: V.Case, h: History)
    requires Told(c, h)
    ensures Tracked(c, V.FunctionalSlots(h.f.part), Clock(h, 0), Clock(h, 1))
  {
    hide ReclaimReport, KindReport, FuzzReport, Continued, FunctionalPlaced, FunctionalEnding, Tracked;
    FunctionalTracked(c, h.f.part, h.f.now);
  }

  lemma {:induction false} FuzzSegmentTracked(c: V.Case, h: History)
    requires Told(c, h) && FuzzOf(h).Some? && FuzzOf(h).value.campaign.None?
    ensures Tracked(c, V.FuzzSlots(FuzzOf(h), |c.plan.fuzz.corpus|), Clock(h, 6), Clock(h, 7))
  {
    hide ReclaimReport, KindReport, FunctionalReport, Continued, FuzzPlaced, FuzzEnding, Tracked, V.FuzzSlots;
    assert FuzzReport(c, Clock(h, 6), h.fuzz.value);
    FuzzTracked(c, FuzzOf(h).value, Clock(h, 6), Clock(h, 7));
  }

  lemma {:induction false} ReclaimSegmentTracked(c: V.Case, h: History, k: nat)
    requires Told(c, h) && k < |h.rs|
    ensures Tracked(c, [V.Slot(Reclaim(PHASES[k]), h.rs[k].row)], Clock(h, 2 * k + 1), Clock(h, 2 * k + 2))
  {
    hide Told, ReclaimReport, Tracked, Clock;
    ReclaimSays(c, h, k);
    ReclaimRowTracked(c, PHASES[k], Clock(h, 2 * k + 1), h.rs[k]);
  }

  lemma {:induction false} ReclaimSays(c: V.Case, h: History, k: nat)
    requires Told(c, h) && k < |h.rs|
    ensures k < 3 && ReclaimReport(c, PHASES[k], Clock(h, 2 * k + 1), h.rs[k]) && Clock(h, 2 * k + 2) == h.rs[k].now
  {
    hide FunctionalReport, ReclaimReport, KindReport, FuzzReport, Continued;
  }

  lemma {:induction false} ReclaimRowTracked(c: V.Case, phase: Phase, t0: nat, r: ReclaimOutcome)
    requires ReclaimReport(c, phase, t0, r)
    ensures Tracked(c, [V.Slot(Reclaim(phase), r.row)], t0, r.now)
  {
    hide Tracked;
    OneTracked(c, V.Slot(Reclaim(phase), r.row), t0, r.now);
  }

  lemma {:induction false} KindSays(c: V.Case, h: History, k: nat)
    requires Told(c, h) && k < |h.ks|
    ensures k < |KINDS| && KindReport(c, KINDS[k], Clock(h, 2 * k + 2), h.ks[k]) && Clock(h, 2 * k + 3) == h.ks[k].now
  {
    hide FunctionalReport, ReclaimReport, FuzzReport, Continued, KindReport;
  }

  lemma {:induction false} KindSegmentTracked(c: V.Case, h: History, k: nat)
    requires Told(c, h) && k < |h.ks|
    ensures Tracked(c, V.KindSlots(KINDS[k], Some(h.ks[k].part), h.ks[k].diagnostic), Clock(h, 2 * k + 2), Clock(h, 2 * k + 3))
  {
    hide FunctionalReport, ReclaimReport, FuzzReport, Continued, KindPlaced, KindEnding, Tracked, V.KindSlots;
    KindSays(c, h, k);
    KindTracked(c, KINDS[k], h.ks[k].part, h.ks[k].diagnostic, Clock(h, 2 * k + 2), Clock(h, 2 * k + 3));
  }

  lemma {:induction false} ClockGrows(c: V.Case, h: History, i: nat)
    requires Told(c, h) && i < 7
    requires 1 + |h.rs| + |h.ks| <= i
    ensures Clock(h, i) <= Clock(h, i + 1)
  {
    hide FunctionalReport, KindReport, FuzzEnding, Continued;
  }

  lemma {:induction false} StretchDone(s: Session, h: History, n: nat)
    requires Beyond(s, h) && n <= 6 && forall i :: 0 <= i < n ==> RanTo(h, i)
    ensures AllDone(Stretch(CaseOf(s), h, 0, n), Tolerated(CaseOf(s), Final(s, h)))
  {
    hide Beyond, Segment, Tolerated, Final;
    if n > 0 {
      StretchDone(s, h, n - 1);
      SegmentDone(s, h, n - 1);
    }
  }

  lemma {:induction false} StretchEmpty(c: V.Case, h: History, a: nat, b: nat)
    requires Shaped(h) && b <= 7 && 1 + |h.rs| + |h.ks| <= a
    requires b == 7 ==> FuzzOf(h).None? || a == 7
    ensures AllEmpty(Stretch(c, h, a, b))
    decreases b
  {
    hide Segment;
    if a < b {
      StretchEmpty(c, h, a, b - 1);
      SegmentEmpty(c, h, b - 1);
    }
  }

  lemma {:induction false} StretchTracked(c: V.Case, h: History, n: nat)
    requires Told(c, h) && n <= 7
    requires FuzzOf(h).Some? ==> FuzzOf(h).value.campaign.None?
    ensures Tracked(c, Stretch(c, h, 0, n), 0, Clock(h, n))
  {
    hide Told, Segment, Tracked, Clock;
    if n == 0 {
      ClockZero(h);
      TrackedEmpty(c, [], 0, 0);
    } else {
      StretchTracked(c, h, n - 1);
      SegmentTracked(c, h, n - 1);
      TrackedConcat(c, Stretch(c, h, 0, n - 1), Segment(c, h, n - 1), 0, Clock(h, n - 1), Clock(h, n));
    }
  }

  lemma {:induction false} ClockZero(h: History)
    ensures Clock(h, 0) == 0
  {}

  /** The order of a stopped collection: done stages, the stage that stopped, nothing. */
  lemma {:induction false} Divided(s: Session, h: History, i: nat, m: nat)
    requires Beyond(s, h) && i <= 6 && StageCount(h) == i + 1
    requires forall j :: 0 <= j < i ==> RanTo(h, j)
    requires FilledTo(Segment(CaseOf(s), h, i), m)
    ensures Split(CaseOf(s), Final(s, h), Stretch(CaseOf(s), h, 0, i), Segment(CaseOf(s), h, i), Stretch(CaseOf(s), h, i + 1, 7), m)
  {
    hide Told, V.AllSlots, Segment, Stretch, Tolerated;
    var c := CaseOf(s);
    Fits(c, h);
    SlotsOf(s, h);
    StretchSplits(c, h, i, 7);
    StretchDone(s, h, i);
    StretchEmpty(c, h, i + 1, 7);
  }

  lemma {:induction false} Fits(c: V.Case, h: History)
    requires Told(c, h)
    ensures Shaped(h) && |h.rs| + |h.ks| <= 5
  {}
}
