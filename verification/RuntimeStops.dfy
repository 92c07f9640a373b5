/** Collections that stopped after the functional stage: where the validator finds
    the end, stage by stage. */
module RuntimeStops {
  import opened Results
  import opened RuntimeTypes
  import opened RuntimeProducer
  import V = RuntimeValidator
  import opened RuntimeSlots
  import opened RuntimeReports
  import opened RuntimeSegments
  import opened RuntimePrefix
  import opened RuntimeHistory
  import opened RuntimeOrder
  import opened RuntimeAgreement

  // ---------- structure ----------

  lemma {:induction false} EndsHere(s: Session, h: History)
    requires Beyond(s, h)
    ensures V.EndsCollection(CaseOf(s), Final(s, h))
  {
    hide Told, V.KindSucceeded, V.Continuable, V.ReclaimRow;
    var c, ev := CaseOf(s), Final(s, h);
    Fits(c, h);
    forall i | 0 <= i < |ev.sanitizers| && !V.KindSucceeded(ev.sanitizers[i]) && !V.Continuable(c, ev.sanitizers[i])
      ensures i == |ev.sanitizers| - 1 && ev.fuzz.None? && V.ReclaimRow(ev, Of(ev.sanitizers[i].kind)).None?
    {
      assert ev.sanitizers[i] == h.ks[i].part;
      if h.ks[i].halt.Running? {
        RunningSucceeds(c, h, i);
        assert false;
      } else {
        StopsLast(c, h, i);
        LaidOut(s, h);
        RowsMatch(c, h, ev);
      }
    }
  }

  lemma {:induction false} StopsLast(c: V.Case, h: History, i: nat)
    requires Told(c, h) && i < |h.ks| && h.ks[i].halt.Raised?
    ensures i == |h.ks| - 1 && |h.rs| == |h.ks| && h.fuzz.None? && h.ks[i].part.kind == KINDS[i]
  {
    hide FunctionalReport, ReclaimReport, KindEnding, KindPlaced, FuzzReport;
    assert KindReport(c, KINDS[i], Clock(h, 2 * i + 2), h.ks[i]);
    KindOf(c, KINDS[i], h.ks[i]);
  }

  lemma {:induction false} RunningKind(c: V.Case, h: History, i: nat)
    requires Told(c, h) && i < |h.ks|
    ensures i < 2 && KindReport(c, KINDS[i], Clock(h, 2 * i + 2), h.ks[i])
  {
    hide FunctionalReport, ReclaimReport, KindReport, FuzzReport, Continued;
  }

  lemma {:induction false} RunningSucceeds(c: V.Case, h: History, i: nat)
    requires Told(c, h) && i < |h.ks| && h.ks[i].halt.Running?
    ensures V.KindSucceeded(h.ks[i].part) || V.Continuable(c, h.ks[i].part)
    ensures V.KindConsistent(c, h.ks[i].part, h.ks[i].diagnostic) || !c.schema.V4?
  {
    hide Told, KindReport;
    RunningKind(c, h, i);
    FinishedKind(c, KINDS[i], Clock(h, 2 * i + 2), h.ks[i]);
  }

  lemma {:induction false} FinishedKind(c: V.Case, kind: Kind, t0: nat, k: KindOutcome)
    requires KindReport(c, kind, t0, k) && k.halt.Running?
    ensures KindFinished(c, k)
    ensures V.KindSucceeded(k.part) || V.Continuable(c, k.part)
    ensures c.schema.V4? ==> V.KindConsistent(c, k.part, k.diagnostic)
  {
    hide KindPlaced, V.JunitSound, V.KindSucceeded, V.Continuable, V.KindNames;
  }

  lemma {:induction false} NotesEach(c: V.Case, ks: seq<KindOutcome>)
    requires |ks| <= 2
    ensures NotesReadable(c, NotesOf(ks)) <==> forall i :: 0 <= i < |ks| ==> V.Readable(c, ks[i].diagnostic)
  {
    NotesAre(ks);
    var notes := NotesOf(ks);
    if |ks| == 2 {
      assert notes == NotedBy(ks[0]) + NotedBy(ks[1]);
      assert ks[0].diagnostic.Some? ==> notes[0] == ks[0].diagnostic.value;
      assert ks[1].diagnostic.Some? ==> notes[|notes| - 1] == ks[1].diagnostic.value;
    } else if |ks| == 1 {
      assert ks[0].diagnostic.Some? ==> notes[0] == ks[0].diagnostic.value;
    }
  }

  ghost predicate RowsSound(c: V.Case, rows: seq<Row>) {
    |rows| <= 3 && forall i :: 0 <= i < |rows| ==> RowSound(c, rows[i], PHASES[i])
  }

  ghost predicate KindsConsistent(c: V.Case, ks: seq<KindOutcome>) {
    forall i :: 0 <= i < |ks| ==> V.KindConsistent(c, ks[i].part, ks[i].diagnostic)
  }

  /** The structure checks pass iff every stage's own content checks pass. */
  lemma {:induction false} StructureHere(s: Session, h: History)
    requires Beyond(s, h)
    ensures var c, ev := CaseOf(s), Final(s, h);
            V.StructureSound(c, ev) <==>
              RowsSound(c, RowsIn(h.rs)) && KindsConsistent(c, h.ks)
              && NotesReadable(c, ev.diagnostics)
              && (ev.fuzz.Some? ==> V.FuzzSound(c, ev.fuzz.value))
  {
    hide Told, Laid, V.StructureSound, V.KindConsistent, V.Readable, V.FuzzSound, V.EndsCollection, RowSound, NotesReadable;
    var c, ev := CaseOf(s), Final(s, h);
    LaidOut(s, h);
    Fits(c, h);
    EndsHere(s, h);
    NotesEach(c, h.ks);
    RowsHere(c, h);
    StructureParts(c, ev, h.f.part, RowsIn(h.rs), h.ks);
  }

  lemma {:induction false} EarlierRow(c: V.Case, h: History, i: nat)
    requires Told(c, h) && i < |RowsIn(h.rs)| && i < |h.rs| && h.rs[i].halt.Running?
    ensures i < 3 && RowSound(c, RowsIn(h.rs)[i], PHASES[i])
  {
    hide Told, RowSound, Clock;
    RowsHere(c, h);
    ReclaimSays(c, h, i);
    ReclaimedRow(c, PHASES[i], Clock(h, 2 * i + 1), h.rs[i]);
  }

  /** Kinds that ran to their end are consistent. */
  lemma {:induction false} EarlierKinds(c: V.Case, h: History)
    requires Told(c, h) && c.schema.V4? && forall i :: 0 <= i < |h.ks| ==> h.ks[i].halt.Running?
    ensures KindsConsistent(c, h.ks)
  {
    hide Told, V.KindConsistent;
    forall i | 0 <= i < |h.ks| ensures V.KindConsistent(c, h.ks[i].part, h.ks[i].diagnostic) {
      RunningSucceeds(c, h, i);
    }
  }

  /** Reclamations that ran to their end are sound. */
  lemma {:induction false} EarlierRows(c: V.Case, h: History)
    requires Told(c, h) && forall i :: 0 <= i < |RowsIn(h.rs)| && i < |h.rs| ==> h.rs[i].halt.Running?
    ensures RowsSound(c, RowsIn(h.rs))
  {
    hide Told, RowSound;
    Fits(c, h);
    RowsHere(c, h);
    forall i | 0 <= i < |RowsIn(h.rs)| ensures RowSound(c, RowsIn(h.rs)[i], PHASES[i]) {
      EarlierRow(c, h, i);
    }
  }

  lemma {:induction false} ReclaimedRow(c: V.Case, phase: Phase, t0: nat, r: ReclaimOutcome)
    requires ReclaimReport(c, phase, t0, r) && r.halt.Running?
    ensures r.row.Some? && RowSound(c, r.row.value, phase)
  {
    hide ReclaimedWell, Faithful;
  }

  lemma {:induction false} SoundHere(s: Session, h: History)
    requires Beyond(s, h) && V.StructureSound(CaseOf(s), Final(s, h))
    requires FuzzOf(h).Some? ==> FuzzOf(h).value.campaign.None?
    requires PastFunctional(Final(s, h))
    ensures Sound(CaseOf(s), Final(s, h), Clock(h, 7))
  {
    hide Told, V.StructureSound, Tracked, V.AllSlots, Clock;
    StretchTracked(CaseOf(s), h, 7);
    SlotsOf(s, h);
    DurationCovers(s, h);
  }

  lemma {:induction false} DurationCovers(s: Session, h: History)
    ensures Clock(h, 7) / MS <= Final(s, h).durationMs
  {
    hide Clock;
    DivisionGrows(Clock(h, 7), s.tail);
  }

  lemma {:induction false} DivisionGrows(a: nat, b: nat)
    ensures a / MS <= (a + b) / MS
  {}

  // ---------- the state of an ended history ----------

  /** A history that ended before its campaign, in time. */
  ghost predicate Stopped(s: Session, h: History) {
    && Beyond(s, h) && HaltOf(h).Raised? && Timely(s, Reached(s, h))
    && (FuzzOf(h).Some? ==> FuzzOf(h).value.campaign.None?)
  }

  lemma {:induction false} StoppedEarly(s: Session, h: History)
    requires Stopped(s, h)
    ensures Early(s, Reached(s, h))
  {
    hide Told, Clock;
  }

  // ---------- a reclamation that stopped ----------

  lemma {:induction false} RanBefore(s: Session, h: History)
    requires Beyond(s, h)
    ensures var i := StageCount(h) - 1; i <= 6 && forall j :: 0 <= j < i ==> RanTo(h, j)
  {
    hide FunctionalReport, ReclaimReport, KindReport, FuzzReport;
  }

  lemma {:induction false} ReclaimStop(s: Session, h: History)
    requires Stopped(s, h) && |h.rs| == |h.ks| + 1 && h.fuzz.None?
    ensures Agreed(s, Reached(s, h))
  {
    hide Told, Agreed, ReclaimReport, Timely, Clock, Corroborated, RowsIn;
    var c, k := CaseOf(s), |h.ks|;
    StoppedEarly(s, h);
    Fits(c, h);
    ReclaimSays(c, h, k);
    var r := h.rs[k];
    ReclaimEndings(c, PHASES[k], Clock(h, 2 * k + 1), r);
    match r.halt.stop
    case NativeFailure(_) =>
      ReclaimFailed(s, h, k);
    case BadContent(_) =>
      ReclaimUnsound(s, h, k);
      Refused(s, Reached(s, h));
    case OutOfTime(_) =>
      ReclaimLate(s, h, k);
      Refused(s, Reached(s, h));
  }

  lemma {:induction false} ReclaimEndings(c: V.Case, phase: Phase, t0: nat, r: ReclaimOutcome)
    requires ReclaimReport(c, phase, t0, r) && r.halt.Raised?
    ensures match r.halt.stop
            case NativeFailure(op) => op == Reclaim(phase) && r.row.Some? && !Good(r.row.value) && r.halt.code == ReclamationFailed
            case BadContent(_) => r.row.Some? && !RowSound(c, r.row.value, phase) && !Corroborated(r.halt)
            case OutOfTime(_) => r.row.None? && r.halt.code == DeadlineReached && !Corroborated(r.halt)
            case _ => false
  {
    hide ReclaimedWell, Faithful;
  }

  ghost predicate ReclaimStopped(s: Session, h: History, k: nat) {
    Stopped(s, h) && |h.rs| == k + 1 && |h.ks| == k && h.fuzz.None? && h.rs[k].halt.Raised?
  }

  lemma {:induction false} ReclaimSplit(s: Session, h: History, k: nat)
    requires ReclaimStopped(s, h, k)
    ensures var c, i := CaseOf(s), 2 * k + 1;
            && i <= 5 && Segment(c, h, i) == [V.Slot(Reclaim(PHASES[k]), h.rs[k].row)]
            && Split(c, Final(s, h), Stretch(c, h, 0, i), Segment(c, h, i), Stretch(c, h, i + 1, 7), if h.rs[k].row.Some? then 1 else 0)
  {
    hide Told, Split, V.AllSlots, Tolerated, Stretch, RowsIn;
    Fits(CaseOf(s), h);
    RanBefore(s, h);
    Divided(s, h, 2 * k + 1, if h.rs[k].row.Some? then 1 else 0);
  }

  lemma {:induction false} ReclaimFailed(s: Session, h: History, k: nat)
    requires ReclaimStopped(s, h, k)
    requires h.rs[k].halt == Raised(ReclamationFailed, NativeFailure(Reclaim(PHASES[k])))
    requires h.rs[k].row.Some? && !Good(h.rs[k].row.value)
    ensures Agreed(s, Reached(s, h))
  {
    hide Told, Split, V.AllSlots, Stretch, Tolerated, V.LateVerdict, Agreed, Clock, V.StructureSound, V.Validate, Sound;
    var c, i, ev := CaseOf(s), 2 * k + 1, Final(s, h);
    StoppedEarly(s, h);
    ReclaimSplit(s, h, k);
    ReclaimPast(s, h, k);
    ReclaimStructure(s, h, k);
    if NotesReadable(c, ev.diagnostics) {
      SoundHere(s, h);
      NotTolerated(c, ev, Reclaim(PHASES[k]));
      NativeAccepted(c, ev, Stretch(c, h, 0, i), Segment(c, h, i), Stretch(c, h, i + 1, 7), 1, 0, Clock(h, 7));
      LateVerdictSays(c, ev, V.AllSlots(c, ev), Some(Reclaim(PHASES[k])));
      Accepted(s, Reached(s, h), V.LateVerdict(c, ev, V.AllSlots(c, ev), Some(Reclaim(PHASES[k]))));
    } else {
      StructureNeeded(c, ev);
      Unreadable(s, Reached(s, h));
    }
  }

  lemma {:induction false} LateVerdictSays(c: V.Case, ev: Evidence, slots: seq<Slot>, failed: Option<OpId>)
    ensures var v := V.LateVerdict(c, ev, slots, failed); !v.complete && v.failure == failed
  {
    hide V.Keep, V.Present, V.Summaries, V.JudgeKinds;
  }

  lemma {:induction false} StructureNeeded(c: V.Case, ev: Evidence)
    requires PastFunctional(ev) && !V.StructureSound(c, ev)
    ensures V.ValidateRuntimePrefix(c, ev).None?
  {
    hide V.StructureSound;
  }

  lemma {:induction false} ReclaimPast(s: Session, h: History, k: nat)
    requires ReclaimStopped(s, h, k) && (k > 0 || h.rs[k].row.Some?)
    ensures PastFunctional(Final(s, h))
  {
    hide Told, Clock;
    RowsHere(CaseOf(s), h);
  }

  /** Only readable diagnostics are left to check when the reclamation itself failed. */
  lemma {:induction false} ReclaimStructure(s: Session, h: History, k: nat)
    requires ReclaimStopped(s, h, k) && h.rs[k].row.Some? && !Good(h.rs[k].row.value)
    ensures V.StructureSound(CaseOf(s), Final(s, h)) <==> NotesReadable(CaseOf(s), Final(s, h).diagnostics)
  {
    hide Told, NotesReadable, KindsConsistent, V.StructureSound, ReclaimedWell, RowSound;
    var c := CaseOf(s);
    StructureHere(s, h);
    Fits(c, h);
    RowsHere(c, h);
    KindsRan(c, h);
    EarlierKinds(c, h);
    forall i | 0 <= i < |RowsIn(h.rs)| ensures RowSound(c, RowsIn(h.rs)[i], PHASES[i]) {
      if i < k {
        EarlierRow(c, h, i);
      } else {
        FailedRowSound(c, RowsIn(h.rs)[i], PHASES[i]);
      }
    }
  }

  lemma {:induction false} FailedRowSound(c: V.Case, row: Row, phase: Phase)
    requires !Good(row)
    ensures RowSound(c, row, phase)
  {}

  lemma {:induction false} KindsRan(c: V.Case, h: History)
    requires Told(c, h)
    ensures forall i :: 0 <= i < |h.rs| - 1 ==> h.rs[i].halt.Running?
    ensures |h.rs| > |h.ks| ==> forall i :: 0 <= i < |h.ks| ==> h.ks[i].halt.Running?
    ensures |h.rs| == |h.ks| ==> forall i :: 0 <= i < |h.ks| ==> h.rs[i].halt.Running?
    ensures forall i :: 0 <= i < |h.ks| - 1 ==> h.ks[i].halt.Running?
  {
    hide FunctionalReport, ReclaimReport, KindReport, FuzzReport;
  }

  lemma {:induction false} ReclaimUnsound(s: Session, h: History, k: nat)
    requires ReclaimStopped(s, h, k) && h.rs[k].row.Some? && !RowSound(CaseOf(s), h.rs[k].row.value, PHASES[k])
    ensures V.ValidateRuntimePrefix(CaseOf(s), Final(s, h)).None?
  {
    hide Told, NotesReadable, KindsConsistent, V.StructureSound, RowSound;
    var c := CaseOf(s);
    StructureHere(s, h);
    RowsHere(c, h);
    ReclaimPast(s, h, k);
    StructureNeeded(c, Final(s, h));
  }

  lemma {:induction false} ReclaimLate(s: Session, h: History, k: nat)
    requires ReclaimStopped(s, h, k) && h.rs[k].row.None? && h.rs[k].halt.code == DeadlineReached
    ensures V.ValidateRuntimePrefix(CaseOf(s), Final(s, h)).None?
  {
    hide Told, Split, V.AllSlots, Stretch, Tolerated, Clock, V.StructureSound;
    var c, i, ev := CaseOf(s), 2 * k + 1, Final(s, h);
    if k > 0 {
      ReclaimSplit(s, h, k);
      ReclaimPast(s, h, k);
      CleanRefused(c, ev, Stretch(c, h, 0, i), Segment(c, h, i), Stretch(c, h, i + 1, 7), 0);
    } else {
      RowsHere(c, h);
      FirstReclaimLate(c, ev);
    }
  }

  /** Before the first reclamation the record looks like a functional failure without one. */
  lemma {:induction false} FirstReclaimLate(c: V.Case, ev: Evidence)
    requires ev.sanitizers == [] && ev.fuzz.None? && ev.reclamations == [] && ev.error == Some(DeadlineReached)
    ensures V.ValidateRuntimePrefix(c, ev).None?
  {
    hide V.OperationsOk, V.StructureSound, V.FunctionalFile, ReadCsv;
  }
}
