/** Collections that stopped inside the fuzz stage, before the campaign. */
module RuntimeFuzzStops {
  import opened Results
  import opened RuntimeTypes
  import opened RuntimeProducer
  import V = RuntimeValidator
  import opened RuntimeSlots
  import opened RuntimeReports
  import opened RuntimeSegments
  import opened RuntimePrefix
  import opened RuntimeHistory
  import opened RuntimeOrder
  import opened RuntimeAgreement
  import opened RuntimeStops

  ghost predicate FuzzHalted(s: Session, h: History) {
    Stopped(s, h) && |h.rs| == 3 && |h.ks| == 2 && h.fuzz.Some? && h.fuzz.value.halt.Raised?
  }

  function FuzzPlacesOf(s: Session, h: History): seq<Slot> {
    V.FuzzSlots(FuzzOf(h), |s.plan.fuzz.corpus|)
  }

  lemma {:induction false} FuzzSplit(s: Session, h: History, m: nat)
    requires FuzzHalted(s, h) && FilledTo(FuzzPlacesOf(s, h), m)
    ensures Split(CaseOf(s), Final(s, h), Stretch(CaseOf(s), h, 0, 6), FuzzPlacesOf(s, h), [], m)
  {
    hide Told, Split, V.AllSlots, Tolerated, V.FuzzSlots, RowsIn;
    var c := CaseOf(s);
    RanBefore(s, h);
    assert Segment(c, h, 6) == FuzzPlacesOf(s, h);
    assert Stretch(c, h, 7, 7) == [];
    Divided(s, h, 6, m);
  }

  lemma {:induction false} FuzzPast(s: Session, h: History)
    requires FuzzHalted(s, h)
    ensures PastFunctional(Final(s, h))
  {
    hide Told, Clock;
  }

  lemma {:induction false} FuzzStructure(s: Session, h: History)
    requires FuzzHalted(s, h)
    ensures V.StructureSound(CaseOf(s), Final(s, h)) <==>
              NotesReadable(CaseOf(s), Final(s, h).diagnostics) && (FuzzOf(h).Some? ==> V.FuzzSound(CaseOf(s), FuzzOf(h).value))
  {
    hide Told, NotesReadable, V.StructureSound, RowsSound, V.FuzzSound, KindsConsistent;
    var c := CaseOf(s);
    StructureHere(s, h);
    RowsHere(c, h);
    AllRan(c, h);
    EarlierRows(c, h);
    EarlierKinds(c, h);
  }

  lemma {:induction false} AllRan(c: V.Case, h: History)
    requires Told(c, h) && h.fuzz.Some?
    ensures |h.rs| == 3 && |h.ks| == 2
    ensures forall i :: 0 <= i < |h.rs| ==> h.rs[i].halt.Running?
    ensures forall i :: 0 <= i < |h.ks| ==> h.ks[i].halt.Running?
  {
    hide FunctionalReport, ReclaimReport, KindReport, FuzzReport;
  }

  lemma {:induction false} FuzzSays(c: V.Case, h: History)
    requires Told(c, h) && h.fuzz.Some?
    ensures FuzzReport(c, Clock(h, 6), h.fuzz.value)
    ensures Clock(h, 7) == h.fuzz.value.now
  {
    hide FunctionalReport, ReclaimReport, KindReport, FuzzReport, Continued;
  }

  // ---------- where the stage stopped ----------

  function FuzzStopIndex(op: OpId): nat {
    match op
    case FuzzStage => 0
    case FuzzConfigure => 1
    case FuzzBuild => 2
    case FuzzReplay(i) => 3 + i
    case _ => 0
  }

  lemma {:induction false} FuzzStoppedRows(c: V.Case, f: FuzzPart, op: OpId)
    requires FuzzPlaced(c, f) && FuzzFailedAt(c, f, op)
    ensures var mid, i := V.FuzzSlots(Some(f), |c.plan.fuzz.corpus|), FuzzStopIndex(op);
            && FilledTo(mid, i + 1) && mid[i].id == op && !Good(mid[i].row.value)
            && forall j :: 0 <= j < i ==> Good(mid[j].row.value)
  {
    hide Faithful, Staged, V.FuzzSlots;
    var n := |c.plan.fuzz.corpus|;
    var mid, i := V.FuzzSlots(Some(f), n), FuzzStopIndex(op);
    FuzzPlaceAt(Some(f), n, 0);
    StagedHas(c, f);
    forall j | 0 <= j < n + 3
      ensures (mid[j].row.Some? <==> j <= i) && (j < i ==> Good(mid[j].row.value)) && (j == i ==> mid[j].id == op && !Good(mid[j].row.value))
    {
      FuzzPlaceAt(Some(f), n, j);
    }
  }

  lemma {:induction false} StagedHas(c: V.Case, f: FuzzPart)
    ensures Staged(c, f) ==> Has(f.corpusStage)
  {}

  function Recorded(f: FuzzPart): nat {
    if f.configure.None? then 1 else if f.build.None? then 2 else 3 + |f.replays|
  }

  lemma {:induction false} FuzzLateRows(c: V.Case, f: FuzzPart)
    requires FuzzPlaced(c, f) && FuzzLate(c, f)
    ensures var mid, m := V.FuzzSlots(Some(f), |c.plan.fuzz.corpus|), Recorded(f);
            FilledTo(mid, m) && forall j :: 0 <= j < m ==> Good(mid[j].row.value)
  {
    hide Faithful, Staged, V.FuzzSlots;
    var n := |c.plan.fuzz.corpus|;
    var mid, m := V.FuzzSlots(Some(f), n), Recorded(f);
    FuzzPlaceAt(Some(f), n, 0);
    StagedHas(c, f);
    forall j | 0 <= j < n + 3 ensures (mid[j].row.Some? <==> j < m) && (j < m ==> Good(mid[j].row.value)) {
      FuzzPlaceAt(Some(f), n, j);
    }
  }

  lemma {:induction false} StagedSound(c: V.Case, f: FuzzPart)
    requires FuzzPlaced(c, f) && f.campaign.None? && f.metrics.None? && Staged(c, f)
    ensures V.FuzzSound(c, f)
  {
    hide Faithful;
  }

  lemma {:induction false} FailedStageSound(c: V.Case, f: FuzzPart)
    requires FuzzPlaced(c, f) && FuzzFailedAt(c, f, FuzzStage)
    ensures V.FuzzSound(c, f)
  {
    hide Faithful;
  }

  lemma {:induction false} UnstagedUnsound(c: V.Case, f: FuzzPart)
    requires FuzzPlaced(c, f) && Has(f.corpusStage) && !Staged(c, f)
    ensures !V.FuzzSound(c, f)
  {
    assert V.SpecFor(c, FuzzStage).limit == MIB;
  }

  // ---------- ends ----------

  lemma {:induction false} FuzzNativeEnd(s: Session, h: History, op: OpId)
    requires FuzzHalted(s, h) && FuzzOf(h).Some? && h.fuzz.value.halt == Raised(FuzzFailed, NativeFailure(op))
    requires FuzzPlaced(CaseOf(s), FuzzOf(h).value) && FuzzFailedAt(CaseOf(s), FuzzOf(h).value, op)
    ensures Agreed(s, Reached(s, h))
  {
    hide Told, Agreed, V.StructureSound, Clock, Sound, V.AllSlots, V.LateVerdict, V.ValidateRuntimePrefix, FuzzPlaced, FuzzFailedAt, V.FuzzSound;
    var c, ev := CaseOf(s), Final(s, h);
    StoppedEarly(s, h);
    FuzzPast(s, h);
    FuzzStructure(s, h);
    FailedSound(c, FuzzOf(h).value, op);
    if NotesReadable(c, ev.diagnostics) {
      SoundHere(s, h);
      FuzzJudged(s, h, op);
      LateVerdictSays(c, ev, V.AllSlots(c, ev), Some(op));
      Accepted(s, Reached(s, h), V.LateVerdict(c, ev, V.AllSlots(c, ev), Some(op)));
    } else {
      StructureNeeded(c, ev);
      Unreadable(s, Reached(s, h));
    }
  }

  lemma {:induction false} FailedSound(c: V.Case, f: FuzzPart, op: OpId)
    requires FuzzPlaced(c, f) && FuzzFailedAt(c, f, op)
    ensures V.FuzzSound(c, f)
  {
    hide FuzzPlaced, V.FuzzSound, Staged;
    if op == FuzzStage {
      FailedStageSound(c, f);
    } else {
      StagedSound(c, f);
    }
  }

  lemma {:induction false} FuzzJudged(s: Session, h: History, op: OpId)
    requires FuzzHalted(s, h) && FuzzOf(h).Some? && h.fuzz.value.halt == Raised(FuzzFailed, NativeFailure(op))
    requires FuzzPlaced(CaseOf(s), FuzzOf(h).value) && FuzzFailedAt(CaseOf(s), FuzzOf(h).value, op)
    requires Sound(CaseOf(s), Final(s, h), Clock(h, 7))
    ensures var c, ev := CaseOf(s), Final(s, h);
            V.ValidateRuntimePrefix(c, ev) == Some(V.LateVerdict(c, ev, V.AllSlots(c, ev), Some(op)))
  {
    hide Told, Split, V.AllSlots, Stretch, Tolerated, Clock, V.StructureSound, V.FuzzSlots, Sound, V.LateVerdict,
         V.ValidateRuntimePrefix, FuzzPlaced, FuzzFailedAt;
    var c, ev := CaseOf(s), Final(s, h);
    var i := FuzzStopIndex(op);
    FuzzStoppedRows(c, FuzzOf(h).value, op);
    FuzzOps(c, FuzzOf(h).value, op);
    FuzzSplit(s, h, i + 1);
    NotTolerated(c, ev, op);
    assert V.Ids(FuzzPlacesOf(s, h))[i + 1..i + 1] == [];
    NativeAccepted(c, ev, Stretch(c, h, 0, 6), FuzzPlacesOf(s, h), [], i + 1, i, Clock(h, 7));
  }

  lemma {:induction false} FuzzOps(c: V.Case, f: FuzzPart, op: OpId)
    requires FuzzFailedAt(c, f, op)
    ensures op.FuzzStage? || op.FuzzConfigure? || op.FuzzBuild? || op.FuzzReplay?
  {}

  lemma {:induction false} FuzzLateEnd(s: Session, h: History, op: OpId)
    requires FuzzHalted(s, h) && FuzzOf(h).Some? && h.fuzz.value.halt == Raised(DeadlineReached, OutOfTime(op))
    requires op.FuzzConfigure? || op.FuzzBuild? || op.FuzzReplay? || op.FuzzCampaign?
    requires FuzzPlaced(CaseOf(s), FuzzOf(h).value) && FuzzLate(CaseOf(s), FuzzOf(h).value)
    requires Clock(h, 7) >= DEADLINE
    ensures Agreed(s, Reached(s, h))
  {
    hide Told, Agreed, V.StructureSound, Clock, Sound, V.AllSlots, V.LateVerdict, V.ValidateRuntimePrefix, FuzzPlaced, FuzzLate, V.FuzzSound;
    var c, ev := CaseOf(s), Final(s, h);
    StoppedEarly(s, h);
    FuzzPast(s, h);
    FuzzStructure(s, h);
    LateSound(c, FuzzOf(h).value);
    if NotesReadable(c, ev.diagnostics) {
      SoundHere(s, h);
      FuzzLateJudged(s, h);
      LateVerdictSays(c, ev, V.AllSlots(c, ev), None);
      Accepted(s, Reached(s, h), V.LateVerdict(c, ev, V.AllSlots(c, ev), None));
    } else {
      StructureNeeded(c, ev);
      Unreadable(s, Reached(s, h));
    }
  }

  lemma {:induction false} LateSound(c: V.Case, f: FuzzPart)
    requires FuzzPlaced(c, f) && FuzzLate(c, f)
    ensures V.FuzzSound(c, f)
  {
    hide FuzzPlaced, V.FuzzSound, Staged;
    StagedSound(c, f);
  }

  lemma {:induction false} FuzzLateJudged(s: Session, h: History)
    requires FuzzHalted(s, h) && FuzzOf(h).Some? && h.fuzz.value.halt.code == DeadlineReached
    requires FuzzPlaced(CaseOf(s), FuzzOf(h).value) && FuzzLate(CaseOf(s), FuzzOf(h).value)
    requires Sound(CaseOf(s), Final(s, h), Clock(h, 7)) && Clock(h, 7) >= DEADLINE
    ensures var c, ev := CaseOf(s), Final(s, h);
            V.ValidateRuntimePrefix(c, ev) == Some(V.LateVerdict(c, ev, V.AllSlots(c, ev), None))
  {
    hide Told, Split, V.AllSlots, Stretch, Tolerated, Clock, V.StructureSound, V.FuzzSlots, Sound, V.LateVerdict,
         V.ValidateRuntimePrefix, FuzzPlaced, FuzzLate;
    var c, ev := CaseOf(s), Final(s, h);
    FuzzLateRows(c, FuzzOf(h).value);
    FuzzSplit(s, h, Recorded(FuzzOf(h).value));
    LongEnough(s, h);
    LateAccepted(c, ev, Stretch(c, h, 0, 6), FuzzPlacesOf(s, h), [], Recorded(FuzzOf(h).value), Clock(h, 7));
  }

  lemma {:induction false} LongEnough(s: Session, h: History)
    requires Released(s) && Clock(h, 7) >= DEADLINE
    ensures Final(s, h).durationMs >= CaseOf(s).plan.totalSeconds * 1000
  {
    hide Clock;
  }

  lemma {:induction false} FuzzRefused(s: Session, h: History)
    requires FuzzHalted(s, h)
    requires FuzzOf(h).None? || (FuzzPlaced(CaseOf(s), FuzzOf(h).value) && Has(FuzzOf(h).value.corpusStage) && !Staged(CaseOf(s), FuzzOf(h).value))
    ensures V.ValidateRuntimePrefix(CaseOf(s), Final(s, h)).None?
  {
    hide Told, Split, V.AllSlots, Stretch, Tolerated, Clock, V.StructureSound, V.FuzzSlots, FuzzPlaced, Staged, V.FuzzSound, NotesReadable;
    var c, ev := CaseOf(s), Final(s, h);
    FuzzPast(s, h);
    if FuzzOf(h).None? {
      NoPlaces(s, h);
      FuzzSplit(s, h, 0);
      CleanRefused(c, ev, Stretch(c, h, 0, 6), FuzzPlacesOf(s, h), [], 0);
    } else {
      FuzzStructure(s, h);
      UnstagedUnsound(c, FuzzOf(h).value);
      StructureNeeded(c, ev);
    }
  }

  lemma {:induction false} NoPlaces(s: Session, h: History)
    requires FuzzOf(h).None?
    ensures FilledTo(FuzzPlacesOf(s, h), 0)
  {
    var n := |s.plan.fuzz.corpus|;
    FuzzPlaceAt(None, n, 0);
    forall j | 0 <= j < n + 3 ensures FuzzPlacesOf(s, h)[j].row.None? {
      FuzzPlaceAt(None, n, j);
    }
  }

  lemma {:induction false} FuzzStop(s: Session, h: History)
    requires FuzzHalted(s, h) && h.fuzz.value.halt.stop != CampaignUnsuccessful
    ensures Agreed(s, Reached(s, h))
  {
    hide Told, Agreed, FuzzReport, Timely, Clock, Corroborated, V.ValidateRuntimePrefix, FuzzPlaced, FuzzFailedAt, FuzzLate, Staged;
    var c := CaseOf(s);
    StoppedEarly(s, h);
    FuzzSays(c, h);
    FuzzEndings(c, Clock(h, 6), h.fuzz.value);
    match h.fuzz.value.halt.stop
    case NativeFailure(op) =>
      FuzzNativeEnd(s, h, op);
    case BadContent(_) =>
      FuzzRefused(s, h);
      Refused(s, Reached(s, h));
    case OutOfTime(op) =>
      if op == FuzzStage {
        FuzzRefused(s, h);
        Refused(s, Reached(s, h));
      } else {
        FuzzLateEnd(s, h, op);
      }
  }

  lemma {:induction false} FuzzEndings(c: V.Case, t0: nat, f: FuzzOutcome)
    requires FuzzReport(c, t0, f) && f.halt.Raised? && f.halt.stop != CampaignUnsuccessful
    ensures f.part.Some? ==> FuzzPlaced(c, f.part.value)
    ensures match f.halt.stop
            case NativeFailure(op) => f.part.Some? && f.halt.code == FuzzFailed && FuzzFailedAt(c, f.part.value, op)
            case BadContent(_) => f.part.Some? && Has(f.part.value.corpusStage) && !Staged(c, f.part.value) && !Corroborated(f.halt)
            case OutOfTime(op) =>
              && f.halt.code == DeadlineReached && f.now >= DEADLINE
              && (op == FuzzStage ==> f.part.None? && !Corroborated(f.halt))
              && (op != FuzzStage ==> f.part.Some? && FuzzLate(c, f.part.value)
                                      && (op.FuzzConfigure? || op.FuzzBuild? || op.FuzzReplay? || op.FuzzCampaign?))
            case _ => false
  {
    hide FuzzPlaced, FuzzFailedAt, FuzzLate, Staged;
  }
}
