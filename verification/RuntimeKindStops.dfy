/** Collections that stopped inside a sanitizer. */
module RuntimeKindStops {
  import opened Results
  import opened RuntimeTypes
  import opened RuntimeProducer
  import V = RuntimeValidator
  import opened RuntimeSlots
  import opened RuntimeReports
  import opened RuntimeSegments
  import opened RuntimePrefix
  import opened RuntimeHistory
  import opened RuntimeOrder
  import opened RuntimeAgreement
  import opened RuntimeStops

  ghost predicate KindHalted(s: Session, h: History, k: nat) {
    Stopped(s, h) && |h.rs| == k + 1 && |h.ks| == k + 1 && h.fuzz.None? && h.ks[k].halt.Raised?
  }

  function Places(h: History, k: nat): seq<Slot>
    requires k < |h.ks| && k < 2
  {
    V.KindSlots(KINDS[k], Some(h.ks[k].part), h.ks[k].diagnostic)
  }

  lemma {:induction false} KindSplit(s: Session, h: History, k: nat, m: nat)
    requires KindHalted(s, h, k)
    requires k < 2 && FilledTo(Places(h, k), m)
    ensures var c, i := CaseOf(s), 2 * k + 2;
            i <= 5 && Split(c, Final(s, h), Stretch(c, h, 0, i), Places(h, k), Stretch(c, h, i + 1, 7), m)
  {
    hide Told, Split, V.AllSlots, Tolerated, Stretch, V.KindSlots, RowsIn;
    Fits(CaseOf(s), h);
    RanBefore(s, h);
    assert Segment(CaseOf(s), h, 2 * k + 2) == Places(h, k);
    Divided(s, h, 2 * k + 2, m);
  }

  lemma {:induction false} KindPast(s: Session, h: History, k: nat)
    requires KindHalted(s, h, k)
    ensures PastFunctional(Final(s, h))
  {
    hide Told, Clock;
  }

  /** The checks left for a sanitizer that stopped: its own, and readable diagnostics. */
  lemma {:induction false} KindStructure(s: Session, h: History, k: nat)
    requires KindHalted(s, h, k)
    ensures V.StructureSound(CaseOf(s), Final(s, h)) <==>
              V.KindConsistent(CaseOf(s), h.ks[k].part, h.ks[k].diagnostic) && NotesReadable(CaseOf(s), Final(s, h).diagnostics)
  {
    hide Told, NotesReadable, V.KindConsistent, V.StructureSound, RowsSound;
    var c := CaseOf(s);
    StructureHere(s, h);
    Fits(c, h);
    RowsHere(c, h);
    KindsRan(c, h);
    EarlierRows(c, h);
    KindsBut(c, h, k);
  }

  lemma {:induction false} KindsBut(c: V.Case, h: History, k: nat)
    requires Told(c, h) && c.schema.V4? && |h.ks| == k + 1
    ensures KindsConsistent(c, h.ks) <==> V.KindConsistent(c, h.ks[k].part, h.ks[k].diagnostic)
  {
    hide Told, V.KindConsistent;
    KindsRan(c, h);
    forall i | 0 <= i < k ensures V.KindConsistent(c, h.ks[i].part, h.ks[i].diagnostic) {
      RunningSucceeds(c, h, i);
    }
  }

  // ---------- refused ends ----------

  lemma {:induction false} KindUnsound(s: Session, h: History, k: nat)
    requires KindHalted(s, h, k) && !V.KindConsistent(CaseOf(s), h.ks[k].part, h.ks[k].diagnostic)
    ensures V.ValidateRuntimePrefix(CaseOf(s), Final(s, h)).None?
  {
    hide Told, NotesReadable, V.KindConsistent, V.StructureSound, Final;
    KindStructure(s, h, k);
    KindPast(s, h, k);
    StructureNeeded(CaseOf(s), Final(s, h));
  }

  lemma {:induction false} KindClean(s: Session, h: History, k: nat, m: nat)
    requires KindHalted(s, h, k)
    requires k < 2 && FilledTo(Places(h, k), m) && forall i :: 0 <= i < m ==> Good(Places(h, k)[i].row.value)
    ensures V.ValidateRuntimePrefix(CaseOf(s), Final(s, h)).None?
  {
    hide Told, Split, V.AllSlots, Stretch, Tolerated, Clock, V.StructureSound, V.KindSlots;
    var c, i := CaseOf(s), 2 * k + 2;
    KindSplit(s, h, k, m);
    KindPast(s, h, k);
    CleanRefused(c, Final(s, h), Stretch(c, h, 0, i), Places(h, k), Stretch(c, h, i + 1, 7), m);
  }

  /** Rows recorded without a failure when the stage was cut short after m of them. */
  ghost predicate CleanTo(part: SanitizerPart, d: Option<Diagnostic>, m: nat) {
    && d.None? && m <= 5
    && (if m > 0 then Has(part.configure) else part.configure.None?)
    && (if m > 1 then Has(part.build) else part.build.None?)
    && (if m > 2 then Has(part.discovery) else part.discovery.None?)
    && (if m > 3 then Has(part.tests) else part.tests.None?)
    && (if m > 4 then Has(part.junitRead) else part.junitRead.None?)
  }

  lemma {:induction false} CleanPlaces(kind: Kind, part: SanitizerPart, d: Option<Diagnostic>, m: nat)
    requires CleanTo(part, d, m)
    ensures var mid := V.KindSlots(kind, Some(part), d);
            FilledTo(mid, m) && forall i :: 0 <= i < m ==> Good(mid[i].row.value)
  {
    KindPlaces(kind, part, d);
  }

  lemma {:induction false} KindCleanTo(s: Session, h: History, k: nat, m: nat)
    requires KindHalted(s, h, k) && CleanTo(h.ks[k].part, h.ks[k].diagnostic, m)
    ensures V.ValidateRuntimePrefix(CaseOf(s), Final(s, h)).None?
  {
    hide Told, V.KindSlots, Final, Timely, Clock;
    Fits(CaseOf(s), h);
    CleanPlaces(KINDS[k], h.ks[k].part, h.ks[k].diagnostic, m);
    KindClean(s, h, k, m);
  }

  /** Failed tests whose JUnit read never happened: the error is not the expected one. */
  ghost predicate UnreadAfterTests(kind: Kind, part: SanitizerPart, d: Option<Diagnostic>) {
    StoppedRows(kind, part, d, Tests(kind)) && part.junitRead.None?
  }

  lemma {:induction false} UnreadRefused(s: Session, h: History, k: nat)
    requires KindHalted(s, h, k) && k < 2 && UnreadAfterTests(KINDS[k], h.ks[k].part, h.ks[k].diagnostic)
    requires h.ks[k].part.kind == KINDS[k]
    requires h.ks[k].halt.code == DeadlineReached
    ensures V.ValidateRuntimePrefix(CaseOf(s), Final(s, h)).None?
  {
    hide Told, Split, V.AllSlots, Stretch, Tolerated, Clock, V.StructureSound, V.KindSlots, StoppedRows;
    var c, i, kind := CaseOf(s), 2 * k + 2, KINDS[k];
    KindStopped(kind, h.ks[k].part, h.ks[k].diagnostic, Tests(kind));
    KindSplit(s, h, k, 6);
    KindPast(s, h, k);
    NoKindTolerated(s, h, k, Tests(kind));
    NativeRefused(c, Final(s, h), Stretch(c, h, 0, i), Places(h, k), Stretch(c, h, i + 1, 7), 6, 3);
  }

  lemma {:induction false} NoKindTolerated(s: Session, h: History, k: nat, op: OpId)
    requires KindHalted(s, h, k) && k < 2
    requires !op.TestLog? && !op.Resources?
    requires op.Tests? ==> op.kind == KINDS[k]
    requires !V.Continuable(CaseOf(s), h.ks[k].part)
    ensures op !in Tolerated(CaseOf(s), Final(s, h))
  {
    hide Told, Tolerated, V.Continuable;
    var c, ev := CaseOf(s), Final(s, h);
    forall i | 0 <= i < |ev.sanitizers| && ev.sanitizers[i].kind == KINDS[k] ensures !V.Continuable(c, ev.sanitizers[i]) {
      assert ev.sanitizers[i] == h.ks[i].part;
      RunningKind(c, h, i);
      KindNamed(c, KINDS[i], Clock(h, 2 * i + 2), h.ks[i]);
    }
    NotTolerated(c, ev, op);
  }

  lemma {:induction false} KindNamed(c: V.Case, kind: Kind, t0: nat, k: KindOutcome)
    requires KindReport(c, kind, t0, k)
    ensures k.part.kind == kind
  {
    hide KindEnding, Faithful;
  }

  // ---------- the accepted end ----------

  lemma {:induction false} NativeEnd(s: Session, h: History, k: nat, op: OpId)
    requires KindHalted(s, h, k) && k < 2 && h.ks[k].halt.stop == NativeFailure(op)
    requires KindReport(CaseOf(s), KINDS[k], Clock(h, 2 * k + 2), h.ks[k])
    ensures Agreed(s, Reached(s, h))
  {
    hide Told, KindReport, Agreed, V.StructureSound, V.KindConsistent, Clock, Sound, V.AllSlots, V.LateVerdict, V.ValidateRuntimePrefix;
    var c, ev, kind := CaseOf(s), Final(s, h), KINDS[k];
    StoppedEarly(s, h);
    FailedRows(c, kind, Clock(h, 2 * k + 2), h.ks[k], op);
    KindPast(s, h, k);
    KindStructure(s, h, k);
    if NotesReadable(c, ev.diagnostics) {
      SoundHere(s, h);
      NativeJudged(s, h, k, op);
      LateVerdictSays(c, ev, V.AllSlots(c, ev), Some(op));
      Accepted(s, Reached(s, h), V.LateVerdict(c, ev, V.AllSlots(c, ev), Some(op)));
    } else {
      StructureNeeded(c, ev);
      Unreadable(s, Reached(s, h));
    }
  }

  ghost predicate FailureCode(op: OpId, part: SanitizerPart, code: ErrorCode) {
    match op
    case Configure(_) => code == SanitizerFailed
    case Build(_) => code == SanitizerFailed
    case Discover(_) => code == SanitizerFailed
    case Tests(_) => part.junitRead.Some? && code == (if Good(part.junitRead.value) then SanitizerFailed else ArtifactUnavailable)
    case Junit(_) => code == ArtifactUnavailable
    case _ => false
  }

  lemma {:induction false} FailedRows(c: V.Case, kind: Kind, t0: nat, k: KindOutcome, op: OpId)
    requires KindReport(c, kind, t0, k) && k.halt.Raised? && k.halt.stop == NativeFailure(op) && c.schema.V4?
    ensures StoppedRows(kind, k.part, k.diagnostic, op) && FailureCode(op, k.part, k.halt.code)
    ensures !V.Continuable(c, k.part) && V.KindConsistent(c, k.part, k.diagnostic)
    ensures !k.halt.code.Unmatched? && k.part.kind == kind
  {
    hide V.Continuable, V.JunitSound, V.KindNames, KindPlaced;
    KindNamed(c, kind, t0, k);
  }

  lemma {:induction false} NativeJudged(s: Session, h: History, k: nat, op: OpId)
    requires KindHalted(s, h, k) && k < 2 && Sound(CaseOf(s), Final(s, h), Clock(h, 7))
    requires StoppedRows(KINDS[k], h.ks[k].part, h.ks[k].diagnostic, op) && FailureCode(op, h.ks[k].part, h.ks[k].halt.code)
    requires !V.Continuable(CaseOf(s), h.ks[k].part)
    ensures var c, ev := CaseOf(s), Final(s, h);
            V.ValidateRuntimePrefix(c, ev) == Some(V.LateVerdict(c, ev, V.AllSlots(c, ev), Some(op)))
  {
    hide Told, Split, V.AllSlots, Stretch, Tolerated, Clock, V.StructureSound, V.KindSlots, Sound, StoppedRows, V.LateVerdict,
         V.ValidateRuntimePrefix, V.Continuable, FailureCode, V.ExpectedError, V.SuffixAllowed;
    var c, ev, i, kind := CaseOf(s), Final(s, h), 2 * k + 2, KINDS[k];
    var part, d := h.ks[k].part, h.ks[k].diagnostic;
    var f, m := StopIndex(op), StopEnd(op, part.junitRead);
    KindStopped(kind, part, d, op);
    StopKind(kind, part, d, op);
    KindSplit(s, h, k, m);
    NoKindTolerated(s, h, k, op);
    KindSuffixAllowed(c, kind, part, d, op);
    KindErrorExpected(s, h, k, op, m);
    NativeAccepted(c, ev, Stretch(c, h, 0, i), Places(h, k), Stretch(c, h, i + 1, 7), m, f, Clock(h, 7));
  }

  lemma {:induction false} StopKind(kind: Kind, part: SanitizerPart, d: Option<Diagnostic>, op: OpId)
    requires StoppedRows(kind, part, d, op)
    ensures !op.TestLog? && !op.Resources? && (op.Tests? ==> op.kind == kind)
  {}

  lemma {:induction false} KindSuffixAllowed(c: V.Case, kind: Kind, part: SanitizerPart, d: Option<Diagnostic>, op: OpId)
    requires StoppedRows(kind, part, d, op) && c.schema.V4? && c.plan.sanitizers.kinds == KINDS && kind in KINDS
    ensures var mid, f, m := V.KindSlots(kind, Some(part), d), StopIndex(op), StopEnd(op, part.junitRead);
            f < m <= |mid| && V.SuffixAllowed(c.schema, c.plan.sanitizers.kinds, op, V.Ids(mid)[f + 1..m])
  {
    hide V.KindSlots;
    KindSuffix(kind, part, d, op);
  }

  lemma {:induction false} KindErrorExpected(s: Session, h: History, k: nat, op: OpId, m: nat)
    requires KindHalted(s, h, k) && k < 2 && StoppedRows(KINDS[k], h.ks[k].part, h.ks[k].diagnostic, op)
    requires FailureCode(op, h.ks[k].part, h.ks[k].halt.code)
    requires var c, i := CaseOf(s), 2 * k + 2;
             Split(c, Final(s, h), Stretch(c, h, 0, i), Places(h, k), Stretch(c, h, i + 1, 7), m)
    ensures var c, ev := CaseOf(s), Final(s, h);
            ev.error == Some(V.ExpectedError(V.AllSlots(c, ev), c.plan.sanitizers.kinds, op))
  {
    hide Told, Split, V.AllSlots, Stretch, Tolerated, Clock, V.KindSlots, StoppedRows;
    var c, ev, i, kind := CaseOf(s), Final(s, h), 2 * k + 2, KINDS[k];
    var part, d := h.ks[k].part, h.ks[k].diagnostic;
    StopKind(kind, part, d, op);
    if op.Tests? {
      KindSuffix(kind, part, d, op);
      SplitFilled(c, ev, Stretch(c, h, 0, i), Places(h, k), Stretch(c, h, i + 1, 7), m);
      TestsStopIs(kind, part, d, op);
      var slots := V.AllSlots(c, ev);
      var j := |Stretch(c, h, 0, i)| + 6;
      assert Places(h, k)[6] == V.Slot(Junit(kind), part.junitRead);
      SplitSize(c, ev, Stretch(c, h, 0, i), Places(h, k), Stretch(c, h, i + 1, 7), m);
      assert slots[j] == V.Slot(Junit(kind), part.junitRead);
      JunitRecorded(slots, j);
    }
  }

  lemma {:induction false} TestsStopIs(kind: Kind, part: SanitizerPart, d: Option<Diagnostic>, op: OpId)
    requires StoppedRows(kind, part, d, op) && op.Tests?
    ensures op == Tests(kind)
  {}

  lemma {:induction false} SplitSize(c: V.Case, ev: Evidence, done: seq<Slot>, mid: seq<Slot>, rest: seq<Slot>, m: nat)
    requires Split(c, ev, done, mid, rest, m)
    ensures |V.AllSlots(c, ev)| == |done| + |mid| + |rest|
  {
    hide V.AllSlots, Tolerated;
  }

  lemma {:induction false} JunitRecorded(slots: seq<Slot>, j: nat)
    requires DistinctIds(slots) && j < |slots| && slots[j].row.Some?
    ensures slots[j].id in V.RecordedIds(slots)
    ensures slots[j].id in V.FailedIds(slots) <==> !Good(slots[j].row.value)
  {
    FailedAt(slots, j);
  }

  // ---------- all ends of a sanitizer ----------

  lemma {:induction false} KindStop(s: Session, h: History)
    requires Stopped(s, h) && |h.rs| == |h.ks| && h.ks != [] && h.fuzz.None?
    ensures Agreed(s, Reached(s, h))
  {
    hide Told, Agreed, KindReport, Timely, Clock, Corroborated, V.ValidateRuntimePrefix;
    var c, k := CaseOf(s), |h.ks| - 1;
    Fits(c, h);
    StoppedEarly(s, h);
    RunningKind(c, h, k);
    if h.ks[k].halt.stop.NativeFailure? {
      NativeEnd(s, h, k, h.ks[k].halt.stop.op);
    } else {
      KindRefused(s, h, k);
      NotCorroborated(c, KINDS[k], Clock(h, 2 * k + 2), h.ks[k]);
      Refused(s, Reached(s, h));
    }
  }

  lemma {:induction false} NotCorroborated(c: V.Case, kind: Kind, t0: nat, k: KindOutcome)
    requires KindReport(c, kind, t0, k) && k.halt.Raised? && !k.halt.stop.NativeFailure?
    ensures !Corroborated(k.halt)
  {
    hide KindPlaced, V.KindConsistent, V.JunitSound, V.KindSucceeded, V.Continuable, V.KindNames;
  }

  lemma {:induction false} KindRefused(s: Session, h: History, k: nat)
    requires KindHalted(s, h, k) && k < 2 && !h.ks[k].halt.stop.NativeFailure?
    requires KindReport(CaseOf(s), KINDS[k], Clock(h, 2 * k + 2), h.ks[k])
    ensures V.ValidateRuntimePrefix(CaseOf(s), Final(s, h)).None?
  {
    hide Told, KindReport, Timely, Clock, V.ValidateRuntimePrefix, V.KindConsistent, CleanTo, UnreadAfterTests;
    var c, kind, part, d := CaseOf(s), KINDS[k], h.ks[k].part, h.ks[k].diagnostic;
    KindNamed(c, kind, Clock(h, 2 * k + 2), h.ks[k]);
    RefusedWhy(c, kind, Clock(h, 2 * k + 2), h.ks[k]);
    if !V.KindConsistent(c, part, d) {
      KindUnsound(s, h, k);
    } else if UnreadAfterTests(kind, part, d) && h.ks[k].halt.code == DeadlineReached {
      UnreadRefused(s, h, k);
    } else {
      var m :| 0 <= m <= 5 && CleanTo(part, d, m);
      KindCleanTo(s, h, k, m);
    }
  }

  /** A stage that did not fail natively left no usable record, or nothing that failed,
      or a deadline where a missing file would have been expected. */
  lemma {:induction false} RefusedWhy(c: V.Case, kind: Kind, t0: nat, k: KindOutcome)
    requires KindReport(c, kind, t0, k) && k.halt.Raised? && !k.halt.stop.NativeFailure? && c.schema.V4?
    ensures !V.KindConsistent(c, k.part, k.diagnostic)
            || (UnreadAfterTests(kind, k.part, k.diagnostic) && k.halt.code == DeadlineReached)
            || (exists m: nat :: 0 <= m <= 5 && CleanTo(k.part, k.diagnostic, m))
  {
    hide KindPlaced, CleanTo, UnreadAfterTests, V.JunitSound, V.KindSucceeded, V.Continuable, V.KindNames, V.KindConsistent, KindLate;
    match k.halt.stop
    case OutOfTime(op) =>
      LateWhy(c, kind, k, op);
    case Mismatch(_) =>
      MismatchWhy(k.part, k.diagnostic);
    case BadContent(_) =>
  }

  lemma {:induction false} MismatchWhy(part: SanitizerPart, d: Option<Diagnostic>)
    requires Has(part.configure) && Has(part.build) && Has(part.discovery) && Has(part.tests) && d.None? && Has(part.junitRead)
    ensures CleanTo(part, d, 5)
  {}

  lemma {:induction false} LateWhy(c: V.Case, kind: Kind, k: KindOutcome, op: OpId)
    requires KindLate(c, kind, k, op) && c.schema.V4?
    ensures !V.KindConsistent(c, k.part, k.diagnostic) || UnreadAfterTests(kind, k.part, k.diagnostic)
            || exists m: nat :: 0 <= m <= 5 && CleanTo(k.part, k.diagnostic, m)
  {
    hide V.KindNames, V.JunitSound;
    var part, d := k.part, k.diagnostic;
    match op
    case Build(_) => assert CleanTo(part, d, 1);
    case Discover(_) => assert CleanTo(part, d, 2);
    case Tests(_) => assert CleanTo(part, d, 3);
    case Junit(_) => assert Has(part.tests) ==> CleanTo(part, d, 4);
    case Configure(_) =>
    case TestLog(_) =>
    case Resources(_) =>
  }
}
