/** The full validator on collections that reached the campaign, and the agreement
    theorem over every collection of a released plan. */
module RuntimeFinish {
  import opened Results
  import opened JunitResults
  import opened RuntimeTypes
  import opened RuntimeProducer
  import V = RuntimeValidator
  import opened RuntimeSlots
  import opened RuntimeReports
  import opened RuntimeSegments
  import opened RuntimePrefix
  import opened RuntimeHistory
  import opened RuntimeOrder
  import opened RuntimeAgreement
  import opened RuntimeStops
  import RuntimeKindStops
  import opened RuntimeFuzzStops
  import opened RuntimeCampaign

  /** The campaign ran. */
  ghost predicate Campaigned(s: Session, h: History) {
    && Beyond(s, h) && h.fuzz.Some? && Timely(s, Reached(s, h))
    && (h.fuzz.value.halt.Running? || h.fuzz.value.halt.stop == CampaignUnsuccessful)
  }

  // ---------- the three kinds of stage ----------

  lemma {:induction false} CampaignSays(c: V.Case, t0: nat, f: FuzzOutcome)
    requires FuzzReport(c, t0, f) && (f.halt.Running? || f.halt.stop == CampaignUnsuccessful)
    ensures f.part.Some? && FuzzPlaced(c, f.part.value) && CampaignRun(c, f.part.value) && FullFuzz(c, f.part.value)
    ensures FuzzMs(f.part.value) * MS <= f.now - t0
    ensures f.halt.Running? <==> f.part.value.metrics.Some?
    ensures f.halt.Raised? ==> f.halt.code == FuzzFailed || f.halt.code == FuzzMetricsInvalid
  {
    hide Faithful, Staged;
  }

  lemma {:induction false} FinishedFull(c: V.Case, kind: Kind, t0: nat, k: KindOutcome)
    requires KindReport(c, kind, t0, k) && k.halt.Running? && c.schema.V4? && (kind == Address || kind == Undefined)
    ensures FullKind(c, kind, k.part, k.diagnostic) && KindMs(k.part, k.diagnostic) * MS <= k.now - t0
    ensures KindFinished(c, k)
  {
    hide Faithful, V.JunitSound, V.KindSucceeded, V.Continuable, V.KindNames;
  }

  lemma {:induction false} ReclaimedFull(c: V.Case, phase: Phase, t0: nat, r: ReclaimOutcome)
    requires ReclaimReport(c, phase, t0, r) && r.halt.Running?
    ensures r.row.Some? && Faithful(c, r.row.value) && r.row.value.id == Reclaim(phase) && Good(r.row.value)
    ensures r.row.value.output.Some? && ReclaimedWell(c.w, r.row.value.output.value, phase)
    ensures r.row.value.durationMs * MS <= r.now - t0
  {
    hide Faithful, ReclaimedWell;
  }

  lemma {:induction false} PassedFull(c: V.Case, f: FunctionalOutcome)
    requires FunctionalReport(c, f) && f.halt.Running?
    ensures FunctionalPlaced(c, f.part) && V.FunctionalPassed(c, f.part) && FunctionalMs(f.part) * MS <= f.now
    ensures f.part.setup.Some? && f.part.operation.Some? && f.part.resultsRead.Some?
  {
    hide FunctionalPlaced;
    FunctionalPassedWhen(c, f);
  }

  // ---------- the record as a whole ----------

  lemma {:induction false} KindHere(c: V.Case, h: History, k: nat)
    requires Told(c, h) && h.fuzz.Some? && c.schema.V4? && k < 2
    ensures |h.ks| == 2 && FullKind(c, KINDS[k], h.ks[k].part, h.ks[k].diagnostic) && KindFinished(c, h.ks[k])
    ensures KindMs(h.ks[k].part, h.ks[k].diagnostic) * MS <= Clock(h, 2 * k + 3) - Clock(h, 2 * k + 2)
  {
    hide Told, KindReport, FullKind, KindFinished;
    AllRan(c, h);
    RunningKind(c, h, k);
    FinishedFull(c, KINDS[k], Clock(h, 2 * k + 2), h.ks[k]);
  }

  lemma {:induction false} RowHere(c: V.Case, h: History, k: nat)
    requires Told(c, h) && h.fuzz.Some? && k < 3
    ensures |h.rs| == 3 && h.rs[k].row.Some? && |RowsIn(h.rs)| == 3 && RowsIn(h.rs)[k] == h.rs[k].row.value
    ensures Faithful(c, RowsIn(h.rs)[k]) && RowsIn(h.rs)[k].id == Reclaim(PHASES[k]) && Good(RowsIn(h.rs)[k])
    ensures RowsIn(h.rs)[k].output.Some? && ReclaimedWell(c.w, RowsIn(h.rs)[k].output.value, PHASES[k])
    ensures RowsIn(h.rs)[k].durationMs * MS <= Clock(h, 2 * k + 2) - Clock(h, 2 * k + 1)
  {
    hide Told, ReclaimReport, Clock, Faithful, ReclaimedWell;
    AllRan(c, h);
    RowsHere(c, h);
    ReclaimSays(c, h, 2);
    ReclaimedFull(c, PHASES[2], Clock(h, 5), h.rs[2]);
    ReclaimSays(c, h, k);
    ReclaimedFull(c, PHASES[k], Clock(h, 2 * k + 1), h.rs[k]);
  }

  lemma {:induction false} FuzzHere(s: Session, h: History)
    requires Campaigned(s, h)
    ensures FuzzOf(h).Some? && CampaignRun(CaseOf(s), FuzzOf(h).value) && FullFuzz(CaseOf(s), FuzzOf(h).value)
    ensures FuzzMs(FuzzOf(h).value) * MS <= Clock(h, 7) - Clock(h, 6)
    ensures h.fuzz.value.halt.Running? <==> FuzzOf(h).value.metrics.Some?
    ensures h.fuzz.value.halt.Raised? ==> h.fuzz.value.halt.code == FuzzFailed || h.fuzz.value.halt.code == FuzzMetricsInvalid
  {
    hide Told, Clock, CampaignRun, FullFuzz, FuzzReport, Timely;
    FuzzSays(CaseOf(s), h);
    CampaignSays(CaseOf(s), Clock(h, 6), h.fuzz.value);
  }

  lemma {:induction false} FunctionalHere(s: Session, h: History)
    requires Beyond(s, h)
    ensures var f, c := h.f.part, CaseOf(s);
            FunctionalPlaced(c, f) && V.FunctionalPassed(c, f) && FunctionalMs(f) * MS <= Clock(h, 1)
            && f.setup.Some? && f.operation.Some? && f.resultsRead.Some?
  {
    hide Told, FunctionalReport, FunctionalPlaced, V.FunctionalPassed;
    Says(CaseOf(s), h);
    FunctionalRan(CaseOf(s), h);
    PassedFull(CaseOf(s), h.f);
  }

  lemma {:induction false} FunctionalRan(c: V.Case, h: History)
    requires Told(c, h) && h.rs != []
    ensures h.f.halt.Running?
  {
    hide Reported;
  }

  lemma {:induction false} CompleteHere(s: Session, h: History)
    requires Campaigned(s, h)
    ensures FuzzOf(h).Some? && |h.ks| == 2 && |RowsIn(h.rs)| == 3
    ensures Complete(CaseOf(s), h.f.part, h.ks, FuzzOf(h).value, RowsIn(h.rs))
    ensures Total(h.f.part, h.ks, FuzzOf(h).value, RowsIn(h.rs)) * MS <= Clock(h, 7)
  {
    hide Told, Faithful, FullKind, FullFuzz, CampaignRun, Clock, FunctionalPlaced, V.FunctionalPassed, Timely, ReclaimedWell,
         KindFinished, RowsIn, KindMs, FuzzMs, FunctionalMs;
    var c := CaseOf(s);
    FunctionalHere(s, h);
    KindHere(c, h, 0);
    KindHere(c, h, 1);
    RowHere(c, h, 0);
    RowHere(c, h, 1);
    RowHere(c, h, 2);
    FuzzHere(s, h);
  }

  // ---------- what the full validator reads ----------

  lemma {:induction false} KindsEntriesAre(c: V.Case, parts: seq<SanitizerPart>, notes: seq<Diagnostic>)
    requires |parts| == 2 && V.Retained(parts[0]) && V.Retained(parts[1])
    ensures V.KindsEntries(c, parts, notes)
         == V.KindEntries(c, parts[0], V.DiagnosticFor(notes, parts[0].kind)) + V.KindEntries(c, parts[1], V.DiagnosticFor(notes, parts[1].kind))
  {
    hide V.KindEntries, V.Retained, V.DiagnosticFor;
    var tail := parts[1..];
    assert tail == [parts[1]] && tail[1..] == [];
    assert V.KindsEntries(c, tail[1..], notes) == [];
    assert V.KindsEntries(c, tail, notes) == V.KindEntries(c, parts[1], V.DiagnosticFor(notes, parts[1].kind));
  }

  lemma {:induction false} EntriesAre(c: V.Case, ev: Evidence, f: FunctionalPart, ks: seq<KindOutcome>, fuzz: FuzzPart)
    requires V.FunctionalRetained(c, ev) && V.KindsRead(c, ev) && V.FuzzRead(c, ev) && c.schema.V4?
    requires ev.functional == Some(f) && ev.fuzz == Some(fuzz) && |ks| == 2 && ev.sanitizers == PartsOf(ks)
    requires V.DiagnosticFor(ev.diagnostics, ks[0].part.kind) == ks[0].diagnostic
    requires V.DiagnosticFor(ev.diagnostics, ks[1].part.kind) == ks[1].diagnostic
    requires V.Retained(ks[0].part) && V.Retained(ks[1].part)
    requires f.setup.Some? && f.operation.Some? && f.resultsRead.Some?
    requires fuzz.corpusStage.Some? && fuzz.configure.Some? && fuzz.build.Some? && fuzz.campaign.Some?
    requires forall i :: 0 <= i < |fuzz.replays| ==> fuzz.replays[i].Some?
    ensures V.AllEntries(c, ev) == Blocks(c, f, ks, fuzz, ev.reclamations)
  {
    hide V.KindRead, V.KindEntries, V.FuzzEntries, V.Entries, V.KindsRead, V.FunctionalRetained, V.FuzzRead, V.KindsEntries, V.Retained, V.DiagnosticFor;
    KindsEntriesAre(c, ev.sanitizers, ev.diagnostics);
  }

  lemma {:induction false} FunctionalRead(c: V.Case, ev: Evidence, f: FunctionalPart)
    requires ev.functional == Some(f) && V.FunctionalPassed(c, f)
    ensures V.FunctionalRetained(c, ev)
    ensures Has(f.setup) && Has(f.operation) && Has(f.resultsRead) && f.results.Some? && V.AllPassed(f.results.value, c.plan.functional.selected)
  {}

  /** A finished sanitizer passes the stricter rules iff its diagnostics can be read. */
  lemma {:induction false} KindPasses(c: V.Case, kind: Kind, k: KindOutcome)
    requires c.schema.V4? && FullKind(c, kind, k.part, k.diagnostic) && KindFinished(c, k)
    ensures V.KindRead(c, k.part)
    ensures V.KindFinished(c, k.part, k.diagnostic) <==> V.Readable(c, k.diagnostic)
  {
    hide Faithful;
    NamesListed(c, kind, k.part, k.diagnostic);
    JunitRead(c, k);
    if k.completed {
      CompletedPasses(c, kind, k);
    } else {
      SucceededPasses(c, kind, k);
    }
  }

  lemma {:induction false} NamesListed(c: V.Case, kind: Kind, part: SanitizerPart, d: Option<Diagnostic>)
    requires KindPlaced(c, kind, part, d) && Prepared(c, part)
    ensures V.ListedNames(c, part) == V.KindNames(c, part) && V.ListedNames(c, part).Some?
  {
    assert V.SpecFor(c, Discover(kind)).limit == 4 * MIB;
  }

  lemma {:induction false} JunitRead(c: V.Case, k: KindOutcome)
    requires KindFinished(c, k) && V.ListedNames(c, k.part) == V.KindNames(c, k.part)
    ensures V.KindRead(c, k.part) && k.part.results.value.required == V.ListedNames(c, k.part).value
  {
    hide V.Continuable, V.KindSucceeded;
  }

  lemma {:induction false} CompletedPasses(c: V.Case, kind: Kind, k: KindOutcome)
    requires c.schema.V4? && FullKind(c, kind, k.part, k.diagnostic) && KindFinished(c, k) && k.completed
    requires V.KindRead(c, k.part) && k.part.results.value.required == V.ListedNames(c, k.part).value
    ensures V.KindFinished(c, k.part, k.diagnostic) <==> V.Readable(c, k.diagnostic)
  {
    hide V.KindRead, V.ListedNames, V.JunitSound, V.KindSucceeded, Faithful, DiagnosticsReadable, CompletedFailure, V.KindNames;
    CompletedMeans(c, k.part);
    NamedNotes(c, kind, k.part, k.diagnostic.value);
  }

  lemma {:induction false} CompletedMeans(c: V.Case, part: SanitizerPart)
    requires V.Continuable(c, part)
    ensures var p := part.results.value;
            p.executed == p.required && p.skipped == [] && TestsCompleted(c.w, part.tests.value, p, FileBytes(c.w, part.junitRead.value.output.value, 4 * MIB).value)
  {}

  lemma {:induction false} NamedNotes(c: V.Case, kind: Kind, part: SanitizerPart, d: Diagnostic)
    requires FullKind(c, kind, part, Some(d))
    ensures d.logRead.value.id == TestLog(part.kind) && d.resources.value.id == Resources(part.kind)
  {
    hide Faithful;
  }

  lemma {:induction false} SucceededPasses(c: V.Case, kind: Kind, k: KindOutcome)
    requires c.schema.V4? && FullKind(c, kind, k.part, k.diagnostic) && KindFinished(c, k) && !k.completed
    requires V.KindRead(c, k.part) && k.part.results.value.required == V.ListedNames(c, k.part).value
    ensures V.KindFinished(c, k.part, k.diagnostic) && V.Readable(c, k.diagnostic)
  {
    hide V.KindRead, V.ListedNames, V.JunitSound, Faithful, V.KindNames, V.Continuable;
  }

  lemma {:induction false} KindsReadHere(s: Session, h: History)
    requires Campaigned(s, h)
    ensures V.KindsRead(CaseOf(s), Final(s, h)) <==> NotesReadable(CaseOf(s), Final(s, h).diagnostics)
  {
    hide Told, Faithful, FullKind, Clock, V.FunctionalPassed, Timely, V.KindRead, V.KindFinished, KindFinished, RowsIn, KindPlaced, V.Readable, NotesReadable;
    var c, ev := CaseOf(s), Final(s, h);
    LaidOut(s, h);
    NotesFound(c, ev, h.f.part, RowsIn(h.rs), h.ks);
    KindHere(c, h, 0);
    KindHere(c, h, 1);
    KindPasses(c, Address, h.ks[0]);
    KindPasses(c, Undefined, h.ks[1]);
    NotesEach(c, h.ks);
    assert ev.sanitizers == [h.ks[0].part, h.ks[1].part];
    assert ev.sanitizers[0].kind == Address && ev.sanitizers[1].kind == Undefined;
    assert V.KindsRead(c, ev) <==> V.KindFinished(c, h.ks[0].part, h.ks[0].diagnostic) && V.KindFinished(c, h.ks[1].part, h.ks[1].diagnostic);
  }

  lemma {:induction false} FuzzReadHere(c: V.Case, ev: Evidence, f: FuzzPart)
    requires ev.fuzz == Some(f) && FullFuzz(c, f) && CampaignRun(c, f)
    ensures V.FuzzRead(c, ev)
    ensures V.FuzzSucceeded(f) <==> f.metrics.Some?
  {
    hide Faithful;
  }

  lemma {:induction false} ReclamationsReadHere(s: Session, h: History)
    requires Campaigned(s, h)
    ensures V.ReclamationsRead(CaseOf(s), Final(s, h))
  {
    hide Told, Faithful, ReclaimedWell, Clock, Timely, RowsIn;
    RowHere(CaseOf(s), h, 0);
    RowHere(CaseOf(s), h, 1);
    RowHere(CaseOf(s), h, 2);
  }

  // ---------- the verdict ----------

  lemma {:induction false} OperationsHere(s: Session, h: History)
    requires Campaigned(s, h)
    requires var c, ev := CaseOf(s), Final(s, h);
             V.FunctionalRetained(c, ev) && V.KindsRead(c, ev) && V.FuzzRead(c, ev)
    ensures var c, ev := CaseOf(s), Final(s, h);
            V.OperationsOk(c, V.AllEntries(c, ev), ev.durationMs) && V.AllSeen(c, ev, V.AllEntries(c, ev))
  {
    hide Told, Faithful, FullFuzz, Clock, V.FunctionalPassed, Timely, V.KindRead, V.KindFinished, KindFinished, RowsIn,
         V.FuzzRead, V.FunctionalRetained, Checked, Blocks, V.AllEntries, Total, FinishedOps, FullKind, V.OperationsOk, V.RequiredOp, Laid,
         V.SeenIds;
    var c, ev := CaseOf(s), Final(s, h);
    CompleteHere(s, h);
    var fuzz, rows := FuzzOf(h).value, RowsIn(h.rs);
    BlocksChecked(c, h.f.part, h.ks, fuzz, rows);
    BlocksSeen(c, h.f.part, h.ks, fuzz, rows);
    LaidOut(s, h);
    LaidNotes(c, ev, h.f.part, rows, h.ks);
    EntriesAre(c, ev, h.f.part, h.ks, fuzz);
    DurationCovers(s, h);
    Shorter(Total(h.f.part, h.ks, fuzz, rows), Clock(h, 7));
    CheckedOperations(c, V.AllEntries(c, ev), Total(h.f.part, h.ks, fuzz, rows), ev.durationMs);
    forall id ensures id in FinishedOps(c, h.ks) <==> V.RequiredOp(c, ev, id) {
      FinishedRequired(c, ev, h.ks, id);
    }
  }

  lemma {:induction false} Shorter(ms: int, now: nat)
    requires ms * MS <= now
    ensures ms <= now / MS
  {}

  lemma {:induction false} LaidNotes(c: V.Case, ev: Evidence, f: FunctionalPart, rs: seq<Row>, ks: seq<KindOutcome>)
    requires Laid(c, ev, f, rs, ks) && |ks| == 2
    ensures V.DiagnosticFor(ev.diagnostics, ks[0].part.kind) == ks[0].diagnostic
    ensures V.DiagnosticFor(ev.diagnostics, ks[1].part.kind) == ks[1].diagnostic
    ensures ev.diagnostics == OneNote(ks[0].diagnostic) + OneNote(ks[1].diagnostic)
    ensures ev.sanitizers == PartsOf(ks) && ev.reclamations == rs
    ensures V.DiagnosticsNamed(c, ev)
  {
    hide V.FunctionalPassed, KindPlaced;
    NotesFound(c, ev, f, rs, ks);
    NotesAre(ks);
  }

  lemma {:induction false} FlagHere(s: Session, h: History)
    requires Campaigned(s, h)
    requires var c, ev := CaseOf(s), Final(s, h);
             V.FunctionalRetained(c, ev) && V.KindsRead(c, ev) && V.FuzzRead(c, ev)
    ensures var c, ev := CaseOf(s), Final(s, h);
            && (ev.complete <==> V.Derived(c, ev) && ev.error.None?)
            && (V.TestsFailed(ev) && V.FuzzSucceeded(ev.fuzz.value) ==> ev.error == Some(SanitizerFailed))
  {
    hide Told, Faithful, FullFuzz, FullKind, Clock, V.FunctionalPassed, Timely, KindFinished, RowsIn, V.KindsRead, V.FuzzRead, CampaignRun,
         V.FunctionalRetained, V.AllPassed, V.FuzzSucceeded, V.KindSucceeded;
    var c, ev := CaseOf(s), Final(s, h);
    FunctionalHere(s, h);
    FunctionalRead(c, ev, h.f.part);
    FuzzHere(s, h);
    FuzzReadHere(c, ev, FuzzOf(h).value);
    CompletedFailed(c, h);
    assert HaltOf(h) == h.fuzz.value.halt;
    assert V.TestsFailed(ev) <==> AnyCompleted(h.ks);
    assert !AnyCompleted(h.ks) ==> forall i :: 0 <= i < |ev.sanitizers| ==> V.KindSucceeded(ev.sanitizers[i]);
  }

  /** A sanitizer went on after failed tests exactly when its tests failed. */
  lemma {:induction false} CompletedFailed(c: V.Case, h: History)
    requires Told(c, h) && h.fuzz.Some? && c.schema.V4?
    ensures forall i :: 0 <= i < |h.ks| ==> (h.ks[i].completed <==> V.FailedTests(PartsOf(h.ks)[i]))
    ensures forall i :: 0 <= i < |h.ks| && !h.ks[i].completed ==> V.KindSucceeded(PartsOf(h.ks)[i])
  {
    hide Told, FullKind, Clock, KindFinished, V.KindSucceeded;
    AllRan(c, h);
    forall i | 0 <= i < |h.ks|
      ensures h.ks[i].completed <==> V.FailedTests(h.ks[i].part)
      ensures !h.ks[i].completed ==> V.KindSucceeded(h.ks[i].part)
    {
      KindHere(c, h, i);
      CompletedIs(c, h.ks[i]);
    }
  }

  lemma {:induction false} CompletedIs(c: V.Case, k: KindOutcome)
    requires KindFinished(c, k)
    ensures k.completed <==> V.FailedTests(k.part)
    ensures !k.completed ==> V.KindSucceeded(k.part)
  {
    hide V.JunitSound, V.KindSucceeded, V.Continuable, V.KindNames;
  }

  lemma {:induction false} FullHere(s: Session, h: History)
    requires Campaigned(s, h)
    ensures V.FullSound(CaseOf(s), Final(s, h)) <==> NotesReadable(CaseOf(s), Final(s, h).diagnostics)
  {
    hide Told, FullFuzz, Clock, V.FunctionalPassed, Timely, V.KindsRead, V.FuzzRead, CampaignRun, V.FunctionalRetained, RowsIn, V.AllEntries,
         V.OperationsOk, V.AllSeen, V.Derived, V.TestsFailed, V.FuzzSucceeded, V.ReclamationsRead, V.DiagnosticsNamed, NotesReadable, Laid,
         FunctionalPlaced;
    var c, ev := CaseOf(s), Final(s, h);
    FunctionalHere(s, h);
    FunctionalRead(c, ev, h.f.part);
    FuzzHere(s, h);
    FuzzReadHere(c, ev, FuzzOf(h).value);
    ReclamationsReadHere(s, h);
    KindsReadHere(s, h);
    LaidOut(s, h);
    AllRan(c, h);
    LaidNotes(c, ev, h.f.part, RowsIn(h.rs), h.ks);
    if NotesReadable(c, ev.diagnostics) {
      OperationsHere(s, h);
      FlagHere(s, h);
    }
  }

  lemma {:induction false} CampaignAgreed(s: Session, h: History)
    requires Campaigned(s, h)
    ensures Agreed(s, Reached(s, h))
  {
    hide Told, FullFuzz, Clock, V.FullSound, CampaignRun, NotesReadable, V.ValidateRuntimePrefix;
    var c, ev := CaseOf(s), Final(s, h);
    FullHere(s, h);
    FuzzHere(s, h);
    CampaignPast(c, FuzzOf(h).value);
    assert !V.StoppedEarly(c, ev);
    ShapeHere(s, h);
    assert HaltOf(h) == h.fuzz.value.halt;
  }

  lemma {:induction false} CampaignPast(c: V.Case, f: FuzzPart)
    requires FullFuzz(c, f)
    ensures f.campaign.Some?
  {
    hide FuzzPlaced;
  }

  lemma {:induction false} ShapeHere(s: Session, h: History)
    requires Campaigned(s, h) && (h.fuzz.value.halt.Raised? ==> h.fuzz.value.halt.code == FuzzFailed || h.fuzz.value.halt.code == FuzzMetricsInvalid)
    ensures V.Shape(CaseOf(s), Final(s, h))
  {
    hide Told, Clock;
    assert 0 <= (Clock(h, 7) + s.tail) / MS;
  }

  // ---------- the agreement theorem ----------

  lemma {:induction false} FunctionalEnd(s: Session, h: History)
    requires Released(s) && Told(CaseOf(s), h) && h.rs == [] && HaltOf(h).Raised? && Timely(s, Reached(s, h))
    ensures Agreed(s, Reached(s, h))
  {
    hide Told, FunctionalReport, Agreed, Timely;
    Says(CaseOf(s), h);
    FunctionalAlone(CaseOf(s), h);
    FunctionalStop(s, h.f, Reached(s, h));
  }

  lemma {:induction false} FunctionalAlone(c: V.Case, h: History)
    requires Told(c, h) && h.rs == []
    ensures h.ks == [] && h.fuzz.None? && Clock(h, 7) == h.f.now && HaltOf(h) == h.f.halt
    ensures PartsOf(h.ks) == [] && NotesOf(h.ks) == [] && RowsIn(h.rs) == [] && !AnyCompleted(h.ks)
  {
    hide Reported;
    ClockIdle(h, 1, 7);
  }

  lemma {:induction false} HistoryAgrees(s: Session, h: History)
    requires Released(s) && Told(CaseOf(s), h) && Ended(h) && Timely(s, Reached(s, h))
    ensures Agreed(s, Reached(s, h))
  {
    hide Told, Agreed, Timely, Reached, FuzzReport;
    var c := CaseOf(s);
    Fits(c, h);
    if h.rs == [] {
      FunctionalEnd(s, h);
    } else if h.fuzz.Some? {
      AllRan(c, h);
      FuzzSays(c, h);
      if h.fuzz.value.halt.Running? || h.fuzz.value.halt.stop == CampaignUnsuccessful {
        CampaignAgreed(s, h);
      } else {
        BeforeCampaign(c, Clock(h, 6), h.fuzz.value);
        FuzzStop(s, h);
      }
    } else if |h.rs| > |h.ks| {
      ReclaimStop(s, h);
    } else {
      RuntimeKindStops.KindStop(s, h);
    }
  }

  lemma {:induction false} BeforeCampaign(c: V.Case, t0: nat, f: FuzzOutcome)
    requires FuzzReport(c, t0, f) && f.halt.Raised? && f.halt.stop != CampaignUnsuccessful
    ensures f.part.Some? ==> f.part.value.campaign.None?
  {
    hide FuzzPlaced, Staged;
  }

  /** For every plan of the current release, every behaviour of the commands and every
      clock: the validator accepts the collected evidence exactly when the collection
      ended with a recorded native failure, a campaign, or a deadline after the corpus
      was staged, and its diagnostics can be read. On acceptance it agrees with the
      producer on completeness and on the operation the failure is charged to. */
  lemma {:induction false} ProducerAndValidatorAgree(s: Session)
    requires Released(s) && Honest(s) && Timely(s, Collect(s))
    ensures var p, v := Collect(s), V.Validate(CaseOf(s), Execute(s));
            && (v.Some? <==> Corroborated(p.halt) && NotesReadable(CaseOf(s), Execute(s).diagnostics))
            && (v.Some? ==> v.value.complete == Execute(s).complete && v.value.failure == Charged(p.halt))
  {
    hide Told, Reached, Collect, Timely, Corroborated, NotesReadable;
    var h := CollectHasHistory(s);
    HistoryAgrees(s, h);
  }
}
