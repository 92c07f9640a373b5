/** The stricter acceptance layered on the runtime validator: a collection that is
    whole, even when it found failing tests. */
module RuntimeCollection {
  import opened Results
  import opened JunitResults
  import opened RuntimeTypes
  import V = RuntimeValidator
  import S = RuntimeSoundness

  type Entry = V.Entry

  datatype Decision = Passed | CompleteWithFindings

  // ---------- what is demanded ----------

  predicate KindCollected(row: SanitizerPart, r: V.KindVerdict) {
    && Has(row.configure) && Has(row.build) && Has(row.discovery) && Has(row.junitRead)
    && r.required.Some? && r.required.value != [] && r.executed == r.required && r.skipped == Some([])
    && (if Has(row.tests) then r.passed == r.required else r.state == Some(V.FailedState) && r.passed != r.required)
  }

  /** The kinds whose tests failed, in order. */
  function FailedKinds(parts: seq<SanitizerPart>): seq<Kind> {
    if parts == [] then []
    else FailedKinds(parts[..|parts| - 1]) + (if Has(parts[|parts| - 1].tests) then [] else [parts[|parts| - 1].kind])
  }

  function SummaryKinds(diagnostics: seq<V.DiagnosticSummary>): (r: seq<Kind>)
    ensures |r| == |diagnostics| && forall i :: 0 <= i < |r| ==> r[i] == diagnostics[i].kind
  {
    seq(|diagnostics|, i requires 0 <= i < |diagnostics| => diagnostics[i].kind)
  }

  predicate NoKills(events: map<string, int>) {
    && "oom" in events && events["oom"] == 0 && "oom_kill" in events && events["oom_kill"] == 0
    && "oom_group_kill" in events && events["oom_group_kill"] == 0
  }

  predicate Healthy(r: ResourceReading) {
    && r.events.Some? && NoKills(r.events.value) && r.current.Some?
    && r.peak.Some? && r.peak.value > 0 && r.capacity.Some? && r.capacity.value > 0 && r.available.Some? && r.available.value > 0
  }

  /** The whole log of the failed run was kept, and the machine was not to blame. */
  predicate DiagnosticCollected(d: Diagnostic, s: V.DiagnosticSummary) {
    && Has(d.logRead) && Has(d.resources)
    && s.log.Captured? && !s.log.truncated && s.log.bytes > 0
    && s.resources.Some? && Healthy(s.resources.value)
  }

  predicate FunctionalCollected(c: V.Case, ev: Evidence, v: V.Verdict) {
    && ev.functional.Some? && Has(ev.functional.value.setup) && Has(ev.functional.value.operation) && Has(ev.functional.value.resultsRead)
    && v.functional.executed == Some(c.plan.functional.selected) && v.functional.passed == Some(c.plan.functional.selected)
    && v.functional.failed == Some([]) && v.functional.skipped == Some([])
  }

  predicate FuzzCollected(c: V.Case, ev: Evidence, v: V.Verdict) {
    && c.plan.fuzz.replayRuns > 0 && c.plan.fuzz.campaignRuns > 0
    && ev.fuzz.Some?
    && (var f := ev.fuzz.value;
        && Has(f.corpusStage) && Has(f.configure) && Has(f.build) && Has(f.campaign)
        && |f.replays| == |c.plan.fuzz.corpus| && forall i :: 0 <= i < |f.replays| ==> Has(f.replays[i]))
    && v.fuzz.campaignCompleted && v.fuzz.metrics.Some?
    && v.fuzz.metrics.value.executions >= c.plan.fuzz.campaignRuns && v.fuzz.metrics.value.coverage > 0
  }

  predicate Collected(c: V.Case, ev: Evidence, v: V.Verdict) {
    var failed := FailedKinds(ev.sanitizers);
    && ev.schema.V4? && c.plan.sanitizers.kinds == [Address, Undefined] && v.failure.None?
    && (ev.error.None? || ev.error == Some(SanitizerFailed))
    && FunctionalCollected(c, ev, v) && FuzzCollected(c, ev, v)
    && (forall i :: 0 <= i < |ev.sanitizers| && i < |v.sanitizers| ==> KindCollected(ev.sanitizers[i], v.sanitizers[i]))
    && SummaryKinds(v.diagnostics) == failed
    && (forall i :: 0 <= i < |ev.diagnostics| && i < |v.diagnostics| ==> DiagnosticCollected(ev.diagnostics[i], v.diagnostics[i]))
    && (forall i :: 0 <= i < |ev.reclamations| ==> Good(ev.reclamations[i]))
    && (v.complete <==> failed == [])
    && ev.error == (if failed == [] then None else Some(SanitizerFailed))
  }

  /** The decision on evidence the runtime validator has accepted with verdict v. */
  method ValidateCollection(c: V.Case, ev: Evidence, v: V.Verdict) returns (decision: Option<Decision>)
    requires |v.sanitizers| == |ev.sanitizers|
    ensures decision.Some? <==> Collected(c, ev, v)
    ensures decision.Some? ==> (decision.value == Passed <==> v.complete)
  {
    hide KindCollected, DiagnosticCollected, FunctionalCollected, FuzzCollected;
    if !ev.schema.V4? || c.plan.sanitizers.kinds != [Address, Undefined] || v.failure.Some? { return None; }
    if ev.error.Some? && ev.error != Some(SanitizerFailed) { return None; }
    if !FunctionalCollected(c, ev, v) { return None; }
    var failed: seq<Kind> := [];
    var i := 0;
    while i < |ev.sanitizers|
      invariant 0 <= i <= |ev.sanitizers|
      invariant failed == FailedKinds(ev.sanitizers[..i])
      invariant forall j :: 0 <= j < i ==> KindCollected(ev.sanitizers[j], v.sanitizers[j])
    {
      var row := ev.sanitizers[i];
      assert ev.sanitizers[..i + 1][..i] == ev.sanitizers[..i];
      if !KindCollected(row, v.sanitizers[i]) { return None; }
      if !Has(row.tests) {
        failed := failed + [row.kind];
      }
      i := i + 1;
    }
    assert ev.sanitizers[..i] == ev.sanitizers;
    if SummaryKinds(v.diagnostics) != failed { return None; }
    i := 0;
    while i < |ev.diagnostics| && i < |v.diagnostics|
      invariant 0 <= i && forall j :: 0 <= j < i && j < |ev.diagnostics| && j < |v.diagnostics| ==> DiagnosticCollected(ev.diagnostics[j], v.diagnostics[j])
    {
      if !DiagnosticCollected(ev.diagnostics[i], v.diagnostics[i]) { return None; }
      i := i + 1;
    }
    if !FuzzCollected(c, ev, v) { return None; }
    if exists j :: 0 <= j < |ev.reclamations| && !Good(ev.reclamations[j]) { return None; }
    if v.complete != (failed == []) || ev.error != (if failed == [] then None else Some(SanitizerFailed)) { return None; }
    decision := Some(if failed == [] then Passed else CompleteWithFindings);
  }

  // ---------- what a decision means ----------

  lemma {:induction false} CollectedIsFull(c: V.Case, ev: Evidence, v: V.Verdict)
    requires V.Validate(c, ev) == Some(v) && Collected(c, ev, v)
    ensures V.FullSound(c, ev) && c.schema.V4? && V.FuzzSucceeded(ev.fuzz.value)
    ensures v == V.FullVerdict(c, ev)
  {
    hide V.ValidateRuntimePrefix, V.FullSound, V.FullVerdict, FailedKinds, KindCollected, DiagnosticCollected, FunctionalCollected;
    assert !V.StoppedEarly(c, ev);
    FullReads(c, ev);
    MetricsAre(c, ev);
  }

  lemma {:induction false} FullReads(c: V.Case, ev: Evidence)
    requires V.FullSound(c, ev)
    ensures V.FunctionalRetained(c, ev) && V.KindsRead(c, ev) && V.FuzzRead(c, ev)
  {
    hide V.FunctionalRetained, V.KindsRead, V.FuzzRead, V.AllEntries, V.OperationsOk, V.AllSeen, V.Derived;
  }

  lemma {:induction false} MetricsAre(c: V.Case, ev: Evidence)
    requires V.FunctionalRetained(c, ev) && V.KindsRead(c, ev) && V.FuzzRead(c, ev)
    ensures V.FullVerdict(c, ev).fuzz.metrics == ev.fuzz.value.metrics
  {
    hide V.FunctionalRetained, V.KindRead, V.FinishedKinds, V.FailedTestIds, V.FailedRowIds, V.Summaries, V.KindFinished;
  }

  /** A completed test failure of one of the sanitizers, in its own place. */
  ghost predicate Finding(ev: Evidence, row: Row) {
    exists k :: 0 <= k < |ev.sanitizers| && ev.sanitizers[k].tests == Some(row) && row.exitCode == 8 && !row.timedOut && !row.truncated
  }

  ghost predicate GoodOrFinding(ev: Evidence, entries: seq<Entry>) {
    forall i :: 0 <= i < |entries| ==> Good(entries[i].row) || Finding(ev, entries[i].row)
  }

  lemma {:induction false} GoodOrConcat(ev: Evidence, a: seq<Entry>, b: seq<Entry>)
    requires GoodOrFinding(ev, a) && GoodOrFinding(ev, b)
    ensures GoodOrFinding(ev, a + b)
  {}

  lemma {:induction false} GoodIsGoodOr(ev: Evidence, a: seq<Entry>)
    requires S.AllGood(a)
    ensures GoodOrFinding(ev, a)
  {}

  /** Diagnostics read back in the order of the sanitizers. */
  ghost predicate NotesGood(c: V.Case, ev: Evidence) {
    forall i :: 0 <= i < |ev.diagnostics| ==> Has(ev.diagnostics[i].logRead) && Has(ev.diagnostics[i].resources)
  }

  lemma {:induction false} NoteGood(c: V.Case, ev: Evidence, notes: seq<Diagnostic>, kind: Kind)
    requires forall i :: 0 <= i < |notes| ==> Has(notes[i].logRead) && Has(notes[i].resources)
    ensures var d := V.DiagnosticFor(notes, kind); d.Some? ==> Has(d.value.logRead) && Has(d.value.resources)
  {
    if notes != [] && notes[0].kind != kind {
      NoteGood(c, ev, notes[1..], kind);
    }
  }

  lemma {:induction false} OneKindGood(c: V.Case, ev: Evidence, k: nat)
    requires k < |ev.sanitizers| && V.KindRead(c, ev.sanitizers[k]) && NotesGood(c, ev)
    requires V.KindFinished(c, ev.sanitizers[k], V.DiagnosticFor(ev.diagnostics, ev.sanitizers[k].kind))
    ensures GoodOrFinding(ev, V.KindEntries(c, ev.sanitizers[k], V.DiagnosticFor(ev.diagnostics, ev.sanitizers[k].kind)))
  {
    hide V.KindRead, V.ListedNames, CompletedFailure, DiagnosticsReadable, V.DiagnosticFor;
    var part := ev.sanitizers[k];
    NoteGood(c, ev, ev.diagnostics, part.kind);
    assert V.Retained(part) by { KindReadRetained(c, part); }
    assert Good(part.tests.value) || Finding(ev, part.tests.value);
  }

  lemma {:induction false} KindReadRetained(c: V.Case, part: SanitizerPart)
    requires V.KindRead(c, part)
    ensures V.Retained(part)
  {
    hide V.ListedNames, FileBytes, ReadJunit;
  }

  lemma {:induction false} KindsGood(c: V.Case, ev: Evidence, parts: seq<SanitizerPart>)
    requires NotesGood(c, ev) && forall i :: 0 <= i < |parts| ==> V.Retained(parts[i])
    requires forall i :: 0 <= i < |parts| ==> GoodOrFinding(ev, V.KindEntries(c, parts[i], V.DiagnosticFor(ev.diagnostics, parts[i].kind)))
    ensures GoodOrFinding(ev, V.KindsEntries(c, parts, ev.diagnostics))
  {
    hide V.KindEntries, V.Retained, V.DiagnosticFor, GoodOrFinding;
    if parts == [] {
      NothingBad(ev);
    } else {
      assert forall i :: 0 <= i < |parts[1..]| ==> parts[1..][i] == parts[i + 1];
      KindsGood(c, ev, parts[1..]);
      GoodOrConcat(ev, V.KindEntries(c, parts[0], V.DiagnosticFor(ev.diagnostics, parts[0].kind)), V.KindsEntries(c, parts[1..], ev.diagnostics));
    }
  }

  lemma {:induction false} NothingBad(ev: Evidence)
    ensures GoodOrFinding(ev, [])
  {}

  lemma {:induction false} NotesAreGood(c: V.Case, ev: Evidence, v: V.Verdict)
    requires Collected(c, ev, v) && |ev.diagnostics| == |v.diagnostics|
    ensures NotesGood(c, ev)
  {
    hide FailedKinds, KindCollected, FunctionalCollected, FuzzCollected;
  }

  lemma {:induction false} RecordGoodOr(c: V.Case, ev: Evidence, v: V.Verdict)
    requires V.FullSound(c, ev) && c.schema.V4? && Collected(c, ev, v) && V.FuzzSucceeded(ev.fuzz.value) && NotesGood(c, ev)
    ensures GoodOrFinding(ev, V.AllEntries(c, ev))
  {
    hide V.OperationsOk, V.AllSeen, V.FuzzSucceeded, V.FuzzRead, V.KindRead, V.KindFinished, V.FunctionalRetained, V.ReclamationsRead,
         V.KindsEntries, V.KindEntries, V.FuzzEntries, V.Entries, V.DiagnosticsNamed, V.AllPassed, S.AllGood, GoodOrFinding, V.TestsFailed, V.Derived,
         FailedKinds, KindCollected, DiagnosticCollected, FuzzCollected, NotesGood, V.Retained;
    S.FunctionalGood(c, ev);
    S.FuzzThere(c, ev);
    S.FuzzGood(ev.fuzz.value);
    S.ReclaimsGood(c, ev);
    var f := ev.functional.value;
    forall i | 0 <= i < |ev.sanitizers|
      ensures V.Retained(ev.sanitizers[i])
      ensures GoodOrFinding(ev, V.KindEntries(c, ev.sanitizers[i], V.DiagnosticFor(ev.diagnostics, ev.sanitizers[i].kind)))
    {
      KindReadRetained(c, ev.sanitizers[i]);
      OneKindGood(c, ev, i);
    }
    KindsGood(c, ev, ev.sanitizers);
    var a := [V.Entry(f.setup.value, 4 * MIB), V.Entry(f.operation.value, 4 * MIB), V.Entry(f.resultsRead.value, 2 * MIB + 4096)];
    var k, z, r := V.KindsEntries(c, ev.sanitizers, ev.diagnostics), V.FuzzEntries(ev.fuzz.value), V.Entries(ev.reclamations, 4096);
    GoodIsGoodOr(ev, a);
    GoodIsGoodOr(ev, z);
    GoodIsGoodOr(ev, r);
    GoodOrConcat(ev, a, k);
    GoodOrConcat(ev, a + k, z);
    GoodOrConcat(ev, a + k + z, r);
  }

  /** The operation is recorded exactly once, with its rebuilt command. */
  ghost predicate RecordedOnce(c: V.Case, entries: seq<Entry>, id: OpId) {
    exists i :: 0 <= i < |entries| && entries[i].row.id == id && V.Matches(entries[i].row, V.SpecFor(c, id))
      && forall j :: 0 <= j < |entries| && entries[j].row.id == id ==> j == i
  }

  lemma {:induction false} RecordedFrom(c: V.Case, entries: seq<Entry>, id: OpId, durationMs: int)
    requires V.OperationsOk(c, entries, durationMs) && id in V.SeenIds(entries)
    ensures RecordedOnce(c, entries, id)
  {
    var e :| e in entries && e.row.id == id;
    var i :| 0 <= i < |entries| && entries[i] == e;
    assert V.RowOk(c, entries[i].row, entries[i].maximum);
    forall j | 0 <= j < |entries| && entries[j].row.id == id ensures j == i {
      assert entries[j].row.id == entries[i].row.id;
    }
  }

  /** One summary for each recorded diagnostic. */
  lemma {:induction false} SummaryForEach(c: V.Case, ev: Evidence)
    requires V.FullSound(c, ev) && c.schema.V4? && c.plan.sanitizers.kinds == [Address, Undefined]
    ensures |V.FullVerdict(c, ev).diagnostics| == |ev.diagnostics|
  {
    hide V.OperationsOk, V.AllSeen, V.FuzzRead, V.KindRead, V.FunctionalRetained, V.ReclamationsRead, V.AllEntries, V.Derived, V.TestsFailed,
         V.FinishedKinds, V.FailedTestIds, V.FailedRowIds, V.Summaries, V.Summarise, V.DiagnosticFor, V.KindFinished, DiagnosticsReadable;
    forall i | 0 <= i < |ev.sanitizers| && V.DiagnosticFor(ev.diagnostics, ev.sanitizers[i].kind).Some?
      ensures var d := V.DiagnosticFor(ev.diagnostics, ev.sanitizers[i].kind).value;
              d.logRead.Some? && d.resources.Some? && DiagnosticsReadable(c.w, d.logRead.value, d.resources.value)
    {
      NoteReadable(c, ev.sanitizers[i], V.DiagnosticFor(ev.diagnostics, ev.sanitizers[i].kind));
    }
    assert V.Summarisable(c, ev);
    TwoSummaries(c, ev.sanitizers, ev.diagnostics);
    NotesCount(ev.diagnostics);
  }

  lemma {:induction false} NoteReadable(c: V.Case, part: SanitizerPart, d: Option<Diagnostic>)
    requires V.KindRead(c, part) && V.KindFinished(c, part, d) && d.Some?
    ensures d.value.logRead.Some? && d.value.resources.Some? && DiagnosticsReadable(c.w, d.value.logRead.value, d.value.resources.value)
  {
    hide V.KindRead, V.ListedNames, CompletedFailure, DiagnosticsReadable;
  }

  lemma {:induction false} TwoSummaries(c: V.Case, parts: seq<SanitizerPart>, notes: seq<Diagnostic>)
    requires |parts| == 2 && parts[0].kind == Address && parts[1].kind == Undefined
    requires forall i :: 0 <= i < |parts| && V.DiagnosticFor(notes, parts[i].kind).Some? ==>
      (var d := V.DiagnosticFor(notes, parts[i].kind).value;
       d.logRead.Some? && d.resources.Some? && DiagnosticsReadable(c.w, d.logRead.value, d.resources.value))
    ensures |V.Summaries(c, parts, notes)| == (if V.DiagnosticFor(notes, Address).Some? then 1 else 0) + (if V.DiagnosticFor(notes, Undefined).Some? then 1 else 0)
  {
    hide DiagnosticsReadable, V.DiagnosticFor, V.Summarise;
    var rest := parts[1..];
    assert rest == [parts[1]] && rest[1..] == [];
    assert |V.Summaries(c, rest, notes)| == if V.DiagnosticFor(notes, Undefined).Some? then 1 else 0;
  }

  lemma {:induction false} NotesCount(notes: seq<Diagnostic>)
    requires |notes| <= 2 && (forall i :: 0 <= i < |notes| ==> notes[i].kind == Address || notes[i].kind == Undefined)
    requires forall i, j :: 0 <= i < j < |notes| ==> notes[i].kind != notes[j].kind
    ensures |notes| == (if V.DiagnosticFor(notes, Address).Some? then 1 else 0) + (if V.DiagnosticFor(notes, Undefined).Some? then 1 else 0)
  {
    if |notes| == 1 {
      assert notes[1..] == [];
    } else if |notes| == 2 {
      assert notes[1..] == [notes[1]] && notes[1..][1..] == [];
      assert notes[0].kind != notes[1].kind;
    }
  }

  /** What an accepted collection means, whoever wrote the evidence: every required
      operation was run exactly once as planned; every row succeeded except the test run
      of a sanitizer that completed with ordinary failures; fuzzing succeeded. When the
      decision is `Passed`, everything completeness promises holds too. */
  lemma {:induction false} CollectionMeans(c: V.Case, ev: Evidence, v: V.Verdict)
    requires V.Validate(c, ev) == Some(v) && Collected(c, ev, v)
    ensures V.FunctionalRetained(c, ev) && V.KindsRead(c, ev) && V.FuzzRead(c, ev) && V.FuzzSucceeded(ev.fuzz.value)
    ensures forall id :: V.RequiredOp(c, ev, id) ==> RecordedOnce(c, V.AllEntries(c, ev), id)
    ensures GoodOrFinding(ev, V.AllEntries(c, ev))
    ensures v.complete ==> S.Exact(c, ev, V.AllEntries(c, ev)) && S.Passing(c, ev)
  {
    hide V.Validate, V.AllEntries, V.OperationsOk, Collected, V.FunctionalRetained, V.KindsRead, V.FuzzRead, V.FuzzSucceeded, V.RequiredOp, RecordedOnce,
         GoodOrFinding, S.Exact, S.Passing, V.SeenIds, V.FullVerdict, V.ReclamationsRead, V.DiagnosticsNamed, V.TestsFailed, V.Derived;
    CollectedIsFull(c, ev, v);
    CollectedKinds(c, ev, v);
    SummaryForEach(c, ev);
    NotesAreGood(c, ev, v);
    RecordGoodOr(c, ev, v);
    var entries := V.AllEntries(c, ev);
    forall id | V.RequiredOp(c, ev, id) ensures RecordedOnce(c, entries, id) {
      assert id in V.SeenIds(entries);
      RecordedFrom(c, entries, id, ev.durationMs);
    }
    VerdictComplete(c, ev, v);
    if v.complete {
      S.CompleteMeans(c, ev);
    }
  }

  lemma {:induction false} CollectedKinds(c: V.Case, ev: Evidence, v: V.Verdict)
    requires Collected(c, ev, v)
    ensures c.plan.sanitizers.kinds == [Address, Undefined]
  {
    hide FailedKinds, KindCollected, FunctionalCollected, FuzzCollected, DiagnosticCollected;
  }

  lemma {:induction false} VerdictComplete(c: V.Case, ev: Evidence, v: V.Verdict)
    requires V.FunctionalRetained(c, ev) && V.KindsRead(c, ev) && V.FuzzRead(c, ev) && v == V.FullVerdict(c, ev)
    ensures v.complete == ev.complete
  {
    hide V.FunctionalRetained, V.KindRead, V.KindFinished, V.FinishedKinds, V.FailedTestIds, V.FailedRowIds, V.Summaries;
  }
}
