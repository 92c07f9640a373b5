/** What an accepted value means, whoever wrote it. */
module RuntimeSoundness {
  import opened Results
  import opened RuntimeTypes
  import opened JunitResults
  import V = RuntimeValidator
  import opened RuntimeSlots
  import opened RuntimeSegments
  import opened RuntimePrefix

  type Entry = V.Entry
  type Slot = V.Slot

  // ---------- complete evidence ----------

  /** The operation is recorded exactly once, with its rebuilt command, and succeeded. */
  ghost predicate RanOnce(c: V.Case, entries: seq<Entry>, id: OpId) {
    exists i :: 0 <= i < |entries| && entries[i].row.id == id
      && V.Matches(entries[i].row, V.SpecFor(c, id)) && Good(entries[i].row)
      && forall j :: 0 <= j < |entries| && entries[j].row.id == id ==> j == i
  }

  /** Every discovered test was executed and passed. */
  ghost predicate KindClean(c: V.Case, part: SanitizerPart) {
    && V.ListedNames(c, part).Some? && V.ListedNames(c, part).value != [] && part.results.Some?
    && part.results.value.required == V.ListedNames(c, part).value
    && part.results.value.executed == V.ListedNames(c, part).value
    && part.results.value.passed == V.ListedNames(c, part).value
    && part.results.value.skipped == []
  }

  lemma {:induction false} CompleteIsFull(c: V.Case, ev: Evidence)
    requires V.Validate(c, ev).Some? && ev.complete
    ensures V.FullSound(c, ev) && V.Derived(c, ev) && ev.error.None?
  {
    hide V.ValidateRuntimePrefix, V.Derived, V.AllEntries, V.OperationsOk, V.AllSeen, V.KindsRead, V.FuzzRead, V.FunctionalRetained,
         V.ReclamationsRead, V.DiagnosticsNamed;
    assert !V.StoppedEarly(c, ev);
  }

  lemma {:induction false} ReadNonEmpty(w: World, raw: Bytes)
    ensures ReadNames(w, raw).Some? ==> ReadNames(w, raw).value != []
  {
    if ReadNames(w, raw).Some? {
      assert multiset(w.listed(raw).value) == multiset(ReadNames(w, raw).value);
      assert w.listed(raw).value[0] in multiset(w.listed(raw).value);
    }
  }

  lemma {:induction false} KindIsClean(c: V.Case, part: SanitizerPart)
    requires V.KindRead(c, part) && V.KindSucceeded(part)
    ensures KindClean(c, part)
  {
    ReadNonEmpty(c.w, part.discovery.value.output.value);
  }

  lemma {:induction false} CleanKindHasNoNote(c: V.Case, part: SanitizerPart, d: Option<Diagnostic>)
    requires V.KindRead(c, part) && V.KindFinished(c, part, d) && V.KindSucceeded(part)
    ensures d.None?
  {
    hide V.KindRead;
  }

  lemma {:induction false} FirstNote(c: V.Case, ev: Evidence)
    requires V.DiagnosticsNamed(c, ev) && ev.diagnostics != []
    ensures exists i :: 0 <= i < |c.plan.sanitizers.kinds| && V.DiagnosticFor(ev.diagnostics, c.plan.sanitizers.kinds[i]).Some?
  {
    var kind := ev.diagnostics[0].kind;
    var i :| 0 <= i < |c.plan.sanitizers.kinds| && c.plan.sanitizers.kinds[i] == kind;
    assert V.DiagnosticFor(ev.diagnostics, c.plan.sanitizers.kinds[i]).Some?;
  }

  /** Complete evidence has no failure diagnostics. */
  lemma {:induction false} NoDiagnostics(c: V.Case, ev: Evidence)
    requires V.FullSound(c, ev) && V.Derived(c, ev) && c.schema.V4?
    ensures ev.diagnostics == []
  {
    hide V.AllEntries, V.OperationsOk, V.AllSeen, V.FuzzRead, V.FunctionalRetained, V.ReclamationsRead, V.KindRead, V.FuzzSucceeded, V.AllPassed,
         V.KindFinished, V.KindSucceeded, V.DiagnosticsNamed, V.DiagnosticFor, V.TestsFailed;
    forall i | 0 <= i < |c.plan.sanitizers.kinds| ensures V.DiagnosticFor(ev.diagnostics, c.plan.sanitizers.kinds[i]).None? {
      CleanKindHasNoNote(c, ev.sanitizers[i], V.DiagnosticFor(ev.diagnostics, ev.sanitizers[i].kind));
    }
    if ev.diagnostics != [] {
      FirstNote(c, ev);
      assert false;
    }
  }

  // ---------- every recorded row of complete evidence succeeded ----------

  ghost predicate AllGood(entries: seq<Entry>) {
    forall i :: 0 <= i < |entries| ==> Good(entries[i].row)
  }

  lemma {:induction false} AllGoodConcat(a: seq<Entry>, b: seq<Entry>)
    requires AllGood(a) && AllGood(b)
    ensures AllGood(a + b)
  {}

  lemma {:induction false} KindGood(c: V.Case, part: SanitizerPart)
    requires V.KindSucceeded(part)
    ensures V.Retained(part) && AllGood(V.KindEntries(c, part, None))
  {}

  lemma {:induction false} KindsGood(c: V.Case, parts: seq<SanitizerPart>, diagnostics: seq<Diagnostic>)
    requires forall i :: 0 <= i < |parts| ==> V.KindSucceeded(parts[i])
    requires c.schema.V4? ==> diagnostics == []
    ensures (forall i :: 0 <= i < |parts| ==> V.Retained(parts[i])) && AllGood(V.KindsEntries(c, parts, diagnostics))
  {
    hide V.KindSucceeded, AllGood;
    forall i | 0 <= i < |parts| ensures V.Retained(parts[i]) {
      KindGood(c, parts[i]);
    }
    if parts == [] {
      EmptyGood();
    } else {
      KindsGood(c, parts[1..], diagnostics);
      KindGood(c, parts[0]);
      assert V.KindEntries(c, parts[0], V.DiagnosticFor(diagnostics, parts[0].kind)) == V.KindEntries(c, parts[0], None);
      AllGoodConcat(V.KindEntries(c, parts[0], None), V.KindsEntries(c, parts[1..], diagnostics));
    }
  }

  lemma {:induction false} EmptyGood()
    ensures AllGood([])
  {}

  lemma {:induction false} FuzzGood(f: FuzzPart)
    requires V.FuzzSucceeded(f)
    ensures f.corpusStage.Some? && f.configure.Some? && f.build.Some? && f.campaign.Some?
    ensures forall i :: 0 <= i < |f.replays| ==> f.replays[i].Some?
    ensures AllGood(V.FuzzEntries(f))
  {}

  lemma {:induction false} ReclaimsGood(c: V.Case, ev: Evidence)
    requires V.ReclamationsRead(c, ev) && V.AtLeastV2(c.schema)
    ensures AllGood(V.Entries(ev.reclamations, 4096))
  {
    hide ReclaimedWell;
  }

  lemma {:induction false} RecordGood(c: V.Case, ev: Evidence)
    requires V.FullSound(c, ev) && V.Derived(c, ev)
    ensures AllGood(V.AllEntries(c, ev))
  {
    hide V.OperationsOk, V.AllSeen, V.FuzzSucceeded, V.FuzzRead, V.KindRead, V.KindFinished, V.KindSucceeded, V.FunctionalRetained, V.ReclamationsRead,
         V.KindsEntries, V.FuzzEntries, V.Entries, V.DiagnosticsNamed, V.AllPassed, AllGood, V.TestsFailed;
    if c.schema.V4? {
      NoDiagnostics(c, ev);
    }
    FunctionalGood(c, ev);
    FuzzThere(c, ev);
    var f := ev.functional.value;
    KindsGood(c, ev.sanitizers, ev.diagnostics);
    FuzzGood(ev.fuzz.value);
    var a := [V.Entry(f.setup.value, 4 * MIB), V.Entry(f.operation.value, 4 * MIB), V.Entry(f.resultsRead.value, 2 * MIB + 4096)];
    AllGoodConcat(a, V.KindsEntries(c, ev.sanitizers, ev.diagnostics));
    AllGoodConcat(a + V.KindsEntries(c, ev.sanitizers, ev.diagnostics), V.FuzzEntries(ev.fuzz.value));
    var tail := if V.AtLeastV2(c.schema) then V.Entries(ev.reclamations, 4096) else [];
    if V.AtLeastV2(c.schema) {
      ReclaimsGood(c, ev);
    } else {
      EmptyGood();
    }
    AllGoodConcat(a + V.KindsEntries(c, ev.sanitizers, ev.diagnostics) + V.FuzzEntries(ev.fuzz.value), tail);
  }

  lemma {:induction false} FunctionalThere(c: V.Case, ev: Evidence)
    requires V.FunctionalRetained(c, ev)
    ensures ev.functional.Some? && ev.functional.value.setup.Some? && ev.functional.value.operation.Some? && ev.functional.value.resultsRead.Some?
  {
    hide V.FunctionalFile, ReadCsv;
  }

  lemma {:induction false} FuzzThere(c: V.Case, ev: Evidence)
    requires V.FuzzRead(c, ev)
    ensures ev.fuzz.Some?
  {
    hide Output;
  }

  lemma {:induction false} FunctionalGood(c: V.Case, ev: Evidence)
    requires V.FunctionalRetained(c, ev) && Has(ev.functional.value.setup) && Has(ev.functional.value.operation) && Has(ev.functional.value.resultsRead)
    ensures ev.functional.Some? && ev.functional.value.setup.Some? && ev.functional.value.operation.Some? && ev.functional.value.resultsRead.Some?
    ensures var f := ev.functional.value;
            AllGood([V.Entry(f.setup.value, 4 * MIB), V.Entry(f.operation.value, 4 * MIB), V.Entry(f.resultsRead.value, 2 * MIB + 4096)])
  {
    hide V.FunctionalRetained;
    FunctionalThere(c, ev);
  }

  // ---------- the main statement ----------

  lemma {:induction false} OnceFrom(c: V.Case, entries: seq<Entry>, id: OpId, durationMs: int)
    requires V.OperationsOk(c, entries, durationMs) && AllGood(entries) && id in V.SeenIds(entries)
    ensures RanOnce(c, entries, id)
  {
    var e :| e in entries && e.row.id == id;
    var i :| 0 <= i < |entries| && entries[i] == e;
    assert V.RowOk(c, entries[i].row, entries[i].maximum);
    forall j | 0 <= j < |entries| && entries[j].row.id == id ensures j == i {
      assert entries[j].row.id == entries[i].row.id;
    }
  }

  /** Operations a complete collection must have run: all planned ones except the
      reads that only follow a failed test run. */
  predicate Needed(c: V.Case, id: OpId) {
    V.Planned(c, id) && !id.TestLog? && !id.Resources?
  }

  lemma {:induction false} NeededIsSeen(c: V.Case, ev: Evidence, id: OpId)
    requires V.FullSound(c, ev) && V.Derived(c, ev)
    ensures id in V.SeenIds(V.AllEntries(c, ev)) <==> Needed(c, id)
  {
    hide V.AllEntries, V.OperationsOk, V.KindsRead, V.FuzzRead, V.FunctionalRetained, V.ReclamationsRead, V.SeenIds, V.Derived, V.Planned;
    if c.schema.V4? {
      NoDiagnostics(c, ev);
    }
    assert V.AllSeen(c, ev, V.AllEntries(c, ev));
    assert id in V.SeenIds(V.AllEntries(c, ev)) <==> V.RequiredOp(c, ev, id);
  }

  /** Every needed operation was run exactly once as planned and succeeded, nothing
      else was run, and the operations fit in the measured time. */
  ghost predicate Exact(c: V.Case, ev: Evidence, entries: seq<Entry>) {
    && (forall id :: Needed(c, id) ==> RanOnce(c, entries, id))
    && (forall i :: 0 <= i < |entries| ==> Needed(c, entries[i].row.id))
    && V.TotalMs(entries) <= ev.durationMs + 2
  }

  /** All selected and all discovered tests ran and passed, and fuzzing succeeded. */
  ghost predicate Passing(c: V.Case, ev: Evidence) {
    && ev.functional.Some? && ev.functional.value.results.Some?
    && V.AllPassed(ev.functional.value.results.value, c.plan.functional.selected)
    && |ev.sanitizers| == |c.plan.sanitizers.kinds|
    && (forall i :: 0 <= i < |ev.sanitizers| ==> ev.sanitizers[i].kind == c.plan.sanitizers.kinds[i] && KindClean(c, ev.sanitizers[i]))
    && ev.fuzz.Some? && V.FuzzSucceeded(ev.fuzz.value) && |ev.fuzz.value.replays| == |c.plan.fuzz.corpus|
    && ev.diagnostics == [] && ev.error.None?
  }

  // ---------- whose populations are counted ----------

  /** The rows the population is read from carry the identities of their fields. */
  predicate AtHome(part: SanitizerPart) {
    && part.discovery.Some? && part.discovery.value.id == Discover(part.kind)
    && part.junitRead.Some? && part.junitRead.value.id == Junit(part.kind)
  }

  /** The names were listed by this row, and counted by that one. */
  predicate CountedBy(c: V.Case, listing: Row, counting: Row, p: Population) {
    && Output(c.w, listing, 4 * MIB).Some? && ReadNames(c.w, listing.output.value) == Some(p.required)
    && counting.output.Some? && FileBytes(c.w, counting.output.value, 4 * MIB).Some?
    && ReadJunit(c.w, FileBytes(c.w, counting.output.value, 4 * MIB).value, p.required) == Some(p)
  }

  /** The population is the one the sanitizer's own discovery listed and its own result
      file counted. */
  ghost predicate FromOwn(c: V.Case, entries: seq<Entry>, kind: Kind, p: Population) {
    exists d, j :: 0 <= d < |entries| && 0 <= j < |entries|
      && entries[d].row.id == Discover(kind) && entries[j].row.id == Junit(kind) && CountedBy(c, entries[d].row, entries[j].row, p)
  }

  /** Rows in their own fields give every sanitizer its own population. */
  ghost predicate OwnPopulations(c: V.Case, ev: Evidence, entries: seq<Entry>) {
    forall i :: 0 <= i < |ev.sanitizers| && AtHome(ev.sanitizers[i]) ==>
      ev.sanitizers[i].results.Some? && FromOwn(c, entries, ev.sanitizers[i].kind, ev.sanitizers[i].results.value)
  }

  function FieldEntry(part: SanitizerPart, k: nat): Entry
    requires V.Retained(part)
  {
    if k == 0 then V.Entry(part.configure.value, 4 * MIB)
    else if k == 1 then V.Entry(part.build.value, 4 * MIB)
    else if k == 2 then V.Entry(part.discovery.value, 4 * MIB)
    else if k == 3 then V.Entry(part.tests.value, 4 * MIB)
    else V.Entry(part.junitRead.value, 8 * MIB + 4096)
  }

  /** Without diagnostics every sanitizer has five entries. */
  lemma {:induction false} FlatKinds(c: V.Case, parts: seq<SanitizerPart>)
    requires forall i :: 0 <= i < |parts| ==> V.Retained(parts[i])
    ensures var e := V.KindsEntries(c, parts, []);
            |e| == 5 * |parts| && forall i, k :: 0 <= i < |parts| && 0 <= k < 5 ==> e[5 * i + k] == FieldEntry(parts[i], k)
  {
    if parts != [] {
      var rest := parts[1..];
      FlatKinds(c, rest);
      var e, f := V.KindsEntries(c, parts, []), V.KindsEntries(c, rest, []);
      OneKind(c, parts[0]);
      var g := V.KindEntries(c, parts[0], None);
      assert e == g + f;
      forall i, k | 0 <= i < |parts| && 0 <= k < 5 ensures e[5 * i + k] == FieldEntry(parts[i], k) {
        if i > 0 {
          assert e[5 * i + k] == f[5 * (i - 1) + k] && parts[i] == rest[i - 1];
        } else {
          assert e[k] == g[k];
        }
      }
    }
  }

  lemma {:induction false} OneKind(c: V.Case, part: SanitizerPart)
    requires V.Retained(part)
    ensures var g := V.KindEntries(c, part, None);
            |g| == 5 && forall k :: 0 <= k < 5 ==> g[k] == FieldEntry(part, k)
  {}

  lemma {:induction false} PartsRetained(c: V.Case, ev: Evidence)
    requires V.KindsRead(c, ev)
    ensures forall i :: 0 <= i < |ev.sanitizers| ==> V.Retained(ev.sanitizers[i])
  {
    hide V.KindFinished, V.ListedNames;
  }

  /** The entries of the sanitizers stand after the three functional ones. */
  lemma {:induction false} EntryAt(c: V.Case, ev: Evidence, i: nat, k: nat)
    requires V.FunctionalRetained(c, ev) && V.KindsRead(c, ev) && V.FuzzRead(c, ev) && ev.diagnostics == []
    requires i < |ev.sanitizers| && k < 5
    ensures V.Retained(ev.sanitizers[i])
    ensures 3 + 5 * i + k < |V.AllEntries(c, ev)| && V.AllEntries(c, ev)[3 + 5 * i + k] == FieldEntry(ev.sanitizers[i], k)
  {
    hide V.KindsEntries, V.FuzzEntries, V.Entries, V.FunctionalRetained, V.FuzzRead, V.KindRead, V.Retained, V.KindFinished, FieldEntry;
    PartsRetained(c, ev);
    FlatKinds(c, ev.sanitizers);
    FunctionalThere(c, ev);
    FuzzThere(c, ev);
    assert 5 * i + k < 5 * |ev.sanitizers|;
  }

  lemma {:induction false} ReadBy(c: V.Case, part: SanitizerPart)
    requires V.KindRead(c, part)
    ensures part.results.Some? && CountedBy(c, part.discovery.value, part.junitRead.value, part.results.value)
  {}

  lemma {:induction false} HomeIsOwn(c: V.Case, ev: Evidence, i: nat)
    requires V.FunctionalRetained(c, ev) && V.KindsRead(c, ev) && V.FuzzRead(c, ev) && ev.diagnostics == []
    requires i < |ev.sanitizers| && AtHome(ev.sanitizers[i])
    ensures ev.sanitizers[i].results.Some?
    ensures FromOwn(c, V.AllEntries(c, ev), ev.sanitizers[i].kind, ev.sanitizers[i].results.value)
  {
    hide V.AllEntries, V.FunctionalRetained, V.FuzzRead, V.KindRead, V.KindFinished, CountedBy;
    var entries := V.AllEntries(c, ev);
    EntryAt(c, ev, i, 2);
    EntryAt(c, ev, i, 4);
    ReadBy(c, ev.sanitizers[i]);
    assert entries[3 + 5 * i + 2].row.id == Discover(ev.sanitizers[i].kind);
    assert entries[3 + 5 * i + 4].row.id == Junit(ev.sanitizers[i].kind);
  }

  /** What completeness means for any accepted value, under any schema. Populations are
      read from the rows in the discovery and result fields: where those rows carry their
      fields' identities, they are what that sanitizer's own two operations returned. */
  lemma {:induction false} CompleteMeans(c: V.Case, ev: Evidence)
    requires V.Validate(c, ev).Some? && ev.complete
    ensures V.FunctionalRetained(c, ev) && V.KindsRead(c, ev) && V.FuzzRead(c, ev)
    ensures Exact(c, ev, V.AllEntries(c, ev)) && Passing(c, ev)
    ensures OwnPopulations(c, ev, V.AllEntries(c, ev))
  {
    hide FromOwn, AtHome, V.AllEntries, V.Validate, Exact, V.Derived, V.KindsRead, V.FuzzRead, V.FunctionalRetained, V.OperationsOk, V.AllSeen, V.TotalMs,
         V.AllPassed, KindClean, V.FuzzSucceeded, V.ReclamationsRead, V.DiagnosticsNamed, V.TestsFailed;
    CompleteIsFull(c, ev);
    CompleteParts(c, ev);
    ExactFrom(c, ev);
    NoDiagnosticsEver(c, ev);
    forall i | 0 <= i < |ev.sanitizers| && AtHome(ev.sanitizers[i])
      ensures ev.sanitizers[i].results.Some? && FromOwn(c, V.AllEntries(c, ev), ev.sanitizers[i].kind, ev.sanitizers[i].results.value)
    {
      HomeIsOwn(c, ev, i);
    }
  }

  lemma {:induction false} ExactFrom(c: V.Case, ev: Evidence)
    requires V.FullSound(c, ev) && V.Derived(c, ev)
    ensures Exact(c, ev, V.AllEntries(c, ev))
  {
    hide V.AllEntries, V.OperationsOk, V.SeenIds, Needed, RanOnce, V.TotalMs, V.Derived, V.KindsRead, V.FuzzRead, V.FunctionalRetained,
         V.ReclamationsRead, V.DiagnosticsNamed, V.AllSeen, V.TestsFailed, AllGood;
    RecordGood(c, ev);
    CompleteParts(c, ev);
    var entries := V.AllEntries(c, ev);
    forall id | Needed(c, id) ensures RanOnce(c, entries, id) {
      NeededIsSeen(c, ev, id);
      OnceFrom(c, entries, id, ev.durationMs);
    }
    forall i | 0 <= i < |entries| ensures Needed(c, entries[i].row.id) {
      NeededIsSeen(c, ev, entries[i].row.id);
      SeenAt(entries, i);
    }
  }

  lemma {:induction false} SeenAt(entries: seq<Entry>, i: nat)
    requires i < |entries|
    ensures entries[i].row.id in V.SeenIds(entries)
  {
    assert entries[i] in entries;
  }

  lemma {:induction false} CompleteParts(c: V.Case, ev: Evidence)
    requires V.FullSound(c, ev) && V.Derived(c, ev)
    ensures V.OperationsOk(c, V.AllEntries(c, ev), ev.durationMs) && V.TotalMs(V.AllEntries(c, ev)) <= ev.durationMs + 2
    ensures ev.functional.Some? && ev.functional.value.results.Some? && V.AllPassed(ev.functional.value.results.value, c.plan.functional.selected)
    ensures |ev.sanitizers| == |c.plan.sanitizers.kinds|
    ensures forall i :: 0 <= i < |ev.sanitizers| ==> ev.sanitizers[i].kind == c.plan.sanitizers.kinds[i] && KindClean(c, ev.sanitizers[i])
    ensures ev.fuzz.Some? && V.FuzzSucceeded(ev.fuzz.value) && |ev.fuzz.value.replays| == |c.plan.fuzz.corpus|
  {
    hide V.KindFinished, V.KindRead, V.KindSucceeded, KindClean, V.RowOk, V.FuzzSucceeded, V.AllPassed, V.AllSeen;
    forall i | 0 <= i < |ev.sanitizers| ensures KindClean(c, ev.sanitizers[i]) {
      KindIsClean(c, ev.sanitizers[i]);
    }
    FirstEntry(c, ev);
  }

  lemma {:induction false} FirstEntry(c: V.Case, ev: Evidence)
    requires V.FunctionalRetained(c, ev) && V.KindsRead(c, ev) && V.FuzzRead(c, ev)
    ensures V.AllEntries(c, ev) != []
  {
    hide V.KindsEntries, V.FuzzEntries;
  }

  lemma {:induction false} NoDiagnosticsEver(c: V.Case, ev: Evidence)
    requires V.Validate(c, ev).Some? && V.FullSound(c, ev) && V.Derived(c, ev)
    ensures ev.diagnostics == [] && (ev.complete ==> ev.error.None?)
  {
    hide V.AllEntries, V.OperationsOk, V.KindsRead, V.FuzzRead, V.FunctionalRetained, V.ReclamationsRead, V.AllSeen, V.Derived, V.ValidateRuntimePrefix;
    if c.schema.V4? {
      NoDiagnostics(c, ev);
    }
  }
}
