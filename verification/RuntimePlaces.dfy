/** The full validator binds operations to commands, not rows to their places. */
module RuntimePlaces {
  import opened Results
  import opened RuntimeTypes
  import V = RuntimeValidator
  import S = RuntimeSoundness
  import C = RuntimeCampaign

  type Entry = V.Entry

  /** The same evidence with the first two functional rows in each other's place. */
  function Swapped(ev: Evidence): Evidence
    requires ev.functional.Some?
  {
    var f := ev.functional.value;
    ev.(functional := Some(f.(setup := f.operation, operation := f.setup)))
  }

  lemma {:induction false} SwapChecks(c: V.Case, a: Entry, b: Entry, rest: seq<Entry>, durationMs: int)
    requires V.OperationsOk(c, [a] + ([b] + rest), durationMs)
    ensures V.OperationsOk(c, [b] + ([a] + rest), durationMs)
    ensures V.SeenIds([a] + ([b] + rest)) == V.SeenIds([b] + ([a] + rest))
  {
    hide V.RowOk;
    var x, y := [a] + ([b] + rest), [b] + ([a] + rest);
    C.TotalConcat([a], [b] + rest);
    C.TotalConcat([b], rest);
    C.TotalConcat([b], [a] + rest);
    C.TotalConcat([a], rest);
    assert x[0] == a && x[1] == b && y[0] == b && y[1] == a;
    assert forall i :: 2 <= i < |y| ==> y[i] == x[i];
    SameMembers(a, b, rest);
  }

  lemma {:induction false} SameMembers(a: Entry, b: Entry, rest: seq<Entry>)
    ensures V.SeenIds([a] + ([b] + rest)) == V.SeenIds([b] + ([a] + rest))
  {
    assert forall e :: e in [a] + ([b] + rest) <==> e in [b] + ([a] + rest);
  }

  /** What follows the first two entries. */
  function Rest(c: V.Case, ev: Evidence): seq<Entry>
    requires V.FunctionalRetained(c, ev) && V.KindsRead(c, ev) && V.FuzzRead(c, ev)
  {
    assert forall i :: 0 <= i < |ev.sanitizers| ==> V.KindRead(c, ev.sanitizers[i]);
    [V.Entry(ev.functional.value.resultsRead.value, 2 * MIB + 4096)]
    + V.KindsEntries(c, ev.sanitizers, ev.diagnostics)
    + V.FuzzEntries(ev.fuzz.value)
    + (if V.AtLeastV2(c.schema) then V.Entries(ev.reclamations, 4096) else [])
  }

  lemma {:induction false} EntriesStart(c: V.Case, ev: Evidence)
    requires V.FunctionalRetained(c, ev) && V.KindsRead(c, ev) && V.FuzzRead(c, ev)
    ensures var f := ev.functional.value;
            V.AllEntries(c, ev) == [V.Entry(f.setup.value, 4 * MIB)] + ([V.Entry(f.operation.value, 4 * MIB)] + Rest(c, ev))
  {
    hide V.KindsEntries, V.FuzzEntries, V.Entries, V.FunctionalRetained, V.KindFinished, V.ListedNames, FileBytes, ReadJunit, Output;
    assert forall i :: 0 <= i < |ev.sanitizers| ==> V.KindRead(c, ev.sanitizers[i]);
    S.FunctionalThere(c, ev);
    S.FuzzThere(c, ev);
    var f := ev.functional.value;
    Regroup(V.Entry(f.setup.value, 4 * MIB), V.Entry(f.operation.value, 4 * MIB), V.Entry(f.resultsRead.value, 2 * MIB + 4096),
            V.KindsEntries(c, ev.sanitizers, ev.diagnostics), V.FuzzEntries(ev.fuzz.value),
            if V.AtLeastV2(c.schema) then V.Entries(ev.reclamations, 4096) else []);
  }

  lemma {:induction false} Regroup(a: Entry, b: Entry, d: Entry, x: seq<Entry>, y: seq<Entry>, z: seq<Entry>)
    ensures [a, b, d] + x + y + z == [a] + ([b] + ([d] + x + y + z))
  {}

  lemma {:induction false} SwapReads(c: V.Case, ev: Evidence)
    requires V.FunctionalRetained(c, ev) && V.KindsRead(c, ev) && V.FuzzRead(c, ev)
    ensures ev.functional.Some?
    ensures V.FunctionalRetained(c, Swapped(ev)) && V.KindsRead(c, Swapped(ev)) && V.FuzzRead(c, Swapped(ev))
    ensures Rest(c, Swapped(ev)) == Rest(c, ev)
  {
    hide V.KindsEntries, V.FuzzEntries, V.Entries, V.KindRead, V.KindFinished;
  }

  /** Accepted complete evidence stays accepted, with the same verdict, when the rows
      of the first two functional operations trade places: soundness holds for each
      operation's identity, not for the field its row stands in. */
  lemma {:induction false} PlacesAreNotChecked(c: V.Case, ev: Evidence)
    requires V.Validate(c, ev).Some? && ev.complete
    ensures ev.functional.Some? && V.Validate(c, Swapped(ev)) == V.Validate(c, ev)
  {
    hide V.ValidateRuntimePrefix, V.AllEntries, V.OperationsOk, V.AllSeen, V.Derived, V.KindsRead, V.FuzzRead, V.FunctionalRetained, Rest,
         V.ReclamationsRead, V.DiagnosticsNamed, V.TestsFailed, V.FullVerdict, V.FuzzSucceeded;
    S.CompleteIsFull(c, ev);
    SwapReads(c, ev);
    SwapEntries(c, ev);
    SwapDerived(c, ev);
    SwapRest(c, ev);
    assert !V.StoppedEarly(c, Swapped(ev));
  }

  lemma {:induction false} SwapEntries(c: V.Case, ev: Evidence)
    requires V.FullSound(c, ev) && ev.functional.Some?
    requires V.FunctionalRetained(c, Swapped(ev)) && V.KindsRead(c, Swapped(ev)) && V.FuzzRead(c, Swapped(ev))
    requires Rest(c, Swapped(ev)) == Rest(c, ev)
    ensures V.OperationsOk(c, V.AllEntries(c, Swapped(ev)), ev.durationMs)
    ensures V.AllSeen(c, Swapped(ev), V.AllEntries(c, Swapped(ev)))
  {
    hide V.AllEntries, V.OperationsOk, V.Derived, V.KindsRead, V.FuzzRead, Rest, V.ReclamationsRead, V.DiagnosticsNamed, V.TestsFailed, V.SeenIds,
         V.FuzzSucceeded, V.FunctionalRetained;
    S.FunctionalThere(c, ev);
    EntriesStart(c, ev);
    EntriesStart(c, Swapped(ev));
    var f := ev.functional.value;
    SwapChecks(c, V.Entry(f.setup.value, 4 * MIB), V.Entry(f.operation.value, 4 * MIB), Rest(c, ev), ev.durationMs);
    forall id ensures V.RequiredOp(c, Swapped(ev), id) <==> V.RequiredOp(c, ev, id) {
      assert Swapped(ev).diagnostics == ev.diagnostics;
    }
  }

  lemma {:induction false} SwapDerived(c: V.Case, ev: Evidence)
    requires V.FullSound(c, ev) && V.Derived(c, ev) && ev.functional.Some?
    requires V.FunctionalRetained(c, Swapped(ev)) && V.KindsRead(c, Swapped(ev)) && V.FuzzRead(c, Swapped(ev))
    ensures V.Derived(c, Swapped(ev)) && V.FullVerdict(c, Swapped(ev)) == V.FullVerdict(c, ev)
  {
    hide V.AllEntries, V.OperationsOk, V.AllSeen, V.KindsRead, V.FuzzRead, V.ReclamationsRead, V.DiagnosticsNamed, V.FuzzSucceeded,
         V.KindSucceeded, V.FinishedKinds, V.FailedTestIds, V.FailedRowIds, V.Summaries, V.AllPassed;
  }

  lemma {:induction false} SwapRest(c: V.Case, ev: Evidence)
    requires ev.functional.Some?
    ensures V.TestsFailed(Swapped(ev)) <==> V.TestsFailed(ev)
    ensures V.ReclamationsRead(c, Swapped(ev)) <==> V.ReclamationsRead(c, ev)
    ensures V.DiagnosticsNamed(c, Swapped(ev)) <==> V.DiagnosticsNamed(c, ev)
  {
    hide ReclaimedWell;
  }

  // ---------- discoveries ----------

  /** The same evidence with the discovery rows of two sanitizers in each other's place. */
  function Traded(ev: Evidence, i: nat, j: nat): Evidence
    requires i < j < |ev.sanitizers|
  {
    var p, q := ev.sanitizers[i], ev.sanitizers[j];
    ev.(sanitizers := ev.sanitizers[i := p.(discovery := q.discovery)][j := q.(discovery := p.discovery)])
  }

  /** Complete evidence, and two of its sanitizers. */
  ghost predicate Tradable(c: V.Case, ev: Evidence, i: nat, j: nat) {
    V.FullSound(c, ev) && V.Derived(c, ev) && ev.diagnostics == [] && i < j < |ev.sanitizers|
  }

  /** A sanitizer is read the same with another row in its discovery field exactly when
      that row lists the same names. */
  lemma {:induction false} ReadsLike(c: V.Case, part: SanitizerPart, other: SanitizerPart)
    requires V.KindRead(c, part) && V.KindRead(c, other)
    ensures V.KindRead(c, part.(discovery := other.discovery)) <==> V.ListedNames(c, other) == V.ListedNames(c, part)
  {
    hide Output, FileBytes, ReadNames;
    var traded := part.(discovery := other.discovery);
    assert V.ListedNames(c, traded) == V.ListedNames(c, other);
    RequiredAsListed(c, part);
    if V.KindRead(c, traded) {
      RequiredAsListed(c, traded);
    }
  }

  lemma {:induction false} RequiredAsListed(c: V.Case, part: SanitizerPart)
    requires V.KindRead(c, part)
    ensures part.results.Some? && V.ListedNames(c, part) == Some(part.results.value.required)
  {}

  lemma {:induction false} FinishesLike(c: V.Case, part: SanitizerPart, other: SanitizerPart, d: Option<Diagnostic>)
    requires V.KindRead(c, part) && V.KindRead(c, other) && V.ListedNames(c, other) == V.ListedNames(c, part)
    requires V.KindRead(c, part.(discovery := other.discovery)) && V.KindFinished(c, part, d) && Has(other.discovery)
    ensures V.KindFinished(c, part.(discovery := other.discovery), d)
  {
    hide V.KindRead, Output, FileBytes, ReadNames, TestsCompleted, DiagnosticsReadable;
    assert V.ListedNames(c, part.(discovery := other.discovery)) == V.ListedNames(c, other);
  }

  lemma {:induction false} ReadAt(c: V.Case, ev: Evidence, i: nat)
    requires V.KindsRead(c, ev) && i < |ev.sanitizers|
    ensures V.KindRead(c, ev.sanitizers[i])
    ensures ev.sanitizers[i].kind == c.plan.sanitizers.kinds[i]
    ensures c.schema.V4? ==> V.KindFinished(c, ev.sanitizers[i], V.DiagnosticFor(ev.diagnostics, ev.sanitizers[i].kind))
  {
    hide V.KindRead, V.KindFinished;
  }

  lemma {:induction false} SucceededAt(c: V.Case, ev: Evidence, i: nat)
    requires V.FunctionalRetained(c, ev) && V.KindsRead(c, ev) && V.FuzzRead(c, ev) && V.Derived(c, ev) && i < |ev.sanitizers|
    ensures V.KindSucceeded(ev.sanitizers[i]) && Has(ev.sanitizers[i].discovery)
  {
    hide V.KindRead, V.KindFinished, V.FunctionalRetained, V.FuzzRead, V.FuzzSucceeded, V.AllPassed;
    assert V.KindSucceeded(ev.sanitizers[i]);
  }

  lemma {:induction false} KindsReadLike(c: V.Case, ev: Evidence, i: nat, j: nat)
    requires Tradable(c, ev, i, j)
    ensures V.KindsRead(c, Traded(ev, i, j)) <==> V.ListedNames(c, ev.sanitizers[i]) == V.ListedNames(c, ev.sanitizers[j])
  {
    hide V.KindRead, V.KindFinished, V.AllEntries, V.OperationsOk, V.AllSeen, V.Derived, V.FuzzRead, V.FunctionalRetained, V.ListedNames,
         V.ReclamationsRead, V.DiagnosticsNamed, V.TestsFailed, V.FuzzSucceeded, V.KindSucceeded;
    var t, p, q := Traded(ev, i, j), ev.sanitizers[i], ev.sanitizers[j];
    ReadAt(c, ev, i);
    ReadAt(c, ev, j);
    SucceededAt(c, ev, i);
    SucceededAt(c, ev, j);
    ReadsLike(c, p, q);
    ReadsLike(c, q, p);
    if V.ListedNames(c, p) == V.ListedNames(c, q) {
      if c.schema.V4? {
        FinishesLike(c, p, q, V.DiagnosticFor(ev.diagnostics, p.kind));
        FinishesLike(c, q, p, V.DiagnosticFor(ev.diagnostics, q.kind));
      }
      forall n | 0 <= n < |t.sanitizers|
        ensures t.sanitizers[n].kind == c.plan.sanitizers.kinds[n] && V.KindRead(c, t.sanitizers[n])
        ensures c.schema.V4? ==> V.KindFinished(c, t.sanitizers[n], V.DiagnosticFor(t.diagnostics, t.sanitizers[n].kind))
      {
        if n != i && n != j {
          ReadAt(c, ev, n);
        }
      }
    } else if V.KindsRead(c, t) {
      ReadAt(c, t, i);
    }
  }

  // ---------- the entries of the trade ----------

  function Exchanged<T>(s: seq<T>, p: nat, q: nat): seq<T>
    requires p < |s| && q < |s|
  {
    s[p := s[q]][q := s[p]]
  }

  lemma {:induction false} TotalUpdate(entries: seq<Entry>, p: nat, e: Entry)
    requires p < |entries|
    ensures V.TotalMs(entries[p := e]) == V.TotalMs(entries) - entries[p].row.durationMs + e.row.durationMs
  {
    var last := |entries| - 1;
    var changed := entries[p := e];
    if p == last {
      assert changed[..last] == entries[..last];
    } else {
      TotalUpdate(entries[..last], p, e);
      assert changed[..last] == entries[..last][p := e];
    }
  }

  lemma {:induction false} ExchangeChecks(c: V.Case, entries: seq<Entry>, p: nat, q: nat, durationMs: int)
    requires p < q < |entries| && V.OperationsOk(c, entries, durationMs)
    ensures V.OperationsOk(c, Exchanged(entries, p, q), durationMs)
    ensures V.SeenIds(Exchanged(entries, p, q)) == V.SeenIds(entries)
    ensures entries[p].row != entries[q].row
  {
    hide V.RowOk;
    TotalUpdate(entries, p, entries[q]);
    TotalUpdate(entries[p := entries[q]], q, entries[p]);
    SameEntries(entries, p, q);
  }

  lemma {:induction false} SameEntries(entries: seq<Entry>, p: nat, q: nat)
    requires p < q < |entries|
    ensures V.SeenIds(Exchanged(entries, p, q)) == V.SeenIds(entries)
  {
    var changed := Exchanged(entries, p, q);
    assert changed[p] == entries[q] && changed[q] == entries[p];
    forall e | e in entries ensures e in changed {
      var n :| 0 <= n < |entries| && entries[n] == e;
      assert n != p && n != q ==> changed[n] == e;
    }
  }

  lemma {:induction false} RetainedLike(ev: Evidence, i: nat, j: nat)
    requires i < j < |ev.sanitizers| && forall n :: 0 <= n < |ev.sanitizers| ==> V.Retained(ev.sanitizers[n])
    ensures forall n :: 0 <= n < |ev.sanitizers| ==> V.Retained(Traded(ev, i, j).sanitizers[n])
  {}

  lemma {:induction false} KindEntriesTrade(c: V.Case, ev: Evidence, i: nat, j: nat)
    requires i < j < |ev.sanitizers| && forall n :: 0 <= n < |ev.sanitizers| ==> V.Retained(ev.sanitizers[n])
    ensures forall n :: 0 <= n < |ev.sanitizers| ==> V.Retained(Traded(ev, i, j).sanitizers[n])
    ensures |V.KindsEntries(c, ev.sanitizers, [])| == 5 * |ev.sanitizers| && 5 * i + 2 < 5 * j + 2 < 5 * |ev.sanitizers|
    ensures V.KindsEntries(c, Traded(ev, i, j).sanitizers, []) == Exchanged(V.KindsEntries(c, ev.sanitizers, []), 5 * i + 2, 5 * j + 2)
  {
    hide V.KindsEntries, V.Retained;
    RetainedLike(ev, i, j);
    var parts, traded := ev.sanitizers, Traded(ev, i, j).sanitizers;
    S.FlatKinds(c, parts);
    S.FlatKinds(c, traded);
    var e, f := V.KindsEntries(c, parts, []), V.KindsEntries(c, traded, []);
    forall x | 0 <= x < 5 * |parts| ensures f[x] == Exchanged(e, 5 * i + 2, 5 * j + 2)[x] {
      var n, k := x / 5, x % 5;
      assert x == 5 * n + k && n < |parts|;
      assert e[5 * n + k] == S.FieldEntry(parts[n], k) && f[5 * n + k] == S.FieldEntry(traded[n], k);
      assert e[5 * i + 2] == S.FieldEntry(parts[i], 2) && e[5 * j + 2] == S.FieldEntry(parts[j], 2);
    }
  }

  lemma {:induction false} EntriesTrade(c: V.Case, ev: Evidence, i: nat, j: nat)
    requires Tradable(c, ev, i, j) && V.KindsRead(c, Traded(ev, i, j))
    ensures V.FunctionalRetained(c, Traded(ev, i, j)) && V.FuzzRead(c, Traded(ev, i, j))
    ensures 5 * j + 5 < |V.AllEntries(c, ev)|
    ensures V.AllEntries(c, Traded(ev, i, j)) == Exchanged(V.AllEntries(c, ev), 5 * i + 5, 5 * j + 5)
  {
    hide V.KindsEntries, V.FuzzEntries, V.Entries, V.FunctionalRetained, V.KindsRead, V.FuzzRead, V.OperationsOk, V.AllSeen, V.Derived, V.Retained,
         V.ReclamationsRead, V.DiagnosticsNamed, V.TestsFailed, V.FuzzSucceeded;
    SameStages(c, ev, i, j);
    S.PartsRetained(c, ev);
    S.FunctionalThere(c, ev);
    FuzzRows(c, ev);
    KindEntriesTrade(c, ev, i, j);
    var f := ev.functional.value;
    var head := [V.Entry(f.setup.value, 4 * MIB), V.Entry(f.operation.value, 4 * MIB), V.Entry(f.resultsRead.value, 2 * MIB + 4096)];
    var tail := if V.AtLeastV2(c.schema) then V.Entries(ev.reclamations, 4096) else [];
    Framed(head, V.KindsEntries(c, ev.sanitizers, []), V.FuzzEntries(ev.fuzz.value), tail, 5 * i + 2, 5 * j + 2);
  }

  lemma {:induction false} FuzzRows(c: V.Case, ev: Evidence)
    requires V.FuzzRead(c, ev)
    ensures ev.fuzz.Some?
    ensures var f := ev.fuzz.value;
            && f.corpusStage.Some? && f.configure.Some? && f.build.Some? && f.campaign.Some?
            && forall n :: 0 <= n < |f.replays| ==> f.replays[n].Some?
  {
    hide Output, CampaignMetrics;
  }

  lemma {:induction false} Framed(a: seq<Entry>, b: seq<Entry>, d: seq<Entry>, e: seq<Entry>, p: nat, q: nat)
    requires p < q < |b|
    ensures |a| + q < |a + b + d + e|
    ensures a + Exchanged(b, p, q) + d + e == Exchanged(a + b + d + e, |a| + p, |a| + q)
  {}

  lemma {:induction false} SameStages(c: V.Case, ev: Evidence, i: nat, j: nat)
    requires i < j < |ev.sanitizers|
    ensures V.FunctionalRetained(c, Traded(ev, i, j)) <==> V.FunctionalRetained(c, ev)
    ensures V.FuzzRead(c, Traded(ev, i, j)) <==> V.FuzzRead(c, ev)
    ensures V.ReclamationsRead(c, Traded(ev, i, j)) <==> V.ReclamationsRead(c, ev)
    ensures V.DiagnosticsNamed(c, Traded(ev, i, j)) <==> V.DiagnosticsNamed(c, ev)
    ensures V.TestsFailed(Traded(ev, i, j)) <==> V.TestsFailed(ev)
  {
    hide ReclaimedWell, V.FunctionalFile, ReadCsv, Output, CampaignMetrics;
    var t := Traded(ev, i, j);
    assert forall n :: 0 <= n < |ev.sanitizers| ==> V.FailedTests(t.sanitizers[n]) == V.FailedTests(ev.sanitizers[n]);
  }

  // ---------- the verdict of the trade ----------

  /** What the verdict says of a sanitizer does not involve its discovery row. */
  predicate SpokenAlike(a: SanitizerPart, b: SanitizerPart) {
    a.kind == b.kind && a.tests == b.tests && a.results == b.results
  }

  lemma {:induction false} PartsAlike(c: V.Case, a: seq<SanitizerPart>, b: seq<SanitizerPart>)
    requires |a| == |b| && forall n :: 0 <= n < |a| ==> SpokenAlike(a[n], b[n]) && a[n].results.Some? && b[n].results.Some?
    ensures V.FinishedKinds(c, a) == V.FinishedKinds(c, b) && V.FailedTestIds(a) == V.FailedTestIds(b)
  {
    if a != [] {
      forall n | 0 <= n < |a[1..]| ensures SpokenAlike(a[1..][n], b[1..][n]) && a[1..][n].results.Some? && b[1..][n].results.Some? {
        assert a[1..][n] == a[n + 1] && b[1..][n] == b[n + 1];
      }
      PartsAlike(c, a[1..], b[1..]);
      assert SpokenAlike(a[0], b[0]);
    }
  }

  lemma {:induction false} NoSummaries(c: V.Case, parts: seq<SanitizerPart>)
    ensures V.Summaries(c, parts, []) == []
  {
    if parts != [] {
      NoSummaries(c, parts[1..]);
    }
  }

  lemma {:induction false} VerdictAlike(c: V.Case, ev: Evidence, i: nat, j: nat)
    requires Tradable(c, ev, i, j) && V.KindsRead(c, Traded(ev, i, j))
    ensures V.FunctionalRetained(c, Traded(ev, i, j)) && V.FuzzRead(c, Traded(ev, i, j))
    ensures V.FullVerdict(c, Traded(ev, i, j)) == V.FullVerdict(c, ev) && V.Derived(c, Traded(ev, i, j))
  {
    hide V.FunctionalRetained, V.KindsRead, V.FuzzRead, V.OperationsOk, V.AllSeen, V.Derived, V.AllEntries, V.FinishedKinds, V.FailedTestIds, V.FailedRowIds,
         V.ReclamationsRead, V.DiagnosticsNamed, V.TestsFailed, V.FuzzSucceeded, V.Summaries;
    var t := Traded(ev, i, j);
    SameStages(c, ev, i, j);
    ResultsThere(c, ev);
    PartsAlike(c, ev.sanitizers, t.sanitizers);
    NoSummaries(c, ev.sanitizers);
    NoSummaries(c, t.sanitizers);
    DerivedAlike(c, ev, i, j);
  }

  lemma {:induction false} ResultsThere(c: V.Case, ev: Evidence)
    requires V.KindsRead(c, ev)
    ensures forall n :: 0 <= n < |ev.sanitizers| ==> ev.sanitizers[n].results.Some?
  {
    hide V.KindRead, V.KindFinished;
    forall n | 0 <= n < |ev.sanitizers| ensures ev.sanitizers[n].results.Some? {
      RequiredAsListed(c, ev.sanitizers[n]);
    }
  }

  lemma {:induction false} DerivedAlike(c: V.Case, ev: Evidence, i: nat, j: nat)
    requires i < j < |ev.sanitizers|
    requires V.FunctionalRetained(c, ev) && V.KindsRead(c, ev) && V.FuzzRead(c, ev) && V.Derived(c, ev)
    requires V.FunctionalRetained(c, Traded(ev, i, j)) && V.KindsRead(c, Traded(ev, i, j)) && V.FuzzRead(c, Traded(ev, i, j))
    ensures V.Derived(c, Traded(ev, i, j))
  {
    hide V.FunctionalRetained, V.KindsRead, V.FuzzRead, V.FuzzSucceeded, V.AllPassed;
    var t := Traded(ev, i, j);
    forall n | 0 <= n < |t.sanitizers| ensures V.KindSucceeded(t.sanitizers[n]) {
      SucceededAt(c, ev, n);
      SucceededAt(c, ev, i);
      SucceededAt(c, ev, j);
    }
  }

  lemma {:induction false} RequiredAlike(c: V.Case, ev: Evidence, i: nat, j: nat)
    requires i < j < |ev.sanitizers| && ev.diagnostics == []
    ensures forall id :: V.RequiredOp(c, Traded(ev, i, j), id) <==> V.RequiredOp(c, ev, id)
  {
    hide V.Planned;
  }

  lemma {:induction false} SoundAlike(c: V.Case, ev: Evidence, i: nat, j: nat)
    requires Tradable(c, ev, i, j) && V.KindsRead(c, Traded(ev, i, j))
    ensures V.FullSound(c, Traded(ev, i, j)) && Traded(ev, i, j) != ev
  {
    hide V.AllEntries, V.OperationsOk, V.SeenIds, V.Derived, V.KindsRead, V.FuzzRead, V.FunctionalRetained, V.ReclamationsRead, V.DiagnosticsNamed,
         V.TestsFailed, V.FuzzSucceeded, V.RequiredOp, Exchanged;
    EntriesTrade(c, ev, i, j);
    ExchangeChecks(c, V.AllEntries(c, ev), 5 * i + 5, 5 * j + 5, ev.durationMs);
    SameStages(c, ev, i, j);
    VerdictAlike(c, ev, i, j);
    RequiredAlike(c, ev, i, j);
    DiscoveriesDiffer(c, ev, i, j);
  }

  lemma {:induction false} DiscoveriesDiffer(c: V.Case, ev: Evidence, i: nat, j: nat)
    requires V.FunctionalRetained(c, ev) && V.KindsRead(c, ev) && V.FuzzRead(c, ev) && ev.diagnostics == [] && i < j < |ev.sanitizers|
    requires 5 * j + 5 < |V.AllEntries(c, ev)| && V.AllEntries(c, ev)[5 * i + 5].row != V.AllEntries(c, ev)[5 * j + 5].row
    ensures Traded(ev, i, j) != ev
  {
    hide V.AllEntries, V.FunctionalRetained, V.FuzzRead, V.KindsRead;
    S.EntryAt(c, ev, i, 2);
    S.EntryAt(c, ev, j, 2);
    assert Traded(ev, i, j).sanitizers[i].discovery == ev.sanitizers[j].discovery;
  }

  /** Accepted complete evidence with the discovery rows of two sanitizers traded is other
      evidence; it is accepted, with the same verdict, exactly when both discoveries
      listed the same names. */
  lemma {:induction false} DiscoveriesTrade(c: V.Case, ev: Evidence, i: nat, j: nat)
    requires V.Validate(c, ev).Some? && ev.complete && i < j < |ev.sanitizers|
    ensures V.Validate(c, Traded(ev, i, j)) ==
              if V.ListedNames(c, ev.sanitizers[i]) == V.ListedNames(c, ev.sanitizers[j]) then V.Validate(c, ev) else None
    ensures V.Validate(c, Traded(ev, i, j)).Some? ==> Traded(ev, i, j) != ev
  {
    hide V.ValidateRuntimePrefix, V.FullSound, V.Derived, V.FullVerdict, V.ListedNames;
    S.CompleteIsFull(c, ev);
    S.NoDiagnosticsEver(c, ev);
    FullReads(c, ev);
    KindsReadLike(c, ev, i, j);
    if V.KindsRead(c, Traded(ev, i, j)) {
      SoundAlike(c, ev, i, j);
      VerdictAlike(c, ev, i, j);
    } else {
      NotSound(c, Traded(ev, i, j));
    }
  }

  lemma {:induction false} FullReads(c: V.Case, ev: Evidence)
    requires V.FullSound(c, ev)
    ensures V.FunctionalRetained(c, ev) && V.KindsRead(c, ev) && V.FuzzRead(c, ev)
  {
    hide V.AllEntries, V.OperationsOk, V.AllSeen, V.KindsRead, V.FuzzRead, V.FunctionalRetained, V.Derived;
  }

  lemma {:induction false} NotSound(c: V.Case, ev: Evidence)
    requires !V.KindsRead(c, ev)
    ensures !V.FullSound(c, ev)
  {
    hide V.AllEntries, V.OperationsOk, V.AllSeen, V.KindsRead, V.FuzzRead, V.FunctionalRetained, V.Derived;
  }
}
