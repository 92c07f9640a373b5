/** How the failed-prefix validator judges a gap-free record of done stages, one
    stage that stopped, and untouched stages. */
module RuntimePrefix {
  import opened Results
  import opened RuntimeTypes
  import opened RuntimeProducer
  import V = RuntimeValidator
  import opened RuntimeSlots
  import opened RuntimeReports
  import opened RuntimeSegments

  ghost function Tolerated(c: V.Case, ev: Evidence): set<OpId> {
    V.Nonfatal(V.ContinuableTests(c, ev.sanitizers))
  }

  /** done ++ mid ++ rest is the whole canonical order of `ev`; mid is recorded up to m. */
  ghost predicate Split(c: V.Case, ev: Evidence, done: seq<Slot>, mid: seq<Slot>, rest: seq<Slot>, m: nat) {
    && c.plan.sanitizers.kinds == [Address, Undefined] && ev.functional.Some?
    && V.AllSlots(c, ev) == done + mid + rest
    && AllDone(done, Tolerated(c, ev)) && FilledTo(mid, m) && AllEmpty(rest)
  }

  lemma {:induction false} SplitFilled(c: V.Case, ev: Evidence, done: seq<Slot>, mid: seq<Slot>, rest: seq<Slot>, m: nat)
    requires Split(c, ev, done, mid, rest, m)
    ensures DistinctIds(V.AllSlots(c, ev)) && FilledTo(V.AllSlots(c, ev), |done| + m)
    ensures forall i :: 0 <= i < |done| ==> V.AllSlots(c, ev)[i] == done[i]
    ensures forall i :: 0 <= i < |mid| ==> V.AllSlots(c, ev)[|done| + i] == mid[i]
  {
    AllDistinct(c, ev);
    var slots := V.AllSlots(c, ev);
    forall i | 0 <= i < |slots| ensures slots[i].row.Some? <==> i < |done| + m {
      if i < |done| {
        assert slots[i] == done[i];
      } else if i < |done| + |mid| {
        assert slots[i] == mid[i - |done|];
      } else {
        assert slots[i] == rest[i - |done| - |mid|];
      }
    }
  }

  /** The first fatal failure of mid is the aborting operation. */
  lemma {:induction false} SplitAborts(c: V.Case, ev: Evidence, done: seq<Slot>, mid: seq<Slot>, rest: seq<Slot>, m: nat, f: nat)
    requires Split(c, ev, done, mid, rest, m) && f < m
    requires !Good(mid[f].row.value) && mid[f].id !in Tolerated(c, ev)
    requires forall i :: 0 <= i < f ==> Good(mid[i].row.value)
    ensures var slots := V.AllSlots(c, ev);
            && V.Aborting(c, ev, slots) != [] && V.Aborting(c, ev, slots)[0] == mid[f].id
            && V.After(V.Present(slots), mid[f].id) == V.Ids(mid)[f + 1..m]
            && V.Present(slots) <= V.Ids(slots)
  {
    hide V.AllSlots, V.KindSlots, V.Keep, V.After, V.FailedIds, V.Present, V.Nonfatal, V.ContinuableTests, DistinctIds;
    SplitFilled(c, ev, done, mid, rest, m);
    var slots := V.AllSlots(c, ev);
    forall i | 0 <= i < |done| + f ensures Good(slots[i].row.value) || slots[i].id in Tolerated(c, ev) {
      if i >= |done| {
        assert slots[i] == mid[i - |done|];
      }
    }
    assert slots[|done| + f] == mid[f];
    AbortAt(slots, |done| + m, |done| + f, Tolerated(c, ev));
    PresentPrefix(slots, |done| + m);
    IdsWithin(done, mid, rest, f + 1, m);
  }

  lemma {:induction false} IdsWithin(done: seq<Slot>, mid: seq<Slot>, rest: seq<Slot>, a: nat, b: nat)
    requires a <= b <= |mid|
    ensures V.Ids(done + mid + rest)[|done| + a..|done| + b] == V.Ids(mid)[a..b]
  {}

  lemma {:induction false} SplitClean(c: V.Case, ev: Evidence, done: seq<Slot>, mid: seq<Slot>, rest: seq<Slot>, m: nat)
    requires Split(c, ev, done, mid, rest, m)
    requires forall i :: 0 <= i < m ==> Good(mid[i].row.value)
    ensures V.Aborting(c, ev, V.AllSlots(c, ev)) == []
    ensures V.Present(V.AllSlots(c, ev)) <= V.Ids(V.AllSlots(c, ev))
  {
    SplitFilled(c, ev, done, mid, rest, m);
    var slots := V.AllSlots(c, ev);
    forall i | 0 <= i < |done| + m ensures Good(slots[i].row.value) || slots[i].id in Tolerated(c, ev) {
      if i >= |done| {
        assert slots[i] == mid[i - |done|];
      }
    }
    NoAbort(slots, |done| + m, Tolerated(c, ev));
    PresentPrefix(slots, |done| + m);
  }

  ghost predicate PastFunctional(ev: Evidence) {
    !(ev.sanitizers == [] && ev.fuzz.None? && ev.reclamations == [])
  }

  /** Everything the prefix validator checks before it looks for the failure. */
  ghost predicate Sound(c: V.Case, ev: Evidence, now: nat) {
    && PastFunctional(ev) && V.StructureSound(c, ev)
    && c.plan.sanitizers.kinds == [Address, Undefined]
    && Tracked(c, V.AllSlots(c, ev), 0, now) && now / MS <= ev.durationMs
  }

  lemma {:induction false} SoundReaches(c: V.Case, ev: Evidence, now: nat)
    requires Sound(c, ev, now)
    ensures V.ValidateRuntimePrefix(c, ev) == V.JudgePrefix(c, ev, V.AllSlots(c, ev))
  {
    AllDistinct(c, ev);
    TrackedOperations(c, V.AllSlots(c, ev), now, ev.durationMs);
  }

  /** A native failure with exactly its allowed tail and its own error is accepted. */
  lemma {:induction false} NativeAccepted(c: V.Case, ev: Evidence, done: seq<Slot>, mid: seq<Slot>, rest: seq<Slot>, m: nat, f: nat, now: nat)
    requires Sound(c, ev, now)
    requires Split(c, ev, done, mid, rest, m) && f < m
    requires !Good(mid[f].row.value) && mid[f].id !in Tolerated(c, ev)
    requires forall i :: 0 <= i < f ==> Good(mid[i].row.value)
    requires V.SuffixAllowed(c.schema, c.plan.sanitizers.kinds, mid[f].id, V.Ids(mid)[f + 1..m])
    requires ev.error == Some(V.ExpectedError(V.AllSlots(c, ev), c.plan.sanitizers.kinds, mid[f].id))
    ensures V.ValidateRuntimePrefix(c, ev) == Some(V.LateVerdict(c, ev, V.AllSlots(c, ev), Some(mid[f].id)))
  {
    SoundReaches(c, ev, now);
    SplitAborts(c, ev, done, mid, rest, m, f);
  }

  /** A native failure under another error code is refused. */
  lemma {:induction false} NativeRefused(c: V.Case, ev: Evidence, done: seq<Slot>, mid: seq<Slot>, rest: seq<Slot>, m: nat, f: nat)
    requires PastFunctional(ev)
    requires Split(c, ev, done, mid, rest, m) && f < m
    requires !Good(mid[f].row.value) && mid[f].id !in Tolerated(c, ev)
    requires forall i :: 0 <= i < f ==> Good(mid[i].row.value)
    requires ev.error != Some(V.ExpectedError(V.AllSlots(c, ev), c.plan.sanitizers.kinds, mid[f].id))
    ensures V.ValidateRuntimePrefix(c, ev).None?
  {
    hide V.StructureSound, V.AllSlots;
    SplitAborts(c, ev, done, mid, rest, m, f);
  }

  /** Without a fatal failure only a deadline inside the fuzz stage is accepted. */
  lemma {:induction false} CleanRefused(c: V.Case, ev: Evidence, done: seq<Slot>, mid: seq<Slot>, rest: seq<Slot>, m: nat)
    requires PastFunctional(ev)
    requires Split(c, ev, done, mid, rest, m)
    requires forall i :: 0 <= i < m ==> Good(mid[i].row.value)
    requires ev.fuzz.None?
    ensures V.ValidateRuntimePrefix(c, ev).None?
  {
    SplitClean(c, ev, done, mid, rest, m);
  }

  lemma {:induction false} LateAccepted(c: V.Case, ev: Evidence, done: seq<Slot>, mid: seq<Slot>, rest: seq<Slot>, m: nat, now: nat)
    requires Sound(c, ev, now)
    requires Split(c, ev, done, mid, rest, m)
    requires forall i :: 0 <= i < m ==> Good(mid[i].row.value)
    requires ev.schema.V4? && ev.error == Some(DeadlineReached) && ev.durationMs >= c.plan.totalSeconds * 1000 && ev.fuzz.Some?
    ensures V.ValidateRuntimePrefix(c, ev) == Some(V.LateVerdict(c, ev, V.AllSlots(c, ev), None))
  {
    SoundReaches(c, ev, now);
    SplitClean(c, ev, done, mid, rest, m);
  }

  // ---------- tolerated failures ----------

  lemma {:induction false} ToleratedKind(c: V.Case, ev: Evidence, i: nat)
    requires i < |ev.sanitizers| && V.Continuable(c, ev.sanitizers[i])
    ensures var kind := ev.sanitizers[i].kind;
            {Tests(kind), TestLog(kind), Resources(kind)} <= Tolerated(c, ev)
  {
    var kind := ev.sanitizers[i].kind;
    assert Tests(kind) in V.ContinuableTests(c, ev.sanitizers);
    assert Tests(kind).Tests?;
  }

  lemma {:induction false} NotTolerated(c: V.Case, ev: Evidence, op: OpId)
    requires !op.TestLog? && !op.Resources?
    requires op.Tests? ==> forall i :: 0 <= i < |ev.sanitizers| && ev.sanitizers[i].kind == op.kind ==> !V.Continuable(c, ev.sanitizers[i])
    ensures op !in Tolerated(c, ev)
  {}

  // ---------- structure of produced evidence ----------

  function NotedBy(k: KindOutcome): seq<Diagnostic> {
    if k.diagnostic.Some? then [k.diagnostic.value] else []
  }

  function PartsOf(ks: seq<KindOutcome>): (r: seq<SanitizerPart>)
    ensures |r| == |ks|
    ensures forall i :: 0 <= i < |ks| ==> r[i] == ks[i].part
  {
    seq(|ks|, i requires 0 <= i < |ks| => ks[i].part)
  }

  function NotesOf(ks: seq<KindOutcome>): seq<Diagnostic> {
    if ks == [] then [] else NotesOf(ks[..|ks| - 1]) + NotedBy(ks[|ks| - 1])
  }

  /** Evidence assembled from stage results, in the order the stages ran. */
  ghost predicate Laid(c: V.Case, ev: Evidence, f: FunctionalPart, rs: seq<Row>, ks: seq<KindOutcome>) {
    && c.plan.sanitizers.kinds == [Address, Undefined] && c.schema.V4? && ev.schema.V4?
    && ev.functional == Some(f) && V.FunctionalPassed(c, f)
    && ev.reclamations == rs && |rs| <= 3 && (forall i :: 0 <= i < |rs| ==> rs[i].id == Reclaim(PHASES[i]))
    && |ks| <= 2 && ev.sanitizers == PartsOf(ks) && ev.diagnostics == NotesOf(ks)
    && (forall i :: 0 <= i < |ks| ==> ks[i].part.kind == c.plan.sanitizers.kinds[i])
    && (forall i :: 0 <= i < |ks| ==> KindPlaced(c, c.plan.sanitizers.kinds[i], ks[i].part, ks[i].diagnostic))
  }

  function NoteFor(ks: seq<KindOutcome>, i: nat): Option<Diagnostic> {
    if i < |ks| then ks[i].diagnostic else None
  }

  lemma {:induction false} NotesAre(ks: seq<KindOutcome>)
    requires |ks| <= 2
    ensures NotesOf(ks) == if |ks| == 0 then [] else if |ks| == 1 then NotedBy(ks[0]) else NotedBy(ks[0]) + NotedBy(ks[1])
  {
    if |ks| == 1 {
      assert ks[..0] == [];
    } else if |ks| == 2 {
      assert ks[..1][..0] == [];
      assert NotesOf(ks[..1]) == NotedBy(ks[0]);
    }
  }

  lemma {:induction false} LaidNotesAre(c: V.Case, ev: Evidence, f: FunctionalPart, rs: seq<Row>, ks: seq<KindOutcome>)
    requires Laid(c, ev, f, rs, ks)
    ensures |ks| <= 2 && c.plan.sanitizers.kinds == [Address, Undefined] && ev.diagnostics == NotesOf(ks)
    ensures |ks| > 0 ==> KindPlaced(c, Address, ks[0].part, ks[0].diagnostic)
    ensures |ks| > 1 ==> KindPlaced(c, Undefined, ks[1].part, ks[1].diagnostic)
  {
    hide V.FunctionalPassed, KindPlaced, NotesOf;
  }

  lemma {:induction false} NotesFound(c: V.Case, ev: Evidence, f: FunctionalPart, rs: seq<Row>, ks: seq<KindOutcome>)
    requires Laid(c, ev, f, rs, ks)
    ensures V.DiagnosticFor(ev.diagnostics, Address) == NoteFor(ks, 0)
    ensures V.DiagnosticFor(ev.diagnostics, Undefined) == NoteFor(ks, 1)
    ensures V.DiagnosticsNamed(c, ev)
  {
    hide Laid, KindPlaced, NotesOf, V.DiagnosticFor;
    LaidNotesAre(c, ev, f, rs, ks);
    NotesAre(ks);
    if |ks| > 0 {
      KindOfNote(c, Address, ks[0]);
    }
    if |ks| > 1 {
      KindOfNote(c, Undefined, ks[1]);
    }
    NotesNamed(ev.diagnostics, NoteFor(ks, 0), NoteFor(ks, 1));
  }

  lemma {:induction false} KindOfNote(c: V.Case, kind: Kind, k: KindOutcome)
    requires KindPlaced(c, kind, k.part, k.diagnostic)
    ensures k.diagnostic.Some? ==> k.diagnostic.value.kind == kind
  {}

  function OneNote(d: Option<Diagnostic>): seq<Diagnostic> {
    if d.Some? then [d.value] else []
  }

  lemma {:induction false} NotesNamed(notes: seq<Diagnostic>, a: Option<Diagnostic>, u: Option<Diagnostic>)
    requires notes == OneNote(a) + OneNote(u)
    requires (a.Some? ==> a.value.kind == Address) && (u.Some? ==> u.value.kind == Undefined)
    ensures V.DiagnosticFor(notes, Address) == a && V.DiagnosticFor(notes, Undefined) == u
    ensures |notes| <= 2
    ensures forall i :: 0 <= i < |notes| ==> notes[i].kind in [Address, Undefined]
    ensures forall i, j :: 0 <= i < j < |notes| ==> notes[i].kind != notes[j].kind
  {
    if a.Some? {
      assert notes[1..] == OneNote(u);
    }
  }

  ghost predicate RowSound(c: V.Case, row: Row, phase: Phase) {
    Good(row) ==> row.output.Some? && ReclaimedWell(c.w, row.output.value, phase)
  }

  lemma {:induction false} ReclaimRowAt(ev: Evidence, i: nat)
    requires i < 3
    ensures V.ReclaimRow(ev, PHASES[i]) == if i < |ev.reclamations| then Some(ev.reclamations[i]) else None
  {}

  ghost predicate RowsSoundIn(c: V.Case, ev: Evidence) {
    V.ReclaimSound(c, ev, Baseline) && V.ReclaimSound(c, ev, Of(Address)) && V.ReclaimSound(c, ev, Of(Undefined))
  }

  lemma {:induction false} OneRowSound(c: V.Case, ev: Evidence, i: nat)
    requires i < 3
    ensures V.ReclaimSound(c, ev, PHASES[i]) <==> (i < |ev.reclamations| ==> RowSound(c, ev.reclamations[i], PHASES[i]))
  {
    hide ReclaimedWell, V.ReclaimRow;
    ReclaimRowAt(ev, i);
  }

  lemma {:induction false} RowsPart(c: V.Case, ev: Evidence)
    requires |ev.reclamations| <= 3
    ensures RowsSoundIn(c, ev) <==> forall i :: 0 <= i < |ev.reclamations| ==> RowSound(c, ev.reclamations[i], PHASES[i])
  {
    hide RowSound, V.ReclaimSound;
    OneRowSound(c, ev, 0);
    OneRowSound(c, ev, 1);
    OneRowSound(c, ev, 2);
  }

  lemma {:induction false} KindsPart(c: V.Case, ev: Evidence, f: FunctionalPart, rs: seq<Row>, ks: seq<KindOutcome>)
    requires Laid(c, ev, f, rs, ks)
    ensures (forall i :: 0 <= i < |ev.sanitizers| ==> V.KindSound(c, ev.sanitizers[i], V.DiagnosticFor(ev.diagnostics, c.plan.sanitizers.kinds[i])))
            <==> forall i :: 0 <= i < |ks| ==> V.KindSound(c, ks[i].part, ks[i].diagnostic)
    ensures forall i :: |ev.sanitizers| <= i < 2 ==> V.DiagnosticFor(ev.diagnostics, c.plan.sanitizers.kinds[i]).None?
  {
    hide V.KindSound, V.FunctionalPassed, KindPlaced, V.DiagnosticFor, NotesOf;
    NotesFound(c, ev, f, rs, ks);
    forall i | 0 <= i < |ks| ensures ev.sanitizers[i] == ks[i].part && V.DiagnosticFor(ev.diagnostics, c.plan.sanitizers.kinds[i]) == ks[i].diagnostic {}
  }

  lemma {:induction false} FramePart(c: V.Case, ev: Evidence, f: FunctionalPart, rs: seq<Row>, ks: seq<KindOutcome>)
    requires Laid(c, ev, f, rs, ks)
    ensures V.FunctionalComplete(c, ev) && V.ReclamationsNamed(ev) && V.DiagnosticsNamed(c, ev)
    ensures |ev.sanitizers| <= 2 && c.plan.sanitizers.kinds == [Address, Undefined] && ev.reclamations == rs && |rs| <= 3
    ensures forall i :: 0 <= i < |ev.sanitizers| ==> ev.sanitizers[i].kind == c.plan.sanitizers.kinds[i]
  {
    hide V.FunctionalPassed, KindPlaced, NotesOf, V.DiagnosticsNamed;
    NotesFound(c, ev, f, rs, ks);
  }

  lemma {:induction false} StructureParts(c: V.Case, ev: Evidence, f: FunctionalPart, rs: seq<Row>, ks: seq<KindOutcome>)
    requires Laid(c, ev, f, rs, ks)
    ensures V.StructureSound(c, ev) <==>
      && (forall i :: 0 <= i < |rs| ==> RowSound(c, rs[i], PHASES[i]))
      && (forall i :: 0 <= i < |ks| ==> V.KindSound(c, ks[i].part, ks[i].diagnostic))
      && (ev.fuzz.Some? ==> V.FuzzSound(c, ev.fuzz.value))
      && V.EndsCollection(c, ev)
  {
    hide V.KindSound, V.FuzzSound, V.EndsCollection, V.FunctionalComplete, V.ReclamationsNamed, V.DiagnosticsNamed, V.ReclaimSound, RowSound, V.DiagnosticFor, Laid;
    FramePart(c, ev, f, rs, ks);
    RowsPart(c, ev);
    KindsPart(c, ev, f, rs, ks);
    var kinds := c.plan.sanitizers.kinds;
    assert (forall i :: 0 <= i < |kinds| ==> V.ReclaimSound(c, ev, Of(kinds[i]))) <==>
           V.ReclaimSound(c, ev, Of(kinds[0])) && V.ReclaimSound(c, ev, Of(kinds[1]));
  }
}
