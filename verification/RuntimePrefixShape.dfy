/** The shape of any failed record the validator accepts past the functional stage,
    and the one thing the full validator does not look at: places. */
module RuntimePrefixShape {
  import opened Results
  import opened Names
  import opened RuntimeTypes
  import V = RuntimeValidator
  import opened RuntimeSlots
  import opened RuntimeSegments
  import opened RuntimePrefix
  import S = RuntimeSoundness

  // ---------- reading the judge backwards ----------

  /** If the recorded identities are a prefix of the order, they have no gap. */
  lemma {:induction false} PrefixHasNoGap(ids: seq<OpId>, keep: set<OpId>)
    requires V.Keep(ids, keep) <= ids
    ensures forall i :: 0 <= i < |ids| ==> (ids[i] in keep <==> i < |V.Keep(ids, keep)|)
    decreases |ids|
  {
    if ids != [] {
      var rest := ids[1..];
      if ids[0] in keep {
        assert V.Keep(ids, keep)[1..] == V.Keep(rest, keep);
        PrefixHasNoGap(rest, keep);
        forall i | 0 <= i < |ids| ensures ids[i] in keep <==> i < |V.Keep(ids, keep)| {
          if i > 0 {
            assert ids[i] == rest[i - 1];
          }
        }
      } else {
        NothingKept(ids, keep);
      }
    }
  }

  lemma {:induction false} FirstIsMember(ids: seq<OpId>)
    ensures ids != [] ==> ids[0] in ids
  {}

  lemma {:induction false} NothingKept(ids: seq<OpId>, keep: set<OpId>)
    requires ids != [] && ids[0] !in keep && V.Keep(ids, keep) <= ids
    ensures V.Keep(ids, keep) == [] && forall i :: 0 <= i < |ids| ==> ids[i] !in keep
  {
    FirstIsMember(V.Keep(ids, keep));
    forall i | 0 <= i < |ids| ensures ids[i] !in keep {
      assert ids[i] in ids;
      assert ids[i] !in V.Keep(ids, keep);
    }
  }

  lemma {:induction false} KeepHead(ids: seq<OpId>, keep: set<OpId>)
    requires V.Keep(ids, keep) != []
    ensures exists f :: 0 <= f < |ids| && ids[f] == V.Keep(ids, keep)[0] && ids[f] in keep && forall i :: 0 <= i < f ==> ids[i] !in keep
    decreases |ids|
  {
    if ids[0] in keep {
      assert ids[0] == V.Keep(ids, keep)[0];
    } else {
      KeepHead(ids[1..], keep);
      var g :| 0 <= g < |ids| - 1 && ids[1..][g] == V.Keep(ids[1..], keep)[0] && ids[1..][g] in keep && forall i :: 0 <= i < g ==> ids[1..][i] !in keep;
      var f := g + 1;
      forall i | 0 <= i < f ensures ids[i] !in keep {
        if i > 0 {
          assert ids[i] == ids[1..][i - 1];
        }
      }
      assert ids[f] == V.Keep(ids, keep)[0];
    }
  }

  lemma {:induction false} KeepEmpty(ids: seq<OpId>, keep: set<OpId>)
    requires V.Keep(ids, keep) == []
    ensures forall i :: 0 <= i < |ids| ==> ids[i] !in keep
  {
    forall i | 0 <= i < |ids| ensures ids[i] !in keep {
      assert ids[i] in ids;
      assert ids[i] !in V.Keep(ids, keep);
    }
  }

  lemma {:induction false} RecordedAt(slots: seq<Slot>, i: nat)
    requires DistinctIds(slots) && i < |slots|
    ensures slots[i].id in V.RecordedIds(slots) <==> slots[i].row.Some?
  {
    if slots[i].id in V.RecordedIds(slots) {
      var k :| 0 <= k < |slots| && slots[k].row.Some? && slots[k].id == slots[i].id;
      assert k == i;
    }
  }

  lemma {:induction false} GapFree(slots: seq<Slot>)
    requires DistinctIds(slots) && V.Present(slots) <= V.Ids(slots)
    ensures FilledTo(slots, |V.Present(slots)|)
  {
    PrefixHasNoGap(V.Ids(slots), V.RecordedIds(slots));
    forall i | 0 <= i < |slots| ensures slots[i].row.Some? <==> i < |V.Present(slots)| {
      RecordedAt(slots, i);
      assert V.Ids(slots)[i] == slots[i].id;
    }
  }

  // ---------- the shape ----------

  /** A failure that does not end a collection: a completed CTest failure of a recorded
      sanitizer, or one of its two diagnostic reads. */
  ghost predicate ToleratedOp(c: V.Case, ev: Evidence, id: OpId) {
    exists i :: 0 <= i < |ev.sanitizers| && V.Continuable(c, ev.sanitizers[i]) &&
      (var kind := ev.sanitizers[i].kind; id == Tests(kind) || id == TestLog(kind) || id == Resources(kind))
  }

  lemma {:induction false} ToleratedIs(c: V.Case, ev: Evidence, id: OpId)
    ensures id in Tolerated(c, ev) <==> ToleratedOp(c, ev, id)
  {
    if ToleratedOp(c, ev, id) {
      var i :| 0 <= i < |ev.sanitizers| && V.Continuable(c, ev.sanitizers[i]) &&
        (var kind := ev.sanitizers[i].kind; id == Tests(kind) || id == TestLog(kind) || id == Resources(kind));
      ToleratedKind(c, ev, i);
    }
  }

  /** Every row below n succeeded or failed in a tolerated way. */
  ghost predicate GoodUpTo(c: V.Case, ev: Evidence, slots: seq<Slot>, n: nat) {
    n <= |slots| && forall i :: 0 <= i < n ==> slots[i].row.Some? && (Good(slots[i].row.value) || ToleratedOp(c, ev, slots[i].id))
  }

  /** What may stand recorded behind the aborting operation, up to place m. */
  ghost predicate TailAllowed(c: V.Case, slots: seq<Slot>, f: nat, m: nat) {
    && f < m <= |slots|
    && if slots[f].id.Tests? then
         var kind := slots[f].id.kind;
         (m == f + 3 || (m == f + 4 && slots[f + 3].id == Junit(kind)))
         && slots[f + 1].id == TestLog(kind) && slots[f + 2].id == Resources(kind)
       else m == f + 1
  }

  ghost predicate StoppedAt(c: V.Case, ev: Evidence, slots: seq<Slot>, op: OpId, m: nat) {
    exists f :: 0 <= f < m && m <= |slots| && slots[f].id == op && slots[f].row.Some? && !Good(slots[f].row.value)
      && !ToleratedOp(c, ev, op) && GoodUpTo(c, ev, slots, f) && TailAllowed(c, slots, f, m)
  }

  /** Attempted operations form a gap-free prefix of the canonical order, each with its
      rebuilt command; the charged operation is the first fatal failure, or there is
      none and the budget ran out inside the fuzz stage. */
  ghost predicate PrefixShaped(c: V.Case, ev: Evidence, v: V.Verdict) {
    && ev.functional.Some?
    && (var slots := V.AllSlots(c, ev);
        var m := |V.Present(slots)|;
        && FilledTo(slots, m)
        && (forall i :: 0 <= i < m ==> slots[i].row.value.id == slots[i].id && V.Matches(slots[i].row.value, V.SpecFor(c, slots[i].id)))
        && match v.failure
           case Some(op) => StoppedAt(c, ev, slots, op, m)
           case None => GoodUpTo(c, ev, slots, m) && ev.fuzz.Some? && ev.error == Some(DeadlineReached) && ev.durationMs >= c.plan.totalSeconds * 1000)
  }

  lemma {:induction false} RecordedRows(slots: seq<Slot>, i: nat)
    requires i < |slots| && slots[i].row.Some?
    ensures slots[i].row.value in V.Recorded(slots)
  {
    RecordedMembers(slots);
  }

  lemma {:induction false} RowsMatch(c: V.Case, slots: seq<Slot>, durationMs: int, i: nat)
    requires V.SlotsNamed(slots) && V.OperationsOk(c, V.Entries(V.Recorded(slots), 8 * MIB + 4096), durationMs)
    requires i < |slots| && slots[i].row.Some?
    ensures slots[i].row.value.id == slots[i].id && V.Matches(slots[i].row.value, V.SpecFor(c, slots[i].id))
  {
    RecordedRows(slots, i);
    var rows := V.Recorded(slots);
    var k :| 0 <= k < |rows| && rows[k] == slots[i].row.value;
    assert V.RowOk(c, V.Entries(rows, 8 * MIB + 4096)[k].row, V.Entries(rows, 8 * MIB + 4096)[k].maximum);
  }

  lemma {:induction false} AcceptedPrefix(c: V.Case, ev: Evidence)
    requires V.ValidateRuntimePrefix(c, ev).Some? && PastFunctional(ev)
    ensures ev.functional.Some?
    ensures var slots := V.AllSlots(c, ev);
            && V.SlotsNamed(slots) && V.OperationsOk(c, V.Entries(V.Recorded(slots), 8 * MIB + 4096), ev.durationMs)
            && V.JudgePrefix(c, ev, slots) == V.ValidateRuntimePrefix(c, ev)
  {
    hide V.AllSlots, V.OperationsOk, V.JudgePrefix, V.SlotsNamed, V.FunctionalPassed;
  }

  /** The judge's own conditions. */
  ghost predicate Judged(c: V.Case, ev: Evidence, slots: seq<Slot>, failed: Option<OpId>) {
    && V.Present(slots) <= V.Ids(slots)
    && match failed
       case None => V.DeadlineAbort(c, ev, V.Aborting(c, ev, slots))
       case Some(op) =>
         && V.Aborting(c, ev, slots) != [] && V.Aborting(c, ev, slots)[0] == op
         && V.SuffixAllowed(c.schema, c.plan.sanitizers.kinds, op, V.After(V.Present(slots), op))
  }

  lemma {:induction false} JudgeSays(c: V.Case, ev: Evidence, slots: seq<Slot>)
    requires V.JudgePrefix(c, ev, slots).Some?
    ensures Judged(c, ev, slots, V.JudgePrefix(c, ev, slots).value.failure)
  {
    hide V.Aborting, V.Present, V.SuffixAllowed, V.After, V.Keep, V.Summaries, V.JudgeKinds;
  }

  lemma {:induction false} AbortsFirst(c: V.Case, ev: Evidence, slots: seq<Slot>, m: nat)
    requires DistinctIds(slots) && FilledTo(slots, m) && m == |V.Present(slots)| && V.Present(slots) <= V.Ids(slots)
    requires V.Aborting(c, ev, slots) != []
    ensures exists f: nat :: FirstFatal(c, ev, slots, m, f)
  {
    var fatal := V.FailedIds(slots) - Tolerated(c, ev);
    var ids := V.Present(slots);
    KeepHead(ids, fatal);
    var f :| 0 <= f < |ids| && ids[f] == V.Keep(ids, fatal)[0] && ids[f] in fatal && forall i :: 0 <= i < f ==> ids[i] !in fatal;
    forall i | 0 <= i <= f ensures ids[i] == slots[i].id && slots[i].row.Some? && (i < f ==> Good(slots[i].row.value) || ToleratedOp(c, ev, slots[i].id)) {
      assert ids[i] == V.Ids(slots)[i];
      FailedAt(slots, i);
      ToleratedIs(c, ev, slots[i].id);
    }
    FailedAt(slots, f);
    ToleratedIs(c, ev, slots[f].id);
    assert GoodUpTo(c, ev, slots, f);
    assert FirstFatal(c, ev, slots, m, f);
  }

  ghost predicate FirstFatal(c: V.Case, ev: Evidence, slots: seq<Slot>, m: nat, f: nat) {
    && f < m <= |slots| && V.Aborting(c, ev, slots) != [] && slots[f].id == V.Aborting(c, ev, slots)[0]
    && slots[f].row.Some? && !Good(slots[f].row.value) && !ToleratedOp(c, ev, slots[f].id) && GoodUpTo(c, ev, slots, f)
  }

  lemma {:induction false} CleanUpTo(c: V.Case, ev: Evidence, slots: seq<Slot>, m: nat)
    requires DistinctIds(slots) && FilledTo(slots, m) && m == |V.Present(slots)| && V.Present(slots) <= V.Ids(slots)
    requires V.Aborting(c, ev, slots) == []
    ensures GoodUpTo(c, ev, slots, m)
  {
    var fatal := V.FailedIds(slots) - Tolerated(c, ev);
    var ids := V.Present(slots);
    KeepEmpty(ids, fatal);
    forall i | 0 <= i < m ensures Good(slots[i].row.value) || ToleratedOp(c, ev, slots[i].id) {
      assert ids[i] == V.Ids(slots)[i];
      FailedAt(slots, i);
      ToleratedIs(c, ev, slots[i].id);
    }
  }

  /** What follows the aborting operation is exactly what may follow it. */
  lemma {:induction false} TailFits(c: V.Case, slots: seq<Slot>, f: nat, m: nat)
    requires DistinctIds(slots) && f < m <= |slots| && c.schema.V4?
    requires V.SuffixAllowed(c.schema, c.plan.sanitizers.kinds, slots[f].id, V.After(V.Ids(slots)[..m], slots[f].id))
    requires slots[f].id.Tests? ==> slots[f].id.kind in c.plan.sanitizers.kinds
    ensures TailAllowed(c, slots, f, m)
  {
    var ids := V.Ids(slots)[..m];
    AfterAt(ids, f);
    var after := ids[f + 1..];
    assert |after| == m - f - 1;
    assert forall i :: 0 <= i < |after| ==> after[i] == slots[f + 1 + i].id;
    if slots[f].id.Tests? {
      var kind := slots[f].id.kind;
      var tail := [TestLog(kind), Resources(kind)];
      assert after == tail || after == tail + [Junit(kind)];
      assert after[0] == TestLog(kind) && after[1] == Resources(kind) && (|after| > 2 ==> |after| == 3 && after[2] == Junit(kind));
    }
  }

  lemma {:induction false} TestsPlanned(c: V.Case, slots: seq<Slot>, durationMs: int, f: nat)
    requires V.SlotsNamed(slots) && V.OperationsOk(c, V.Entries(V.Recorded(slots), 8 * MIB + 4096), durationMs)
    requires f < |slots| && slots[f].row.Some? && slots[f].id.Tests?
    ensures slots[f].id.kind in c.plan.sanitizers.kinds
  {
    RecordedRows(slots, f);
    var rows := V.Recorded(slots);
    var k :| 0 <= k < |rows| && rows[k] == slots[f].row.value;
    assert V.RowOk(c, V.Entries(rows, 8 * MIB + 4096)[k].row, V.Entries(rows, 8 * MIB + 4096)[k].maximum);
  }

  lemma {:induction false} StoppedFrom(c: V.Case, ev: Evidence, slots: seq<Slot>, op: OpId)
    requires DistinctIds(slots) && Judged(c, ev, slots, Some(op)) && c.schema.V4?
    requires V.SlotsNamed(slots) && V.OperationsOk(c, V.Entries(V.Recorded(slots), 8 * MIB + 4096), ev.durationMs)
    ensures StoppedAt(c, ev, slots, op, |V.Present(slots)|)
  {
    hide V.Aborting, V.SuffixAllowed, ToleratedOp, V.OperationsOk, TailAllowed, V.SlotsNamed, V.Keep, V.Present, GoodUpTo;
    GapFree(slots);
    var m := |V.Present(slots)|;
    AbortsFirst(c, ev, slots, m);
    var f: nat :| FirstFatal(c, ev, slots, m, f);
    if slots[f].id.Tests? {
      TestsPlanned(c, slots, ev.durationMs, f);
    }
    assert V.Present(slots) == V.Ids(slots)[..m];
    TailFits(c, slots, f, m);
  }

  // ---------- identities of any plan ----------

  /** The sanitizer an operation belongs to, if it belongs to one. */
  function KindOf(id: OpId): Option<Kind> {
    match id
    case Reclaim(Of(kind)) => Some(kind)
    case Configure(kind) => Some(kind)
    case Build(kind) => Some(kind)
    case Discover(kind) => Some(kind)
    case Tests(kind) => Some(kind)
    case TestLog(kind) => Some(kind)
    case Resources(kind) => Some(kind)
    case Junit(kind) => Some(kind)
    case _ => None
  }

  lemma {:induction false} DistinctConcat(a: seq<Slot>, b: seq<Slot>)
    requires DistinctIds(a) && DistinctIds(b) && forall i, j :: 0 <= i < |a| && 0 <= j < |b| ==> a[i].id != b[j].id
    ensures DistinctIds(a + b)
  {}

  lemma {:induction false} KindPlaces(kind: Kind, part: Option<SanitizerPart>, d: Option<Diagnostic>, row: Option<Row>)
    ensures var slots := V.KindSlots(kind, part, d) + [V.Slot(Reclaim(Of(kind)), row)];
            DistinctIds(slots) && forall i :: 0 <= i < |slots| ==> KindOf(slots[i].id) == Some(kind)
  {
    var slots := V.KindSlots(kind, part, d) + [V.Slot(Reclaim(Of(kind)), row)];
    if d.Some? {
      assert V.Ids(slots) == [Configure(kind), Build(kind), Discover(kind), Tests(kind), TestLog(kind), Resources(kind), Junit(kind), Reclaim(Of(kind))];
    } else {
      assert V.Ids(slots) == [Configure(kind), Build(kind), Discover(kind), Tests(kind), Junit(kind), Reclaim(Of(kind))];
    }
    IdsDistinct(slots);
  }

  lemma {:induction false} IdsDistinct(slots: seq<Slot>)
    requires forall i, j :: 0 <= i < j < |slots| ==> V.Ids(slots)[i] != V.Ids(slots)[j]
    ensures DistinctIds(slots)
  {
    forall i, j | 0 <= i < j < |slots| ensures slots[i].id != slots[j].id {
      assert V.Ids(slots)[i] == slots[i].id && V.Ids(slots)[j] == slots[j].id;
    }
  }

  lemma {:induction false} KindsDistinct(c: V.Case, ev: Evidence, i: nat)
    requires Distinct(c.plan.sanitizers.kinds) && i <= |c.plan.sanitizers.kinds|
    ensures var slots, kinds := V.SlotsFrom(c, ev, i), c.plan.sanitizers.kinds;
            && DistinctIds(slots)
            && forall j :: 0 <= j < |slots| ==> KindOf(slots[j].id).Some? && KindOf(slots[j].id).value in kinds[i..]
    decreases |c.plan.sanitizers.kinds| - i
  {
    hide V.KindSlots, V.ReclaimRow, V.DiagnosticFor;
    var kinds := c.plan.sanitizers.kinds;
    if i < |kinds| {
      var kind := kinds[i];
      var part := if i < |ev.sanitizers| then Some(ev.sanitizers[i]) else None;
      var here := V.KindSlots(kind, part, V.DiagnosticFor(ev.diagnostics, kind)) + [V.Slot(Reclaim(Of(kind)), V.ReclaimRow(ev, Of(kind)))];
      var rest := V.SlotsFrom(c, ev, i + 1);
      KindPlaces(kind, part, V.DiagnosticFor(ev.diagnostics, kind), V.ReclaimRow(ev, Of(kind)));
      KindsDistinct(c, ev, i + 1);
      assert kinds[i..] == [kind] + kinds[i + 1..];
      assert kind !in kinds[i + 1..];
      DistinctConcat(here, rest);
    }
  }

  lemma {:induction false} PlacesDistinct(c: V.Case, ev: Evidence)
    requires Distinct(c.plan.sanitizers.kinds) && ev.functional.Some?
    ensures DistinctIds(V.AllSlots(c, ev))
  {
    hide V.SlotsFrom, V.ReclaimRow;
    var a := V.FunctionalSlots(ev.functional.value) + [V.Slot(Reclaim(Baseline), V.ReclaimRow(ev, Baseline))];
    var b := V.SlotsFrom(c, ev, 0);
    var d := V.FuzzSlots(ev.fuzz, |c.plan.fuzz.corpus|);
    KindsDistinct(c, ev, 0);
    DistinctConcat(a, b);
    FuzzPlacesApart(ev.fuzz, |c.plan.fuzz.corpus|);
    DistinctConcat(a + b, d);
  }

  lemma {:induction false} FuzzPlacesApart(fuzz: Option<FuzzPart>, n: nat)
    ensures DistinctIds(V.FuzzSlots(fuzz, n))
    ensures var d := V.FuzzSlots(fuzz, n);
            forall i :: 0 <= i < |d| ==> d[i].id.FuzzStage? || d[i].id.FuzzConfigure? || d[i].id.FuzzBuild? || d[i].id.FuzzReplay?
  {}

  /** Any current-schema record the prefix validator accepts past the functional stage
      has this shape, whoever wrote it and whichever sanitizers were planned. */
  lemma {:induction false} PrefixMeans(c: V.Case, ev: Evidence)
    requires Distinct(c.plan.sanitizers.kinds) && c.schema.V4?
    requires V.ValidateRuntimePrefix(c, ev).Some? && PastFunctional(ev)
    ensures PrefixShaped(c, ev, V.ValidateRuntimePrefix(c, ev).value)
  {
    hide V.ValidateRuntimePrefix, V.AllSlots, V.OperationsOk, V.SlotsNamed, V.JudgePrefix, StoppedAt, GoodUpTo, V.Aborting, V.Matches, V.SpecFor, V.Present;
    AcceptedPrefix(c, ev);
    var slots := V.AllSlots(c, ev);
    PlacesDistinct(c, ev);
    JudgeSays(c, ev, slots);
    GapFree(slots);
    var m := |V.Present(slots)|;
    forall i | 0 <= i < m ensures slots[i].row.value.id == slots[i].id && V.Matches(slots[i].row.value, V.SpecFor(c, slots[i].id)) {
      RowsMatch(c, slots, ev.durationMs, i);
    }
    match V.ValidateRuntimePrefix(c, ev).value.failure
    case Some(op) => StoppedFrom(c, ev, slots, op);
    case None => CleanUpTo(c, ev, slots, m);
  }
}
