/** Recorded operations in canonical order: gap-free prefixes, first aborts, time. */
module RuntimeSlots {
  import opened Results
  import opened RuntimeTypes
  import opened RuntimeValidator

  // ---------- identities ----------

  ghost predicate DistinctIds(slots: seq<Slot>) {
    forall i, j :: 0 <= i < j < |slots| ==> slots[i].id != slots[j].id
  }

  ghost predicate AllEmpty(slots: seq<Slot>) {
    forall i :: 0 <= i < |slots| ==> slots[i].row.None?
  }

  /** Every place is recorded, and no failure in it ends the collection. */
  ghost predicate AllDone(slots: seq<Slot>, nonfatal: set<OpId>) {
    forall i :: 0 <= i < |slots| ==> slots[i].row.Some? && (Good(slots[i].row.value) || slots[i].id in nonfatal)
  }

  ghost predicate FilledTo(slots: seq<Slot>, m: nat) {
    && m <= |slots|
    && (forall i :: 0 <= i < m ==> slots[i].row.Some?)
    && (forall i :: m <= i < |slots| ==> slots[i].row.None?)
  }

  lemma {:induction false} KeepPrefix(ids: seq<OpId>, keep: set<OpId>, m: nat)
    requires m <= |ids|
    requires forall i :: 0 <= i < |ids| ==> (ids[i] in keep <==> i < m)
    ensures Keep(ids, keep) == ids[..m]
    decreases |ids|
  {
    if ids == [] {
    } else if m == 0 {
      KeepPrefix(ids[1..], keep, 0);
    } else {
      KeepPrefix(ids[1..], keep, m - 1);
      assert ids[..m] == [ids[0]] + ids[1..][..m - 1];
    }
  }

  lemma {:induction false} KeepFirst(ids: seq<OpId>, keep: set<OpId>, f: nat)
    requires f < |ids| && ids[f] in keep
    requires forall i :: 0 <= i < f ==> ids[i] !in keep
    ensures Keep(ids, keep) != [] && Keep(ids, keep)[0] == ids[f]
    decreases |ids|
  {
    if f > 0 {
      KeepFirst(ids[1..], keep, f - 1);
    }
  }

  lemma {:induction false} KeepNone(ids: seq<OpId>, keep: set<OpId>)
    requires forall i :: 0 <= i < |ids| ==> ids[i] !in keep
    ensures Keep(ids, keep) == []
    decreases |ids|
  {
    if ids != [] {
      KeepNone(ids[1..], keep);
    }
  }

  lemma {:induction false} AfterAt(ids: seq<OpId>, f: nat)
    requires f < |ids|
    requires forall i, j :: 0 <= i < j < |ids| ==> ids[i] != ids[j]
    ensures After(ids, ids[f]) == ids[f + 1..]
    decreases |ids|
  {
    if f > 0 {
      assert ids[0] != ids[f];
      AfterAt(ids[1..], f - 1);
      assert ids[1..][f - 1 + 1..] == ids[f + 1..];
    }
  }

  /** The recorded identities of a gap-free list are its first ones. */
  lemma {:induction false} PresentPrefix(slots: seq<Slot>, m: nat)
    requires DistinctIds(slots) && FilledTo(slots, m)
    ensures Present(slots) == Ids(slots)[..m]
    ensures Present(slots) <= Ids(slots)
  {
    forall i | 0 <= i < |slots| ensures Ids(slots)[i] in RecordedIds(slots) <==> i < m {
      if Ids(slots)[i] in RecordedIds(slots) {
        var k :| 0 <= k < |slots| && slots[k].row.Some? && slots[k].id == slots[i].id;
        assert k == i;
      }
    }
    KeepPrefix(Ids(slots), RecordedIds(slots), m);
  }

  lemma {:induction false} FailedAt(slots: seq<Slot>, i: nat)
    requires DistinctIds(slots) && i < |slots|
    ensures slots[i].id in FailedIds(slots) <==> slots[i].row.Some? && !Good(slots[i].row.value)
  {
    if slots[i].id in FailedIds(slots) {
      var k :| 0 <= k < |slots| && slots[k].row.Some? && !Good(slots[k].row.value) && slots[k].id == slots[i].id;
      assert k == i;
    }
  }

  /** The first fatal failure of a gap-free record, and exactly what follows it. */
  lemma {:induction false} AbortAt(slots: seq<Slot>, m: nat, f: nat, nonfatal: set<OpId>)
    requires DistinctIds(slots) && FilledTo(slots, m) && f < m
    requires !Good(slots[f].row.value) && slots[f].id !in nonfatal
    requires forall i :: 0 <= i < f ==> Good(slots[i].row.value) || slots[i].id in nonfatal
    ensures Keep(Present(slots), FailedIds(slots) - nonfatal) != []
    ensures Keep(Present(slots), FailedIds(slots) - nonfatal)[0] == slots[f].id
    ensures After(Present(slots), slots[f].id) == Ids(slots)[f + 1..m]
  {
    PresentPrefix(slots, m);
    var ids := Ids(slots)[..m];
    forall i | 0 <= i <= f ensures ids[i] in FailedIds(slots) - nonfatal <==> i == f {
      FailedAt(slots, i);
    }
    KeepFirst(ids, FailedIds(slots) - nonfatal, f);
    AfterAt(ids, f);
    assert ids[f + 1..] == Ids(slots)[f + 1..m];
  }

  lemma {:induction false} NoAbort(slots: seq<Slot>, m: nat, nonfatal: set<OpId>)
    requires DistinctIds(slots) && FilledTo(slots, m)
    requires forall i :: 0 <= i < m ==> Good(slots[i].row.value) || slots[i].id in nonfatal
    ensures Keep(Present(slots), FailedIds(slots) - nonfatal) == []
  {
    PresentPrefix(slots, m);
    var ids := Ids(slots)[..m];
    forall i | 0 <= i < |ids| ensures ids[i] !in FailedIds(slots) - nonfatal {
      FailedAt(slots, i);
    }
    KeepNone(ids, FailedIds(slots) - nonfatal);
  }

  // ---------- rows and time ----------

  function Millis(rows: seq<Row>): int {
    if rows == [] then 0 else Millis(rows[..|rows| - 1]) + rows[|rows| - 1].durationMs
  }

  lemma {:induction false} MillisConcat(a: seq<Row>, b: seq<Row>)
    ensures Millis(a + b) == Millis(a) + Millis(b)
    decreases |b|
  {
    if b == [] {
      assert a + b == a;
    } else {
      var last := |b| - 1;
      assert (a + b)[..|a + b| - 1] == a + b[..last];
      MillisConcat(a, b[..last]);
    }
  }

  lemma {:induction false} RecordedConcat(a: seq<Slot>, b: seq<Slot>)
    ensures Recorded(a + b) == Recorded(a) + Recorded(b)
    decreases |b|
  {
    if b == [] {
      assert a + b == a;
      assert Recorded(a) + Recorded(b) == Recorded(a);
    } else {
      var last := |b| - 1;
      assert (a + b)[..|a + b| - 1] == a + b[..last];
      RecordedConcat(a, b[..last]);
      var tail := if b[last].row.Some? then [b[last].row.value] else [];
      assert Recorded(a + b[..last]) + tail == Recorded(a) + (Recorded(b[..last]) + tail);
    }
  }

  lemma {:induction false} RecordedEmpty(slots: seq<Slot>)
    requires AllEmpty(slots)
    ensures Recorded(slots) == []
    decreases |slots|
  {
    if slots != [] {
      RecordedEmpty(slots[..|slots| - 1]);
    }
  }

  lemma {:induction false} RecordedMembers(slots: seq<Slot>)
    ensures forall r :: r in Recorded(slots) <==> exists i :: 0 <= i < |slots| && slots[i].row == Some(r)
    decreases |slots|
  {
    if slots != [] {
      var last := |slots| - 1;
      RecordedMembers(slots[..last]);
      forall r ensures r in Recorded(slots) <==> exists i :: 0 <= i < |slots| && slots[i].row == Some(r) {
        if r in Recorded(slots) {
          if r in Recorded(slots[..last]) {
            var i :| 0 <= i < last && slots[..last][i].row == Some(r);
            assert slots[i].row == Some(r);
          } else {
            assert slots[last].row == Some(r);
          }
        }
        if exists i :: 0 <= i < |slots| && slots[i].row == Some(r) {
          var i :| 0 <= i < |slots| && slots[i].row == Some(r);
          if i < last {
            assert slots[..last][i].row == Some(r);
          }
        }
      }
    }
  }

  /** A recorded row is what its rebuilt command could have produced. */
  ghost predicate Faithful(c: Case, row: Row) {
    && Planned(c, row.id)
    && RowOk(c, row, SpecFor(c, row.id).limit)
  }

  lemma {:induction false} FaithfulFits(c: Case, row: Row, maximum: nat)
    requires Faithful(c, row) && SpecFor(c, row.id).limit <= maximum
    ensures RowOk(c, row, maximum)
  {}

  /** Faithful rows, in their own places, recorded between two clock readings. */
  ghost predicate Tracked(c: Case, slots: seq<Slot>, from: nat, to: nat) {
    && from <= to
    && SlotsNamed(slots)
    && (forall i :: 0 <= i < |slots| && slots[i].row.Some? ==> Faithful(c, slots[i].row.value))
    && Millis(Recorded(slots)) * 1_000_000 <= to - from
  }

  lemma {:induction false} TrackedConcat(c: Case, a: seq<Slot>, b: seq<Slot>, t0: nat, t1: nat, t2: nat)
    requires Tracked(c, a, t0, t1) && Tracked(c, b, t1, t2)
    ensures Tracked(c, a + b, t0, t2)
  {
    RecordedConcat(a, b);
    MillisConcat(Recorded(a), Recorded(b));
  }

  lemma {:induction false} TrackedEmpty(c: Case, slots: seq<Slot>, t0: nat, t1: nat)
    requires AllEmpty(slots) && t0 <= t1
    ensures Tracked(c, slots, t0, t1)
  {
    RecordedEmpty(slots);
  }

  lemma {:induction false} EntriesTotal(rows: seq<Row>, maximum: nat)
    ensures TotalMs(Entries(rows, maximum)) == Millis(rows)
    decreases |rows|
  {
    if rows != [] {
      var last := |rows| - 1;
      assert Entries(rows, maximum)[..last] == Entries(rows[..last], maximum);
      EntriesTotal(rows[..last], maximum);
    }
  }

  lemma {:induction false} DistinctRows(slots: seq<Slot>)
    requires DistinctIds(slots) && SlotsNamed(slots)
    ensures forall i, j :: 0 <= i < j < |Recorded(slots)| ==> Recorded(slots)[i].id != Recorded(slots)[j].id
    decreases |slots|
  {
    if slots != [] {
      var last := |slots| - 1;
      var front := slots[..last];
      DistinctRows(front);
      RecordedMembers(front);
      if slots[last].row.Some? {
        forall i | 0 <= i < |Recorded(front)| ensures Recorded(front)[i].id != slots[last].id {
          assert Recorded(front)[i] in Recorded(front);
          var k :| 0 <= k < |front| && front[k].row == Some(Recorded(front)[i]);
          assert front[k] == slots[k];
        }
      }
    }
  }

  /** Tracked places with distinct identities pass the check on every operation. */
  lemma {:induction false} TrackedOperations(c: Case, slots: seq<Slot>, now: nat, durationMs: int)
    requires Tracked(c, slots, 0, now) && DistinctIds(slots)
    requires now / 1_000_000 <= durationMs
    ensures OperationsOk(c, Entries(Recorded(slots), 8 * MIB + 4096), durationMs)
  {
    var rows := Recorded(slots);
    DistinctRows(slots);
    RecordedMembers(slots);
    EntriesTotal(rows, 8 * MIB + 4096);
    forall i | 0 <= i < |rows| ensures RowOk(c, rows[i], 8 * MIB + 4096) {
      assert rows[i] in rows;
      FaithfulFits(c, rows[i], 8 * MIB + 4096);
    }
    assert Millis(rows) <= now / 1_000_000;
  }
}
