/** The validator's running check of recorded operations: identities seen so far and
    milliseconds counted so far, updated row by row. */
module RuntimeOperations {
  import opened Results
  import opened RuntimeTypes
  import V = RuntimeValidator

  type Entry = V.Entry

  class OperationCheck {
    const c: V.Case
    const durationMs: int
    var seen: set<OpId>
    var observedMs: int
    /** The rows accepted so far, in the order they were read. */
    ghost var accepted: seq<Entry>

    ghost predicate Valid()
      reads this
    {
      && V.OperationsOk(c, accepted, durationMs)
      && seen == V.SeenIds(accepted)
      && observedMs == V.TotalMs(accepted) && 0 <= observedMs
    }

    constructor (c: V.Case, durationMs: int)
      ensures Valid() && accepted == [] && this.c == c && this.durationMs == durationMs
    {
      this.c, this.durationMs := c, durationMs;
      seen, observedMs, accepted := {}, 0, [];
    }

    /** Reads one row: its bytes, exactly when it may follow the rows accepted before. */
    method Operation(row: Row, maximum: nat) returns (raw: Option<Bytes>)
      requires Valid()
      modifies this
      ensures Valid()
      ensures raw.Some? <==> V.OperationsOk(c, old(accepted) + [V.Entry(row, maximum)], durationMs)
      ensures raw.Some? ==> accepted == old(accepted) + [V.Entry(row, maximum)] && raw == row.output
      ensures raw.None? ==> accepted == old(accepted) && seen == old(seen) && observedMs == old(observedMs)
    {
      hide V.OperationsOk, V.SeenIds, V.TotalMs, V.SpecFor, V.Planned;
      var e := V.Entry(row, maximum);
      Appended(c, accepted, e, durationMs);
      if !(-255 <= row.exitCode <= 255) || row.durationMs < 0 { return None; }
      if !V.Planned(c, row.id) || row.id in seen { return None; }
      var spec := V.SpecFor(c, row.id);
      if !V.Matches(row, spec) || row.durationMs > spec.seconds * 1000 + 2000 { return None; }
      if observedMs + row.durationMs > durationMs + 2 { return None; }
      raw := Output(c.w, row, Min(maximum, spec.limit));
      if raw.Some? {
        seen, observedMs, accepted := seen + {row.id}, observedMs + row.durationMs, accepted + [e];
      }
    }
  }

  lemma {:induction false} TotalsAppend(entries: seq<Entry>, e: Entry)
    ensures V.SeenIds(entries + [e]) == V.SeenIds(entries) + {e.row.id}
    ensures V.TotalMs(entries + [e]) == V.TotalMs(entries) + e.row.durationMs
  {
    var more := entries + [e];
    assert more[..|more| - 1] == entries;
    assert more[|entries|] == e;
    forall x | x in more ensures x in entries || x == e {}
    assert e in more;
  }

  lemma {:induction false} NewIdentity(entries: seq<Entry>, id: OpId)
    ensures id !in V.SeenIds(entries) <==> forall i :: 0 <= i < |entries| ==> entries[i].row.id != id
  {
    if id !in V.SeenIds(entries) {
      forall i | 0 <= i < |entries| ensures entries[i].row.id != id {
        assert entries[i] in entries;
      }
    }
  }

  /** One more row is fine iff it is fine itself, is new, and still fits in the time. */
  lemma {:induction false} Appended(c: V.Case, entries: seq<Entry>, e: Entry, durationMs: int)
    requires V.OperationsOk(c, entries, durationMs)
    ensures V.OperationsOk(c, entries + [e], durationMs) <==>
              V.RowOk(c, e.row, e.maximum) && e.row.id !in V.SeenIds(entries) && V.TotalMs(entries) + e.row.durationMs <= durationMs + 2
    ensures V.SeenIds(entries + [e]) == V.SeenIds(entries) + {e.row.id}
    ensures V.TotalMs(entries + [e]) == V.TotalMs(entries) + e.row.durationMs
  {
    hide V.RowOk, V.SeenIds, V.TotalMs;
    var more := entries + [e];
    TotalsAppend(entries, e);
    NewIdentity(entries, e.row.id);
    assert more[|entries|] == e && forall i :: 0 <= i < |entries| ==> more[i] == entries[i];
    if V.OperationsOk(c, more, durationMs) {
      assert V.RowOk(c, more[|entries|].row, more[|entries|].maximum);
      forall i | 0 <= i < |entries| ensures entries[i].row.id != e.row.id {
        assert more[i].row.id != more[|entries|].row.id;
      }
    }
  }
}
