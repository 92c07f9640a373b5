/** The producer and the validator agree: evidence of a run is accepted exactly when
    the run's end left a trace the validator can corroborate. */
module RuntimeAgreement {
  import opened Results
  import opened RuntimeTypes
  import opened RuntimeProducer
  import V = RuntimeValidator
  import opened RuntimeSlots
  import opened RuntimeReports
  import opened RuntimeSegments
  import opened RuntimePrefix

  // ---------- the statement ----------

  /** Ends the validator can corroborate: a recorded native failure, a campaign that
      ran, or a deadline after the corpus was staged. */
  predicate Corroborated(halt: Halt) {
    match halt
    case Running => true
    case Raised(_, NativeFailure(_)) => true
    case Raised(_, CampaignUnsuccessful) => true
    case Raised(_, OutOfTime(op)) => op.FuzzConfigure? || op.FuzzBuild? || op.FuzzReplay? || op.FuzzCampaign?
    case _ => false
  }

  predicate NotesReadable(c: V.Case, notes: seq<Diagnostic>) {
    forall i :: 0 <= i < |notes| ==> V.Readable(c, Some(notes[i]))
  }

  /** The operation an ended run is charged to. */
  function Charged(halt: Halt): Option<OpId> {
    match halt
    case Raised(_, NativeFailure(op)) => Some(op)
    case _ => None
  }

  ghost predicate Agreed(s: Session, p: Progress) {
    var c, ev := CaseOf(s), Finish(s, p);
    var v := V.Validate(c, ev);
    && (v.Some? <==> Corroborated(p.halt) && NotesReadable(c, ev.diagnostics))
    && (v.Some? ==> v.value.complete == ev.complete && v.value.failure == Charged(p.halt))
  }

  /** The controller assembles the record at most five seconds after its budget. */
  ghost predicate Timely(s: Session, p: Progress) {
    (p.now + s.tail) / MS <= (TOTAL_SECONDS + 5) * 1000
  }

  // ---------- entering the prefix validator ----------

  /** A run that raised before its campaign. */
  ghost predicate Early(s: Session, p: Progress) {
    && Released(s) && Timely(s, p)
    && p.halt.Raised?
    && p.ev.schema == V.RuntimeTypes.V4 && p.ev.planSha == s.w.planSha(s.plan)
    && (p.ev.fuzz.None? || p.ev.fuzz.value.campaign.None?)
  }

  lemma {:induction false} EarlyValidate(s: Session, p: Progress)
    requires Early(s, p)
    ensures var c, ev := CaseOf(s), Finish(s, p);
            && (V.ValidateRuntimePrefix(c, ev).None? ==> V.Validate(c, ev).None?)
            && (!p.halt.code.Unmatched? ==> V.Validate(c, ev) == V.ValidateRuntimePrefix(c, ev))
  {
    hide V.ValidateRuntimePrefix, V.FullSound;
    assert 0 <= (p.now + s.tail) / MS;
  }

  lemma {:induction false} Refused(s: Session, p: Progress)
    requires Early(s, p) && !Corroborated(p.halt)
    requires V.ValidateRuntimePrefix(CaseOf(s), Finish(s, p)).None?
    ensures Agreed(s, p)
  {
    hide V.ValidateRuntimePrefix, V.Validate;
    EarlyValidate(s, p);
  }

  lemma {:induction false} Accepted(s: Session, p: Progress, v: V.Verdict)
    requires Early(s, p) && Corroborated(p.halt) && !p.halt.code.Unmatched?
    requires NotesReadable(CaseOf(s), p.ev.diagnostics)
    requires V.ValidateRuntimePrefix(CaseOf(s), Finish(s, p)) == Some(v)
    requires !v.complete && v.failure == Charged(p.halt)
    ensures Agreed(s, p)
  {
    hide V.ValidateRuntimePrefix, V.Validate;
    EarlyValidate(s, p);
  }

  lemma {:induction false} Unreadable(s: Session, p: Progress)
    requires Early(s, p) && !NotesReadable(CaseOf(s), p.ev.diagnostics)
    requires V.ValidateRuntimePrefix(CaseOf(s), Finish(s, p)).None?
    ensures Agreed(s, p)
  {
    hide V.ValidateRuntimePrefix, V.Validate;
    EarlyValidate(s, p);
  }

  // ---------- the functional stage ----------

  lemma {:induction false} FunctionalStop(s: Session, f: FunctionalOutcome, p: Progress)
    requires Released(s) && FunctionalReport(CaseOf(s), f) && f.halt.Raised?
    requires p == Progress(Evidence(V.RuntimeTypes.V4, s.w.planSha(s.plan), Some(f.part), [], None, false, None, 0, [], []), f.now, false, f.halt)
    requires Timely(s, p)
    ensures Agreed(s, p)
  {
    var c, ev := CaseOf(s), Finish(s, p);
    assert V.ValidateRuntimePrefix(c, ev) == V.ValidateFunctionalPrefix(c, ev);
    match f.halt.stop
    case NativeFailure(op) =>
      FunctionalOperations(c, f, ev.durationMs, p.now + s.tail);
      FunctionalAccepted(c, f, op, ev);
      Accepted(s, p, V.ValidateFunctionalPrefix(c, ev).value);
    case BadContent(_) =>
      FunctionalRefused(c, f, ev);
      Refused(s, p);
    case OutOfTime(_) =>
      FunctionalRefused(c, f, ev);
      Refused(s, p);
  }

  function Present(row: Option<Row>): seq<Row> {
    if row.Some? then [row.value] else []
  }

  function RowsOf(f: FunctionalPart): seq<Row> {
    Present(f.setup) + Present(f.operation) + Present(f.resultsRead)
  }

  lemma {:induction false} FunctionalMillis(f: FunctionalPart)
    ensures Millis(RowsOf(f)) == FunctionalMs(f)
  {
    PresentMillis(f.setup);
    PresentMillis(f.operation);
    PresentMillis(f.resultsRead);
    MillisConcat(Present(f.setup) + Present(f.operation), Present(f.resultsRead));
    MillisConcat(Present(f.setup), Present(f.operation));
  }

  lemma {:induction false} FunctionalRowFits(c: V.Case, row: Row)
    requires Faithful(c, row) && (row.id.FunctionalSetup? || row.id.FunctionalRun? || row.id.FunctionalRead?)
    ensures V.RowOk(c, row, 2 * MIB + 4096)
  {
    FaithfulFits(c, row, 2 * MIB + 4096);
  }

  lemma {:induction false} FunctionalOperations(c: V.Case, f: FunctionalOutcome, durationMs: int, end: nat)
    requires FunctionalPlaced(c, f.part) && FunctionalMs(f.part) * MS <= f.now <= end && durationMs == end / MS
    ensures V.OperationsOk(c, V.Entries(RowsOf(f.part), 2 * MIB + 4096), durationMs)
  {
    hide V.RowOk, Faithful;
    var part, rows := f.part, RowsOf(f.part);
    EntriesTotal(rows, 2 * MIB + 4096);
    FunctionalMillis(part);
    FunctionalRowsPlaced(c, part);
    forall i | 0 <= i < |rows| ensures V.RowOk(c, rows[i], 2 * MIB + 4096) {
      FunctionalRowFits(c, rows[i]);
    }
  }

  lemma {:induction false} FunctionalRowsPlaced(c: V.Case, part: FunctionalPart)
    requires FunctionalPlaced(c, part)
    ensures var rows := RowsOf(part);
            && (forall i :: 0 <= i < |rows| ==> Faithful(c, rows[i]) && (rows[i].id.FunctionalSetup? || rows[i].id.FunctionalRun? || rows[i].id.FunctionalRead?))
            && (forall i, j :: 0 <= i < j < |rows| ==> rows[i].id != rows[j].id)
  {
    hide Faithful;
  }

  lemma {:induction false} PresentMillis(row: Option<Row>)
    ensures Millis(Present(row)) == Ms(row)
  {
    if row.Some? {
      assert [row.value][..0] == [];
    }
  }

  ghost predicate Carries(c: V.Case, f: FunctionalOutcome, ev: Evidence) {
    && ev.functional == Some(f.part) && ev.diagnostics == [] && !ev.complete
    && f.halt.Raised? && ev.error == Some(f.halt.code)
  }

  lemma {:induction false} FunctionalAccepted(c: V.Case, f: FunctionalOutcome, op: OpId, ev: Evidence)
    requires FunctionalReport(c, f) && Carries(c, f, ev) && f.halt.stop == NativeFailure(op)
    requires V.OperationsOk(c, V.Entries(RowsOf(f.part), 2 * MIB + 4096), ev.durationMs)
    ensures V.ValidateFunctionalPrefix(c, ev).Some?
    ensures var v := V.ValidateFunctionalPrefix(c, ev).value; !v.complete && v.failure == Some(op)
    ensures !f.halt.code.Unmatched?
  {
    hide V.OperationsOk, V.RowOk;
    var part, maximum := f.part, 2 * MIB + 4096;
    if op == FunctionalSetup {
      assert V.Entries(RowsOf(part), maximum) == [V.Entry(part.setup.value, maximum)];
    } else {
      assert V.Entries(RowsOf(part), maximum)
          == [V.Entry(part.setup.value, maximum), V.Entry(part.operation.value, maximum), V.Entry(part.resultsRead.value, maximum)];
    }
  }

  lemma {:induction false} FunctionalRefused(c: V.Case, f: FunctionalOutcome, ev: Evidence)
    requires FunctionalReport(c, f) && Carries(c, f, ev) && (f.halt.stop.BadContent? || f.halt.stop.OutOfTime?)
    ensures V.ValidateFunctionalPrefix(c, ev).None?
  {
    hide V.OperationsOk;
  }
}
