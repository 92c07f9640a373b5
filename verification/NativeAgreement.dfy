/** The replay and the validator agree: an honest record is accepted exactly when its
    contents can be read, and then counts exactly the tests it saw through. */
module NativeAgreement {
  import opened Results
  import opened Names
  import opened NativeTests
  import opened NativeReplay

  // ---------- the statement ----------

  /** The transport keeps its promises: exit codes and output sizes that fit, and no
      invocation over 32 seconds. */
  ghost predicate Faithful(s: Session) {
    forall step: Step :: s.answer(step).Returned? ==>
      var a := s.answer(step);
      -255 <= a.exitCode <= 255 && |a.output| <= 65536 && a.ns / MS <= 32000
  }

  /** The validator is asked about this replay, with an enclosing duration that really
      encloses it, if any. */
  ghost predicate Asked(s: Session, c: Case) {
    && c.w == s.w && c.group == s.group && c.plan == s.plan
    && (c.enclosingMs.Some? ==> Run(s).ns / MS <= c.enclosingMs.value)
  }

  predicate Fine(a: Answer) {
    a.Returned? && a.exitCode == 0 && !a.timedOut && !a.truncated
  }

  /** The copies are those of the planned binaries, within their limits. */
  predicate CopiesFit(s: Session, plans: seq<Plan>, json: Json<Document>) {
    && json.Strict? && json.value.Mapping? && json.value.entries.Keys == (set b | b in Binaries(plans))
    && FactsOk(s.group, Binaries(plans), json.value.entries)
  }

  /** An answer can be read strictly: it needs no redaction and, where it succeeded, has
      the form its reader wants. */
  predicate Legible(s: Session, plans: seq<Plan>, step: Step) {
    var a := s.answer(step);
    && a.Returned? && s.w.clean(a.output)
    && (Fine(a) ==>
         match step
         case Copying => CopiesFit(s, plans, s.w.document(a.output))
         case Libraries(k) => Fine(s.answer(Symbols(k))) ==> s.w.dynamic(a.output).Some?
         case Before(_) => s.w.fact(a.output).Strict?
         case After(_) => s.w.fact(a.output).Strict?
         case Probing(_) => s.w.probe(a.output).Some?
         case _ => true)
  }

  /** The answer of this step is in the record. */
  predicate Recorded(ev: Evidence, step: Step) {
    match step
    case Copying => ev.snapshotOp.Some?
    case Symbols(k) => k < |ev.inspections|
    case Libraries(k) => k < |ev.inspections|
    case Before(i) => i < |ev.tests| && ev.tests[i].before.Some?
    case Probing(i) => i < |ev.tests| && ev.tests[i].probe.Some?
    case Executing(i) => i < |ev.tests| && ev.tests[i].execution.Some?
    case After(i) => i < |ev.tests| && ev.tests[i].after.Some?
  }

  /** Every answer the replay got and kept can be read strictly; a failure to plan has a
      code of this stage. */
  ghost predicate ReadsStrictly(s: Session) {
    match s.plan
    case Err(message) => IsCode(message)
    case Ok(plans) => forall step: Step :: Recorded(Run(s).ev, step) ==> Legible(s, plans, step)
  }

  // ---------- the same of the record ----------

  predicate Clean(w: World, op: Option<Op>) {
    op.Some? ==> w.clean(Out(op.value))
  }

  predicate CopiesLegible(c: Case, plans: seq<Plan>, ev: Evidence) {
    && Clean(c.w, ev.snapshotOp) && ev.snapshots.Mapping?
    && (ev.snapshotOp.Some? && Good(ev.snapshotOp.value) ==>
          c.w.document(Out(ev.snapshotOp.value)) == Strict(ev.snapshots) && ev.snapshots.entries.Keys == (set b | b in Binaries(plans)))
    && FactsOk(c.group, Binaries(plans), ev.snapshots.entries)
  }

  predicate InspectionLegible(c: Case, i: Inspection) {
    && Clean(c.w, Some(i.symbols)) && Clean(c.w, Some(i.libraries))
    && (Good(i.symbols) && Good(i.libraries) ==> c.w.dynamic(Out(i.libraries)).Some?)
  }

  predicate CheckLegible(w: World, op: Option<Op>) {
    Clean(w, op) && (op.Some? && Good(op.value) ==> w.fact(Out(op.value)).Strict?)
  }

  predicate ProbeLegible(w: World, op: Option<Op>) {
    Clean(w, op) && (op.Some? && Good(op.value) ==> w.probe(Out(op.value)).Some?)
  }

  predicate RowLegible(c: Case, row: TestRow) {
    && CheckLegible(c.w, row.before) && CheckLegible(c.w, row.after) && Clean(c.w, row.execution) && ProbeLegible(c.w, row.probe)
  }

  /** What is recorded can be read strictly. */
  predicate RecordLegible(c: Case, ev: Evidence) {
    match c.plan
    case Err(_) => true
    case Ok(plans) =>
      && CopiesLegible(c, plans, ev)
      && (forall k :: 0 <= k < |ev.inspections| ==> InspectionLegible(c, ev.inspections[k]))
      && (forall i :: 0 <= i < |ev.tests| ==> RowLegible(c, ev.tests[i]))
  }

  // ---------- accepted records are legible ----------

  lemma {:induction false} AcceptedIsLegible(c: Case, ev: Evidence)
    requires c.plan.Ok? && RecordOk(c, ev)
    ensures RecordLegible(c, ev)
  {
    hide Binaries, FactsOk, IsCode, InTime;
    forall k | 0 <= k < |ev.inspections| ensures InspectionLegible(c, ev.inspections[k]) {
      assert InspectionOk(c, ev, ev.inspections[k]);
    }
    forall i | 0 <= i < |ev.tests| ensures RowLegible(c, ev.tests[i]) {
      assert RowOk(c, ev, i);
    }
  }

  // ---------- legible honest records are accepted ----------

  lemma {:induction false} OpFits(s: Session, step: Step, command: Command, uid: int)
    requires Faithful(s) && s.answer(step).Returned?
    ensures var op := OpOf(s.w, s.answer(step), command, uid);
            OpOk(s.w, op, command, uid) <==> s.w.clean(Out(op))
    ensures OpOf(s.w, s.answer(step), command, uid).durationMs * MS <= s.answer(step).ns
  {}

  ghost predicate Readable(s: Session, c: Case, doc: Document, plans: seq<Plan>) {
    && Faithful(s) && c.w == s.w && c.group == s.group && c.plan == s.plan == Ok(plans)
    && doc.Mapping? && doc.entries.Keys == (set b | b in Binaries(plans)) && FactsOk(c.group, Binaries(plans), doc.entries)
  }

  lemma {:induction false} FactAt(c: Case, plans: seq<Plan>, doc: Document, source: string)
    requires doc.Mapping? && doc.entries.Keys == (set b | b in Binaries(plans)) && FactsOk(c.group, Binaries(plans), doc.entries)
    requires source in Binaries(plans)
    ensures source in doc.entries && doc.entries[source].Snapshot? && Location(doc, source) == Some(doc.entries[source].path)
  {
    hide Binaries, SnapshotBytes;
    var k :| 0 <= k < |Binaries(plans)| && Binaries(plans)[k] == source;
    assert FactOk(doc.entries[Binaries(plans)[k]], SnapshotPath(c.group, k));
  }

  lemma {:induction false} InspectFits(s: Session, c: Case, ev: Evidence, plans: seq<Plan>, source: string, k: nat)
    requires Readable(s, c, ev.snapshots, plans) && source in Binaries(plans)
    requires Inspect(s, ev.snapshots, source, k).item.Some? && InspectionLegible(c, Inspect(s, ev.snapshots, source, k).item.value)
    ensures var item := Inspect(s, ev.snapshots, source, k).item.value;
            item.source == source && InspectionOk(c, ev, item)
  {
    hide Binaries, Instrumented, Pinned, FactsOk, OpOk, Faithful;
    FactAt(c, plans, ev.snapshots, source);
    var path := Location(ev.snapshots, source).value;
    OpFits(s, Symbols(k), ListSymbols(path), 1001);
    OpFits(s, Libraries(k), ListLibraries(path), 1001);
  }

  lemma {:induction false} RowFits(s: Session, c: Case, ev: Evidence, plans: seq<Plan>, good: set<string>, i: nat)
    requires Readable(s, c, ev.snapshots, plans) && i < |plans| && i < |ev.tests|
    requires ev.tests[i] == Replay(s, ev.snapshots, good, plans[i], i).row && RowLegible(c, ev.tests[i])
    ensures RowOk(c, ev, i)
  {
    hide Binaries, FactsOk, OpOk, Faithful, IsCode, Good, Expected, Digest, Out, RuntimeUid;
    BinariesHave(plans);
    FactAt(c, plans, ev.snapshots, plans[i].binary);
    var path, uid := Location(ev.snapshots, plans[i].binary).value, RuntimeUid(s.group, i);
    if s.answer(Before(i)).Returned? { OpFits(s, Before(i), VerifySnapshot(path), 0); }
    if s.answer(Probing(i)).Returned? { OpFits(s, Probing(i), Probe(path), uid); }
    if s.answer(Executing(i)).Returned? { OpFits(s, Executing(i), Execute(path, plans[i].arguments), uid); }
    if s.answer(After(i)).Returned? { OpFits(s, After(i), VerifySnapshot(path), 0); }
  }

  /** Before its end, an inspection always records something. */
  lemma {:induction false} ItemsAre(s: Session, doc: Document, sources: seq<string>, n: nat)
    requires n <= InspectStop(s, doc, sources, 0)
    ensures |Items(s, doc, sources, n)| == n
    ensures forall k :: 0 <= k < n ==> Inspect(s, doc, sources[k], k).item == Some(Items(s, doc, sources, n)[k])
  {
    hide Inspect;
    if n > 0 {
      ItemsAre(s, doc, sources, n - 1);
      ItemThere(s, doc, sources[n - 1], n - 1);
    }
  }

  lemma {:induction false} ItemThere(s: Session, doc: Document, source: string, k: nat)
    ensures Inspect(s, doc, source, k).error.None? ==> Inspect(s, doc, source, k).item.Some?
  {}

  /** Every recorded inspection is the one of its own position. */
  lemma {:induction false} ItemsInOrder(s: Session, doc: Document, sources: seq<string>)
    ensures var items := Items(s, doc, sources, Through(InspectStop(s, doc, sources, 0), |sources|));
            && |items| <= |sources|
            && forall k :: 0 <= k < |items| ==> Inspect(s, doc, sources[k], k).item == Some(items[k])
  {
    hide Inspect;
    var stop := InspectStop(s, doc, sources, 0);
    ItemsAre(s, doc, sources, stop);
  }

  // ---------- time ----------

  lemma {:induction false} ItemsTime(s: Session, doc: Document, sources: seq<string>, n: nat)
    requires n <= |sources|
    ensures InspectionsMs(Items(s, doc, sources, n)) * MS <= InspectNs(s, doc, sources, n)
  {
    hide Inspect;
    if n > 0 {
      ItemsTime(s, doc, sources, n - 1);
      InspectTime(s, doc, sources[n - 1], n - 1);
      var before, end := Items(s, doc, sources, n - 1), Inspect(s, doc, sources[n - 1], n - 1);
      if end.item.Some? {
        assert (before + [end.item.value])[..|before|] == before;
      } else {
        assert before + [] == before;
      }
    }
  }

  lemma {:induction false} InspectTime(s: Session, doc: Document, source: string, k: nat)
    ensures var end := Inspect(s, doc, source, k);
            end.item.Some? ==> InspectionMs(end.item.value) * MS <= end.ns
  {
    hide Instrumented, Pinned;
  }

  lemma {:induction false} RowsTime(s: Session, doc: Document, good: set<string>, plans: seq<Plan>, n: nat)
    requires n <= |plans|
    ensures TestsMs(Rows(s, doc, good, plans, n)) * MS <= RowsNs(s, doc, good, plans, n)
  {
    hide Replay;
    if n > 0 {
      RowsTime(s, doc, good, plans, n - 1);
      RowTime(s, doc, good, plans[n - 1], n - 1);
      var rows := Rows(s, doc, good, plans, n);
      assert rows[..n - 1] == Rows(s, doc, good, plans, n - 1);
    }
  }

  lemma {:induction false} RowTime(s: Session, doc: Document, good: set<string>, plan: Plan, i: nat)
    ensures RowMs(Replay(s, doc, good, plan, i).row) * MS <= Replay(s, doc, good, plan, i).ns
  {
    hide IsCode;
  }

  /** What is recorded never sums to more than the replay took. */
  lemma {:induction false} RecordTime(s: Session)
    ensures RecordMs(Run(s).ev) * MS <= Run(s).ns && RecordMs(Run(s).ev) <= Run(s).ns / MS
  {
    hide Items, InspectNs, Rows, RowsNs, InspectStop, ReplayStop, Inspect, Replay, Binaries, GoodSources, IsCode;
    if s.plan.Ok? && s.answer(Copying).Returned? && s.w.document(s.answer(Copying).output).Broken? == false {
      var plans, doc := s.plan.value, s.w.document(s.answer(Copying).output).value;
      var sources := Binaries(plans);
      ItemsTime(s, doc, sources, Through(InspectStop(s, doc, sources, 0), |sources|));
      var good := GoodSources(s, doc, sources, |sources|);
      RowsTime(s, doc, good, plans, Through(ReplayStop(s, doc, good, plans, 0), |plans|));
    }
    assert TestsMs([]) == 0 && InspectionsMs([]) == 0;
  }

  // ---------- error codes ----------

  lemma {:induction false} OwnCodes()
    ensures IsCode(UNAVAILABLE) && IsCode(SNAPSHOT_UNAVAILABLE) && IsCode(INTERRUPTED)
  {}

  predicate Coded(error: Option<string>) {
    error.Some? ==> IsCode(error.value)
  }

  lemma {:induction false} InspectCoded(s: Session, doc: Document, source: string, k: nat)
    ensures Coded(Inspect(s, doc, source, k).error)
  {
    hide IsCode, Instrumented, Pinned;
    OwnCodes();
  }

  lemma {:induction false} ReplayCoded(s: Session, doc: Document, good: set<string>, plan: Plan, i: nat)
    ensures Coded(Replay(s, doc, good, plan, i).error)
  {
    hide IsCode;
    OwnCodes();
  }

  /** Whatever ended the replay, its record names it by a code of this stage. */
  lemma {:induction false} RunCoded(s: Session)
    ensures Coded(Run(s).ev.error)
  {
    hide IsCode, Items, InspectNs, Rows, RowsNs, InspectStop, ReplayStop, Inspect, Replay, Binaries, GoodSources;
    OwnCodes();
    if s.plan.Ok? && s.answer(Copying).Returned? && !s.w.document(s.answer(Copying).output).Broken? {
      var plans, doc := s.plan.value, s.w.document(s.answer(Copying).output).value;
      var sources := Binaries(plans);
      var stop := InspectStop(s, doc, sources, 0);
      if stop < |sources| {
        InspectCoded(s, doc, sources[stop], stop);
      } else {
        var good := GoodSources(s, doc, sources, |sources|);
        var end := ReplayStop(s, doc, good, plans, 0);
        if end < |plans| {
          ReplayCoded(s, doc, good, plans[end], end);
        }
      }
    }
  }

  // ---------- the theorem ----------

  /** A replay that got as far as reading its copies. */
  ghost predicate Copied(s: Session, plans: seq<Plan>, doc: Document) {
    && s.plan == Ok(plans) && s.answer(Copying).Returned? && Good(OpOf(s.w, s.answer(Copying), TakeSnapshots, 0))
    && !s.w.document(s.answer(Copying).output).Broken? && s.w.document(s.answer(Copying).output).value == doc
  }

  /** What it records then: inspections of the first binaries, each in place, and rows of
      the first tests. */
  lemma {:induction false} CopiedRecords(s: Session, plans: seq<Plan>, doc: Document) returns (good: set<string>)
    requires Copied(s, plans, doc)
    ensures var ev := Run(s).ev;
            && ev.snapshotOp == Some(OpOf(s.w, s.answer(Copying), TakeSnapshots, 0)) && ev.snapshots == doc
            && |ev.inspections| <= |Binaries(plans)| && |ev.tests| <= |plans|
            && (forall k :: 0 <= k < |ev.inspections| ==> Inspect(s, doc, Binaries(plans)[k], k).item == Some(ev.inspections[k]))
            && (forall i :: 0 <= i < |ev.tests| ==> ev.tests[i] == Replay(s, doc, good, plans[i], i).row)
            && (ev.tests != [] ==> InspectStop(s, doc, Binaries(plans), 0) == |Binaries(plans)|
                                   && good == GoodSources(s, doc, Binaries(plans), |Binaries(plans)|)
                                   && ev.inspections == Items(s, doc, Binaries(plans), |Binaries(plans)|))
  {
    hide Items, InspectNs, RowsNs, InspectStop, ReplayStop, Inspect, Replay, Binaries, GoodSources, IsCode;
    ItemsInOrder(s, doc, Binaries(plans));
    good := GoodSources(s, doc, Binaries(plans), |Binaries(plans)|);
  }

  lemma {:induction false} CopiesAccepted(s: Session, c: Case, plans: seq<Plan>, doc: Document)
    requires Faithful(s) && Asked(s, c) && EnclosingOk(c) && Copied(s, plans, doc) && RecordLegible(c, Run(s).ev)
    ensures RecordOk(c, Run(s).ev)
  {
    hide Inspect, Replay, Binaries, FactsOk, IsCode, OpOk, InspectionOk, RowOk, InspectionLegible, RowLegible, Run, Faithful, GoodSources, InspectStop, Items;
    var ev := Run(s).ev;
    var good := CopiedRecords(s, plans, doc);
    OpFits(s, Copying, TakeSnapshots, 0);
    RunCoded(s);
    RecordTime(s);
    assert Readable(s, c, doc, plans);
    BinariesHave(plans);
    forall k | 0 <= k < |ev.inspections| ensures InspectionOk(c, ev, ev.inspections[k]) && ev.inspections[k].source == Binaries(plans)[k] {
      assert InspectionLegible(c, ev.inspections[k]);
      InspectFits(s, c, ev, plans, Binaries(plans)[k], k);
    }
    forall i | 0 <= i < |ev.tests| ensures RowOk(c, ev, i) {
      assert RowLegible(c, ev.tests[i]);
      RowFits(s, c, ev, plans, good, i);
    }
  }

  lemma {:induction false} NothingCopied(s: Session, c: Case, plans: seq<Plan>)
    requires Faithful(s) && Asked(s, c) && EnclosingOk(c) && s.plan == Ok(plans) && RecordLegible(c, Run(s).ev)
    requires s.answer(Copying).Raised? || !Good(OpOf(s.w, s.answer(Copying), TakeSnapshots, 0)) || s.w.document(s.answer(Copying).output).Broken?
    ensures RecordOk(c, Run(s).ev)
  {
    hide Binaries, FactsOk, IsCode, OpOk, Faithful;
    RunCoded(s);
    RecordTime(s);
    if s.answer(Copying).Returned? {
      OpFits(s, Copying, TakeSnapshots, 0);
    }
  }

  // ---------- answers and record ----------

  lemma {:induction false} EmptyFits(g: Group, binaries: seq<string>)
    ensures FactsOk(g, binaries, map[])
  {
    hide FactOk;
    if binaries != [] {
      EmptyFits(g, binaries[..|binaries| - 1]);
    }
  }

  /** An inspection is legible exactly when its two answers are. */
  lemma {:induction false} InspectionRead(s: Session, c: Case, doc: Document, plans: seq<Plan>, source: string, k: nat)
    requires c.w == s.w && Inspect(s, doc, source, k).item.Some?
    ensures InspectionLegible(c, Inspect(s, doc, source, k).item.value) <==> Legible(s, plans, Symbols(k)) && Legible(s, plans, Libraries(k))
  {
    hide Instrumented, Pinned;
  }

  lemma {:induction false} AnswerRead(s: Session, plans: seq<Plan>, i: nat, path: string, arguments: seq<string>, uid: int)
    ensures var a := s.answer(Before(i));
            a.Returned? ==> (CheckLegible(s.w, Some(OpOf(s.w, a, VerifySnapshot(path), 0))) <==> Legible(s, plans, Before(i)))
    ensures var a := s.answer(After(i));
            a.Returned? ==> (CheckLegible(s.w, Some(OpOf(s.w, a, VerifySnapshot(path), 0))) <==> Legible(s, plans, After(i)))
    ensures var a := s.answer(Probing(i));
            a.Returned? ==> (ProbeLegible(s.w, Some(OpOf(s.w, a, Probe(path), uid))) <==> Legible(s, plans, Probing(i)))
    ensures var a := s.answer(Executing(i));
            a.Returned? ==> (Clean(s.w, Some(OpOf(s.w, a, Execute(path, arguments), uid))) <==> Legible(s, plans, Executing(i)))
  {}

  lemma {:induction false} NothingToRead(w: World)
    ensures CheckLegible(w, None) && ProbeLegible(w, None) && Clean(w, None)
  {}

  /** A row is legible exactly when the answers it keeps are. */
  lemma {:induction false} RowRead(s: Session, c: Case, doc: Document, good: set<string>, plans: seq<Plan>, plan: Plan, i: nat)
    requires c.w == s.w
    ensures var row := Replay(s, doc, good, plan, i).row;
            RowLegible(c, row) <==>
              && (row.before.Some? ==> Legible(s, plans, Before(i))) && (row.probe.Some? ==> Legible(s, plans, Probing(i)))
              && (row.execution.Some? ==> Legible(s, plans, Executing(i))) && (row.after.Some? ==> Legible(s, plans, After(i)))
  {
    hide IsCode, Expected, Digest, RuntimeUid, Entry, Location, Legible, CheckLegible, ProbeLegible, Clean, OpOf, Good;
    NothingToRead(s.w);
    if Location(doc, plan.binary).Some? {
      AnswerRead(s, plans, i, Location(doc, plan.binary).value, plan.arguments, RuntimeUid(s.group, i));
    }
  }

  lemma {:induction false} CopyingRead(s: Session, c: Case, plans: seq<Plan>)
    requires c.w == s.w && c.group == s.group && s.plan == Ok(plans)
    ensures CopiesLegible(c, plans, Run(s).ev) <==> (Run(s).ev.snapshotOp.Some? ==> Legible(s, plans, Copying))
    ensures Run(s).ev.snapshotOp.Some? <==> s.answer(Copying).Returned?
  {
    hide Binaries, FactsOk, Inspect, Replay, Items, Rows, InspectNs, RowsNs, GoodSources, InspectStop, ReplayStop, IsCode;
    EmptyFits(c.group, Binaries(plans));
  }

  lemma {:induction false} NothingMore(s: Session, plans: seq<Plan>)
    requires s.plan == Ok(plans) && forall doc :: !Copied(s, plans, doc)
    ensures Run(s).ev.inspections == [] && Run(s).ev.tests == []
  {
    hide RunInspections, IsCode, Binaries;
    if s.answer(Copying).Returned? && !s.w.document(s.answer(Copying).output).Broken? {
      assert !Copied(s, plans, s.w.document(s.answer(Copying).output).value);
    }
  }

  /** The record of a replay is legible exactly when the answers it keeps are. */
  lemma {:induction false} AnswersTell(s: Session, c: Case, plans: seq<Plan>)
    requires c.w == s.w && c.group == s.group && c.plan == s.plan == Ok(plans)
    ensures RecordLegible(c, Run(s).ev) <==> ReadsStrictly(s)
  {
    hide Run, Inspect, Replay, CopiesLegible, InspectionLegible, RowLegible, Legible, Binaries, InspectStop, GoodSources, Items, Copied;
    var ev := Run(s).ev;
    CopyingRead(s, c, plans);
    assert Recorded(ev, Copying) <==> ev.snapshotOp.Some?;
    if exists doc :: Copied(s, plans, doc) {
      var doc :| Copied(s, plans, doc);
      var good := CopiedRecords(s, plans, doc);
      forall k: nat | k < |ev.inspections|
        ensures InspectionLegible(c, ev.inspections[k]) <==> Legible(s, plans, Symbols(k)) && Legible(s, plans, Libraries(k))
        ensures Recorded(ev, Symbols(k)) && Recorded(ev, Libraries(k))
      {
        InspectionRead(s, c, doc, plans, Binaries(plans)[k], k);
      }
      forall i: nat | i < |ev.tests|
        ensures var row := ev.tests[i];
                RowLegible(c, row) <==>
                  && (Recorded(ev, Before(i)) ==> Legible(s, plans, Before(i))) && (Recorded(ev, Probing(i)) ==> Legible(s, plans, Probing(i)))
                  && (Recorded(ev, Executing(i)) ==> Legible(s, plans, Executing(i))) && (Recorded(ev, After(i)) ==> Legible(s, plans, After(i)))
      {
        RowRead(s, c, doc, good, plans, plans[i], i);
      }
      if ReadsStrictly(s) {
        forall k: nat | k < |ev.inspections| ensures InspectionLegible(c, ev.inspections[k]) {}
        forall i: nat | i < |ev.tests| ensures RowLegible(c, ev.tests[i]) {}
      }
    } else {
      NothingMore(s, plans);
    }
  }

  /** For every plan, every behaviour of the invocations and every reader: the record of a
      replay is accepted exactly when the enclosing duration is one the validator takes
      and every answer that was kept can be read strictly. */
  lemma {:induction false} ReplayAccepted(s: Session, c: Case)
    requires Faithful(s) && Asked(s, c)
    ensures RecordOk(c, Run(s).ev) <==> EnclosingOk(c) && ReadsStrictly(s)
  {
    hide RecordLegible, ReadsStrictly, RecordOk, Faithful, Run, IsCode;
    match s.plan
    case Err(message) => UnplannedAccepted(s, c, message);
    case Ok(plans) =>
      AnswersTell(s, c, plans);
      if RecordOk(c, Run(s).ev) {
        AcceptedIsLegible(c, Run(s).ev);
        AcceptedEnclosed(c, Run(s).ev);
      }
      if EnclosingOk(c) && RecordLegible(c, Run(s).ev) {
        var a := s.answer(Copying);
        if a.Raised? || !Good(OpOf(s.w, a, TakeSnapshots, 0)) || s.w.document(a.output).Broken? {
          NothingCopied(s, c, plans);
        } else {
          CopiesAccepted(s, c, plans, s.w.document(a.output).value);
        }
      }
  }

  lemma {:induction false} AcceptedEnclosed(c: Case, ev: Evidence)
    requires RecordOk(c, ev)
    ensures EnclosingOk(c)
  {
    hide SnapshotsOk, InspectionsOk, RowOk, IsCode;
  }

  lemma {:induction false} UnplannedAccepted(s: Session, c: Case, message: string)
    requires Asked(s, c) && s.plan == Err(message)
    ensures RecordOk(c, Run(s).ev) <==> EnclosingOk(c) && ReadsStrictly(s)
  {
    OwnCodes();
  }

  // ---------- what an honest record counts ----------

  lemma {:induction false} GoodAreInspected(s: Session, doc: Document, sources: seq<string>, c: Case, n: nat)
    requires c.w == s.w && c.group == s.group && n <= |sources| == InspectStop(s, doc, sources, 0)
    ensures |Items(s, doc, sources, n)| == n && GoodSources(s, doc, sources, n) == InspectedIn(c, Items(s, doc, sources, n), n)
  {
    hide Inspect, Shows;
    ItemsAre(s, doc, sources, n);
    if n > 0 {
      var items := Items(s, doc, sources, n);
      ItemsAre(s, doc, sources, n - 1);
      GoodAreInspected(s, doc, sources, c, n - 1);
      ShowsItself(s, c, doc, sources[n - 1], n - 1);
      assert items == Items(s, doc, sources, n - 1) + [items[n - 1]];
      InspectedPrefix(c, Items(s, doc, sources, n - 1), items[n - 1]);
    }
  }

  lemma {:induction false} InspectedPrefix(c: Case, items: seq<Inspection>, item: Inspection)
    ensures InspectedIn(c, items + [item], |items| + 1) == InspectedIn(c, items, |items|) + (if Shows(c, item) then {item.source} else {})
  {
    hide Shows;
    var longer := items + [item];
    assert forall k :: 0 <= k < |items| ==> longer[k] == items[k];
    assert longer[|items|] == item;
  }

  lemma {:induction false} ShowsItself(s: Session, c: Case, doc: Document, source: string, k: nat)
    requires c.w == s.w && c.group == s.group
    ensures var end := Inspect(s, doc, source, k);
            end.error.None? ==> end.item.Some? && end.item.value.source == source && end.shows == Shows(c, end.item.value)
  {
    hide Instrumented, Pinned;
  }

  /** A test runs only after its binary was inspected and two observations named it; its
      row goes on to the last observation unless the run ends there. */
  lemma {:induction false} RowGated(s: Session, c: Case, ev: Evidence, good: set<string>, plan: Plan, i: nat)
    requires c.w == s.w && c.group == s.group && Faithful(s)
    requires Entry(ev.snapshots, plan.binary).Snapshot?
    ensures var row, f := Replay(s, ev.snapshots, good, plan, i).row, Entry(ev.snapshots, plan.binary);
            && (row.after.Some? ==> row.execution.Some?)
            && (row.execution.Some? ==>
                 plan.binary in good && row.before.Some? && Good(row.before.value)
                 && !c.w.fact(Out(row.before.value)).Broken? && c.w.fact(Out(row.before.value)).value == f
                 && row.probe.Some? && ProbeMatches(c.w, row.probe.value, f, RuntimeUid(c.group, i)))
  {
    hide IsCode, Faithful;
  }

  /** In an accepted record of a replay, whatever ran had been observed, and a test is bound
      exactly when its last observation, too, was made and names the copy: the four
      operations were all carried out and all matched. */
  lemma {:induction false} BindsWhatItSawThrough(s: Session, c: Case, i: nat)
    requires Faithful(s) && Asked(s, c) && c.plan.Ok? && RecordOk(c, Run(s).ev) && i < |Run(s).ev.tests|
    ensures var ev, plan := Run(s).ev, c.plan.value[i];
            && (ev.tests[i].execution.Some? ==>
                 plan.binary in InspectedIn(c, ev.inspections, |ev.inspections|)
                 && Naming(c.w, ev.tests[i].before, FactOf(ev, plan.binary))
                 && ev.tests[i].probe.Some? && ProbeMatches(c.w, ev.tests[i].probe.value, FactOf(ev, plan.binary), RuntimeUid(c.group, i)))
            && (BoundAt(c, ev, i) <==> Naming(c.w, ev.tests[i].after, FactOf(ev, plan.binary)))
  {
    hide Inspect, Replay, Binaries, InspectedIn, GoodSources, Items, RecordOk, Faithful, Run, RowOk, ProbeMatches, IsCode, InspectStop, OpOf;
    var ev, plans := Run(s).ev, c.plan.value;
    TestsNeedCopies(s, plans);
    var doc := s.w.document(s.answer(Copying).output).value;
    var good := CopiedRecords(s, plans, doc);
    GoodAreInspected(s, doc, Binaries(plans), c, |Binaries(plans)|);
    var k := BinaryAt(c, ev, i);
    RowGated(s, c, ev, good, plans[i], i);
    LegibleRow(c, ev, i);
  }

  lemma {:induction false} LegibleRow(c: Case, ev: Evidence, i: nat)
    requires c.plan.Ok? && RecordOk(c, ev) && i < |ev.tests|
    ensures RowLegible(c, ev.tests[i])
  {
    hide RecordOk, RowLegible, InspectionLegible;
    AcceptedIsLegible(c, ev);
  }

  lemma {:induction false} TestsNeedCopies(s: Session, plans: seq<Plan>)
    requires s.plan == Ok(plans) && Run(s).ev.tests != []
    ensures s.answer(Copying).Returned? && !s.w.document(s.answer(Copying).output).Broken?
    ensures Copied(s, plans, s.w.document(s.answer(Copying).output).value)
  {
    hide RunInspections, Binaries, IsCode;
  }

  lemma {:induction false} NoErrorAllTests(s: Session, plans: seq<Plan>)
    requires s.plan == Ok(plans) && Run(s).ev.error.None?
    ensures |Run(s).ev.tests| == |plans|
  {
    hide Inspect, Replay, Binaries, GoodSources, Items, IsCode, InspectNs, RowsNs;
  }

  /** A replay counts as complete exactly when nothing ended it and every planned test's
      last observation names its copy. */
  lemma {:induction false} CompleteWhenSeenThrough(s: Session, c: Case, v: Verdict)
    requires Faithful(s) && Asked(s, c) && c.plan.Ok? && RecordOk(c, Run(s).ev) && VerdictOf(c, Run(s).ev, v)
    ensures v.complete <==>
      var ev := Run(s).ev;
      ev.error.None? && forall i :: 0 <= i < |ev.tests| ==> Naming(c.w, ev.tests[i].after, FactOf(ev, c.plan.value[i].binary))
  {
    hide Run, RecordOk, Faithful, Amounts, Traced, BoundAt, Naming;
    var ev := Run(s).ev;
    PassingMeansAll(c, ev, v);
    if ev.error.None? {
      NoErrorAllTests(s, c.plan.value);
    }
    forall i | 0 <= i < |ev.tests| ensures Traced(c, ev, i) <==> Naming(c.w, ev.tests[i].after, FactOf(ev, c.plan.value[i].binary)) {
      BoundIsTraced(c, ev, i);
      BindsWhatItSawThrough(s, c, i);
    }
  }
}
