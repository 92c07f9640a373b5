/** The replay itself: what it records, operation by operation, and exactly when the
    validator accepts that record and what it then counts. */
module NativeReplay {
  import opened Results
  import opened Names
  import opened NativeTests

  /** One invocation: how long it took and what came back, or the error it raised. */
  datatype Answer = Returned(ns: nat, exitCode: int, timedOut: bool, truncated: bool, output: Bytes) | Raised(ns: nat, message: string)

  /** Every invocation of a replay happens at most once, so an answer for each describes
      every possible replay. */
  datatype Step = Copying | Symbols(k: nat) | Libraries(k: nat) | Before(i: nat) | Probing(i: nat) | Executing(i: nat) | After(i: nat)

  datatype Session = Session(w: World, group: Group, plan: Result<seq<Plan>, string>, answer: Step -> Answer)

  const MS := 1_000_000

  function OpOf(w: World, a: Answer, command: Command, uid: int): Op
    requires a.Returned?
  {
    Op(command, uid, a.exitCode, a.timedOut, a.truncated, a.ns / MS, Some(a.output), w.sha(a.output))
  }

  /** A raised error keeps its text only if it reads like a code of this stage. */
  function CodeOf(message: string): string {
    if IsCode(message) then message else UNAVAILABLE
  }

  function Entry(doc: Document, source: string): Fact {
    if doc.Mapping? && source in doc.entries then doc.entries[source] else OtherFact("", None, None)
  }

  function Location(doc: Document, source: string): Option<string> {
    match Entry(doc, source)
    case Snapshot(path, _, _, _, _) => Some(path)
    case OtherFact(_, location, _) => location
  }

  function Digest(f: Fact): Option<string> {
    match f
    case Snapshot(_, sha, _, _, _) => Some(sha)
    case OtherFact(_, _, digest) => digest
  }

  // ---------- one inspection ----------

  datatype InspectEnd = InspectEnd(item: Option<Inspection>, shows: bool, error: Option<string>, ns: nat)

  function Inspect(s: Session, doc: Document, source: string, k: nat): InspectEnd {
    match Location(doc, source)
    case None => InspectEnd(None, false, Some(UNAVAILABLE), 0)
    case Some(path) =>
      var a := s.answer(Symbols(k));
      if a.Raised? then InspectEnd(None, false, Some(CodeOf(a.message)), a.ns)
      else
        var b := s.answer(Libraries(k));
        if b.Raised? then InspectEnd(None, false, Some(CodeOf(b.message)), a.ns + b.ns)
        else
          var item := Inspection(source, OpOf(s.w, a, ListSymbols(path), 1001), OpOf(s.w, b, ListLibraries(path), 1001));
          if Good(item.symbols) && Good(item.libraries) && Instrumented(s.w.symbols(a.output), s.group) then
            match s.w.dynamic(b.output)
            case None => InspectEnd(Some(item), false, Some(UNAVAILABLE), a.ns + b.ns)
            case Some(dynamic) => InspectEnd(Some(item), Pinned(dynamic), None, a.ns + b.ns)
          else InspectEnd(Some(item), false, None, a.ns + b.ns)
  }

  // ---------- one test ----------

  datatype RowEnd = RowEnd(row: TestRow, error: Option<string>, ns: nat)

  /** One test; a binary that is not good is not run at all. */
  function Replay(s: Session, doc: Document, good: set<string>, plan: Plan, i: nat): RowEnd {
    var blank := TestRow(plan.name, plan.binary, None, None, None, None);
    if plan.binary !in good || Location(doc, plan.binary).None? then RowEnd(blank, None, 0)
    else CheckBefore(s, Entry(doc, plan.binary), Location(doc, plan.binary).value, plan, blank, i)
  }

  function CheckBefore(s: Session, f: Fact, path: string, plan: Plan, row: TestRow, i: nat): RowEnd {
    var a := s.answer(Before(i));
    if a.Raised? then RowEnd(row, Some(CodeOf(a.message)), a.ns)
    else
      var row := row.(before := Some(OpOf(s.w, a, VerifySnapshot(path), 0)));
      if !Good(row.before.value) then RowEnd(row, Some(SNAPSHOT_UNAVAILABLE), a.ns)
      else
        var json := s.w.fact(a.output);
        if json.Broken? then RowEnd(row, Some(UNAVAILABLE), a.ns)
        else if json.value != f then RowEnd(row, None, a.ns)
        else ProbeSnapshot(s, f, path, plan, row, i, a.ns)
  }

  function ProbeSnapshot(s: Session, f: Fact, path: string, plan: Plan, row: TestRow, i: nat, ns: nat): RowEnd {
    var a, uid := s.answer(Probing(i)), RuntimeUid(s.group, i);
    if a.Raised? then RowEnd(row, Some(CodeOf(a.message)), ns + a.ns)
    else
      var row := row.(probe := Some(OpOf(s.w, a, Probe(path), uid)));
      if !Good(row.probe.value) then RowEnd(row, None, ns + a.ns)
      else if s.w.probe(a.output).None? || Digest(f).None? then RowEnd(row, Some(UNAVAILABLE), ns + a.ns)
      else if s.w.probe(a.output).value != Expected(Digest(f).value, uid) then RowEnd(row, None, ns + a.ns)
      else ExecuteTest(s, path, plan, row, i, ns + a.ns)
  }

  function ExecuteTest(s: Session, path: string, plan: Plan, row: TestRow, i: nat, ns: nat): RowEnd {
    var a := s.answer(Executing(i));
    if a.Raised? then RowEnd(row, Some(CodeOf(a.message)), ns + a.ns)
    else
      var row := row.(execution := Some(OpOf(s.w, a, Execute(path, plan.arguments), RuntimeUid(s.group, i))));
      if a.timedOut || a.truncated then RowEnd(row, Some(INTERRUPTED), ns + a.ns)
      else
        var b := s.answer(After(i));
        if b.Raised? then RowEnd(row, Some(CodeOf(b.message)), ns + a.ns + b.ns)
        else RowEnd(row.(after := Some(OpOf(s.w, b, VerifySnapshot(path), 0))), None, ns + a.ns + b.ns)
  }

  // ---------- the whole replay ----------

  /** The first inspection from k on that ends the replay, or their number. */
  function InspectStop(s: Session, doc: Document, sources: seq<string>, k: nat): (r: nat)
    requires k <= |sources|
    ensures k <= r <= |sources|
    ensures forall j :: k <= j < r ==> Inspect(s, doc, sources[j], j).error.None?
    ensures r < |sources| ==> Inspect(s, doc, sources[r], r).error.Some?
    decreases |sources| - k
  {
    if k == |sources| || Inspect(s, doc, sources[k], k).error.Some? then k else InspectStop(s, doc, sources, k + 1)
  }

  /** What the first n inspections record, and the sources they show to be good. */
  function Items(s: Session, doc: Document, sources: seq<string>, n: nat): seq<Inspection>
    requires n <= |sources|
  {
    if n == 0 then []
    else
      var end := Inspect(s, doc, sources[n - 1], n - 1);
      Items(s, doc, sources, n - 1) + (if end.item.Some? then [end.item.value] else [])
  }

  function GoodSources(s: Session, doc: Document, sources: seq<string>, n: nat): set<string>
    requires n <= |sources|
  {
    if n == 0 then {}
    else GoodSources(s, doc, sources, n - 1) + (if Inspect(s, doc, sources[n - 1], n - 1).shows then {sources[n - 1]} else {})
  }

  function InspectNs(s: Session, doc: Document, sources: seq<string>, n: nat): nat
    requires n <= |sources|
  {
    if n == 0 then 0 else InspectNs(s, doc, sources, n - 1) + Inspect(s, doc, sources[n - 1], n - 1).ns
  }

  function ReplayStop(s: Session, doc: Document, good: set<string>, plans: seq<Plan>, i: nat): (r: nat)
    requires i <= |plans|
    ensures i <= r <= |plans|
    ensures forall j :: i <= j < r ==> Replay(s, doc, good, plans[j], j).error.None?
    ensures r < |plans| ==> Replay(s, doc, good, plans[r], r).error.Some?
    decreases |plans| - i
  {
    if i == |plans| || Replay(s, doc, good, plans[i], i).error.Some? then i else ReplayStop(s, doc, good, plans, i + 1)
  }

  function Rows(s: Session, doc: Document, good: set<string>, plans: seq<Plan>, n: nat): (r: seq<TestRow>)
    requires n <= |plans|
    ensures |r| == n && forall i :: 0 <= i < n ==> r[i] == Replay(s, doc, good, plans[i], i).row
  {
    if n == 0 then [] else Rows(s, doc, good, plans, n - 1) + [Replay(s, doc, good, plans[n - 1], n - 1).row]
  }

  function RowsNs(s: Session, doc: Document, good: set<string>, plans: seq<Plan>, n: nat): nat
    requires n <= |plans|
  {
    if n == 0 then 0 else RowsNs(s, doc, good, plans, n - 1) + Replay(s, doc, good, plans[n - 1], n - 1).ns
  }

  /** A record and the time its invocations took. */
  datatype Outcome = Outcome(ev: Evidence, ns: nat)

  function Through(stop: nat, all: nat): nat {
    if stop < all then stop + 1 else all
  }

  function RunTests(s: Session, plans: seq<Plan>, copying: Op, doc: Document, items: seq<Inspection>, good: set<string>, ns: nat): Outcome {
    var stop := ReplayStop(s, doc, good, plans, 0);
    var n := Through(stop, |plans|);
    Outcome(Evidence(Some(copying), doc, items, Rows(s, doc, good, plans, n),
                     if stop < |plans| then Replay(s, doc, good, plans[stop], stop).error else None),
            ns + RowsNs(s, doc, good, plans, n))
  }

  function RunInspections(s: Session, plans: seq<Plan>, copying: Op, doc: Document, ns: nat): Outcome {
    var sources := Binaries(plans);
    var stop := InspectStop(s, doc, sources, 0);
    var n := Through(stop, |sources|);
    var items, ns := Items(s, doc, sources, n), ns + InspectNs(s, doc, sources, n);
    if stop < |sources| then Outcome(Evidence(Some(copying), doc, items, [], Inspect(s, doc, sources[stop], stop).error), ns)
    else RunTests(s, plans, copying, doc, items, GoodSources(s, doc, sources, n), ns)
  }

  function Run(s: Session): Outcome {
    match s.plan
    case Err(message) => Outcome(Unplanned(CodeOf(message)), 0)
    case Ok(plans) =>
      var a := s.answer(Copying);
      if a.Raised? then Outcome(Unplanned(CodeOf(a.message)), a.ns)
      else
        var copying := OpOf(s.w, a, TakeSnapshots, 0);
        if !Good(copying) then Outcome(Evidence(Some(copying), Mapping(map[]), [], [], Some(SNAPSHOT_UNAVAILABLE)), a.ns)
        else
          var json := s.w.document(a.output);
          if json.Broken? then Outcome(Evidence(Some(copying), Mapping(map[]), [], [], Some(UNAVAILABLE)), a.ns)
          else RunInspections(s, plans, copying, json.value, a.ns)
  }

  // ---------- the replay as it runs ----------

  method Invoke(s: Session, step: Step, command: Command, uid: int, spent: nat) returns (ns: nat, result: Result<Op, string>)
    ensures ns == spent + s.answer(step).ns
    ensures result == if s.answer(step).Raised? then Err(CodeOf(s.answer(step).message)) else Ok(OpOf(s.w, s.answer(step), command, uid))
  {
    var a := s.answer(step);
    ns := spent + a.ns;
    match a {
      case Raised(_, message) => result := Err(CodeOf(message));
      case Returned(took, exitCode, timedOut, truncated, output) =>
        result := Ok(Op(command, uid, exitCode, timedOut, truncated, took / MS, Some(output), s.w.sha(output)));
    }
  }

  method InspectSource(s: Session, doc: Document, source: string, k: nat, spent: nat)
      returns (item: Option<Inspection>, shows: bool, error: Option<string>, ns: nat)
    ensures spent <= ns && Inspect(s, doc, source, k) == InspectEnd(item, shows, error, ns - spent)
  {
    item, shows, error, ns := None, false, None, spent;
    var path := Location(doc, source);
    if path.None? { return item, shows, Some(UNAVAILABLE), ns; }
    var symbols, libraries: Result<Op, string>;
    ns, symbols := Invoke(s, Symbols(k), ListSymbols(path.value), 1001, ns);
    if symbols.Err? { return item, shows, Some(symbols.error), ns; }
    ns, libraries := Invoke(s, Libraries(k), ListLibraries(path.value), 1001, ns);
    if libraries.Err? { return item, shows, Some(libraries.error), ns; }
    item := Some(Inspection(source, symbols.value, libraries.value));
    if Good(symbols.value) && Good(libraries.value) && Instrumented(s.w.symbols(Out(symbols.value)), s.group) {
      var dynamic := s.w.dynamic(Out(libraries.value));
      if dynamic.None? { return item, shows, Some(UNAVAILABLE), ns; }
      shows := Pinned(dynamic.value);
    }
  }

  /** One test, its row filled in as the operations return. */
  method ReplayTest(s: Session, doc: Document, good: set<string>, plan: Plan, i: nat, spent: nat)
      returns (row: TestRow, error: Option<string>, ns: nat)
    ensures spent <= ns && Replay(s, doc, good, plan, i) == RowEnd(row, error, ns - spent)
  {
    hide IsCode;
    row, error, ns := TestRow(plan.name, plan.binary, None, None, None, None), None, spent;
    if plan.binary !in good || Location(doc, plan.binary).None? { return row, error, ns; }
    var f, path, uid := Entry(doc, plan.binary), Location(doc, plan.binary).value, RuntimeUid(s.group, i);
    var op: Result<Op, string>;
    ns, op := Invoke(s, Before(i), VerifySnapshot(path), 0, ns);
    if op.Err? { return row, Some(op.error), ns; }
    row := row.(before := Some(op.value));
    if !Good(op.value) { return row, Some(SNAPSHOT_UNAVAILABLE), ns; }
    var json := s.w.fact(Out(op.value));
    if json.Broken? { return row, Some(UNAVAILABLE), ns; }
    if json.value != f { return row, error, ns; }
    ns, op := Invoke(s, Probing(i), Probe(path), uid, ns);
    if op.Err? { return row, Some(op.error), ns; }
    row := row.(probe := Some(op.value));
    if !Good(op.value) { return row, error, ns; }
    var reading := s.w.probe(Out(op.value));
    if reading.None? || Digest(f).None? { return row, Some(UNAVAILABLE), ns; }
    if reading.value != Expected(Digest(f).value, uid) { return row, error, ns; }
    ns, op := Invoke(s, Executing(i), Execute(path, plan.arguments), uid, ns);
    if op.Err? { return row, Some(op.error), ns; }
    row := row.(execution := Some(op.value));
    if op.value.timedOut || op.value.truncated { return row, Some(INTERRUPTED), ns; }
    ns, op := Invoke(s, After(i), VerifySnapshot(path), 0, ns);
    if op.Err? { return row, Some(op.error), ns; }
    row := row.(after := Some(op.value));
  }

  /** The controller: inspections in order, then tests in order, until something ends it. */
  method RunBoundTests(s: Session) returns (ev: Evidence, ns: nat)
    ensures Run(s) == Outcome(ev, ns)
  {
    hide Inspect, Replay, Binaries, IsCode;
    ev, ns := Evidence(None, Mapping(map[]), [], [], None), 0;
    if s.plan.Err? { return ev.(error := Some(CodeOf(s.plan.error))), ns; }
    var plans := s.plan.value;
    var sources := Binaries(plans);
    var op: Result<Op, string>;
    ns, op := Invoke(s, Copying, TakeSnapshots, 0, ns);
    if op.Err? { return ev.(error := Some(op.error)), ns; }
    ev := ev.(snapshotOp := Some(op.value));
    if !Good(op.value) { return ev.(error := Some(SNAPSHOT_UNAVAILABLE)), ns; }
    var json := s.w.document(Out(op.value));
    if json.Broken? { return ev.(error := Some(UNAVAILABLE)), ns; }
    var doc, copied := json.value, ns;
    ev := ev.(snapshots := doc);
    var good: set<string>, k := {}, 0;
    while k < |sources|
      invariant 0 <= k <= |sources| && InspectStop(s, doc, sources, 0) == InspectStop(s, doc, sources, k)
      invariant ev == Evidence(Some(op.value), doc, Items(s, doc, sources, k), [], None)
      invariant good == GoodSources(s, doc, sources, k) && ns == copied + InspectNs(s, doc, sources, k)
    {
      var item, shows, error;
      item, shows, error, ns := InspectSource(s, doc, sources[k], k, ns);
      if item.Some? {
        ev := ev.(inspections := ev.inspections + [item.value]);
      }
      if error.Some? { return ev.(error := error), ns; }
      if shows {
        good := good + {sources[k]};
      }
      k := k + 1;
    }
    var inspected, i := ns, 0;
    while i < |plans|
      invariant 0 <= i <= |plans| && ReplayStop(s, doc, good, plans, 0) == ReplayStop(s, doc, good, plans, i)
      invariant ev == Evidence(Some(op.value), doc, Items(s, doc, sources, k), Rows(s, doc, good, plans, i), None)
      invariant ns == inspected + RowsNs(s, doc, good, plans, i)
    {
      var row, error;
      row, error, ns := ReplayTest(s, doc, good, plans[i], i, ns);
      ev := ev.(tests := ev.tests + [row]);
      if error.Some? { return ev.(error := error), ns; }
      i := i + 1;
    }
  }
}
