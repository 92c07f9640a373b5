/** Replays of native tests from immutable snapshots: the record, the validator's loops
    over it, and what an accepted record shows. */
module NativeTests {
  import opened Results
  import opened Text
  import opened Names

  newtype Byte = b: int | 0 <= b < 256
  type Bytes = seq<Byte>

  datatype Group = Address | Undefined

  /** A planned test: its binary and the arguments it is run with. */
  datatype Plan = Plan(name: string, binary: string, arguments: seq<string>)

  datatype Command =
    | TakeSnapshots
    | ListSymbols(path: string)
    | ListLibraries(path: string)
    | VerifySnapshot(path: string)
    | Probe(path: string)
    | Execute(path: string, arguments: seq<string>)
    | OtherCommand(argv: seq<string>)

  /** What is recorded about one copied binary; OtherFact is any JSON value of another
      shape, with the path and the digest it still gives, if any. */
  datatype Fact =
    | Snapshot(path: string, sha: string, bytes: int, uid: int, mode: int)
    | OtherFact(text: string, location: Option<string>, digest: Option<string>)
  datatype Document = Mapping(entries: map<string, Fact>) | OtherDocument(text: string)

  /** What a probe run as the test's own user reports. */
  datatype Reading =
    | Probed(uid: int, gid: int, writeDenied: bool, sha: string, noNewPrivileges: bool, capabilities: int, noCredentials: bool)
    | OtherReading(text: string)

  /** Loose JSON repeats a member or holds a non-number: the producer takes it, the strict
      reader of the validator does not. */
  datatype Json<T> = Broken | Loose(value: T) | Strict(value: T)

  /** The needed libraries and the search paths of a binary. */
  datatype Dynamic = Dynamic(needed: seq<string>, paths: seq<string>)

  /** One recorded operation; `output` is None when the recorded text is not base64. */
  datatype Op = Op(command: Command, uid: int, exitCode: int, timedOut: bool, truncated: bool, durationMs: int, output: Option<Bytes>, outputSha: string)
  datatype Inspection = Inspection(source: string, symbols: Op, libraries: Op)
  datatype TestRow = TestRow(name: string, source: string, before: Option<Op>, probe: Option<Op>, execution: Option<Op>, after: Option<Op>)
  datatype Evidence = Evidence(snapshotOp: Option<Op>, snapshots: Document, inspections: seq<Inspection>, tests: seq<TestRow>, error: Option<string>)

  /** Digests, the redaction test and the readers of raw output; every result holds for
      all of them. */
  datatype World = World(sha: Bytes -> string, clean: Bytes -> bool, document: Bytes -> Json<Document>, fact: Bytes -> Json<Fact>,
                         probe: Bytes -> Option<Reading>, symbols: Bytes -> seq<string>, dynamic: Bytes -> Option<Dynamic>)

  /** What the validator knows besides the record; `plan` is the planned tests, or the
      error for which no test can be planned. */
  datatype Case = Case(w: World, group: Group, plan: Result<seq<Plan>, string>, enclosingMs: Option<int>)

  /** Every test runs under a user of its own. */
  function RuntimeUid(g: Group, index: nat): int {
    1002 + index + (if g == Undefined then 64 else 0)
  }

  predicate Good(op: Op) {
    op.exitCode == 0 && !op.timedOut && !op.truncated
  }

  // ---------- error codes ----------

  const CODE := "worker_native_test_"
  const UNAVAILABLE := "worker_native_test_evidence_unavailable"
  const SNAPSHOT_UNAVAILABLE := "worker_native_test_snapshot_unavailable"
  const INTERRUPTED := "worker_native_test_interrupted"

  predicate IsCode(s: string) {
    |CODE| < |s| && CODE <= s && forall i :: |CODE| <= i < |s| ==> 'a' <= s[i] <= 'z' || s[i] == '_'
  }

  // ---------- binaries ----------

  function BinaryNames(plans: seq<Plan>): (r: seq<string>)
    ensures forall b :: b in r <==> exists i :: 0 <= i < |plans| && plans[i].binary == b
  {
    if plans == [] then []
    else
      var last := |plans| - 1;
      assert forall i :: 0 <= i < last ==> plans[..last][i] == plans[i];
      BinaryNames(plans[..last]) + [plans[last].binary]
  }

  /** Each binary once, in order: its position names its snapshot. */
  function Binaries(plans: seq<Plan>): seq<string> {
    SortedSet(BinaryNames(plans))
  }

  lemma {:induction false} BinariesHave(plans: seq<Plan>)
    ensures Distinct(Binaries(plans))
    ensures forall b :: b in Binaries(plans) <==> exists i :: 0 <= i < |plans| && plans[i].binary == b
  {
    SortedSetHas(BinaryNames(plans));
  }

  function SnapshotPath(g: Group, k: nat): string {
    (if g == Address then "/work/native-tests/address" else "/work/native-tests/undefined") + "/b" + Decimal(k)
  }

  // ---------- what the observations say ----------

  function StartsWith(names: seq<string>, prefix: string): bool {
    exists n :: n in names && prefix <= n
  }

  /** Undefined symbols of a sanitizer runtime. */
  predicate Instrumented(symbols: seq<string>, g: Group) {
    match g
    case Address => "__asan_init" in symbols && StartsWith(symbols, "__asan_report_")
    case Undefined => StartsWith(symbols, "__ubsan_handle_")
  }

  predicate LibraryName(s: string) {
    s != "" && forall i :: 0 <= i < |s| ==> PathChar(s[i]) && s[i] != '/'
  }

  predicate SystemPath(p: string) {
    && (exists root :: root in ["/usr/lib/", "/usr/local/lib", "/lib/"] && root <= p) && '$' !in p
    && (forall part :: part in Split(p)[1..] ==> part != "" && part != "." && part != "..")
  }

  /** The loader consults pinned system directories only. */
  predicate Pinned(d: Dynamic) {
    d.needed != [] && (forall n :: n in d.needed ==> LibraryName(n)) && forall p :: p in d.paths ==> SystemPath(p)
  }

  function Out(op: Op): Bytes {
    if op.output.Some? then op.output.value else []
  }

  /** Both listings succeeded and show an instrumented binary with pinned libraries. */
  predicate Shows(c: Case, i: Inspection) {
    && Good(i.symbols) && Good(i.libraries) && Instrumented(c.w.symbols(Out(i.symbols)), c.group)
    && c.w.dynamic(Out(i.libraries)).Some? && Pinned(c.w.dynamic(Out(i.libraries)).value)
  }

  predicate Naming(w: World, op: Option<Op>, f: Fact) {
    op.Some? && Good(op.value) && w.fact(Out(op.value)) == Strict(f)
  }

  /** What the probe must report of a snapshot. */
  function Expected(sha: string, uid: int): Reading {
    Probed(uid, uid, true, sha, true, 0, true)
  }

  predicate ProbeMatches(w: World, op: Op, f: Fact, uid: int) {
    f.Snapshot? && Good(op) && w.probe(Out(op)) == Some(Expected(f.sha, uid))
  }

  // ---------- what the validator demands ----------

  predicate InTime(c: Case, ms: int) {
    c.enclosingMs.Some? ==> ms <= c.enclosingMs.value + 2
  }

  /** The checks every recorded operation goes through, apart from the running time. */
  predicate OpOk(w: World, op: Op, command: Command, uid: int) {
    && op.command == command && op.uid == uid && -255 <= op.exitCode <= 255 && 0 <= op.durationMs <= 32000
    && op.output.Some? && w.clean(op.output.value) && |op.output.value| <= 65536 && w.sha(op.output.value) == op.outputSha
  }

  predicate MaybeOk(w: World, op: Option<Op>, command: Command, uid: int) {
    op.Some? ==> OpOk(w, op.value, command, uid)
  }

  predicate Hex(s: string) {
    |s| == 64 && forall i :: 0 <= i < 64 ==> Digit(s[i]) || 'a' <= s[i] <= 'f'
  }

  predicate FactOk(f: Fact, path: string) {
    f.Snapshot? && f.path == path && Hex(f.sha) && 64 <= f.bytes <= 67108864 && f.uid == 0 && f.mode == 0x16D
  }

  predicate FactsOk(g: Group, binaries: seq<string>, entries: map<string, Fact>) {
    && (forall k :: 0 <= k < |binaries| && binaries[k] in entries ==> FactOk(entries[binaries[k]], SnapshotPath(g, k)))
    && SnapshotBytes(binaries, entries) <= 134217728
  }

  function SnapshotBytes(binaries: seq<string>, entries: map<string, Fact>): int {
    if binaries == [] then 0
    else
      var b := binaries[|binaries| - 1];
      SnapshotBytes(binaries[..|binaries| - 1], entries) + (if b in entries && entries[b].Snapshot? then entries[b].bytes else 0)
  }

  predicate SnapshotsOk(c: Case, ev: Evidence)
    requires c.plan.Ok? && ev.snapshots.Mapping?
  {
    var binaries, entries := Binaries(c.plan.value), ev.snapshots.entries;
    && (match ev.snapshotOp
        case None => entries == map[] && ev.tests == [] && ev.inspections == [] && ev.error.Some?
        case Some(op) =>
          && OpOk(c.w, op, TakeSnapshots, 0)
          && (if Good(op) then c.w.document(Out(op)) == Strict(ev.snapshots) && entries.Keys == (set b | b in binaries)
              else entries == map[] && ev.tests == [] && ev.inspections == []))
    && FactsOk(c.group, binaries, entries)
  }

  function PathOf(ev: Evidence, source: string): string {
    if ev.snapshots.Mapping? && source in ev.snapshots.entries && ev.snapshots.entries[source].Snapshot? then ev.snapshots.entries[source].path
    else ""
  }

  predicate InspectionOk(c: Case, ev: Evidence, i: Inspection)
    requires c.plan.Ok? && ev.snapshots.Mapping?
  {
    && i.source in Binaries(c.plan.value) && i.source in ev.snapshots.entries
    && OpOk(c.w, i.symbols, ListSymbols(PathOf(ev, i.source)), 1001) && OpOk(c.w, i.libraries, ListLibraries(PathOf(ev, i.source)), 1001)
    && (Good(i.symbols) && Good(i.libraries) ==> c.w.dynamic(Out(i.libraries)).Some?)
  }

  predicate InspectionsOk(c: Case, ev: Evidence)
    requires c.plan.Ok? && ev.snapshots.Mapping?
  {
    var binaries := Binaries(c.plan.value);
    && |ev.inspections| <= |binaries|
    && (forall k :: 0 <= k < |ev.inspections| ==> ev.inspections[k].source == binaries[k])
    && (forall k :: 0 <= k < |ev.inspections| ==> InspectionOk(c, ev, ev.inspections[k]))
  }

  predicate RowOk(c: Case, ev: Evidence, i: nat)
    requires c.plan.Ok? && ev.snapshots.Mapping? && i < |ev.tests| && i < |c.plan.value|
  {
    var row, plan := ev.tests[i], c.plan.value[i];
    && row.name == plan.name && row.source == plan.binary && plan.binary in ev.snapshots.entries
    && (var path, uid := PathOf(ev, plan.binary), RuntimeUid(c.group, i);
        && MaybeOk(c.w, row.before, VerifySnapshot(path), 0) && MaybeOk(c.w, row.after, VerifySnapshot(path), 0)
        && MaybeOk(c.w, row.probe, Probe(path), uid) && MaybeOk(c.w, row.execution, Execute(path, plan.arguments), uid)
        && (row.before.Some? && Good(row.before.value) ==> c.w.fact(Out(row.before.value)).Strict?)
        && (row.after.Some? && Good(row.after.value) ==> c.w.fact(Out(row.after.value)).Strict?)
        && (row.probe.Some? && Good(row.probe.value) ==> c.w.probe(Out(row.probe.value)).Some?))
  }

  function Ms(op: Option<Op>): int {
    if op.Some? then op.value.durationMs else 0
  }

  function InspectionMs(i: Inspection): int {
    i.symbols.durationMs + i.libraries.durationMs
  }

  function RowMs(t: TestRow): int {
    Ms(t.before) + Ms(t.after) + Ms(t.probe) + Ms(t.execution)
  }

  function InspectionsMs(inspections: seq<Inspection>): int {
    if inspections == [] then 0
    else InspectionsMs(inspections[..|inspections| - 1]) + InspectionMs(inspections[|inspections| - 1])
  }

  function TestsMs(tests: seq<TestRow>): int {
    if tests == [] then 0 else TestsMs(tests[..|tests| - 1]) + RowMs(tests[|tests| - 1])
  }

  function RecordMs(ev: Evidence): int {
    Ms(ev.snapshotOp) + InspectionsMs(ev.inspections) + TestsMs(ev.tests)
  }

  predicate EnclosingOk(c: Case) {
    c.enclosingMs.Some? ==> 0 <= c.enclosingMs.value <= 302000
  }

  /** A record of a configuration for which no test can be planned. */
  function Unplanned(error: string): Evidence {
    Evidence(None, Mapping(map[]), [], [], Some(error))
  }

  /** The records the validator accepts. */
  predicate RecordOk(c: Case, ev: Evidence) {
    && EnclosingOk(c) && (ev.error.Some? ==> IsCode(ev.error.value)) && ev.snapshots.Mapping?
    && match c.plan
       case Err(error) => ev == Unplanned(error)
       case Ok(plans) =>
         && SnapshotsOk(c, ev) && InspectionsOk(c, ev)
         && |ev.tests| <= |plans| && (forall i :: 0 <= i < |ev.tests| ==> RowOk(c, ev, i))
         && InTime(c, RecordMs(ev))
  }

  // ---------- the validator's loops ----------

  datatype Verdict = Verdict(attempted: seq<string>, bound: seq<string>, passed: seq<string>, users: seq<int>, complete: bool, testsPassed: bool)

  function PlanNames(plans: seq<Plan>): (r: seq<string>)
    ensures |r| == |plans| && forall i :: 0 <= i < |plans| ==> r[i] == plans[i].name
  {
    if plans == [] then [] else [plans[0].name] + PlanNames(plans[1..])
  }

  /** Reads one operation and adds its duration to the running time, which may never
      pass the enclosing one. */
  method Read(c: Case, op: Op, command: Command, uid: int, observed: int) returns (total: int, read: Option<(bool, Bytes)>)
    ensures read.Some? <==> OpOk(c.w, op, command, uid) && InTime(c, observed + op.durationMs)
    ensures read.Some? ==> total == observed + op.durationMs && read.value == (Good(op), Out(op))
  {
    total := observed;
    if op.command != command || op.uid != uid || !(-255 <= op.exitCode <= 255) || !(0 <= op.durationMs <= 32000) { return total, None; }
    total := total + op.durationMs;
    if c.enclosingMs.Some? && total > c.enclosingMs.value + 2 { return total, None; }
    if op.output.None? || !c.w.clean(op.output.value) { return total, None; }
    var raw := op.output.value;
    if |raw| > 65536 || c.w.sha(raw) != op.outputSha { return total, None; }
    read := Some((op.exitCode == 0 && !op.timedOut && !op.truncated, raw));
  }

  /** One inspection: refused, or whether it shows an instrumented, pinned binary. */
  method ReadInspection(c: Case, ev: Evidence, i: Inspection, observed: int) returns (total: int, shows: Option<bool>)
    requires c.plan.Ok? && ev.snapshots.Mapping?
    ensures shows.Some? <==> InspectionOk(c, ev, i) && InTime(c, observed + InspectionMs(i))
    ensures shows.Some? ==> total == observed + InspectionMs(i) && shows.value == Shows(c, i)
  {
    hide Instrumented, Pinned, Binaries;
    total := observed;
    if i.source !in Binaries(c.plan.value) || i.source !in ev.snapshots.entries { return total, None; }
    var path := PathOf(ev, i.source);
    var read: Option<(bool, Bytes)>;
    total, read := Read(c, i.symbols, ListSymbols(path), 1001, total);
    if read.None? { return total, None; }
    var (listed, symbols) := read.value;
    total, read := Read(c, i.libraries, ListLibraries(path), 1001, total);
    if read.None? { return total, None; }
    var (resolved, libraries) := read.value;
    if listed && resolved {
      var dynamic := c.w.dynamic(libraries);
      if dynamic.None? { return total, None; }
      shows := Some(Pinned(dynamic.value) && Instrumented(c.w.symbols(symbols), c.group));
    } else {
      shows := Some(false);
    }
  }

  /** One optional verification: refused, or whether it names the snapshot. */
  method ReadNaming(c: Case, op: Option<Op>, path: string, f: Fact, observed: int) returns (total: int, names: Option<bool>)
    ensures names.Some? <==> MaybeOk(c.w, op, VerifySnapshot(path), 0)
                             && (op.Some? ==> InTime(c, observed + Ms(op)) && (Good(op.value) ==> c.w.fact(Out(op.value)).Strict?))
    ensures names.Some? ==> total == observed + Ms(op) && names.value == Naming(c.w, op, f)
  {
    total := observed;
    if op.None? { return total, Some(false); }
    var read: Option<(bool, Bytes)>;
    total, read := Read(c, op.value, VerifySnapshot(path), 0, total);
    if read.None? { return total, None; }
    var (good, raw) := read.value;
    if good {
      var json := c.w.fact(raw);
      if !json.Strict? { return total, None; }
      names := Some(json.value == f);
    } else {
      names := Some(false);
    }
  }

  method ReadProbe(c: Case, op: Option<Op>, path: string, f: Fact, uid: int, observed: int) returns (total: int, matches: Option<bool>)
    ensures matches.Some? <==> MaybeOk(c.w, op, Probe(path), uid)
                               && (op.Some? ==> InTime(c, observed + Ms(op)) && (Good(op.value) ==> c.w.probe(Out(op.value)).Some?))
    ensures matches.Some? ==> total == observed + Ms(op) && matches.value == (op.Some? && ProbeMatches(c.w, op.value, f, uid))
  {
    total := observed;
    if op.None? { return total, Some(false); }
    var read: Option<(bool, Bytes)>;
    total, read := Read(c, op.value, Probe(path), uid, total);
    if read.None? { return total, None; }
    var (good, raw) := read.value;
    if good {
      var reading := c.w.probe(raw);
      if reading.None? { return total, None; }
      matches := Some(f.Snapshot? && reading.value == Expected(f.sha, uid));
    } else {
      matches := Some(false);
    }
  }

  /** How one row is classified. */
  datatype Class = Idle | Unbound | Bound(passed: bool)

  function FactOf(ev: Evidence, source: string): Fact {
    if ev.snapshots.Mapping? && source in ev.snapshots.entries then ev.snapshots.entries[source] else OtherFact("", None, None)
  }

  /** All three observations name the snapshot of test i. */
  predicate Observed(c: Case, ev: Evidence, i: nat)
    requires c.plan.Ok? && i < |ev.tests| && i < |c.plan.value|
  {
    var row, f := ev.tests[i], FactOf(ev, c.plan.value[i].binary);
    && Naming(c.w, row.before, f) && Naming(c.w, row.after, f)
    && row.probe.Some? && ProbeMatches(c.w, row.probe.value, f, RuntimeUid(c.group, i))
  }

  /** One row, its checks collected one by one. */
  method ReadRow(c: Case, ev: Evidence, i: nat, inspected: set<string>, observed: int) returns (total: int, seen: Option<Class>)
    requires c.plan.Ok? && ev.snapshots.Mapping? && i < |ev.tests| && i < |c.plan.value|
    ensures seen.Some? ==> RowOk(c, ev, i) && total == observed + RowMs(ev.tests[i])
    ensures seen.None? ==> !RowOk(c, ev, i) || !InTime(c, observed + RowMs(ev.tests[i]))
    ensures seen.Some? && InTime(c, observed) ==> InTime(c, total)
    ensures seen.Some? ==>
      var row, source := ev.tests[i], c.plan.value[i].binary;
      seen.value == if row.execution.None? then Idle
                     else if source in inspected && Observed(c, ev, i) then Bound(Good(row.execution.value)) else Unbound
  {
    hide Naming, ProbeMatches, Good, OpOk;
    total := observed;
    var row, plan := ev.tests[i], c.plan.value[i];
    if row.name != plan.name || row.source != plan.binary || plan.binary !in ev.snapshots.entries { return total, None; }
    var f, path, uid := ev.snapshots.entries[plan.binary], PathOf(ev, plan.binary), RuntimeUid(c.group, i);
    if RowOk(c, ev, i) {
      Durations(c, ev, i);
    }
    var before, after, probe: Option<bool>;
    total, before := ReadNaming(c, row.before, path, f, total);
    if before.None? { return total, None; }
    total, after := ReadNaming(c, row.after, path, f, total);
    if after.None? { return total, None; }
    total, probe := ReadProbe(c, row.probe, path, f, uid, total);
    if probe.None? { return total, None; }
    seen := Some(Idle);
    if row.execution.Some? {
      var read: Option<(bool, Bytes)>;
      total, read := Read(c, row.execution.value, Execute(path, plan.arguments), uid, total);
      if read.None? { return total, None; }
      var (good, _) := read.value;
      seen := Some(if plan.binary in inspected && probe.value && before.value && after.value then Bound(good) else Unbound);
    }
  }

  lemma {:induction false} Durations(c: Case, ev: Evidence, i: nat)
    requires c.plan.Ok? && ev.snapshots.Mapping? && i < |ev.tests| && i < |c.plan.value| && RowOk(c, ev, i)
    ensures var t := ev.tests[i]; Ms(t.before) >= 0 && Ms(t.after) >= 0 && Ms(t.probe) >= 0 && Ms(t.execution) >= 0
  {}

  /** The copied binaries, in the order of their snapshots. */
  method ReadFacts(c: Case, binaries: seq<string>, entries: map<string, Fact>) returns (ok: bool)
    ensures ok <==> FactsOk(c.group, binaries, entries)
  {
    hide FactOk, SnapshotPath;
    var k := 0;
    while k < |binaries|
      invariant 0 <= k <= |binaries|
      invariant forall j :: 0 <= j < k && binaries[j] in entries ==> FactOk(entries[binaries[j]], SnapshotPath(c.group, j))
    {
      if binaries[k] in entries && !FactOk(entries[binaries[k]], SnapshotPath(c.group, k)) { return false; }
      k := k + 1;
    }
    ok := SnapshotBytes(binaries, entries) <= 134217728;
  }

  method ReadSnapshots(c: Case, ev: Evidence) returns (total: int, ok: bool)
    requires c.plan.Ok? && ev.snapshots.Mapping? && EnclosingOk(c)
    ensures ok <==> SnapshotsOk(c, ev) && InTime(c, Ms(ev.snapshotOp))
    ensures ok ==> total == Ms(ev.snapshotOp)
  {
    hide FactsOk;
    total := 0;
    var binaries, entries := Binaries(c.plan.value), ev.snapshots.entries;
    match ev.snapshotOp {
      case None =>
        if entries != map[] || ev.tests != [] || ev.inspections != [] || ev.error.None? { return total, false; }
      case Some(op) =>
        var read: Option<(bool, Bytes)>;
        total, read := Read(c, op, TakeSnapshots, 0, total);
        if read.None? { return total, false; }
        var (good, raw) := read.value;
        if good {
          if c.w.document(raw) != Strict(ev.snapshots) || entries.Keys != (set b | b in binaries) { return total, false; }
        } else if entries != map[] || ev.tests != [] || ev.inspections != [] {
          return total, false;
        }
    }
    ok := ReadFacts(c, binaries, entries);
  }

  /** The sources whose first n inspections show instrumented, pinned binaries. */
  function InspectedIn(c: Case, inspections: seq<Inspection>, n: nat): set<string>
    requires n <= |inspections|
  {
    set k | 0 <= k < n && Shows(c, inspections[k]) :: inspections[k].source
  }

  function Sources(inspections: seq<Inspection>): (r: seq<string>)
    ensures |r| == |inspections| && forall k :: 0 <= k < |r| ==> r[k] == inspections[k].source
  {
    if inspections == [] then [] else [inspections[0].source] + Sources(inspections[1..])
  }

  lemma {:induction false} Sooner(c: Case, a: int, b: int)
    requires a <= b && InTime(c, b)
    ensures InTime(c, a)
  {}

  lemma {:induction false} NothingInspected(c: Case, inspections: seq<Inspection>)
    ensures InspectedIn(c, inspections, 0) == {} && InspectionsMs(inspections[..0]) == 0
  {}

  lemma {:induction false} OneMoreInspection(c: Case, inspections: seq<Inspection>, n: nat)
    requires n < |inspections|
    ensures InspectedIn(c, inspections, n + 1) == InspectedIn(c, inspections, n) + (if Shows(c, inspections[n]) then {inspections[n].source} else {})
    ensures InspectionsMs(inspections[..n + 1]) == InspectionsMs(inspections[..n]) + InspectionMs(inspections[n])
  {
    hide Shows;
    assert inspections[..n + 1][..n] == inspections[..n];
  }

  method ReadInspections(c: Case, ev: Evidence, observed: int) returns (total: int, inspected: set<string>, ok: bool)
    requires c.plan.Ok? && ev.snapshots.Mapping? && InTime(c, observed)
    ensures ok <==> InspectionsOk(c, ev) && InTime(c, observed + InspectionsMs(ev.inspections))
    ensures ok ==> total == observed + InspectionsMs(ev.inspections) && inspected == InspectedIn(c, ev.inspections, |ev.inspections|)
  {
    hide InspectionOk, Shows, Binaries, InspectedIn, InTime, InspectionsMs, InspectionMs, InspectionsOk, Sources;
    NothingInspected(c, ev.inspections);
    total, inspected := observed, {};
    var sources: seq<string>, k := [], 0;
    while k < |ev.inspections|
      invariant 0 <= k <= |ev.inspections|
      invariant total == observed + InspectionsMs(ev.inspections[..k]) && InTime(c, total)
      invariant forall j :: 0 <= j < k ==> InspectionOk(c, ev, ev.inspections[j])
      invariant sources == Sources(ev.inspections)[..k]
      invariant inspected == InspectedIn(c, ev.inspections, k)
    {
      var item := ev.inspections[k];
      var shows: Option<bool>;
      var before := total;
      OneMoreInspection(c, ev.inspections, k);
      total, shows := ReadInspection(c, ev, item, total);
      if shows.None? {
        if InspectionsOk(c, ev) && InTime(c, observed + InspectionsMs(ev.inspections)) {
          LateInspection(c, ev, k);
          Sooner(c, before + InspectionMs(item), observed + InspectionsMs(ev.inspections));
        }
        return total, inspected, false;
      }
      sources := sources + [item.source];
      if shows.value {
        inspected := inspected + {item.source};
      }
      k := k + 1;
    }
    assert ev.inspections[..k] == ev.inspections;
    var binaries := Binaries(c.plan.value);
    SourcesInOrder(c, ev, sources);
    ok := |sources| <= |binaries| && sources == binaries[..|sources|];
  }

  lemma {:induction false} SourcesInOrder(c: Case, ev: Evidence, sources: seq<string>)
    requires c.plan.Ok? && ev.snapshots.Mapping? && sources == Sources(ev.inspections)
    ensures InspectionsOk(c, ev) <==>
      var binaries := Binaries(c.plan.value);
      && |sources| <= |binaries| && sources == binaries[..|sources|]
      && forall k :: 0 <= k < |ev.inspections| ==> InspectionOk(c, ev, ev.inspections[k])
  {
    hide InspectionOk, Binaries;
    var binaries := Binaries(c.plan.value);
    if |sources| <= |binaries| && sources == binaries[..|sources|] {
      forall k | 0 <= k < |ev.inspections| ensures ev.inspections[k].source == binaries[k] {
        assert sources[k] == binaries[..|sources|][k];
      }
    }
    if InspectionsOk(c, ev) {
      assert sources == binaries[..|sources|];
    }
  }

  /** Readings only add to the running time, so what is late midway is late at the end. */
  lemma {:induction false} LateInspection(c: Case, ev: Evidence, k: nat)
    requires c.plan.Ok? && ev.snapshots.Mapping? && InspectionsOk(c, ev) && k < |ev.inspections|
    ensures InspectionsMs(ev.inspections[..k]) + InspectionMs(ev.inspections[k]) <= InspectionsMs(ev.inspections)
    ensures InspectionOk(c, ev, ev.inspections[k])
  {
    hide Binaries, InspectionOk, InspectionMs;
    OneMoreInspection(c, ev.inspections, k);
    TakesTime(c, ev);
    InspectionsGrow(ev.inspections, k + 1, |ev.inspections|);
    assert ev.inspections[..|ev.inspections|] == ev.inspections;
  }

  /** No inspection of a sound record takes negative time. */
  lemma {:induction false} TakesTime(c: Case, ev: Evidence)
    requires c.plan.Ok? && ev.snapshots.Mapping? && InspectionsOk(c, ev)
    ensures forall k :: 0 <= k < |ev.inspections| ==> InspectionMs(ev.inspections[k]) >= 0
  {
    hide Binaries, InspectionOk, InspectionMs;
    forall k | 0 <= k < |ev.inspections| ensures InspectionMs(ev.inspections[k]) >= 0 {
      InspectionTakesTime(c, ev, ev.inspections[k]);
    }
  }

  lemma {:induction false} InspectionTakesTime(c: Case, ev: Evidence, i: Inspection)
    requires c.plan.Ok? && ev.snapshots.Mapping? && InspectionOk(c, ev, i)
    ensures InspectionMs(i) >= 0
  {
    hide Binaries, PathOf;
  }

  lemma {:induction false} InspectionsGrow(inspections: seq<Inspection>, k: nat, n: nat)
    requires k <= n <= |inspections| && forall i :: 0 <= i < |inspections| ==> InspectionMs(inspections[i]) >= 0
    ensures InspectionsMs(inspections[..k]) <= InspectionsMs(inspections[..n])
    decreases n
  {
    hide InspectionMs;
    if k < n {
      InspectionsGrow(inspections, k, n - 1);
      assert inspections[..n][..n - 1] == inspections[..n - 1];
    }
  }

  predicate RowsOk(c: Case, ev: Evidence)
    requires c.plan.Ok? && ev.snapshots.Mapping?
  {
    |ev.tests| <= |c.plan.value| && forall i :: 0 <= i < |ev.tests| ==> RowOk(c, ev, i)
  }

  lemma {:induction false} TestsGrow(c: Case, ev: Evidence, k: nat, n: nat)
    requires c.plan.Ok? && ev.snapshots.Mapping? && RowsOk(c, ev) && k <= n <= |ev.tests|
    ensures TestsMs(ev.tests[..k]) <= TestsMs(ev.tests[..n])
    decreases n
  {
    hide RowOk, Ms;
    if k < n {
      TestsGrow(c, ev, k, n - 1);
      assert ev.tests[..n][..n - 1] == ev.tests[..n - 1];
      Durations(c, ev, n - 1);
    }
  }

  lemma {:induction false} LateRow(c: Case, ev: Evidence, k: nat)
    requires c.plan.Ok? && ev.snapshots.Mapping? && RowsOk(c, ev) && k < |ev.tests|
    ensures TestsMs(ev.tests[..k]) + RowMs(ev.tests[k]) <= TestsMs(ev.tests)
  {
    assert ev.tests[..k + 1][..k] == ev.tests[..k];
    TestsGrow(c, ev, k + 1, |ev.tests|);
    assert ev.tests[..|ev.tests|] == ev.tests;
  }

  /** Test i ran, from a binary that was inspected and that all three observations name. */
  predicate BoundAt(c: Case, ev: Evidence, i: nat)
    requires c.plan.Ok? && i < |ev.tests| && i < |c.plan.value|
  {
    && ev.tests[i].execution.Some? && c.plan.value[i].binary in InspectedIn(c, ev.inspections, |ev.inspections|)
    && Observed(c, ev, i)
  }

  function ClassOf(c: Case, ev: Evidence, i: nat): Class
    requires c.plan.Ok? && i < |ev.tests| && i < |c.plan.value|
  {
    if ev.tests[i].execution.None? then Idle
    else if BoundAt(c, ev, i) then Bound(Good(ev.tests[i].execution.value)) else Unbound
  }

  /** The classes of all rows, and the lists they stand for. */
  function Classes(c: Case, ev: Evidence, n: nat): (r: seq<Class>)
    requires c.plan.Ok? && n <= |ev.tests| && n <= |c.plan.value|
    ensures |r| == n && forall i :: 0 <= i < n ==> r[i] == ClassOf(c, ev, i)
  {
    if n == 0 then [] else Classes(c, ev, n - 1) + [ClassOf(c, ev, n - 1)]
  }

  /** The names planned at the positions whose class is wanted. */
  function Chosen(plans: seq<Plan>, classes: seq<Class>, wanted: set<Class>): seq<string>
    requires |classes| <= |plans|
  {
    if classes == [] then []
    else
      var last := |classes| - 1;
      Chosen(plans, classes[..last], wanted) + (if classes[last] in wanted then [plans[last].name] else [])
  }

  function Users(g: Group, classes: seq<Class>): seq<int> {
    if classes == [] then []
    else
      var last := |classes| - 1;
      Users(g, classes[..last]) + (if classes[last].Idle? then [] else [RuntimeUid(g, last)])
  }

  const RAN: set<Class> := {Unbound, Bound(false), Bound(true)}
  const BOUND: set<Class> := {Bound(false), Bound(true)}
  const PASSED: set<Class> := {Bound(true)}

  /** The verdict the classes of the rows amount to. */
  predicate Amounts(plans: seq<Plan>, g: Group, classes: seq<Class>, error: Option<string>, v: Verdict)
    requires |classes| <= |plans|
  {
    && v.attempted == Chosen(plans, classes, RAN) && v.bound == Chosen(plans, classes, BOUND) && v.passed == Chosen(plans, classes, PASSED)
    && v.users == Users(g, classes)
    && (v.complete <==> error.None? && v.bound == PlanNames(plans))
    && (v.testsPassed <==> v.complete && v.passed == PlanNames(plans))
  }

  /** The verdict on a record of planned tests. */
  predicate VerdictOf(c: Case, ev: Evidence, v: Verdict) {
    c.plan.Ok? && |ev.tests| <= |c.plan.value| && Amounts(c.plan.value, c.group, Classes(c, ev, |ev.tests|), ev.error, v)
  }

  lemma {:induction false} MoreMs(tests: seq<TestRow>, i: nat)
    requires i < |tests|
    ensures TestsMs(tests[..i + 1]) == TestsMs(tests[..i]) + RowMs(tests[i])
  {
    assert tests[..i + 1][..i] == tests[..i];
  }

  lemma {:induction false} NoRows(plans: seq<Plan>, g: Group)
    ensures TestsMs([]) == 0
    ensures Users(g, []) == [] && forall wanted :: Chosen(plans, [], wanted) == []
  {}

  lemma {:induction false} OneMoreRow(plans: seq<Plan>, g: Group, classes: seq<Class>, x: Class)
    requires |classes| < |plans|
    ensures forall wanted :: Chosen(plans, classes + [x], wanted)
                             == Chosen(plans, classes, wanted) + (if x in wanted then [plans[|classes|].name] else [])
    ensures Users(g, classes + [x]) == Users(g, classes) + (if x.Idle? then [] else [RuntimeUid(g, |classes|)])
  {
    assert (classes + [x])[..|classes|] == classes;
  }

  /** A row that was read is named as planned. */
  lemma {:induction false} RowNamed(c: Case, ev: Evidence, i: nat, seen: Class)
    requires c.plan.Ok? && ev.snapshots.Mapping? && i < |ev.tests| && i < |c.plan.value| && RowOk(c, ev, i)
    requires seen == if ev.tests[i].execution.None? then Idle
                     else if c.plan.value[i].binary in InspectedIn(c, ev.inspections, |ev.inspections|) && Observed(c, ev, i)
                     then Bound(Good(ev.tests[i].execution.value)) else Unbound
    ensures ev.tests[i].name == c.plan.value[i].name && seen == ClassOf(c, ev, i)
  {
    hide Observed, InspectedIn;
  }

  /** The rows in order, each under the running time so far. */
  method ReadRows(c: Case, ev: Evidence, inspected: set<string>, observed: int)
      returns (attempted: seq<string>, bound: seq<string>, passed: seq<string>, users: seq<int>, ok: bool)
    requires c.plan.Ok? && ev.snapshots.Mapping? && InTime(c, observed) && |ev.tests| <= |c.plan.value|
    requires inspected == InspectedIn(c, ev.inspections, |ev.inspections|)
    ensures ok <==> RowsOk(c, ev) && InTime(c, observed + TestsMs(ev.tests))
    ensures ok ==>
      var plans, classes := c.plan.value, Classes(c, ev, |ev.tests|);
      && attempted == Chosen(plans, classes, RAN) && bound == Chosen(plans, classes, BOUND) && passed == Chosen(plans, classes, PASSED)
      && users == Users(c.group, classes)
  {
    hide RowOk, Shows, Observed, Binaries, Chosen, Users, InspectedIn, ClassOf, InTime, TestsMs;
    var plans := c.plan.value;
    attempted, bound, passed, users := [], [], [], [];
    ghost var classes: seq<Class> := [];
    NoRows(plans, c.group);
    var total, i := observed, 0;
    while i < |ev.tests|
      invariant 0 <= i <= |ev.tests| && |classes| == i
      invariant total == observed + TestsMs(ev.tests[..i]) && InTime(c, total)
      invariant forall j :: 0 <= j < i ==> RowOk(c, ev, j) && classes[j] == ClassOf(c, ev, j)
      invariant attempted == Chosen(plans, classes, RAN) && bound == Chosen(plans, classes, BOUND) && passed == Chosen(plans, classes, PASSED)
      invariant users == Users(c.group, classes)
    {
      var row := ev.tests[i];
      var seen: Option<Class>;
      ghost var before := total;
      MoreMs(ev.tests, i);
      total, seen := ReadRow(c, ev, i, inspected, total);
      if seen.None? {
        if RowsOk(c, ev) && InTime(c, observed + TestsMs(ev.tests)) {
          LateRow(c, ev, i);
          Sooner(c, before + RowMs(row), observed + TestsMs(ev.tests));
        }
        return attempted, bound, passed, users, false;
      }
      RowNamed(c, ev, i, seen.value);
      OneMoreRow(plans, c.group, classes, seen.value);
      classes := classes + [seen.value];
      match seen.value {
        case Idle =>
        case Unbound =>
          attempted, users := attempted + [row.name], users + [RuntimeUid(c.group, i)];
        case Bound(good) =>
          attempted, users, bound := attempted + [row.name], users + [RuntimeUid(c.group, i)], bound + [row.name];
          if good {
            passed := passed + [row.name];
          }
      }
      i := i + 1;
    }
    assert ev.tests[..i] == ev.tests;
    assert classes == Classes(c, ev, |ev.tests|);
    ok := true;
  }

  /** The loops accept exactly the sound records, whatever they were given, and read them
      as the classes of their rows. */
  method Validate(c: Case, ev: Evidence) returns (v: Option<Verdict>)
    ensures v.Some? <==> RecordOk(c, ev)
    ensures v.Some? && c.plan.Err? ==> v.value == Verdict([], [], [], [], false, false)
    ensures v.Some? && c.plan.Ok? ==> VerdictOf(c, ev, v.value)
  {
    hide SnapshotsOk, InspectionsOk, RowOk, IsCode, Binaries, Chosen, Users, InspectedIn, Classes, InTime, InspectionsMs, TestsMs;
    if c.enclosingMs.Some? && !(0 <= c.enclosingMs.value <= 302000) { return None; }
    if ev.error.Some? && !IsCode(ev.error.value) { return None; }
    if !ev.snapshots.Mapping? { return None; }
    if c.plan.Err? {
      if ev.error != Some(c.plan.error) || ev.snapshotOp.Some? || ev.snapshots.entries != map[] || ev.inspections != [] || ev.tests != [] { return None; }
      return Some(Verdict([], [], [], [], false, false));
    }
    var plans := c.plan.value;
    NoTime(c, ev);
    var observed, ok := ReadSnapshots(c, ev);
    if !ok { return None; }
    var inspected: set<string>;
    observed, inspected, ok := ReadInspections(c, ev, observed);
    if !ok { return None; }
    if |ev.tests| > |plans| { return None; }
    var attempted, bound, passed, users, read := ReadRows(c, ev, inspected, observed);
    if !read { return None; }
    var complete := ev.error.None? && bound == PlanNames(plans);
    v := Some(Verdict(attempted, bound, passed, users, complete, complete && passed == PlanNames(plans)));
  }

  /** A part of the record that is late by itself makes the whole record late. */
  lemma {:induction false} NoTime(c: Case, ev: Evidence)
    requires ev.snapshots.Mapping? && c.plan.Ok?
    ensures RecordOk(c, ev) ==> InTime(c, Ms(ev.snapshotOp)) && InTime(c, Ms(ev.snapshotOp) + InspectionsMs(ev.inspections))
  {
    hide SnapshotsOk, InspectionsOk, RowOk, IsCode, Binaries, Ms, InspectionsMs, TestsMs, InTime;
    if RecordOk(c, ev) {
      NoNegative(c, ev);
      Sooner(c, Ms(ev.snapshotOp) + InspectionsMs(ev.inspections), RecordMs(ev));
      Sooner(c, Ms(ev.snapshotOp), RecordMs(ev));
    }
  }

  lemma {:induction false} NoNegative(c: Case, ev: Evidence)
    requires c.plan.Ok? && ev.snapshots.Mapping? && InspectionsOk(c, ev) && RowsOk(c, ev)
    ensures InspectionsMs(ev.inspections) >= 0 && TestsMs(ev.tests) >= 0
  {
    hide InspectionsOk, RowOk, Binaries, RowMs, InspectionMs;
    TestsGrow(c, ev, 0, |ev.tests|);
    assert ev.tests[..|ev.tests|] == ev.tests && ev.tests[..0] == [];
    TakesTime(c, ev);
    InspectionsGrow(ev.inspections, 0, |ev.inspections|);
    assert ev.inspections[..|ev.inspections|] == ev.inspections && ev.inspections[..0] == [];
  }

  // ---------- what an accepted record shows ----------

  predicate Ran(op: Option<Op>, command: Command, uid: int) {
    op.Some? && op.value.command == command && op.value.uid == uid
  }

  predicate Succeeded(op: Option<Op>, command: Command, uid: int) {
    Ran(op, command, uid) && Good(op.value)
  }

  /** The whole chain behind test i, at the one path of its binary: root copied it,
      an analyst found it instrumented, root saw the copy unchanged before and after, the
      test's own user saw the same digest, and that user ran it as planned. */
  predicate Traces(c: Case, ev: Evidence, i: nat, k: nat)
    requires c.plan.Ok? && i < |ev.tests| && i < |c.plan.value|
  {
    var row, plan, uid, path := ev.tests[i], c.plan.value[i], RuntimeUid(c.group, i), SnapshotPath(c.group, k);
    var f := FactOf(ev, plan.binary);
    && f.Snapshot? && f.path == path
    && k < |ev.inspections| && ev.inspections[k].source == plan.binary
    && Succeeded(Some(ev.inspections[k].symbols), ListSymbols(path), 1001) && Instrumented(c.w.symbols(Out(ev.inspections[k].symbols)), c.group)
    && Succeeded(Some(ev.inspections[k].libraries), ListLibraries(path), 1001)
    && c.w.dynamic(Out(ev.inspections[k].libraries)).Some? && Pinned(c.w.dynamic(Out(ev.inspections[k].libraries)).value)
    && Succeeded(row.before, VerifySnapshot(path), 0) && c.w.fact(Out(row.before.value)) == Strict(f)
    && Succeeded(row.probe, Probe(path), uid) && c.w.probe(Out(row.probe.value)) == Some(Expected(f.sha, uid))
    && Ran(row.execution, Execute(path, plan.arguments), uid)
    && Succeeded(row.after, VerifySnapshot(path), 0) && c.w.fact(Out(row.after.value)) == Strict(f)
  }

  ghost predicate Traced(c: Case, ev: Evidence, i: nat)
    requires c.plan.Ok? && i < |ev.tests| && i < |c.plan.value|
  {
    exists k: nat :: k < |Binaries(c.plan.value)| && Binaries(c.plan.value)[k] == c.plan.value[i].binary && Traces(c, ev, i, k)
  }

  /** One path, one binary. */
  lemma {:induction false} PathsTellBinaries(g: Group, j: nat, k: nat)
    requires SnapshotPath(g, j) == SnapshotPath(g, k)
    ensures j == k
  {
    PrefixedInjective((if g == Address then "/work/native-tests/address" else "/work/native-tests/undefined") + "/b", j, k);
  }

  predicate ExitedZero(row: TestRow) {
    row.execution.Some? && Good(row.execution.value)
  }

  ghost predicate Accepted(c: Case, ev: Evidence) {
    c.plan.Ok? && RecordOk(c, ev)
  }

  lemma {:induction false} BinaryAt(c: Case, ev: Evidence, i: nat) returns (k: nat)
    requires Accepted(c, ev) && i < |ev.tests|
    ensures k < |Binaries(c.plan.value)| && Binaries(c.plan.value)[k] == c.plan.value[i].binary
    ensures FactOf(ev, c.plan.value[i].binary).Snapshot? && PathOf(ev, c.plan.value[i].binary) == SnapshotPath(c.group, k)
            == FactOf(ev, c.plan.value[i].binary).path
  {
    hide Binaries, SnapshotPath, InspectionsOk, InTime, IsCode, SnapshotBytes;
    BinariesHave(c.plan.value);
    assert RowOk(c, ev, i);
    var binaries := Binaries(c.plan.value);
    assert c.plan.value[i].binary in binaries;
    k :| 0 <= k < |binaries| && binaries[k] == c.plan.value[i].binary;
    assert FactOk(ev.snapshots.entries[binaries[k]], SnapshotPath(c.group, k));
  }

  /** A bound test of an accepted record is one whose whole chain is recorded, and no
      other is. */
  lemma {:induction false} BoundIsTraced(c: Case, ev: Evidence, i: nat)
    requires Accepted(c, ev) && i < |ev.tests|
    ensures BoundAt(c, ev, i) <==> Traced(c, ev, i)
  {
    hide Binaries, SnapshotPath, SnapshotsOk, InTime, IsCode, Instrumented, Pinned, FactOf, PathOf, InspectionsOk;
    BinariesHave(c.plan.value);
    var k := BinaryAt(c, ev, i);
    var binaries, source := Binaries(c.plan.value), c.plan.value[i].binary;
    assert RowOk(c, ev, i);
    if k < |ev.inspections| {
      InspectionAt(c, ev, k);
    }
    if BoundAt(c, ev, i) {
      var j: nat :| j < |ev.inspections| && Shows(c, ev.inspections[j]) && ev.inspections[j].source == source;
      InspectionAt(c, ev, j);
      assert j == k;
      assert Traces(c, ev, i, k);
    }
    if Traced(c, ev, i) {
      var j: nat :| j < |binaries| && binaries[j] == source && Traces(c, ev, i, j);
      assert j == k;
      assert Shows(c, ev.inspections[k]);
    }
  }

  lemma {:induction false} InspectionAt(c: Case, ev: Evidence, k: nat)
    requires Accepted(c, ev) && k < |ev.inspections|
    ensures k < |Binaries(c.plan.value)| && ev.inspections[k].source == Binaries(c.plan.value)[k]
    ensures InspectionOk(c, ev, ev.inspections[k])
  {
    hide Binaries, SnapshotsOk, InTime, IsCode, InspectionOk, RowOk;
  }

  lemma {:induction false} ChosenHas(plans: seq<Plan>, classes: seq<Class>, wanted: set<Class>, name: string)
    requires |classes| <= |plans|
    ensures name in Chosen(plans, classes, wanted) <==> exists i :: 0 <= i < |classes| && classes[i] in wanted && plans[i].name == name
    ensures |Chosen(plans, classes, wanted)| <= |classes|
  {
    if classes != [] {
      ChosenHas(plans, classes[..|classes| - 1], wanted, name);
    }
  }

  /** In any accepted record, whoever wrote it, a name counts as bound exactly when it is
      planned for a test whose whole chain is recorded; it counts as passed exactly when
      that test also exited 0. */
  lemma {:induction false} BoundMeansTraced(c: Case, ev: Evidence, v: Verdict, name: string)
    requires Accepted(c, ev) && VerdictOf(c, ev, v)
    ensures name in v.bound <==> exists i :: 0 <= i < |ev.tests| && c.plan.value[i].name == name && Traced(c, ev, i)
    ensures name in v.passed <==> exists i :: 0 <= i < |ev.tests| && c.plan.value[i].name == name && Traced(c, ev, i) && ExitedZero(ev.tests[i])
  {
    hide Traced, RecordOk, Chosen, Observed, InspectedIn, Users;
    var plans, classes := c.plan.value, Classes(c, ev, |ev.tests|);
    ChosenHas(plans, classes, BOUND, name);
    ChosenHas(plans, classes, PASSED, name);
    forall i | 0 <= i < |ev.tests| ensures (classes[i] in BOUND <==> Traced(c, ev, i)) {
      BoundIsTraced(c, ev, i);
    }
    forall i | 0 <= i < |ev.tests| ensures (classes[i] in PASSED <==> Traced(c, ev, i) && ExitedZero(ev.tests[i])) {
      BoundIsTraced(c, ev, i);
    }
  }

  /** No more names than rows, and as many only if every row is wanted. */
  lemma {:induction false} ChosenLength(plans: seq<Plan>, classes: seq<Class>, wanted: set<Class>)
    requires |classes| <= |plans|
    ensures |Chosen(plans, classes, wanted)| <= |classes|
    ensures |Chosen(plans, classes, wanted)| == |classes| ==> forall i :: 0 <= i < |classes| ==> classes[i] in wanted
  {
    if classes != [] {
      ChosenLength(plans, classes[..|classes| - 1], wanted);
    }
  }

  lemma {:induction false} AllChosen(plans: seq<Plan>, classes: seq<Class>, wanted: set<Class>)
    requires |classes| <= |plans| && forall i :: 0 <= i < |classes| ==> classes[i] in wanted
    ensures Chosen(plans, classes, wanted) == PlanNames(plans[..|classes|])
  {
    hide PlanNames;
    if classes != [] {
      var last := |classes| - 1;
      AllChosen(plans, classes[..last], wanted);
      assert plans[..|classes|][..last] == plans[..last];
      NamesEnd(plans[..|classes|]);
    } else {
      NoNames(plans);
    }
  }

  lemma {:induction false} NoNames(plans: seq<Plan>)
    ensures PlanNames(plans[..0]) == []
  {}

  lemma {:induction false} NamesEnd(plans: seq<Plan>)
    requires plans != []
    ensures PlanNames(plans) == PlanNames(plans[..|plans| - 1]) + [plans[|plans| - 1].name]
  {}

  lemma {:induction false} ChosenIsAll(plans: seq<Plan>, classes: seq<Class>, wanted: set<Class>)
    requires |classes| <= |plans|
    ensures Chosen(plans, classes, wanted) == PlanNames(plans)
            <==> |classes| == |plans| && forall i :: 0 <= i < |classes| ==> classes[i] in wanted
  {
    hide Chosen;
    ChosenLength(plans, classes, wanted);
    if |classes| == |plans| && forall i :: 0 <= i < |classes| ==> classes[i] in wanted {
      AllChosen(plans, classes, wanted);
      assert plans[..|plans|] == plans;
    }
  }

  /** Passing means the whole planned population, in order, was traced and exited 0. */
  lemma {:induction false} PassingMeansAll(c: Case, ev: Evidence, v: Verdict)
    requires Accepted(c, ev) && VerdictOf(c, ev, v)
    ensures v.complete <==> ev.error.None? && |ev.tests| == |c.plan.value| && forall i :: 0 <= i < |ev.tests| ==> Traced(c, ev, i)
    ensures v.testsPassed <==> v.complete && forall i :: 0 <= i < |ev.tests| ==> ExitedZero(ev.tests[i])
  {
    hide Traced, RecordOk, Chosen, Observed, InspectedIn, Users;
    var plans, classes := c.plan.value, Classes(c, ev, |ev.tests|);
    ChosenIsAll(plans, classes, BOUND);
    ChosenIsAll(plans, classes, PASSED);
    forall i | 0 <= i < |ev.tests| ensures (classes[i] in BOUND <==> Traced(c, ev, i)) {
      BoundIsTraced(c, ev, i);
    }
    forall i | 0 <= i < |ev.tests| ensures (classes[i] in PASSED <==> Traced(c, ev, i) && ExitedZero(ev.tests[i])) {
      BoundIsTraced(c, ev, i);
    }
  }

  /** Runtime users are all different, within and across the two configurations, exactly
      because a plan holds at most 64 tests. */
  lemma {:induction false} UsersDistinct(tests: nat)
    ensures (forall g, h, i: nat, j: nat :: i < tests && j < tests && RuntimeUid(g, i) == RuntimeUid(h, j) ==> g == h && i == j)
            <==> tests <= 64
  {
    if tests > 64 {
      assert RuntimeUid(Address, 64) == RuntimeUid(Undefined, 0);
    }
  }
}
