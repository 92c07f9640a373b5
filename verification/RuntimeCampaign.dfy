/** Collections that reached the campaign: every operation is recorded exactly once,
    and the full validator accepts them. */
module RuntimeCampaign {
  import opened Results
  import opened RuntimeTypes
  import opened RuntimeProducer
  import V = RuntimeValidator
  import opened RuntimeSlots
  import opened RuntimeReports
  import opened RuntimeSegments
  import opened RuntimePrefix
  import opened RuntimeHistory
  import opened RuntimeOrder
  import opened RuntimeAgreement
  import opened RuntimeStops
  import opened RuntimeFuzzStops

  type Entry = V.Entry

  // ---------- blocks of recorded operations ----------

  /** Which block of the full record an operation belongs to. */
  function Block(id: OpId): nat {
    match id
    case FunctionalSetup | FunctionalRun | FunctionalRead => 0
    case Configure(k) => KindBlock(k)
    case Build(k) => KindBlock(k)
    case Discover(k) => KindBlock(k)
    case Tests(k) => KindBlock(k)
    case TestLog(k) => KindBlock(k)
    case Resources(k) => KindBlock(k)
    case Junit(k) => KindBlock(k)
    case FuzzStage | FuzzConfigure | FuzzBuild | FuzzReplay(_) | FuzzCampaign => 3
    case Reclaim(_) => 4
    case UnknownOp(_) => 5
  }

  function KindBlock(kind: Kind): nat {
    if kind == Address then 1 else if kind == Undefined then 2 else 5
  }

  /** Checked entries with distinct identities of blocks low to high - 1. */
  ghost predicate Checked(c: V.Case, entries: seq<Entry>, ms: int, low: nat, high: nat) {
    && (forall i :: 0 <= i < |entries| ==> V.RowOk(c, entries[i].row, entries[i].maximum))
    && (forall i :: 0 <= i < |entries| ==> low <= Block(entries[i].row.id) < high)
    && (forall i, j :: 0 <= i < j < |entries| ==> entries[i].row.id != entries[j].row.id)
    && V.TotalMs(entries) == ms
  }

  lemma {:induction false} TotalConcat(a: seq<Entry>, b: seq<Entry>)
    ensures V.TotalMs(a + b) == V.TotalMs(a) + V.TotalMs(b)
    decreases |b|
  {
    if b == [] {
      assert a + b == a;
    } else {
      var last := |b| - 1;
      assert (a + b)[..|a + b| - 1] == a + b[..last];
      TotalConcat(a, b[..last]);
    }
  }

  lemma {:induction false} CheckedConcat(c: V.Case, a: seq<Entry>, b: seq<Entry>, x: int, y: int, low: nat, mid: nat, high: nat)
    requires low <= mid <= high && Checked(c, a, x, low, mid) && Checked(c, b, y, mid, high)
    ensures Checked(c, a + b, x + y, low, high)
  {
    hide V.RowOk;
    TotalConcat(a, b);
  }

  /** One recorded row whose command was planned, under a reader that fits it. */
  ghost predicate Fitting(c: V.Case, row: Option<Row>, id: OpId, maximum: nat) {
    row.Some? && Faithful(c, row.value) && row.value.id == id && V.SpecFor(c, id).limit <= maximum
  }

  lemma {:induction false} CheckedOne(c: V.Case, row: Option<Row>, id: OpId, maximum: nat)
    requires Fitting(c, row, id, maximum)
    ensures Checked(c, [V.Entry(row.value, maximum)], Ms(row), Block(id), Block(id) + 1)
  {
    FaithfulFits(c, row.value, maximum);
    assert [V.Entry(row.value, maximum)][..0] == [];
  }

  lemma {:induction false} CheckedMore(c: V.Case, a: seq<Entry>, ms: int, row: Option<Row>, id: OpId, maximum: nat)
    requires Checked(c, a, ms, Block(id), Block(id) + 1) && Fitting(c, row, id, maximum)
    requires forall i :: 0 <= i < |a| ==> a[i].row.id != id
    ensures Checked(c, a + [V.Entry(row.value, maximum)], ms + Ms(row), Block(id), Block(id) + 1)
  {
    hide V.RowOk, Faithful;
    CheckedOne(c, row, id, maximum);
    TotalConcat(a, [V.Entry(row.value, maximum)]);
  }

  /** Four entries of one block. */
  lemma {:induction false} FourChecked(c: V.Case, rows: seq<Option<Row>>, ids: seq<OpId>, maximum: nat, block: nat)
    requires |rows| == |ids| == 4 && rows[0].Some? && rows[1].Some? && rows[2].Some? && rows[3].Some?
    requires forall i :: 0 <= i < 4 ==> Fitting(c, rows[i], ids[i], maximum) && Block(ids[i]) == block
    requires forall i, j :: 0 <= i < j < 4 ==> ids[i] != ids[j]
    ensures Checked(c, [V.Entry(rows[0].value, maximum), V.Entry(rows[1].value, maximum), V.Entry(rows[2].value, maximum), V.Entry(rows[3].value, maximum)],
                    Ms(rows[0]) + Ms(rows[1]) + Ms(rows[2]) + Ms(rows[3]), block, block + 1)
  {
    hide Faithful, Checked, Block;
    var e0, e1, e2, e3 := V.Entry(rows[0].value, maximum), V.Entry(rows[1].value, maximum), V.Entry(rows[2].value, maximum), V.Entry(rows[3].value, maximum);
    CheckedOne(c, rows[0], ids[0], maximum);
    CheckedMore(c, [e0], Ms(rows[0]), rows[1], ids[1], maximum);
    assert [e0] + [e1] == [e0, e1];
    CheckedMore(c, [e0, e1], Ms(rows[0]) + Ms(rows[1]), rows[2], ids[2], maximum);
    assert [e0, e1] + [e2] == [e0, e1, e2];
    CheckedMore(c, [e0, e1, e2], Ms(rows[0]) + Ms(rows[1]) + Ms(rows[2]), rows[3], ids[3], maximum);
    assert [e0, e1, e2] + [e3] == [e0, e1, e2, e3];
  }

  lemma {:induction false} CheckedNone(c: V.Case, block: nat)
    ensures Checked(c, [], 0, block, block + 1)
  {}

  // ---------- the functional block ----------

  function FunctionalEntries(f: FunctionalPart): seq<Entry>
    requires f.setup.Some? && f.operation.Some? && f.resultsRead.Some?
  {
    [V.Entry(f.setup.value, 4 * MIB), V.Entry(f.operation.value, 4 * MIB), V.Entry(f.resultsRead.value, 2 * MIB + 4096)]
  }

  lemma {:induction false} FunctionalChecked(c: V.Case, f: FunctionalPart)
    requires FunctionalPlaced(c, f) && f.setup.Some? && f.operation.Some? && f.resultsRead.Some?
    ensures Checked(c, FunctionalEntries(f), FunctionalMs(f), 0, 1)
  {
    hide Faithful, Checked;
    var a := V.Entry(f.setup.value, 4 * MIB);
    var b := V.Entry(f.operation.value, 4 * MIB);
    CheckedOne(c, f.setup, FunctionalSetup, 4 * MIB);
    CheckedMore(c, [a], Ms(f.setup), f.operation, FunctionalRun, 4 * MIB);
    CheckedMore(c, [a] + [b], Ms(f.setup) + Ms(f.operation), f.resultsRead, FunctionalRead, 2 * MIB + 4096);
    assert FunctionalEntries(f) == [a] + [b] + [V.Entry(f.resultsRead.value, 2 * MIB + 4096)];
  }

  // ---------- one sanitizer's block ----------

  ghost predicate FullKind(c: V.Case, kind: Kind, part: SanitizerPart, d: Option<Diagnostic>) {
    && KindPlaced(c, kind, part, d) && V.Retained(part) && c.schema.V4?
    && (d.Some? ==> BothReads(d)) && (kind == Address || kind == Undefined)
  }

  lemma {:induction false} KindChecked(c: V.Case, kind: Kind, part: SanitizerPart, d: Option<Diagnostic>)
    requires FullKind(c, kind, part, d)
    ensures Checked(c, V.KindEntries(c, part, d), KindMs(part, d), KindBlock(kind), KindBlock(kind) + 1)
  {
    hide Faithful, Checked;
    var front := KindFront(part);
    FrontChecked(c, kind, part, d);
    var ms := Ms(part.configure) + Ms(part.build) + Ms(part.discovery) + Ms(part.tests) + Ms(part.junitRead);
    if d.Some? {
      var log := V.Entry(d.value.logRead.value, 2 * MIB + 4096);
      CheckedMore(c, front, ms, d.value.logRead, TestLog(kind), 2 * MIB + 4096);
      CheckedMore(c, front + [log], ms + Ms(d.value.logRead), d.value.resources, Resources(kind), 4096);
      assert V.KindEntries(c, part, d) == front + [log] + [V.Entry(d.value.resources.value, 4096)];
    } else {
      assert V.KindEntries(c, part, d) == front;
    }
  }

  function KindFront(part: SanitizerPart): seq<Entry>
    requires V.Retained(part)
  {
    [V.Entry(part.configure.value, 4 * MIB), V.Entry(part.build.value, 4 * MIB), V.Entry(part.discovery.value, 4 * MIB),
     V.Entry(part.tests.value, 4 * MIB), V.Entry(part.junitRead.value, 8 * MIB + 4096)]
  }

  lemma {:induction false} FrontChecked(c: V.Case, kind: Kind, part: SanitizerPart, d: Option<Diagnostic>)
    requires FullKind(c, kind, part, d)
    ensures Checked(c, KindFront(part), Ms(part.configure) + Ms(part.build) + Ms(part.discovery) + Ms(part.tests) + Ms(part.junitRead),
                    KindBlock(kind), KindBlock(kind) + 1)
    ensures forall i :: 0 <= i < 5 ==> !KindFront(part)[i].row.id.TestLog? && !KindFront(part)[i].row.id.Resources?
  {
    hide Faithful, Checked;
    var e := KindFront(part);
    FourChecked(c, [part.configure, part.build, part.discovery, part.tests], [Configure(kind), Build(kind), Discover(kind), Tests(kind)], 4 * MIB, KindBlock(kind));
    assert e[..4] == [e[0], e[1], e[2], e[3]];
    CheckedMore(c, e[..4], Ms(part.configure) + Ms(part.build) + Ms(part.discovery) + Ms(part.tests), part.junitRead, Junit(kind), 8 * MIB + 4096);
    assert e[..4] + [e[4]] == e;
  }

  // ---------- the fuzz block ----------

  function ReplayEntries(replays: seq<Option<Row>>): (r: seq<Entry>)
    requires forall i :: 0 <= i < |replays| ==> replays[i].Some?
    ensures |r| == |replays|
    ensures forall i :: 0 <= i < |replays| ==> r[i] == V.Entry(replays[i].value, 4 * MIB)
  {
    seq(|replays|, i requires 0 <= i < |replays| => V.Entry(replays[i].value, 4 * MIB))
  }

  lemma {:induction false} ReplaysChecked(c: V.Case, replays: seq<Option<Row>>)
    requires |replays| <= |c.plan.fuzz.corpus|
    requires forall i :: 0 <= i < |replays| ==> replays[i].Some? && Placed(c, replays[i], FuzzReplay(i))
    ensures Checked(c, ReplayEntries(replays), ReplayMs(replays), 3, 4)
    ensures forall i :: 0 <= i < |replays| ==> ReplayEntries(replays)[i].row.id == FuzzReplay(i)
    decreases |replays|
  {
    hide Faithful, Checked;
    if replays == [] {
      CheckedNone(c, 3);
    } else {
      var last := |replays| - 1;
      ReplaysChecked(c, replays[..last]);
      CheckedMore(c, ReplayEntries(replays[..last]), ReplayMs(replays[..last]), replays[last], FuzzReplay(last), 4 * MIB);
      assert ReplayEntries(replays) == ReplayEntries(replays[..last]) + [V.Entry(replays[last].value, 4 * MIB)];
    }
  }

  ghost predicate FullFuzz(c: V.Case, f: FuzzPart) {
    && FuzzPlaced(c, f) && f.configure.Some? && f.build.Some? && f.campaign.Some? && |f.replays| == |c.plan.fuzz.corpus|
  }

  lemma {:induction false} FuzzFrontChecked(c: V.Case, f: FuzzPart)
    requires FullFuzz(c, f)
    ensures Checked(c, FuzzFront(f), Ms(f.corpusStage) + Ms(f.configure) + Ms(f.build) + Ms(f.campaign), 3, 4)
    ensures forall i :: 0 <= i < 4 ==> !FuzzFront(f)[i].row.id.FuzzReplay?
  {
    hide Faithful, Checked, ReplayMs;
    FourChecked(c, [f.corpusStage, f.configure, f.build, f.campaign], [FuzzStage, FuzzConfigure, FuzzBuild, FuzzCampaign], 4 * MIB, 3);
  }

  lemma {:induction false} FuzzChecked(c: V.Case, f: FuzzPart)
    requires FullFuzz(c, f)
    ensures Checked(c, V.FuzzEntries(f), FuzzMs(f), 3, 4)
  {
    hide Faithful, Checked;
    FuzzFrontChecked(c, f);
    ReplaysChecked(c, f.replays);
    FuzzJoined(c, FuzzFront(f), ReplayEntries(f.replays), Ms(f.corpusStage) + Ms(f.configure) + Ms(f.build) + Ms(f.campaign), ReplayMs(f.replays));
    assert V.FuzzEntries(f) == FuzzFront(f) + ReplayEntries(f.replays);
  }

  function FuzzFront(f: FuzzPart): seq<Entry>
    requires f.corpusStage.Some? && f.configure.Some? && f.build.Some? && f.campaign.Some?
  {
    [V.Entry(f.corpusStage.value, 4 * MIB), V.Entry(f.configure.value, 4 * MIB), V.Entry(f.build.value, 4 * MIB), V.Entry(f.campaign.value, 4 * MIB)]
  }

  lemma {:induction false} FuzzJoined(c: V.Case, a: seq<Entry>, b: seq<Entry>, x: int, y: int)
    requires Checked(c, a, x, 3, 4) && Checked(c, b, y, 3, 4)
    requires forall i :: 0 <= i < |a| ==> !a[i].row.id.FuzzReplay?
    requires forall i :: 0 <= i < |b| ==> b[i].row.id.FuzzReplay?
    ensures Checked(c, a + b, x + y, 3, 4)
  {
    hide V.RowOk;
    TotalConcat(a, b);
  }

  // ---------- the reclamation block ----------

  lemma {:induction false} ReclaimsChecked(c: V.Case, rows: seq<Row>)
    requires |rows| == 3
    requires forall i :: 0 <= i < 3 ==> Faithful(c, rows[i]) && rows[i].id == Reclaim(PHASES[i])
    ensures Checked(c, V.Entries(rows, 4096), rows[0].durationMs + rows[1].durationMs + rows[2].durationMs, 4, 5)
  {
    hide Faithful, Checked;
    var e := V.Entries(rows, 4096);
    CheckedOne(c, Some(rows[0]), Reclaim(PHASES[0]), 4096);
    assert e[..1] == [e[0]];
    CheckedMore(c, e[..1], rows[0].durationMs, Some(rows[1]), Reclaim(PHASES[1]), 4096);
    assert e[..1] + [e[1]] == e[..2];
    CheckedMore(c, e[..2], rows[0].durationMs + rows[1].durationMs, Some(rows[2]), Reclaim(PHASES[2]), 4096);
    assert e[..2] + [e[2]] == e;
  }

  // ---------- the whole record ----------

  /** Every stage of the collection left all of its rows. */
  ghost predicate Complete(c: V.Case, f: FunctionalPart, ks: seq<KindOutcome>, fuzz: FuzzPart, rows: seq<Row>) {
    && FunctionalPlaced(c, f) && f.setup.Some? && f.operation.Some? && f.resultsRead.Some?
    && |ks| == 2 && FullKind(c, Address, ks[0].part, ks[0].diagnostic) && FullKind(c, Undefined, ks[1].part, ks[1].diagnostic)
    && FullFuzz(c, fuzz)
    && |rows| == 3 && forall i :: 0 <= i < 3 ==> Faithful(c, rows[i]) && rows[i].id == Reclaim(PHASES[i])
  }

  function Total(f: FunctionalPart, ks: seq<KindOutcome>, fuzz: FuzzPart, rows: seq<Row>): int
    requires |ks| == 2 && |rows| == 3
  {
    FunctionalMs(f) + KindMs(ks[0].part, ks[0].diagnostic) + KindMs(ks[1].part, ks[1].diagnostic)
    + FuzzMs(fuzz) + (rows[0].durationMs + rows[1].durationMs + rows[2].durationMs)
  }

  function Blocks(c: V.Case, f: FunctionalPart, ks: seq<KindOutcome>, fuzz: FuzzPart, rows: seq<Row>): seq<Entry>
    requires f.setup.Some? && f.operation.Some? && f.resultsRead.Some?
    requires |ks| == 2 && V.Retained(ks[0].part) && V.Retained(ks[1].part)
    requires fuzz.corpusStage.Some? && fuzz.configure.Some? && fuzz.build.Some? && fuzz.campaign.Some?
    requires forall i :: 0 <= i < |fuzz.replays| ==> fuzz.replays[i].Some?
  {
    FunctionalEntries(f) + V.KindEntries(c, ks[0].part, ks[0].diagnostic) + V.KindEntries(c, ks[1].part, ks[1].diagnostic)
    + V.FuzzEntries(fuzz) + V.Entries(rows, 4096)
  }

  lemma {:induction false} CompleteShape(c: V.Case, f: FunctionalPart, ks: seq<KindOutcome>, fuzz: FuzzPart, rows: seq<Row>)
    requires Complete(c, f, ks, fuzz, rows)
    ensures f.setup.Some? && f.operation.Some? && f.resultsRead.Some?
    ensures |ks| == 2 && V.Retained(ks[0].part) && V.Retained(ks[1].part) && |rows| == 3
    ensures fuzz.corpusStage.Some? && fuzz.configure.Some? && fuzz.build.Some? && fuzz.campaign.Some?
    ensures forall i :: 0 <= i < |fuzz.replays| ==> fuzz.replays[i].Some?
  {
    hide Faithful, KindPlaced;
  }

  lemma {:induction false} BlocksChecked(c: V.Case, f: FunctionalPart, ks: seq<KindOutcome>, fuzz: FuzzPart, rows: seq<Row>)
    requires Complete(c, f, ks, fuzz, rows)
    ensures f.setup.Some? && f.operation.Some? && f.resultsRead.Some?
    ensures |ks| == 2 && V.Retained(ks[0].part) && V.Retained(ks[1].part) && |rows| == 3
    ensures fuzz.corpusStage.Some? && fuzz.configure.Some? && fuzz.build.Some? && fuzz.campaign.Some?
    ensures forall i :: 0 <= i < |fuzz.replays| ==> fuzz.replays[i].Some?
    ensures Checked(c, Blocks(c, f, ks, fuzz, rows), Total(f, ks, fuzz, rows), 0, 5)
  {
    hide Checked, FunctionalPlaced, KindPlaced, FuzzPlaced, Faithful, FunctionalEntries, V.KindEntries, V.FuzzEntries, V.Entries;
    CompleteShape(c, f, ks, fuzz, rows);
    FunctionalChecked(c, f);
    KindChecked(c, Address, ks[0].part, ks[0].diagnostic);
    KindChecked(c, Undefined, ks[1].part, ks[1].diagnostic);
    FuzzChecked(c, fuzz);
    ReclaimsChecked(c, rows);
    var a, k0, k1 := FunctionalEntries(f), V.KindEntries(c, ks[0].part, ks[0].diagnostic), V.KindEntries(c, ks[1].part, ks[1].diagnostic);
    var x, y, z := FunctionalMs(f), KindMs(ks[0].part, ks[0].diagnostic), KindMs(ks[1].part, ks[1].diagnostic);
    CheckedConcat(c, a, k0, x, y, 0, 1, 2);
    CheckedConcat(c, a + k0, k1, x + y, z, 0, 2, 3);
    CheckedConcat(c, a + k0 + k1, V.FuzzEntries(fuzz), x + y + z, FuzzMs(fuzz), 0, 3, 4);
    CheckedConcat(c, a + k0 + k1 + V.FuzzEntries(fuzz), V.Entries(rows, 4096), x + y + z + FuzzMs(fuzz),
                  rows[0].durationMs + rows[1].durationMs + rows[2].durationMs, 0, 4, 5);
  }

  lemma {:induction false} CheckedOperations(c: V.Case, entries: seq<Entry>, ms: int, durationMs: int)
    requires Checked(c, entries, ms, 0, 5) && ms <= durationMs + 2
    ensures V.OperationsOk(c, entries, durationMs)
  {
    hide V.RowOk;
  }

  // ---------- which operations are recorded ----------

  lemma {:induction false} SeenConcat(a: seq<Entry>, b: seq<Entry>)
    ensures V.SeenIds(a + b) == V.SeenIds(a) + V.SeenIds(b)
  {}

  lemma {:induction false} SeenOne(e: Entry)
    ensures V.SeenIds([e]) == {e.row.id}
  {
    assert e in [e];
  }

  lemma {:induction false} FunctionalSeen(c: V.Case, f: FunctionalPart)
    requires FunctionalPlaced(c, f) && f.setup.Some? && f.operation.Some? && f.resultsRead.Some?
    ensures V.SeenIds(FunctionalEntries(f)) == {FunctionalSetup, FunctionalRun, FunctionalRead}
  {
    hide Faithful;
    var e := FunctionalEntries(f);
    assert e[0] in e && e[1] in e && e[2] in e;
  }

  function KindOps(kind: Kind, noted: bool): set<OpId> {
    {Configure(kind), Build(kind), Discover(kind), Tests(kind), Junit(kind)} + (if noted then {TestLog(kind), Resources(kind)} else {})
  }

  lemma {:induction false} KindSeen(c: V.Case, kind: Kind, part: SanitizerPart, d: Option<Diagnostic>)
    requires FullKind(c, kind, part, d)
    ensures V.SeenIds(V.KindEntries(c, part, d)) == KindOps(kind, d.Some?)
  {
    hide Faithful, KindPlaced, V.SeenIds;
    FrontSeen(c, kind, part, d);
    if d.Some? {
      NotesSeen(c, kind, part, d.value);
      var notes := [V.Entry(d.value.logRead.value, 2 * MIB + 4096), V.Entry(d.value.resources.value, 4096)];
      assert V.KindEntries(c, part, d) == KindFront(part) + notes;
      SeenConcat(KindFront(part), notes);
    } else {
      assert V.KindEntries(c, part, d) == KindFront(part);
    }
  }

  lemma {:induction false} FrontSeen(c: V.Case, kind: Kind, part: SanitizerPart, d: Option<Diagnostic>)
    requires FullKind(c, kind, part, d)
    ensures V.SeenIds(KindFront(part)) == {Configure(kind), Build(kind), Discover(kind), Tests(kind), Junit(kind)}
  {
    hide Faithful, V.SeenIds;
    var e := KindFront(part);
    SeenOne(e[0]);
    SeenOne(e[1]);
    SeenOne(e[2]);
    SeenOne(e[3]);
    SeenOne(e[4]);
    SeenConcat([e[0]], [e[1]]);
    SeenConcat([e[0], e[1]], [e[2]]);
    SeenConcat([e[0], e[1], e[2]], [e[3]]);
    SeenConcat([e[0], e[1], e[2], e[3]], [e[4]]);
    assert [e[0]] + [e[1]] == [e[0], e[1]] && [e[0], e[1]] + [e[2]] == [e[0], e[1], e[2]];
    assert [e[0], e[1], e[2]] + [e[3]] == [e[0], e[1], e[2], e[3]] && [e[0], e[1], e[2], e[3]] + [e[4]] == e;
  }

  lemma {:induction false} NotesSeen(c: V.Case, kind: Kind, part: SanitizerPart, d: Diagnostic)
    requires FullKind(c, kind, part, Some(d))
    ensures V.SeenIds([V.Entry(d.logRead.value, 2 * MIB + 4096), V.Entry(d.resources.value, 4096)]) == {TestLog(kind), Resources(kind)}
  {
    hide Faithful;
    var e := [V.Entry(d.logRead.value, 2 * MIB + 4096), V.Entry(d.resources.value, 4096)];
    assert e[0] in e && e[1] in e;
  }

  function FuzzOpsOf(n: nat): set<OpId> {
    {FuzzStage, FuzzConfigure, FuzzBuild, FuzzCampaign} + (set i | 0 <= i < n :: FuzzReplay(i))
  }

  lemma {:induction false} FuzzFrontSeen(c: V.Case, f: FuzzPart)
    requires FullFuzz(c, f)
    ensures V.SeenIds(FuzzFront(f)) == {FuzzStage, FuzzConfigure, FuzzBuild, FuzzCampaign}
  {
    hide Faithful, V.SeenIds;
    var e := FuzzFront(f);
    SeenOne(e[0]);
    SeenOne(e[1]);
    SeenOne(e[2]);
    SeenOne(e[3]);
    SeenConcat([e[0]], [e[1]]);
    SeenConcat([e[0], e[1]], [e[2]]);
    SeenConcat([e[0], e[1], e[2]], [e[3]]);
    assert [e[0]] + [e[1]] == [e[0], e[1]] && [e[0], e[1]] + [e[2]] == [e[0], e[1], e[2]] && [e[0], e[1], e[2]] + [e[3]] == e;
  }

  lemma {:induction false} EntriesSeen(r: seq<Entry>)
    requires forall i :: 0 <= i < |r| ==> r[i].row.id == FuzzReplay(i)
    ensures V.SeenIds(r) == set i | 0 <= i < |r| :: FuzzReplay(i)
  {
    forall i | 0 <= i < |r| ensures FuzzReplay(i) in V.SeenIds(r) {
      assert r[i] in r;
    }
  }

  lemma {:induction false} FuzzSeen(c: V.Case, f: FuzzPart)
    requires FullFuzz(c, f)
    ensures V.SeenIds(V.FuzzEntries(f)) == FuzzOpsOf(|c.plan.fuzz.corpus|)
  {
    hide Faithful, V.SeenIds, Checked;
    var e, r := FuzzFront(f), ReplayEntries(f.replays);
    assert V.FuzzEntries(f) == e + r;
    SeenConcat(e, r);
    FuzzFrontSeen(c, f);
    ReplaysNamed(c, f);
    EntriesSeen(r);
  }

  lemma {:induction false} ReplaysNamed(c: V.Case, f: FuzzPart)
    requires FullFuzz(c, f)
    ensures |f.replays| == |c.plan.fuzz.corpus| && |ReplayEntries(f.replays)| == |f.replays|
    ensures forall i :: 0 <= i < |f.replays| ==> ReplayEntries(f.replays)[i].row.id == FuzzReplay(i)
  {
    hide Faithful;
  }

  lemma {:induction false} ReclaimsSeen(rows: seq<Row>)
    requires |rows| == 3 && forall i :: 0 <= i < 3 ==> rows[i].id == Reclaim(PHASES[i])
    ensures V.SeenIds(V.Entries(rows, 4096)) == {Reclaim(Baseline), Reclaim(Of(Address)), Reclaim(Of(Undefined))}
  {
    var e := V.Entries(rows, 4096);
    assert e[0] in e && e[1] in e && e[2] in e;
    assert PHASES[0] == Baseline && PHASES[1] == Of(Address) && PHASES[2] == Of(Undefined);
  }

  /** The operations of a finished collection. */
  function FinishedOps(c: V.Case, ks: seq<KindOutcome>): set<OpId>
    requires |ks| == 2
  {
    {FunctionalSetup, FunctionalRun, FunctionalRead} + KindOps(Address, ks[0].diagnostic.Some?) + KindOps(Undefined, ks[1].diagnostic.Some?)
    + FuzzOpsOf(|c.plan.fuzz.corpus|) + {Reclaim(Baseline), Reclaim(Of(Address)), Reclaim(Of(Undefined))}
  }

  lemma {:induction false} BlocksSeen(c: V.Case, f: FunctionalPart, ks: seq<KindOutcome>, fuzz: FuzzPart, rows: seq<Row>)
    requires Complete(c, f, ks, fuzz, rows)
    ensures f.setup.Some? && f.operation.Some? && f.resultsRead.Some?
    ensures |ks| == 2 && V.Retained(ks[0].part) && V.Retained(ks[1].part)
    ensures fuzz.corpusStage.Some? && fuzz.configure.Some? && fuzz.build.Some? && fuzz.campaign.Some?
    ensures forall i :: 0 <= i < |fuzz.replays| ==> fuzz.replays[i].Some?
    ensures V.SeenIds(Blocks(c, f, ks, fuzz, rows)) == FinishedOps(c, ks)
  {
    hide FunctionalPlaced, KindPlaced, FuzzPlaced, Faithful, FunctionalEntries, V.KindEntries, V.FuzzEntries, V.Entries, V.SeenIds, KindOps, FuzzOpsOf;
    CompleteShape(c, f, ks, fuzz, rows);
    FunctionalSeen(c, f);
    KindSeen(c, Address, ks[0].part, ks[0].diagnostic);
    KindSeen(c, Undefined, ks[1].part, ks[1].diagnostic);
    FuzzSeen(c, fuzz);
    ReclaimsSeen(rows);
    var a, k0, k1 := FunctionalEntries(f), V.KindEntries(c, ks[0].part, ks[0].diagnostic), V.KindEntries(c, ks[1].part, ks[1].diagnostic);
    SeenConcat(a, k0);
    SeenConcat(a + k0, k1);
    SeenConcat(a + k0 + k1, V.FuzzEntries(fuzz));
    SeenConcat(a + k0 + k1 + V.FuzzEntries(fuzz), V.Entries(rows, 4096));
  }

  /** The recorded operations are exactly the required ones. */
  lemma {:induction false} FinishedRequired(c: V.Case, ev: Evidence, ks: seq<KindOutcome>, id: OpId)
    requires |ks| == 2 && c.schema.V4? && c.plan.sanitizers.kinds == [Address, Undefined]
    requires FullKind(c, Address, ks[0].part, ks[0].diagnostic) && FullKind(c, Undefined, ks[1].part, ks[1].diagnostic)
    requires ev.diagnostics == OneNote(ks[0].diagnostic) + OneNote(ks[1].diagnostic)
    ensures id in FinishedOps(c, ks) <==> V.RequiredOp(c, ev, id)
  {
    hide Faithful;
    if id.TestLog? || id.Resources? {
      NotedOps(c, ev, ks, id);
    } else {
      PlannedOps(c, ks, id);
    }
  }

  lemma {:induction false} PlannedOps(c: V.Case, ks: seq<KindOutcome>, id: OpId)
    requires |ks| == 2 && c.schema.V4? && c.plan.sanitizers.kinds == [Address, Undefined]
    requires !id.TestLog? && !id.Resources?
    ensures id in FinishedOps(c, ks) <==> V.Planned(c, id)
  {
    hide KindOps, FuzzOpsOf;
    KindOpsAre(Address, ks[0].diagnostic.Some?, id);
    KindOpsAre(Undefined, ks[1].diagnostic.Some?, id);
    FuzzOpsAre(|c.plan.fuzz.corpus|, id);
    PlannedAre(c, id);
  }

  predicate FuzzOp(n: nat, id: OpId) {
    match id
    case FuzzStage | FuzzConfigure | FuzzBuild | FuzzCampaign => true
    case FuzzReplay(i) => i < n
    case _ => false
  }

  predicate KindOp(kind: Kind, id: OpId) {
    id == Configure(kind) || id == Build(kind) || id == Discover(kind) || id == Tests(kind) || id == Junit(kind)
  }

  lemma {:induction false} PlannedAre(c: V.Case, id: OpId)
    requires c.schema.V4? && c.plan.sanitizers.kinds == [Address, Undefined] && !id.TestLog? && !id.Resources?
    ensures V.Planned(c, id) <==>
              || id in {FunctionalSetup, FunctionalRun, FunctionalRead} || KindOp(Address, id) || KindOp(Undefined, id)
              || FuzzOp(|c.plan.fuzz.corpus|, id) || id in {Reclaim(Baseline), Reclaim(Of(Address)), Reclaim(Of(Undefined))}
  {
    assert PHASES == [Baseline, Of(Address), Of(Undefined)];
  }

  lemma {:induction false} KindOpsAre(kind: Kind, noted: bool, id: OpId)
    requires !id.TestLog? && !id.Resources?
    ensures id in KindOps(kind, noted) <==> KindOp(kind, id)
  {}

  lemma {:induction false} FuzzOpsAre(n: nat, id: OpId)
    ensures id in FuzzOpsOf(n) <==> FuzzOp(n, id)
  {}

  lemma {:induction false} NotedOps(c: V.Case, ev: Evidence, ks: seq<KindOutcome>, id: OpId)
    requires |ks| == 2 && c.schema.V4? && (id.TestLog? || id.Resources?)
    requires FullKind(c, Address, ks[0].part, ks[0].diagnostic) && FullKind(c, Undefined, ks[1].part, ks[1].diagnostic)
    requires ev.diagnostics == OneNote(ks[0].diagnostic) + OneNote(ks[1].diagnostic)
    ensures id in FinishedOps(c, ks) <==> exists i :: 0 <= i < |ev.diagnostics| && V.Diagnoses(ev.diagnostics[i], id)
  {
    hide FullKind, KindOps, FuzzOpsOf, V.Diagnoses;
    NoteDiagnoses(c, Address, ks[0].part, ks[0].diagnostic, id);
    NoteDiagnoses(c, Undefined, ks[1].part, ks[1].diagnostic, id);
    FuzzOpsAre(|c.plan.fuzz.corpus|, id);
    EitherNote(ev.diagnostics, ks[0].diagnostic, ks[1].diagnostic, id);
  }

  lemma {:induction false} EitherNote(notes: seq<Diagnostic>, a: Option<Diagnostic>, u: Option<Diagnostic>, id: OpId)
    requires notes == OneNote(a) + OneNote(u)
    ensures (exists i :: 0 <= i < |notes| && V.Diagnoses(notes[i], id)) <==>
              (a.Some? && V.Diagnoses(a.value, id)) || (u.Some? && V.Diagnoses(u.value, id))
  {
    assert a.Some? ==> notes[0] == a.value;
    assert u.Some? ==> notes[|notes| - 1] == u.value;
  }

  lemma {:induction false} NoteDiagnoses(c: V.Case, kind: Kind, part: SanitizerPart, d: Option<Diagnostic>, id: OpId)
    requires FullKind(c, kind, part, d) && (id.TestLog? || id.Resources?)
    ensures id in KindOps(kind, d.Some?) <==> d.Some? && V.Diagnoses(d.value, id)
  {
    hide Faithful;
  }
}
