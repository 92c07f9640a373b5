/** Capturing generated files twice over, accepting the capture, and restoring it. */
module ProjectSnapshot {
  import opened Results
  import opened Text
  import opened Names
  import opened ProjectPaths

  newtype Byte = b: int | 0 <= b < 256
  type Bytes = seq<Byte>

  const MAX_FILE := 32 * 1024 * 1024
  const MAX_TOTAL := 40 * 1024 * 1024
  const STREAM_LIMIT := 56 * 1024 * 1024

  /** One captured file; `data` is what its recorded text decodes to, if it does, and
      `encoded` the length of that text. */
  datatype Item = Item(sha: string, bytes: int, data: Option<Bytes>, encoded: int)

  /** What a snapshot is bound to, apart from its generated units. */
  datatype Request = Request(configuration: string, database: string, sources: string, membership: string, units: seq<string>)

  datatype Snapshot = Snapshot(request: Request, headers: seq<string>, links: seq<string>, files: map<string, Item>,
                               captured: int, population: string, analysed: bool, dependenciesVerified: bool)

  /** Digests, the serialised size and the header suffix test. Every result holds for
      all choices of them. */
  datatype World = World(sha: Bytes -> string, population: map<string, Item> -> string, size: Snapshot -> nat, header: string -> bool)

  /** One traversal of the build tree: header candidates and links that are not. */
  datatype Inventory = Inventory(headers: seq<string>, links: seq<string>)

  /** What a changing tree shows: an inventory, a first and a second read of each path,
      and an inventory again. A failed read or traversal is None. */
  datatype Views = Views(before: Option<Inventory>, first: string -> Option<Bytes>, second: string -> Option<Bytes>, after: Option<Inventory>)

  /** A read never returns more than it was allowed. */
  function Read(view: string -> Option<Bytes>, path: string, maximum: int): Option<Bytes> {
    if view(path).Some? && |view(path).value| <= maximum then view(path) else None
  }

  function Encoded(n: nat): nat {
    4 * ((n + 2) / 3)
  }

  function ItemOf(w: World, raw: Bytes): Item {
    Item(w.sha(raw), |raw|, Some(raw), Encoded(|raw|))
  }

  /** Python's sorted(set(...)) of headers and generated units. */
  function Population(headers: seq<string>, units: seq<string>): seq<string> {
    SortedSet(headers + units)
  }

  /** The captured bytes of the listed paths together. */
  function TotalBytes(paths: seq<string>, files: map<string, Item>): int
    requires forall p :: p in paths ==> p in files
  {
    if paths == [] then 0 else TotalBytes(paths[..|paths| - 1], files) + files[paths[|paths| - 1]].bytes
  }

  // ---------- capture ----------

  /** Both passes saw the same bytes, within the budgets. */
  ghost predicate CapturedFrom(w: World, v: Views, paths: seq<string>, files: map<string, Item>, total: int) {
    && (forall p :: p in files <==> p in paths)
    && (forall p :: p in files ==> v.first(p).Some? && |v.first(p).value| <= MAX_FILE && files[p] == ItemOf(w, v.first(p).value))
    && total == TotalBytes(paths, files) && 0 <= total <= MAX_TOTAL
  }

  lemma {:induction false} TotalSame(paths: seq<string>, files: map<string, Item>, more: map<string, Item>)
    requires forall p :: p in paths ==> p in files && p in more && more[p] == files[p]
    ensures TotalBytes(paths, files) == TotalBytes(paths, more)
  {
    if paths != [] {
      TotalSame(paths[..|paths| - 1], files, more);
    }
  }

  function FirstTotal(v: Views, paths: seq<string>): nat {
    if paths == [] then 0
    else FirstTotal(v, paths[..|paths| - 1]) + (var r := v.first(paths[|paths| - 1]); if r.Some? then |r.value| else 0)
  }

  lemma {:induction false} FirstTotalGrows(v: Views, paths: seq<string>, i: nat)
    requires i <= |paths|
    ensures FirstTotal(v, paths[..i]) <= FirstTotal(v, paths)
  {
    if i < |paths| {
      assert paths[..|paths| - 1][..i] == paths[..i];
      FirstTotalGrows(v, paths[..|paths| - 1], i);
    } else {
      assert paths[..i] == paths;
    }
  }

  /** Every path can be read within its own and the aggregate budget. */
  ghost predicate Fits(v: Views, paths: seq<string>) {
    (forall p :: p in paths ==> v.first(p).Some? && |v.first(p).value| <= MAX_FILE) && FirstTotal(v, paths) <= MAX_TOTAL
  }

  /** The tree shows a sound population that fits, and shows it twice. */
  ghost predicate Steady(r: Request, v: Views) {
    && v.before.Some? && v.after == v.before
    && PathsOk(r.units) && PathsOk(v.before.value.headers) && PathsOk(v.before.value.links)
    && (var paths := Population(v.before.value.headers, r.units);
        PathsOk(paths) && Fits(v, paths) && forall p :: p in paths ==> v.second(p) == v.first(p))
  }

  /** Reads every path, then reads every path again, then looks at the tree again.
      Nothing is returned unless both passes and both inventories agree. */
  method Capture(w: World, r: Request, v: Views) returns (result: Option<Snapshot>)
    ensures result.Some? ==> v.before.Some? && v.after == v.before
    ensures result.Some? ==>
      var s := result.value;
      var paths := Population(v.before.value.headers, r.units);
      && s == Snapshot(r, v.before.value.headers, v.before.value.links, s.files, s.captured, w.population(s.files), false, false)
      && PathsOk(r.units) && PathsOk(s.headers) && PathsOk(s.links) && PathsOk(paths)
      && CapturedFrom(w, v, paths, s.files, s.captured)
      && (forall p :: p in paths ==> v.second(p) == v.first(p))
      && w.size(s) <= STREAM_LIMIT
    ensures Steady(r, v) && result.None? ==> exists s :: IsCapture(w, r, v, s) && w.size(s) > STREAM_LIMIT
  {
    hide PathsOk, CapturedFrom, Population, Fits;
    if !PathsOk(r.units) || v.before.None? { return None; }
    var headers, links := v.before.value.headers, v.before.value.links;
    if !PathsOk(headers) || !PathsOk(links) { return None; }
    var paths := Population(headers, r.units);
    if !PathsOk(paths) { return None; }
    var files, total, read := FirstPass(w, v, paths);
    if !read { return None; }
    var same := SecondPass(w, v, paths, files, total);
    if !same { return None; }
    if v.after != v.before { return None; }
    var s := Snapshot(r, headers, links, files, total, w.population(files), false, false);
    if w.size(s) > STREAM_LIMIT {
      assert IsCapture(w, r, v, s);
      return None;
    }
    result := Some(s);
  }

  method FirstPass(w: World, v: Views, paths: seq<string>) returns (files: map<string, Item>, total: int, ok: bool)
    ensures ok ==> CapturedFrom(w, v, paths, files, total)
    ensures ok <==> Fits(v, paths)
  {
    hide CapturedFrom, Fits, FirstTotal;
    files, total, ok := map[], 0, true;
    NothingRead(w, v, paths);
    var i := 0;
    while i < |paths|
      invariant 0 <= i <= |paths|
      invariant CapturedFrom(w, v, paths[..i], files, total) && total == FirstTotal(v, paths[..i])
    {
      OneMoreTotal(v, paths, i);
      var room := MAX_TOTAL - total;
      var raw := Read(v.first, paths[i], if MAX_FILE < room then MAX_FILE else room);
      if raw.None? {
        if Fits(v, paths) {
          RoomFor(v, paths, i);
        }
        return files, total, false;
      }
      OneMore(w, v, paths, i, files, total, raw.value);
      total := total + |raw.value|;
      files := files[paths[i] := ItemOf(w, raw.value)];
      i := i + 1;
    }
    assert paths[..i] == paths;
    CapturedFits(w, v, paths, files, total);
  }

  lemma {:induction false} NothingRead(w: World, v: Views, paths: seq<string>)
    ensures CapturedFrom(w, v, paths[..0], map[], 0) && FirstTotal(v, paths[..0]) == 0
  {}

  lemma {:induction false} OneMoreTotal(v: Views, paths: seq<string>, i: nat)
    requires i < |paths|
    ensures FirstTotal(v, paths[..i + 1]) == FirstTotal(v, paths[..i]) + (if v.first(paths[i]).Some? then |v.first(paths[i]).value| else 0)
  {
    assert paths[..i + 1][..i] == paths[..i];
  }

  /** Where everything fits, there is room for the next file. */
  lemma {:induction false} RoomFor(v: Views, paths: seq<string>, i: nat)
    requires Fits(v, paths) && i < |paths|
    ensures v.first(paths[i]).Some? && |v.first(paths[i]).value| <= MAX_FILE
    ensures FirstTotal(v, paths[..i]) + |v.first(paths[i]).value| <= MAX_TOTAL
  {
    OneMoreTotal(v, paths, i);
    FirstTotalGrows(v, paths, i + 1);
  }

  lemma {:induction false} CapturedFits(w: World, v: Views, paths: seq<string>, files: map<string, Item>, total: int)
    requires CapturedFrom(w, v, paths, files, total) && total == FirstTotal(v, paths)
    ensures Fits(v, paths)
  {}

  lemma {:induction false} OneMore(w: World, v: Views, paths: seq<string>, i: nat, files: map<string, Item>, total: int, raw: Bytes)
    requires i < |paths| && CapturedFrom(w, v, paths[..i], files, total)
    requires v.first(paths[i]) == Some(raw) && |raw| <= MAX_FILE && |raw| <= MAX_TOTAL - total
    ensures CapturedFrom(w, v, paths[..i + 1], files[paths[i] := ItemOf(w, raw)], total + |raw|)
  {
    var more := files[paths[i] := ItemOf(w, raw)];
    assert paths[..i + 1] == paths[..i] + [paths[i]];
    assert paths[..i + 1][..i] == paths[..i];
    TotalSame(paths[..i], files, more);
  }

  method SecondPass(w: World, v: Views, paths: seq<string>, files: map<string, Item>, total: int) returns (ok: bool)
    requires CapturedFrom(w, v, paths, files, total)
    ensures ok <==> forall p :: p in paths ==> v.second(p) == v.first(p)
  {
    var i := 0;
    while i < |paths|
      invariant 0 <= i <= |paths|
      invariant forall j :: 0 <= j < i ==> v.second(paths[j]) == v.first(paths[j])
    {
      assert paths[i] in paths && paths[i] in files;
      var raw := Read(v.second, paths[i], MAX_FILE);
      if raw.None? || files[paths[i]].data != raw { return false; }
      i := i + 1;
    }
    ok := true;
  }

  // ---------- acceptance on the controller ----------

  predicate ItemOk(w: World, item: Item) {
    && 0 <= item.bytes <= MAX_FILE && item.encoded <= Encoded(MAX_FILE)
    && item.data.Some? && |item.data.value| == item.bytes && w.sha(item.data.value) == item.sha
  }

  predicate PopulationOk(w: World, s: Snapshot) {
    var paths := Population(s.headers, s.request.units);
    && PathsOk(s.headers) && PathsOk(s.links) && PathsOk(paths)
    && (forall p :: p in s.headers ==> w.header(p))
    && (forall p :: p in s.links ==> p !in s.headers && p !in s.request.units)
    && s.files.Keys == (set p | p in paths)
  }

  /** The controller's checks on a returned snapshot, against the request it expects. */
  predicate Accepted(w: World, expected: Request, s: Snapshot) {
    && s.request == expected && PathsOk(expected.units) && !s.analysed && !s.dependenciesVerified
    && PopulationOk(w, s)
    && (forall p :: p in s.files ==> ItemOk(w, s.files[p]))
    && (var paths := Population(s.headers, s.request.units);
        TotalBytes(paths, s.files) == s.captured && s.captured <= MAX_TOTAL)
    && s.population == w.population(s.files)
  }

  /** A traversal names every entry once: by suffix as a header, or as a link. */
  ghost predicate Traversed(w: World, inventory: Inventory) {
    (forall p :: p in inventory.headers ==> w.header(p) && p !in inventory.links)
  }

  /** What a capture returns. */
  ghost predicate IsCapture(w: World, r: Request, v: Views, s: Snapshot) {
    && v.before.Some? && PathsOk(r.units) && PathsOk(s.headers) && PathsOk(s.links) && PathsOk(Population(s.headers, r.units))
    && s == Snapshot(r, v.before.value.headers, v.before.value.links, s.files, s.captured, w.population(s.files), false, false)
    && CapturedFrom(w, v, Population(s.headers, r.units), s.files, s.captured)
  }

  lemma {:induction false} EncodedGrows(m: nat, n: nat)
    requires m <= n
    ensures Encoded(m) <= Encoded(n)
  {}

  /** A returned capture is accepted exactly when no generated unit is also listed as a
      link. On an unchanging tree a unit behind a link cannot be read; a tree that
      changes between the inventory and the reads can make the two disagree. */
  lemma {:induction false} CaptureAcceptedExactly(w: World, r: Request, v: Views, s: Snapshot)
    requires IsCapture(w, r, v, s) && Traversed(w, v.before.value)
    ensures Accepted(w, r, s) <==> forall p :: p in r.units ==> p !in v.before.value.links
  {
    hide PathsOk, Population;
    forall p | p in s.files ensures ItemOk(w, s.files[p]) {
      EncodedGrows(|v.first(p).value|, MAX_FILE);
    }
  }

  // ---------- restoring ----------

  /** A private staging tree under construction. */
  class Staging {
    var directories: set<Name>
    var files: map<Name, Bytes>

    constructor ()
      ensures directories == {[]} && files == map[]
    {
      directories, files := {[]}, map[];
    }

    /** Makes the directories above a file, as far as they are missing. */
    method MakeParents(parts: Name) returns (ok: bool)
      requires parts != []
      modifies this`directories
      ensures ok <==> forall i :: 0 <= i < |parts| ==> parts[..i] !in files
      ensures ok ==> directories == old(directories) + (set i | 0 <= i < |parts| :: parts[..i])
    {
      var i := 0;
      while i < |parts|
        invariant 0 <= i <= |parts|
        invariant forall j :: 0 <= j < i ==> parts[..j] !in files
        invariant directories == old(directories) + (set j | 0 <= j < i :: parts[..j])
      {
        if parts[..i] in files { return false; }
        directories := directories + {parts[..i]};
        i := i + 1;
      }
      ok := true;
    }

    /** Creates a new file; an existing file or directory of that name refuses it. */
    method CreateNew(parts: Name, raw: Bytes) returns (ok: bool)
      modifies this`files
      ensures ok <==> parts !in old(files) && parts !in directories
      ensures files == if ok then old(files)[parts := raw] else old(files)
    {
      ok := parts !in files && parts !in directories;
      if ok {
        files := files[parts := raw];
      }
    }
  }

  /** The captured map, by parts. */
  ghost predicate Holds(tree: map<Name, Bytes>, paths: seq<string>, files: map<string, Item>) {
    && (forall p :: p in paths ==> p in files && files[p].data.Some? && Split(p) in tree && tree[Split(p)] == files[p].data.value)
    && (forall n :: n in tree ==> exists p :: p in paths && Split(p) == n)
  }

  predicate MemberOk(item: Item) {
    0 <= item.bytes <= MAX_FILE && item.encoded <= Encoded(item.bytes)
  }

  predicate Decodes(w: World, item: Item) {
    item.data.Some? && |item.data.value| == item.bytes && w.sha(item.data.value) == item.sha
  }

  /** What a restore demands of its request before it touches the disk. */
  predicate RestoreOk(w: World, paths: seq<string>, files: map<string, Item>, population: string) {
    && files.Keys == (set p | p in paths) && PathsOk(paths)
    && (forall p :: p in files ==> MemberOk(files[p]))
    && TotalBytes(paths, files) <= MAX_TOTAL
    && w.population(files) == population
  }

  /** Every file reads back as it was written. */
  ghost predicate ReadsBack(written: string -> Option<Bytes>, files: map<string, Item>) {
    forall p :: p in files ==> written(p) == files[p].data
  }

  /** Writes every member into a fresh staging tree, reads each back, and publishes the
      tree whole, or publishes nothing; `paths` are the file names in order, and `written`
      is what the disk then shows of each. It publishes exactly when the request is sound,
      every digest holds and every file reads back: paths never get in each other's way. */
  method Restore(w: World, paths: seq<string>, files: map<string, Item>, population: string, written: string -> Option<Bytes>)
      returns (published: Option<map<Name, Bytes>>)
    requires Ordered(paths) && files.Keys == (set p | p in paths)
    ensures published.Some? <==>
              RestoreOk(w, paths, files, population) && (forall p :: p in files ==> Decodes(w, files[p])) && ReadsBack(written, files)
    ensures published.Some? ==> Holds(published.value, paths, files)
  {
    hide PathsOk, Directories, OneTree, Holds, MemberOk, RestoreOk, Read, Decodes;
    if !RestoreOk(w, paths, files, population) { return None; }
    Sound(w, paths, files, population);
    PathsFit(paths);
    var staging := new Staging();
    var i := 0;
    HoldsNothing(paths, files);
    while i < |paths|
      invariant 0 <= i <= |paths| && fresh(staging)
      invariant Holds(staging.files, paths[..i], files)
      invariant forall p :: p in paths[..i] ==> Decodes(w, files[p]) && written(p) == files[p].data
      invariant OnlyDirectories(staging.directories, paths)
    {
      var item := files[paths[i]];
      if !Decodes(w, item) { return None; }
      Decoded(w, item);
      var parts := Split(paths[i]);
      NoFileAbove(staging.files, paths, i, files);
      NotYet(staging.files, paths, i, files);
      ghost var made, tree := staging.directories, staging.files;
      var ready := staging.MakeParents(parts);
      MoreDirectories(made, staging.directories, paths, i);
      var created := staging.CreateNew(parts, item.data.value);
      assert ready && created;
      var again := Read(written, paths[i], MAX_FILE);
      if again != item.data {
        NotReadBack(w, paths, files, population, written, paths[i]);
        return None;
      }
      ReadWhole(written, paths[i], item);
      HoldsMore(paths, i, files, tree);
      assert paths[..i + 1] == paths[..i] + [paths[i]];
      i := i + 1;
    }
    assert paths[..i] == paths;
    published := Some(staging.files);
  }

  /** A member that decodes is within the limit of a read, so a read that fails to return
      it does not show it. */
  lemma {:induction false} NotReadBack(w: World, paths: seq<string>, files: map<string, Item>, population: string, written: string -> Option<Bytes>, p: string)
    requires RestoreOk(w, paths, files, population) && p in files && Decodes(w, files[p]) && Read(written, p, MAX_FILE) != files[p].data
    ensures !ReadsBack(written, files)
  {
    hide PathsOk;
    assert MemberOk(files[p]);
  }

  lemma {:induction false} ReadWhole(written: string -> Option<Bytes>, p: string, item: Item)
    requires item.data.Some? && Read(written, p, MAX_FILE) == item.data
    ensures written(p) == item.data
  {}

  lemma {:induction false} Decoded(w: World, item: Item)
    requires Decodes(w, item)
    ensures item.data.Some?
  {}

  lemma {:induction false} Sound(w: World, paths: seq<string>, files: map<string, Item>, population: string)
    requires RestoreOk(w, paths, files, population)
    ensures PathsOk(paths)
  {
    hide PathsOk;
  }

  lemma {:induction false} PathsFit(paths: seq<string>)
    requires PathsOk(paths)
    ensures OneTree(paths) && Distinct(paths)
  {
    FastMeansOneTree(paths);
  }

  ghost predicate OnlyDirectories(made: set<Name>, paths: seq<string>) {
    forall d :: d in made ==> d == [] || d in Directories(paths)
  }

  lemma {:induction false} MoreDirectories(before: set<Name>, after: set<Name>, paths: seq<string>, i: nat)
    requires i < |paths| && OnlyDirectories(before, paths) && OneTree(paths)
    requires after == before + (set j | 0 <= j < |Split(paths[i])| :: Split(paths[i])[..j])
    ensures OnlyDirectories(after, paths) && Split(paths[i]) !in after
  {
    assert paths[i] in paths;
    forall j | 0 <= j < |Split(paths[i])| ensures Split(paths[i])[..j] in Directories(paths) {}
  }

  lemma {:induction false} HoldsNothing(paths: seq<string>, files: map<string, Item>)
    ensures Holds(map[], paths[..0], files)
  {}

  lemma {:induction false} HoldsMore(paths: seq<string>, i: nat, files: map<string, Item>, t: map<Name, Bytes>)
    requires i < |paths| && paths[i] in files && files[paths[i]].data.Some?
    requires Holds(t, paths[..i], files) && Split(paths[i]) !in t
    ensures Holds(t[Split(paths[i]) := files[paths[i]].data.value], paths[..i + 1], files)
  {
    hide Split;
    var tree := t[Split(paths[i]) := files[paths[i]].data.value];
    assert paths[..i + 1] == paths[..i] + [paths[i]];
    forall p | p in paths[..i + 1]
      ensures p in files && files[p].data.Some? && Split(p) in tree && tree[Split(p)] == files[p].data.value
    {
      assert p in paths[..i] || p == paths[i];
    }
    forall n | n in tree ensures exists p :: p in paths[..i + 1] && Split(p) == n {
      if n == Split(paths[i]) {
        assert paths[i] in paths[..i + 1];
      } else {
        var p :| p in paths[..i] && Split(p) == n;
        assert p in paths[..i + 1];
      }
    }
  }

  lemma {:induction false} NoFileAbove(tree: map<Name, Bytes>, paths: seq<string>, i: nat, files: map<string, Item>)
    requires i < |paths| && Holds(tree, paths[..i], files) && OneTree(paths)
    ensures forall j :: 0 <= j < |Split(paths[i])| ==> Split(paths[i])[..j] !in tree
  {
    assert paths[i] in paths;
    forall j | 0 <= j < |Split(paths[i])| ensures Split(paths[i])[..j] !in tree {
      assert Split(paths[i])[..j] in Directories(paths);
      forall p | p in paths[..i] ensures Split(p) != Split(paths[i])[..j] {
        assert p in paths;
      }
    }
  }

  lemma {:induction false} NotYet(tree: map<Name, Bytes>, paths: seq<string>, i: nat, files: map<string, Item>)
    requires i < |paths| && Holds(tree, paths[..i], files) && OneTree(paths) && Distinct(paths)
    ensures Split(paths[i]) !in tree
  {
    forall p | p in paths[..i] ensures Split(p) != Split(paths[i]) {
      assert p in paths && paths[i] in paths && p != paths[i];
    }
  }

  /** A capture holds every header and every generated unit, each once, and nothing else;
      it can be restored whatever digests are used. */
  lemma {:induction false} CaptureRestores(w: World, r: Request, v: Views, s: Snapshot)
    requires IsCapture(w, r, v, s)
    ensures forall p :: p in s.files <==> p in s.headers || p in r.units
    ensures var paths := Population(s.headers, r.units);
            Distinct(paths) && RestoreOk(w, paths, s.files, s.population) && forall p :: p in s.files ==> Decodes(w, s.files[p])
  {
    hide PathsOk, SortedSet;
    SortedSetHas(s.headers + r.units);
  }

  // ---------- a capture that is refused ----------

  /** A tree that lists "u" as a link in both inventories and shows an empty file there in
      between. */
  function Deceiving(): Views {
    Views(Some(Inventory([], ["u"])), _ => Some([]), _ => Some([]), Some(Inventory([], ["u"])))
  }

  /** Steady while it is looked at, captured within every limit, and still refused. */
  lemma {:induction false} DeceivingIsRefused(w: World, r: Request)
    requires r.units == ["u"]
    ensures var v, item := Deceiving(), ItemOf(w, []);
            var files := map["u" := item];
            var s := Snapshot(r, [], ["u"], files, 0, w.population(files), false, false);
            && Steady(r, v) && Traversed(w, v.before.value) && IsCapture(w, r, v, s) && !Accepted(w, r, s)
  {
    hide PathsOk, SortedSet, TotalBytes, FirstTotal;
    var v, files := Deceiving(), map["u" := ItemOf(w, [])];
    var s := Snapshot(r, [], ["u"], files, 0, w.population(files), false, false);
    OneUnit();
    NoPaths();
    assert [] + ["u"] == ["u"];
    NothingThere(w);
    CaptureAcceptedExactly(w, r, v, s);
    assert "u" in r.units;
  }

  lemma {:induction false} NothingThere(w: World)
    ensures TotalBytes(["u"], map["u" := ItemOf(w, [])]) == 0 && FirstTotal(Deceiving(), ["u"]) == 0
  {
    var v, files := Deceiving(), map["u" := ItemOf(w, [])];
    assert ["u"][..0] == [];
    assert TotalBytes([], files) == 0 && FirstTotal(v, []) == 0;
    var empty: Bytes := [];
    assert v.first("u") == Some(empty) && |empty| == 0;
  }

  lemma {:induction false} OneUnit()
    ensures PathsOk(["u"]) && SortedSet(["u"]) == ["u"]
  {
    SplitOne("u");
    assert ["u"][1..] == [];
    assert Unique(["u"]) == ["u"];
    assert multiset(Sort(["u"])) == multiset(["u"]);
  }

  lemma {:induction false} NoPaths()
    ensures PathsOk([])
  {}
}
