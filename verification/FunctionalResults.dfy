/** The functional-test CSV reader: exact membership, whatever the row order. */
module FunctionalResults {
  import opened Results
  import opened Names

  datatype Summary = Summary(required: seq<string>, executed: seq<string>, passed: seq<string>,
                             failed: seq<string>, skipped: seq<string>)
  datatype Status = Passed | Failed | Skipped
  datatype TestRow = TestRow(name: string, status: Status)

  // ---------- cells ----------

  predicate Digits(s: string) {
    s != "" && forall c :: c in s ==> '0' <= c <= '9'
  }

  /** Digits, optionally followed by a point and more digits. */
  predicate Duration(s: string) {
    Digits(s) || exists i :: 0 <= i < |s| && s[i] == '.' && Digits(s[..i]) && Digits(s[i + 1..])
  }

  function ReadStatus(cell: string): Option<Status> {
    if cell == "Passed" then Some(Passed)
    else if cell == "Failed" then Some(Failed)
    else if cell == "Skipped" then Some(Skipped)
    else None
  }

  function ReadRow(cells: seq<string>): Option<TestRow> {
    if |cells| == 3 && Duration(cells[2]) && ReadStatus(cells[1]).Some?
    then Some(TestRow(cells[0], ReadStatus(cells[1]).value))
    else None
  }

  function ReadRows(rows: seq<seq<string>>): (r: Option<seq<TestRow>>)
    ensures r.Some? <==> forall i :: 0 <= i < |rows| ==> ReadRow(rows[i]).Some?
    ensures r.Some? ==> |r.value| == |rows|
    ensures r.Some? ==> forall i :: 0 <= i < |rows| ==> r.value[i] == ReadRow(rows[i]).value
  {
    if rows == [] then Some([])
    else
      var tail := ReadRows(rows[1..]);
      assert forall i :: 1 <= i < |rows| ==> rows[i] == rows[1..][i - 1];
      if ReadRow(rows[0]).None? || tail.None? then None
      else Some([ReadRow(rows[0]).value] + tail.value)
  }

  predicate Header(cells: seq<string>) {
    cells == ["test", "status", "duration(seconds)"]
  }

  predicate TotalName(name: string) {
    name == "ALL"
  }

  predicate TotalRow(cells: seq<string>, status: Status) {
    |cells| == 3 && TotalName(cells[0]) && Duration(cells[2]) && ReadStatus(cells[1]) == Some(status)
  }

  // ---------- rows ----------

  function NameSet(tests: seq<TestRow>): set<string> {
    set t | t in tests :: t.name
  }

  function StatusByName(tests: seq<TestRow>): (m: map<string, Status>)
    ensures m.Keys == NameSet(tests)
  {
    if tests == [] then map[]
    else
      var last := |tests| - 1;
      assert tests == tests[..last] + [tests[last]];
      StatusByName(tests[..last])[tests[last].name := tests[last].status]
  }

  predicate SelectionValid(selected: seq<string>) {
    selected != [] && Distinct(selected) && forall n :: n in selected ==> n != "" && !TotalName(n)
  }

  /** The test rows name every selected test once and nothing else. */
  predicate Covers(tests: seq<TestRow>, selected: seq<string>) {
    && |tests| == |selected|
    && |NameSet(tests)| == |tests|
    && NameSet(tests) == (set n | n in selected)
  }

  function NamesWith(status: map<string, Status>, wanted: set<Status>): set<string> {
    set n | n in status && status[n] in wanted
  }

  function Classify(selected: seq<string>, status: map<string, Status>): Summary {
    Summary(selected, Select(selected, NamesWith(status, {Passed, Failed})), Select(selected, NamesWith(status, {Passed})),
            Select(selected, NamesWith(status, {Failed})), Select(selected, NamesWith(status, {Skipped})))
  }

  function Total(status: map<string, Status>): Status {
    if Failed in status.Values then Failed else Passed
  }

  /** The source's `_parse_functional_csv` on already split cells. */
  function Parse(rows: seq<seq<string>>, selected: seq<string>): Option<Summary> {
    if !SelectionValid(selected) || |rows| < 3 || !Header(rows[0]) then None
    else
      var tests := ReadRows(rows[1..|rows| - 1]);
      if tests.None? || !Covers(tests.value, selected) then None
      else
        var status := StatusByName(tests.value);
        if TotalRow(rows[|rows| - 1], Total(status)) then Some(Classify(selected, status)) else None
  }

  // ---------- row order ----------

  /** Counting the names as a set exposes every repetition. */
  lemma {:induction false} NameCount(tests: seq<TestRow>)
    ensures |NameSet(tests)| <= |tests|
    ensures tests != [] && |NameSet(tests)| == |tests| ==>
      && |NameSet(tests[..|tests| - 1])| == |tests| - 1
      && tests[|tests| - 1].name !in NameSet(tests[..|tests| - 1])
    decreases |tests|
  {
    if tests != [] {
      var last := |tests| - 1;
      var front, name := tests[..last], tests[last].name;
      assert tests == front + [tests[last]];
      NameCount(front);
      assert NameSet(tests) == NameSet(front) + {name};
      if name in NameSet(front) {
        assert NameSet(tests) == NameSet(front);
      }
    }
  }

  lemma {:induction false} StatusOfRow(tests: seq<TestRow>, t: TestRow)
    requires |NameSet(tests)| == |tests| && t in tests
    ensures t.name in StatusByName(tests) && StatusByName(tests)[t.name] == t.status
    decreases |tests|
  {
    NameCount(tests);
    var last := |tests| - 1;
    var front := tests[..last];
    assert tests == front + [tests[last]];
    if t in front {
      StatusOfRow(front, t);
      assert t.name in NameSet(front);
    }
  }

  lemma {:induction false} SameMembers<T>(a: seq<T>, b: seq<T>)
    requires multiset(a) == multiset(b)
    ensures |a| == |b|
    ensures forall x :: x in a <==> x in b
  {
    assert |multiset(a)| == |a| && |multiset(b)| == |b|;
    forall x ensures x in a <==> x in b {
      assert x in a <==> x in multiset(a);
      assert x in b <==> x in multiset(b);
    }
  }

  lemma {:induction false} StatusOrder(a: seq<TestRow>, b: seq<TestRow>)
    requires |a| == |b| && forall t :: t in a <==> t in b
    ensures NameSet(a) == NameSet(b)
    ensures |NameSet(a)| == |a| ==> StatusByName(a) == StatusByName(b)
  {
    assert NameSet(a) == NameSet(b);
    if |NameSet(a)| == |a| {
      forall n | n in NameSet(a) ensures StatusByName(a)[n] == StatusByName(b)[n] {
        var t :| t in a && t.name == n;
        StatusOfRow(a, t);
        StatusOfRow(b, t);
      }
    }
  }

  lemma {:induction false} ReadSameRows(rows: seq<seq<string>>, others: seq<seq<string>>)
    requires forall r :: r in rows <==> r in others
    ensures ReadRows(rows).Some? <==> ReadRows(others).Some?
    ensures ReadRows(rows).Some? ==> forall t :: t in ReadRows(rows).value <==> t in ReadRows(others).value
  {
    assert ReadRows(rows).Some? <==> forall r :: r in rows ==> ReadRow(r).Some?;
    assert ReadRows(others).Some? <==> forall r :: r in others ==> ReadRow(r).Some?;
    if ReadRows(rows).Some? {
      ReadMembers(rows);
      ReadMembers(others);
    }
  }

  lemma {:induction false} ReadMembers(rows: seq<seq<string>>)
    requires ReadRows(rows).Some?
    ensures forall t :: t in ReadRows(rows).value <==> exists r :: r in rows && ReadRow(r) == Some(t)
  {
    var tests := ReadRows(rows).value;
    forall t ensures t in tests <==> exists r :: r in rows && ReadRow(r) == Some(t) {
      if t in tests {
        var i :| 0 <= i < |tests| && tests[i] == t;
        assert rows[i] in rows && ReadRow(rows[i]) == Some(t);
      }
      if exists r :: r in rows && ReadRow(r) == Some(t) {
        var r :| r in rows && ReadRow(r) == Some(t);
        var i :| 0 <= i < |rows| && rows[i] == r;
        assert tests[i] == t;
      }
    }
  }

  /** Row order does not matter: any permutation of the test rows, between the same
      header and total row, is read as the same result (or refused alike). */
  lemma {:induction false} OrderIndependent(rows: seq<seq<string>>, others: seq<seq<string>>, header: seq<string>,
                                            total: seq<string>, selected: seq<string>)
    requires multiset(rows) == multiset(others)
    ensures Parse([header] + rows + [total], selected) == Parse([header] + others + [total], selected)
  {
    SameMembers(rows, others);
    ReadSameRows(rows, others);
    var a, b := [header] + rows + [total], [header] + others + [total];
    assert a[1..|a| - 1] == rows && b[1..|b| - 1] == others;
    assert a[|a| - 1] == total && b[|b| - 1] == total;
    if ReadRows(rows).Some? {
      StatusOrder(ReadRows(rows).value, ReadRows(others).value);
    }
  }

  // ---------- meaning of an accepted file ----------

  /** An accepted result accounts for every selected test exactly once, in selected
      order; a test counts as passed exactly when its own row says so; and the total
      row says whether one failed. */
  lemma {:induction false} Exhaustive(rows: seq<seq<string>>, selected: seq<string>, s: Summary)
    requires Parse(rows, selected) == Some(s)
    ensures s.required == selected
    ensures multiset(s.executed) + multiset(s.skipped) == multiset(selected)
    ensures multiset(s.passed) + multiset(s.failed) == multiset(s.executed)
    ensures InOrder(s, selected)
    ensures TotalRow(rows[|rows| - 1], if s.failed == [] then Passed else Failed)
    ensures forall i :: 1 <= i < |rows| - 1 ==> CountedAsRead(rows[i], s)
  {
    var cells := rows[1..|rows| - 1];
    var tests := ReadRows(cells).value;
    var status := StatusByName(tests);
    SplitsSelected(selected, status);
    TotalAgrees(selected, status);
    forall i | 1 <= i < |rows| - 1 ensures CountedAsRead(rows[i], s) {
      assert rows[i] == cells[i - 1];
      assert tests[i - 1] in tests && tests[i - 1].name in NameSet(tests);
      StatusOfRow(tests, tests[i - 1]);
    }
  }

  ghost predicate CountedAsRead(cells: seq<string>, s: Summary) {
    ReadRow(cells).Some? &&
    (var t := ReadRow(cells).value;
     && (t.name in s.passed <==> t.status == Passed)
     && (t.name in s.failed <==> t.status == Failed)
     && (t.name in s.skipped <==> t.status == Skipped))
  }

  ghost predicate InOrder(s: Summary, selected: seq<string>) {
    && (exists keep :: s.executed == Select(selected, keep))
    && (exists keep :: s.passed == Select(selected, keep))
    && (exists keep :: s.failed == Select(selected, keep))
    && (exists keep :: s.skipped == Select(selected, keep))
  }

  lemma {:induction false} SplitsSelected(selected: seq<string>, status: map<string, Status>)
    requires forall n :: n in selected ==> n in status
    ensures var s := Classify(selected, status);
            && multiset(s.executed) + multiset(s.skipped) == multiset(selected)
            && multiset(s.passed) + multiset(s.failed) == multiset(s.executed)
            && InOrder(s, selected)
  {
    forall n | n in selected
      ensures n in NamesWith(status, {Passed, Failed}) <==> n !in NamesWith(status, {Skipped})
    {
      assert status[n].Passed? || status[n].Failed? || status[n].Skipped?;
    }
    SplitsBySets(selected, NamesWith(status, {Passed, Failed}), NamesWith(status, {Passed}),
                 NamesWith(status, {Failed}), NamesWith(status, {Skipped}));
  }

  lemma {:induction false} SplitsBySets(selected: seq<string>, run: set<string>, ok: set<string>, bad: set<string>, left: set<string>)
    requires forall n :: n in selected ==> (n in run <==> n !in left)
    requires forall n :: n in run ==> (n in ok <==> n !in bad)
    requires ok <= run && bad <= run
    ensures multiset(Select(selected, run)) + multiset(Select(selected, left)) == multiset(selected)
    ensures multiset(Select(selected, ok)) + multiset(Select(selected, bad)) == multiset(Select(selected, run))
  {
    SelectSplits(selected, run, left);
    SelectTwice(selected, run, ok);
    SelectTwice(selected, run, bad);
    assert run * ok == ok && run * bad == bad;
    SelectSplits(Select(selected, run), ok, bad);
  }

  lemma {:induction false} TotalAgrees(selected: seq<string>, status: map<string, Status>)
    requires status.Keys == (set n | n in selected)
    ensures Total(status) == if Select(selected, NamesWith(status, {Failed})) == [] then Passed else Failed
  {
    var failed := Select(selected, NamesWith(status, {Failed}));
    if Failed in status.Values {
      var n :| n in status && status[n] == Failed;
      assert n in failed;
    } else {
      assert NamesWith(status, {Failed}) == {};
      FirstIsMember(failed);
    }
  }

  /** When every selected test passed, every selected test ran. */
  lemma {:induction false} PassedRan(rows: seq<seq<string>>, selected: seq<string>)
    requires Parse(rows, selected).Some?
    ensures var s := Parse(rows, selected).value; s.passed == selected ==> s.executed == selected
  {
    var s := Parse(rows, selected).value;
    var status := StatusByName(ReadRows(rows[1..|rows| - 1]).value);
    if s.passed == selected {
      forall n | n in selected ensures n in NamesWith(status, {Passed, Failed}) {
        assert n in s.passed;
      }
      SelectAll(selected, NamesWith(status, {Passed, Failed}));
    }
  }

  lemma {:induction false} FirstIsMember(names: seq<string>)
    ensures names == [] || names[0] in names
  {}
}
