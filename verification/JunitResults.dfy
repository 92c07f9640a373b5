/** JUnit result files of one CTest run, already parsed into test cases. */
module JunitResults {
  import opened Results
  import opened Names

  datatype CaseStatus = Run | Fail | NotRun | OtherStatus(text: string)
  datatype FailureNote = Failed | OtherNote(text: string)

  /** One <testcase>: a missing status attribute reads as Run, and NotRun stands for
      the three spellings notrun, disabled and skipped. */
  datatype TestCase = TestCase(name: string, status: CaseStatus, skipped: bool,
                               failure: Option<FailureNote>, error: bool)

  /** A parsed <testsuite> with its declared number of tests. */
  datatype Suite = Suite(declared: int, cases: seq<TestCase>)

  datatype Population = Population(required: seq<string>, executed: seq<string>, passed: seq<string>, skipped: seq<string>)

  function CaseNames(cases: seq<TestCase>): (names: seq<string>)
    ensures |names| == |cases|
    ensures forall i :: 0 <= i < |cases| ==> names[i] == cases[i].name
  {
    if cases == [] then [] else [cases[0].name] + CaseNames(cases[1..])
  }

  predicate WasSkipped(c: TestCase) {
    c.skipped || c.status.NotRun?
  }

  predicate HasPassed(c: TestCase) {
    !WasSkipped(c) && c.failure.None? && !c.error && c.status.Run?
  }

  function SkippedNames(cases: seq<TestCase>): seq<string> {
    if cases == [] then []
    else (if WasSkipped(cases[0]) then [cases[0].name] else []) + SkippedNames(cases[1..])
  }

  function ExecutedNames(cases: seq<TestCase>): seq<string> {
    if cases == [] then []
    else (if WasSkipped(cases[0]) then [] else [cases[0].name]) + ExecutedNames(cases[1..])
  }

  function PassedNames(cases: seq<TestCase>): seq<string> {
    if cases == [] then []
    else (if HasPassed(cases[0]) then [cases[0].name] else []) + PassedNames(cases[1..])
  }

  /** The source's `_junit`: the suite must name exactly the expected tests. */
  function Read(suite: Suite, expected: seq<string>): Option<Population> {
    if Sort(CaseNames(suite.cases)) != Sort(expected) || suite.declared != |suite.cases| then None
    else Some(Population(expected, Sort(ExecutedNames(suite.cases)), Sort(PassedNames(suite.cases)),
                         Sort(SkippedNames(suite.cases))))
  }

  /** Cases that ended as an ordinary reported failure. */
  predicate CleanFailure(c: TestCase) {
    c.failure == Some(Failed) && !c.error && !c.skipped && (c.status.Run? || c.status.Fail?)
  }

  function FailedCases(cases: seq<TestCase>, failed: set<string>): seq<TestCase> {
    if cases == [] then []
    else (if cases[0].name in failed then [cases[0]] else []) + FailedCases(cases[1..], failed)
  }

  /** The source's `_completed_sanitizer_test_failure`, apart from the exit code:
      every required test ran, some failed, and each failing case is a clean failure
      listed exactly once. */
  predicate CompletedFailure(suite: Suite, p: Population) {
    var failed := (set n | n in p.required) - (set n | n in p.passed);
    var cases := FailedCases(suite.cases, failed);
    && p.required != [] && p.skipped == [] && p.executed == p.required && p.passed != p.required
    && (forall c :: c in cases ==> CleanFailure(c))
    && |cases| == |failed|
    && (set c | c in cases :: c.name) == failed
  }

  /** Every expected test is executed or skipped, never both and never twice; the
      passed tests are among the executed ones. */
  lemma {:induction false} Accounted(suite: Suite, expected: seq<string>)
    requires Read(suite, expected).Some?
    ensures var p := Read(suite, expected).value;
            && multiset(p.executed) + multiset(p.skipped) == multiset(expected)
            && multiset(p.passed) <= multiset(p.executed)
  {
    assert multiset(CaseNames(suite.cases)) == multiset(Sort(CaseNames(suite.cases))) == multiset(Sort(expected));
    Partition(suite.cases);
  }

  lemma {:induction false} Partition(cases: seq<TestCase>)
    ensures multiset(ExecutedNames(cases)) + multiset(SkippedNames(cases)) == multiset(CaseNames(cases))
    ensures multiset(PassedNames(cases)) <= multiset(ExecutedNames(cases))
  {
    if cases != [] {
      Partition(cases[1..]);
    }
  }
}
