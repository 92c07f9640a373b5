/** What each producer stage leaves behind, in the validator's terms. */
module RuntimeReports {
  import opened Results
  import opened Names
  import opened JunitResults
  import FunctionalResults
  import opened RuntimeTypes
  import opened RuntimeProducer
  import V = RuntimeValidator
  import opened RuntimeSlots

  function CaseOf(s: Session): V.Case {
    V.Case(s.w, s.plan, s.options, if s.capture then V.RuntimeTypes.V4 else V.RuntimeTypes.V2)
  }

  /** The transport keeps its promises for a planned operation: an exit code that
      fits, no more bytes than asked for, and less than two seconds to stop it. */
  ghost predicate Bounded(c: V.Case, id: OpId, o: Outcome) {
    && -255 <= o.exitCode <= 255
    && |o.output| <= V.SpecFor(c, id).limit
    && o.overrun <= 1999 * MS
  }

  ghost predicate Honest(s: Session) {
    forall id: OpId :: V.Planned(CaseOf(s), id) ==> Bounded(CaseOf(s), id, s.outcome(id))
  }

  /** The release-owned plan of the current schema. */
  ghost predicate Released(s: Session) {
    s.capture && Runnable(s.plan) && s.plan.sanitizers.kinds == [Address, Undefined]
  }

  // ---------- single operations ----------

  ghost predicate ObservedWell(s: Session, now: nat, id: OpId, seen: Observation) {
    match seen
    case Late(t) => t >= now && t >= DEADLINE
    case Seen(row, t) =>
      && now <= t && row.id == id && Faithful(CaseOf(s), row)
      && row.output.Some? && row.outputSha == s.w.sha(row.output.value)
      && |row.output.value| <= V.SpecFor(CaseOf(s), id).limit
      && row.durationMs * MS <= t - now
  }

  lemma {:induction false} ObserveReport(s: Session, now: nat, id: OpId, command: Command, user: Option<User>,
                      environment: set<Setting>, workdir: Option<Directory>)
    requires Honest(s) && V.Planned(CaseOf(s), id)
    requires var spec := V.SpecFor(CaseOf(s), id);
             command == spec.command && user == spec.user && environment == spec.environment && workdir == spec.workdir
    ensures ObservedWell(s, now, id, Observe(s, now, id, command, user, environment, workdir))
  {
    hide V.SpecFor, Requested, V.Planned;
    var o := s.outcome(id);
    assert Bounded(CaseOf(s), id, o);
    if now + o.gap < DEADLINE {
      RequestedAsPlanned(CaseOf(s), id);
      ElapsedFits(s, id, now + o.gap);
    }
  }

  /** A clipped command that is stopped in time stays within the validator's allowance. */
  lemma {:induction false} ElapsedFits(s: Session, id: OpId, start: nat)
    requires start < DEADLINE && s.outcome(id).overrun <= 1999 * MS
    ensures Elapsed(s, id, start) / MS <= Requested(s.plan, id) * 1000 + 2000
    ensures Elapsed(s, id, start) / MS * MS <= Elapsed(s, id, start)
  {
    hide Requested;
    MillisecondsFit(Elapsed(s, id, start), Requested(s.plan, id));
  }

  /** The validator allows each command the seconds the producer asks for. */
  lemma {:induction false} RequestedAsPlanned(c: V.Case, id: OpId)
    ensures Requested(c.plan, id) == V.SpecFor(c, id).seconds
  {}

  lemma {:induction false} MillisecondsFit(elapsed: nat, seconds: nat)
    requires elapsed <= (seconds * 1000 + 2000) * MS
    ensures elapsed / MS <= seconds * 1000 + 2000
    ensures elapsed / MS * MS <= elapsed
  {}

  // ---------- one sanitizer ----------

  function Ms(row: Option<Row>): int {
    if row.Some? then row.value.durationMs else 0
  }

  function DiagnosticMs(d: Option<Diagnostic>): int {
    if d.Some? then Ms(d.value.logRead) + Ms(d.value.resources) else 0
  }

  function KindMs(part: SanitizerPart, d: Option<Diagnostic>): int {
    Ms(part.configure) + Ms(part.build) + Ms(part.discovery) + Ms(part.tests) + DiagnosticMs(d) + Ms(part.junitRead)
  }

  ghost predicate Placed(c: V.Case, row: Option<Row>, id: OpId) {
    row.Some? ==> Faithful(c, row.value) && row.value.id == id
  }

  ghost predicate KindPlaced(c: V.Case, kind: Kind, part: SanitizerPart, d: Option<Diagnostic>) {
    && part.kind == kind
    && Placed(c, part.configure, Configure(kind)) && Placed(c, part.build, Build(kind))
    && Placed(c, part.discovery, Discover(kind)) && Placed(c, part.tests, Tests(kind))
    && Placed(c, part.junitRead, Junit(kind))
    && (d.Some? ==> d.value.kind == kind && Placed(c, d.value.logRead, TestLog(kind)) && Placed(c, d.value.resources, Resources(kind)))
  }

  /** Configured, built and discovered, with readable names. */
  ghost predicate Prepared(c: V.Case, part: SanitizerPart) {
    Has(part.configure) && Has(part.build) && Has(part.discovery) && V.KindNames(c, part).Some?
  }

  ghost predicate BothReads(d: Option<Diagnostic>) {
    d.Some? && d.value.logRead.Some? && d.value.resources.Some?
  }

  ghost predicate NoResults(part: SanitizerPart) {
    part.results.None? && part.junitSha.None?
  }

  ghost predicate KindFinished(c: V.Case, k: KindOutcome) {
    && Prepared(c, k.part) && k.part.tests.Some? && Has(k.part.junitRead)
    && V.JunitSound(c, k.part) && k.part.results.Some?
    && (if k.completed then !Good(k.part.tests.value) && BothReads(k.diagnostic) && V.Continuable(c, k.part)
        else Has(k.part.tests) && k.diagnostic.None? && V.KindSucceeded(k.part))
  }

  ghost predicate KindFailedAt(c: V.Case, kind: Kind, k: KindOutcome, code: ErrorCode, op: OpId) {
    var part := k.part;
    && !V.Continuable(c, part) && V.JunitSound(c, part)
    && match op
       case Configure(_) =>
         op == Configure(kind) && part.configure.Some? && !Good(part.configure.value) && part.build.None? && part.discovery.None?
         && part.tests.None? && k.diagnostic.None? && part.junitRead.None? && code == SanitizerFailed
       case Build(_) =>
         op == Build(kind) && Has(part.configure) && part.build.Some? && !Good(part.build.value) && part.discovery.None?
         && part.tests.None? && k.diagnostic.None? && part.junitRead.None? && code == SanitizerFailed
       case Discover(_) =>
         op == Discover(kind) && Has(part.configure) && Has(part.build) && part.discovery.Some? && !Good(part.discovery.value)
         && part.tests.None? && k.diagnostic.None? && part.junitRead.None? && code == SanitizerFailed
       case Tests(_) =>
         op == Tests(kind) && Prepared(c, part) && part.tests.Some? && !Good(part.tests.value) && BothReads(k.diagnostic)
         && part.junitRead.Some? && code == (if Has(part.junitRead) then SanitizerFailed else ArtifactUnavailable)
       case Junit(_) =>
         op == Junit(kind) && Prepared(c, part) && Has(part.tests) && k.diagnostic.None?
         && part.junitRead.Some? && !Good(part.junitRead.value) && code == ArtifactUnavailable
       case _ => false
  }

  /** Time ran out: either the record is broken off where the validator needs more,
      or nothing recorded failed, or only the JUnit read is missing after failed tests. */
  ghost predicate KindLate(c: V.Case, kind: Kind, k: KindOutcome, op: OpId) {
    var part := k.part;
    match op
    case Configure(_) => part.configure.None?
    case Build(_) => Has(part.configure) && part.build.None? && part.discovery.None? && part.tests.None? && k.diagnostic.None? && part.junitRead.None? && NoResults(part)
    case Discover(_) => Has(part.configure) && Has(part.build) && part.discovery.None? && part.tests.None? && k.diagnostic.None? && part.junitRead.None? && NoResults(part)
    case Tests(_) => Prepared(c, part) && part.tests.None? && k.diagnostic.None? && part.junitRead.None? && NoResults(part)
    case TestLog(_) => k.diagnostic.Some? && !BothReads(k.diagnostic)
    case Resources(_) => k.diagnostic.Some? && !BothReads(k.diagnostic)
    case Junit(_) =>
      && Prepared(c, part) && part.tests.Some? && part.junitRead.None? && NoResults(part)
      && (if Has(part.tests) then k.diagnostic.None? else BothReads(k.diagnostic))
    case _ => false
  }

  ghost predicate KindEnding(c: V.Case, kind: Kind, k: KindOutcome) {
    match k.halt
    case Running => KindFinished(c, k)
    case Raised(code, stop) =>
      && !k.completed
      && match stop
         case NativeFailure(op) => KindFailedAt(c, kind, k, code, op)
         case BadContent(_) => !V.KindConsistent(c, k.part, k.diagnostic)
         case Mismatch(_) =>
           && Prepared(c, k.part) && Has(k.part.tests) && k.diagnostic.None? && Has(k.part.junitRead)
           && V.JunitSound(c, k.part) && !V.KindSucceeded(k.part) && !V.Continuable(c, k.part)
         case OutOfTime(op) => code == DeadlineReached && k.now >= DEADLINE && KindLate(c, kind, k, op)
         case CampaignUnsuccessful => false
  }

  ghost predicate KindReport(c: V.Case, kind: Kind, t0: nat, k: KindOutcome) {
    && t0 <= k.now
    && KindPlaced(c, kind, k.part, k.diagnostic)
    && KindMs(k.part, k.diagnostic) * MS <= k.now - t0
    && KindEnding(c, kind, k)
  }

  /** Recorded so far, within the time spent so far. */
  ghost predicate SoFar(c: V.Case, kind: Kind, part: SanitizerPart, d: Option<Diagnostic>, t0: nat, now: nat) {
    && t0 <= now && NoResults(part) && part.junitRead.None?
    && KindPlaced(c, kind, part, d)
    && KindMs(part, d) * MS <= now - t0
  }

  lemma {:induction false} KindStageReport(s: Session, now: nat, kind: Kind)
    requires Honest(s) && s.capture && kind in s.plan.sanitizers.kinds
    ensures KindReport(CaseOf(s), kind, now, KindStage(s, now, kind))
  {
    var part := SanitizerPart(kind, None, None, None, None, None, None, None);
    ObserveReport(s, now, Configure(kind), ConfigureSanitized(kind, s.options), None, {}, None);
    match Plain(s, now, Configure(kind), ConfigureSanitized(kind, s.options))
    case Late(t) =>
    case Seen(c, t) =>
      if Good(c) {
        BuildKindReport(s, part.(configure := Some(c)), t, kind, now);
      }
  }

  lemma {:induction false} BuildKindReport(s: Session, part: SanitizerPart, now: nat, kind: Kind, t0: nat)
    requires Honest(s) && s.capture && kind in s.plan.sanitizers.kinds
    requires SoFar(CaseOf(s), kind, part, None, t0, now)
    requires Has(part.configure) && part.build.None? && part.discovery.None? && part.tests.None?
    ensures KindReport(CaseOf(s), kind, t0, BuildKind(s, part, now, kind))
  {
    var command := BuildTree(Sanitized(kind), s.plan.sanitizers.parallel, None);
    ObserveReport(s, now, Build(kind), command, None, {}, None);
    match Plain(s, now, Build(kind), command)
    case Late(t) =>
    case Seen(b, t) =>
      if Good(b) {
        DiscoverKindReport(s, part.(build := Some(b)), t, kind, t0);
      }
  }

  lemma {:induction false} DiscoverKindReport(s: Session, part: SanitizerPart, now: nat, kind: Kind, t0: nat)
    requires Honest(s) && s.capture && kind in s.plan.sanitizers.kinds
    requires SoFar(CaseOf(s), kind, part, None, t0, now)
    requires Has(part.configure) && Has(part.build) && part.discovery.None? && part.tests.None?
    ensures KindReport(CaseOf(s), kind, t0, DiscoverKind(s, part, now, kind))
  {
    hide Observe;
    ObserveReport(s, now, Discover(kind), ListTests(Sanitized(kind)), None, {}, None);
    match Plain(s, now, Discover(kind), ListTests(Sanitized(kind)))
    case Late(t) =>
    case Seen(d, t) =>
      if Good(d) {
        assert Output(s.w, d, 4 * MIB) == d.output;
        var names := ReadNames(s.w, d.output.value);
        if names.Some? {
          TestKindReport(s, part.(discovery := Some(d)), t, kind, names.value, t0);
        }
      }
  }

  lemma {:induction false} TestKindReport(s: Session, part: SanitizerPart, now: nat, kind: Kind, names: seq<string>, t0: nat)
    requires Honest(s) && s.capture && kind in s.plan.sanitizers.kinds
    requires SoFar(CaseOf(s), kind, part, None, t0, now)
    requires Prepared(CaseOf(s), part) && V.KindNames(CaseOf(s), part) == Some(names) && part.tests.None?
    ensures KindReport(CaseOf(s), kind, t0, TestKind(s, part, now, kind, names))
  {
    var parallel := TestParallel(s.plan);
    var command := RunTests(Sanitized(kind), CtestLog(kind), s.plan.schema.PlanV4? && kind == Address,
                            if parallel.Some? then parallel.value else 0, s.plan.sanitizers.caseSeconds, JunitXml(kind));
    TestsObserved(s, now, kind, command);
    match Observe(s, now, Tests(kind), command, None, TestSettings(s, kind), None)
    case Late(t) =>
      LateRead(s, part, None, t, kind, Tests(kind), t0);
    case Seen(tests, t) =>
      TestsGrown(s, part, kind, t0, now, t, tests);
      if Good(tests) {
        CollectJunitReport(s, part.(tests := Some(tests)), None, t, kind, names, tests, t0);
      } else {
        DiagnoseKindReport(s, part.(tests := Some(tests)), t, kind, names, tests, t0);
      }
  }

  lemma {:induction false} TestsObserved(s: Session, now: nat, kind: Kind, command: Command)
    requires Honest(s) && kind in s.plan.sanitizers.kinds
    requires var parallel := TestParallel(s.plan);
             command == RunTests(Sanitized(kind), CtestLog(kind), s.plan.schema.PlanV4? && kind == Address,
                                 if parallel.Some? then parallel.value else 0, s.plan.sanitizers.caseSeconds, JunitXml(kind))
    ensures ObservedWell(s, now, Tests(kind), Observe(s, now, Tests(kind), command, None, TestSettings(s, kind), None))
  {
    ObserveReport(s, now, Tests(kind), command, None, TestSettings(s, kind), None);
  }

  lemma {:induction false} TestsGrown(s: Session, part: SanitizerPart, kind: Kind, t0: nat, now: nat, t: nat, tests: Row)
    requires SoFar(CaseOf(s), kind, part, None, t0, now) && part.tests.None?
    requires Placed(CaseOf(s), Some(tests), Tests(kind)) && now <= t && tests.durationMs * MS <= t - now
    ensures SoFar(CaseOf(s), kind, part.(tests := Some(tests)), None, t0, t)
  {}

  lemma {:induction false} ReadObserved(s: Session, now: nat, id: OpId, command: Command)
    requires Honest(s) && V.Planned(CaseOf(s), id)
    requires id.TestLog? || id.Resources? || id.Junit?
    requires command == V.SpecFor(CaseOf(s), id).command
    ensures ObservedWell(s, now, id, Plain(s, now, id, command))
  {
    ObserveReport(s, now, id, command, None, {}, None);
  }

  /** The test run is over, its diagnostics (if any) are recorded. */
  ghost predicate Tested(s: Session, part: SanitizerPart, d: Option<Diagnostic>, kind: Kind, names: seq<string>, tests: Row) {
    && s.capture && part.kind == kind
    && Prepared(CaseOf(s), part) && V.KindNames(CaseOf(s), part) == Some(names) && part.tests == Some(tests)
    && (if Good(tests) then d.None? else BothReads(d))
  }

  lemma {:induction false} DiagnoseKindReport(s: Session, part: SanitizerPart, now: nat, kind: Kind, names: seq<string>, tests: Row, t0: nat)
    requires Honest(s) && s.capture && kind in s.plan.sanitizers.kinds
    requires SoFar(CaseOf(s), kind, part, None, t0, now)
    requires Prepared(CaseOf(s), part) && V.KindNames(CaseOf(s), part) == Some(names) && part.tests == Some(tests) && !Good(tests)
    ensures KindReport(CaseOf(s), kind, t0, DiagnoseKind(s, part, now, kind, names, tests))
  {
    ReadObserved(s, now, TestLog(kind), ReadFile(CtestLog(kind), MIB));
    match Plain(s, now, TestLog(kind), ReadFile(CtestLog(kind), MIB))
    case Late(t) =>
      Grown(s, part, None, Diagnostic(kind, None, None), kind, t0, now, t, 0);
      LateRead(s, part, Some(Diagnostic(kind, None, None)), t, kind, TestLog(kind), t0);
    case Seen(log, t) =>
      Grown(s, part, None, Diagnostic(kind, Some(log), None), kind, t0, now, t, log.durationMs);
      ProbeKindReport(s, part, Diagnostic(kind, Some(log), None), t, kind, names, tests, t0);
  }

  lemma {:induction false} ProbeKindReport(s: Session, part: SanitizerPart, d: Diagnostic, now: nat, kind: Kind, names: seq<string>, tests: Row, t0: nat)
    requires Honest(s) && s.capture && kind in s.plan.sanitizers.kinds
    requires SoFar(CaseOf(s), kind, part, Some(d), t0, now)
    requires d.logRead.Some? && d.resources.None?
    requires Prepared(CaseOf(s), part) && V.KindNames(CaseOf(s), part) == Some(names) && part.tests == Some(tests) && !Good(tests)
    ensures KindReport(CaseOf(s), kind, t0, ProbeKind(s, part, d, now, kind, names, tests))
  {
    ReadObserved(s, now, Resources(kind), ProbeResources);
    match Plain(s, now, Resources(kind), ProbeResources)
    case Late(t) =>
      LateRead(s, part, Some(d), t, kind, Resources(kind), t0);
    case Seen(resources, t) =>
      Grown(s, part, Some(d), d.(resources := Some(resources)), kind, t0, now, t, resources.durationMs);
      CollectJunitReport(s, part, Some(d.(resources := Some(resources))), t, kind, names, tests, t0);
  }

  lemma {:induction false} Grown(s: Session, part: SanitizerPart, d: Option<Diagnostic>, d': Diagnostic, kind: Kind, t0: nat, now: nat, t: nat, ms: int)
    requires SoFar(CaseOf(s), kind, part, d, t0, now)
    requires d'.kind == kind && Placed(CaseOf(s), d'.logRead, TestLog(kind)) && Placed(CaseOf(s), d'.resources, Resources(kind))
    requires DiagnosticMs(Some(d')) == DiagnosticMs(d) + ms && ms * MS <= t - now
    requires now <= t
    ensures SoFar(CaseOf(s), kind, part, Some(d'), t0, t)
  {}

  lemma {:induction false} LateRead(s: Session, part: SanitizerPart, d: Option<Diagnostic>, t: nat, kind: Kind, op: OpId, t0: nat)
    requires SoFar(CaseOf(s), kind, part, d, t0, t) && t >= DEADLINE
    requires KindLate(CaseOf(s), kind, Halted(part, d, t, DeadlineReached, OutOfTime(op)), op)
    ensures KindReport(CaseOf(s), kind, t0, Halted(part, d, t, DeadlineReached, OutOfTime(op)))
  {}

  lemma {:induction false} CollectJunitReport(s: Session, part: SanitizerPart, d: Option<Diagnostic>, now: nat, kind: Kind,
                                              names: seq<string>, tests: Row, t0: nat)
    requires Honest(s) && s.capture && kind in s.plan.sanitizers.kinds
    requires SoFar(CaseOf(s), kind, part, d, t0, now)
    requires Tested(s, part, d, kind, names, tests)
    ensures KindReport(CaseOf(s), kind, t0, CollectJunit(s, part, d, now, kind, names, tests))
  {
    ReadObserved(s, now, Junit(kind), ReadFile(JunitXml(kind), 4 * MIB));
    match Plain(s, now, Junit(kind), ReadFile(JunitXml(kind), 4 * MIB))
    case Late(t) =>
      LateRead(s, part, d, t, kind, Junit(kind), t0);
    case Seen(read, t) =>
      ReadJunitReport(s, part.(junitRead := Some(read)), d, t, kind, names, tests, read, t0);
  }

  lemma {:induction false} ReadJunitReport(s: Session, part: SanitizerPart, d: Option<Diagnostic>, t: nat, kind: Kind,
                                           names: seq<string>, tests: Row, read: Row, t0: nat)
    requires Tested(s, part, d, kind, names, tests) && NoResults(part) && t0 <= t
    requires KindPlaced(CaseOf(s), kind, part, d) && KindMs(part, d) * MS <= t - t0
    requires part.junitRead == Some(read) && read.output.Some? && read.outputSha == s.w.sha(read.output.value)
    requires |read.output.value| <= 8 * MIB + 4096
    ensures KindReport(CaseOf(s), kind, t0, InterpretJunit(s, part, d, t, kind, names, tests, read))
  {
    FetchReport(s.w, read, 4 * MIB);
    match Fetch(s.w, read, 4 * MIB)
    case Err(code) =>
      UnreadJunit(s, part, d, t, kind, names, tests, read, code, t0);
    case Ok(raw) =>
      if ReadJunit(s.w, raw, names).None? {
        UnparsedJunit(s, part, d, t, kind, names, tests, raw, t0);
      } else {
        JudgeKindReport(s, part, d, t, kind, names, tests, ReadJunit(s.w, raw, names).value, raw, t0);
      }
  }

  lemma {:induction false} UnparsedJunit(s: Session, part: SanitizerPart, d: Option<Diagnostic>, t: nat, kind: Kind,
                      names: seq<string>, tests: Row, raw: Bytes, t0: nat)
    requires Tested(s, part, d, kind, names, tests) && t0 <= t
    requires KindPlaced(CaseOf(s), kind, part, d) && KindMs(part, d) * MS <= t - t0
    requires Has(part.junitRead) && part.junitRead.value.output.Some?
    requires FileBytes(s.w, part.junitRead.value.output.value, 4 * MIB) == Some(raw)
    requires ReadJunit(s.w, raw, names).None?
    ensures KindReport(CaseOf(s), kind, t0, Halted(part, d, t, GenericFailure, BadContent(Junit(kind))))
  {
    assert !V.JunitSound(CaseOf(s), part);
  }

  lemma {:induction false} UnreadJunit(s: Session, part: SanitizerPart, d: Option<Diagnostic>, t: nat, kind: Kind,
                    names: seq<string>, tests: Row, read: Row, code: ErrorCode, t0: nat)
    requires Tested(s, part, d, kind, names, tests) && NoResults(part) && t0 <= t
    requires KindPlaced(CaseOf(s), kind, part, d) && KindMs(part, d) * MS <= t - t0
    requires part.junitRead == Some(read) && read.output.Some?
    requires if Good(read) then FileBytes(s.w, read.output.value, 4 * MIB).None? else code == ArtifactUnavailable
    ensures KindReport(CaseOf(s), kind, t0, Halted(part, d, t, code,
              if Good(read) then BadContent(Junit(kind)) else if Good(tests) then NativeFailure(Junit(kind)) else NativeFailure(Tests(kind))))
  {}

  /** The producer's read and the validator's read of one file agree. */
  lemma {:induction false} FetchReport(w: World, row: Row, limit: nat)
    requires row.output.Some? && row.outputSha == w.sha(row.output.value) && |row.output.value| <= limit * 2 + 4096
    ensures Good(row) ==> (match Fetch(w, row, limit)
                           case Ok(raw) => FileBytes(w, row.output.value, limit) == Some(raw)
                           case Err(_) => FileBytes(w, row.output.value, limit).None?)
    ensures !Good(row) ==> Fetch(w, row, limit) == Err(ArtifactUnavailable)
  {}

  lemma {:induction false} JudgeKindReport(s: Session, part: SanitizerPart, d: Option<Diagnostic>, now: nat, kind: Kind,
                                           names: seq<string>, tests: Row, p: Population, raw: Bytes, t0: nat)
    requires s.capture && t0 <= now
    requires KindPlaced(CaseOf(s), kind, part, d) && KindMs(part, d) * MS <= now - t0
    requires Tested(s, part, d, kind, names, tests)
    requires Has(part.junitRead) && part.junitRead.value.output.Some?
    requires FileBytes(s.w, part.junitRead.value.output.value, 4 * MIB) == Some(raw)
    requires ReadJunit(s.w, raw, names) == Some(p)
    ensures KindReport(CaseOf(s), kind, t0, JudgeKind(s, part, d, now, kind, names, tests, p, raw))
  {
    hide Judged, KindReport, KindEnding, KindPlaced, KindMs, FileBytes, ReadJunit;
    var done := part.(results := Some(p), junitSha := Some(s.w.sha(raw)));
    SameRows(CaseOf(s), kind, part, done, d);
    JudgedKindReport(s, done, d, now, kind, names, tests, p, raw);
    Assembled(CaseOf(s), kind, t0, done, d, now, Judged(s, done, d, now, kind, names, tests, p, raw));
  }

  lemma {:induction false} SameRows(c: V.Case, kind: Kind, part: SanitizerPart, done: SanitizerPart, d: Option<Diagnostic>)
    requires done == part.(results := done.results, junitSha := done.junitSha)
    requires KindPlaced(c, kind, part, d)
    ensures KindPlaced(c, kind, done, d) && KindMs(done, d) == KindMs(part, d)
  {}

  lemma {:induction false} Assembled(c: V.Case, kind: Kind, t0: nat, part: SanitizerPart, d: Option<Diagnostic>, now: nat, k: KindOutcome)
    requires k.part == part && k.diagnostic == d && k.now == now && t0 <= now
    requires KindPlaced(c, kind, part, d) && KindMs(part, d) * MS <= now - t0 && KindEnding(c, kind, k)
    ensures KindReport(c, kind, t0, k)
  {}

  lemma {:induction false} JudgedKindReport(s: Session, part: SanitizerPart, d: Option<Diagnostic>, now: nat, kind: Kind,
                                            names: seq<string>, tests: Row, p: Population, raw: Bytes)
    requires Tested(s, part, d, kind, names, tests)
    requires Has(part.junitRead) && part.junitRead.value.output.Some?
    requires FileBytes(s.w, part.junitRead.value.output.value, 4 * MIB) == Some(raw)
    requires ReadJunit(s.w, raw, names) == Some(p)
    requires part.results == Some(p) && part.junitSha == Some(s.w.sha(raw))
    ensures KindEnding(CaseOf(s), kind, Judged(s, part, d, now, kind, names, tests, p, raw))
    ensures var k := Judged(s, part, d, now, kind, names, tests, p, raw);
            k.part == part && k.diagnostic == d && k.now == now
  {
    assert p.required == names;
    assert V.JunitSound(CaseOf(s), part);
    ContinuableMeans(CaseOf(s), part, p, raw);
    if Good(tests) && p.executed == names && p.passed == names && p.skipped == [] {
      assert V.KindSucceeded(part);
    } else if TestsCompleted(s.w, tests, p, raw) {
      assert !Good(tests);
    } else {
      assert !V.Continuable(CaseOf(s), part);
      assert !V.KindSucceeded(part);
    }
  }

  lemma {:induction false} ContinuableMeans(c: V.Case, part: SanitizerPart, p: Population, raw: Bytes)
    requires c.schema.V4? && part.tests.Some? && part.results == Some(p)
    requires Has(part.junitRead) && part.junitRead.value.output.Some?
    requires FileBytes(c.w, part.junitRead.value.output.value, 4 * MIB) == Some(raw)
    ensures V.Continuable(c, part) <==> TestsCompleted(c.w, part.tests.value, p, raw)
  {}

  // ---------- the functional stage ----------

  function FunctionalMs(f: FunctionalPart): int {
    Ms(f.setup) + Ms(f.operation) + Ms(f.resultsRead)
  }

  ghost predicate FunctionalPlaced(c: V.Case, f: FunctionalPart) {
    Placed(c, f.setup, FunctionalSetup) && Placed(c, f.operation, FunctionalRun) && Placed(c, f.resultsRead, FunctionalRead)
  }

  ghost predicate NoSummary(f: FunctionalPart) {
    f.results.None? && f.resultsSha.None?
  }

  /** The functional results were read back from the recorded file. */
  ghost predicate SummaryRead(c: V.Case, f: FunctionalPart) {
    && Has(f.resultsRead) && V.FunctionalFile(c, f.resultsRead.value).Some?
    && (var raw := V.FunctionalFile(c, f.resultsRead.value).value;
        && ReadCsv(c.w, raw, c.plan.functional.selected).Some?
        && f.results == ReadCsv(c.w, raw, c.plan.functional.selected)
        && f.resultsSha == Some(c.w.sha(raw)))
  }

  ghost predicate SummaryUnreadable(c: V.Case, f: FunctionalPart) {
    && Has(f.resultsRead)
    && (V.FunctionalFile(c, f.resultsRead.value).None?
        || ReadCsv(c.w, V.FunctionalFile(c, f.resultsRead.value).value, c.plan.functional.selected).None?)
  }

  ghost predicate FunctionalEnding(c: V.Case, f: FunctionalOutcome) {
    var part := f.part;
    match f.halt
    case Running => V.FunctionalPassed(c, part)
    case Raised(code, stop) =>
      match stop
      case NativeFailure(op) =>
        (match op
         case FunctionalSetup =>
           part.setup.Some? && !Good(part.setup.value) && part.operation.None? && part.resultsRead.None? && NoSummary(part) && code == FunctionalFailed
         case FunctionalRun =>
           && Has(part.setup) && part.operation.Some? && part.resultsRead.Some?
           && (if Good(part.resultsRead.value)
               then SummaryRead(c, part) && code == FunctionalFailed
                    && (!Good(part.operation.value) || !V.AllPassed(part.results.value, c.plan.functional.selected))
               else NoSummary(part) && !Good(part.operation.value) && code == ArtifactUnavailable)
         case FunctionalRead =>
           Has(part.setup) && Has(part.operation) && part.resultsRead.Some? && !Good(part.resultsRead.value) && NoSummary(part) && code == ArtifactUnavailable
         case _ => false)
      case BadContent(_) => Has(part.setup) && part.operation.Some? && SummaryUnreadable(c, part)
      case OutOfTime(op) =>
        && f.now >= DEADLINE && code == DeadlineReached && NoSummary(part) && part.resultsRead.None?
        && (part.setup.None? || Has(part.setup))
        && (op.FunctionalSetup? || op.FunctionalRun? || op.FunctionalRead?)
      case _ => false
  }

  ghost predicate FunctionalReport(c: V.Case, f: FunctionalOutcome) {
    FunctionalPlaced(c, f.part) && FunctionalMs(f.part) * MS <= f.now && FunctionalEnding(c, f)
  }

  lemma {:induction false} FunctionalStageReport(s: Session)
    requires Honest(s)
    ensures FunctionalReport(CaseOf(s), FunctionalStage(s))
  {
    ObserveReport(s, 0, FunctionalSetup, MakeFunctionalDirectory, None, {}, None);
    match Plain(s, 0, FunctionalSetup, MakeFunctionalDirectory)
    case Late(t) =>
    case Seen(setup, t) =>
      if Good(setup) {
        RunFunctionalReport(s, NO_FUNCTIONAL.(setup := Some(setup)), t);
      }
  }

  lemma {:induction false} RunFunctionalReport(s: Session, part: FunctionalPart, now: nat)
    requires Honest(s)
    requires FunctionalPlaced(CaseOf(s), part) && FunctionalMs(part) * MS <= now
    requires Has(part.setup) && part.operation.None? && part.resultsRead.None? && NoSummary(part)
    ensures FunctionalReport(CaseOf(s), RunFunctionalTests(s, part, now))
  {
    var f := s.plan.functional;
    var command := RunFunctional(f.parallel, f.selected);
    ObserveReport(s, now, FunctionalRun, command, None, {PythonGil}, Some(BaselineBuild));
    match Observe(s, now, FunctionalRun, command, None, {PythonGil}, Some(BaselineBuild))
    case Late(t) =>
    case Seen(operation, t) =>
      ObserveReport(s, t, FunctionalRead, ReadFile(FunctionalCsv, MIB), None, {}, None);
      match Plain(s, t, FunctionalRead, ReadFile(FunctionalCsv, MIB))
      case Late(t') =>
      case Seen(read, t') =>
        JudgeFunctionalReport(s, part.(operation := Some(operation), resultsRead := Some(read)), operation, read, t');
  }

  /** The runner and the result file are recorded, nothing is interpreted yet. */
  ghost predicate Retrieved(c: V.Case, part: FunctionalPart, operation: Row, read: Row, now: nat) {
    && FunctionalPlaced(c, part) && FunctionalMs(part) * MS <= now
    && Has(part.setup) && part.operation == Some(operation) && part.resultsRead == Some(read) && NoSummary(part)
    && read.output.Some?
  }

  lemma {:induction false} UnreadFunctional(c: V.Case, part: FunctionalPart, operation: Row, read: Row, now: nat, code: ErrorCode)
    requires Retrieved(c, part, operation, read, now)
    requires if Good(read) then FileBytes(c.w, read.output.value, MIB).None? else code == ArtifactUnavailable
    ensures FunctionalReport(c, FunctionalOutcome(part, now, Raised(code,
              if Good(read) then BadContent(FunctionalRead) else if Good(operation) then NativeFailure(FunctionalRead) else NativeFailure(FunctionalRun))))
  {
    hide FunctionalPlaced, FunctionalMs, ReadCsv;
  }

  lemma {:induction false} UnparsedFunctional(c: V.Case, part: FunctionalPart, operation: Row, read: Row, now: nat, raw: Bytes)
    requires Retrieved(c, part, operation, read, now)
    requires Good(read) && FileBytes(c.w, read.output.value, MIB) == Some(raw) && ReadCsv(c.w, raw, c.plan.functional.selected).None?
    ensures FunctionalReport(c, FunctionalOutcome(part, now, Raised(ResultsInvalid, BadContent(FunctionalRead))))
  {
    hide FunctionalPlaced, FunctionalMs, ReadCsv, FileBytes;
  }

  lemma {:induction false} ParsedFunctional(c: V.Case, part: FunctionalPart, operation: Row, read: Row, now: nat, raw: Bytes, summary: FunctionalResults.Summary)
    requires Retrieved(c, part, operation, read, now)
    requires Good(read) && FileBytes(c.w, read.output.value, MIB) == Some(raw) && ReadCsv(c.w, raw, c.plan.functional.selected) == Some(summary)
    requires summary.passed == c.plan.functional.selected && summary.failed == [] && summary.skipped == [] ==> summary.executed == summary.passed
    ensures var done := part.(results := Some(summary), resultsSha := Some(c.w.sha(raw)));
            && FunctionalPlaced(c, done) && FunctionalMs(done) * MS <= now
            && (if Good(operation) && summary.passed == c.plan.functional.selected && summary.failed == [] && summary.skipped == []
                then V.FunctionalPassed(c, done)
                else SummaryRead(c, done) && (!Good(operation) || !V.AllPassed(summary, c.plan.functional.selected)))
  {
    hide Faithful, ReadCsv, FileBytes;
  }

  lemma {:induction false} SummaryPassed(w: World, raw: Bytes, selected: seq<string>)
    requires ReadCsv(w, raw, selected).Some?
    ensures var s := ReadCsv(w, raw, selected).value;
            s.passed == selected && s.failed == [] && s.skipped == [] ==> s.executed == s.passed
  {
    FunctionalResults.PassedRan(w.csv(raw).value, selected);
  }

  lemma {:induction false} JudgeFunctionalReport(s: Session, part: FunctionalPart, operation: Row, read: Row, now: nat)
    requires FunctionalPlaced(CaseOf(s), part) && FunctionalMs(part) * MS <= now
    requires Has(part.setup) && part.operation == Some(operation) && part.resultsRead == Some(read) && NoSummary(part)
    requires read.output.Some? && read.outputSha == s.w.sha(read.output.value) && |read.output.value| <= 2 * MIB + 4096
    ensures FunctionalReport(CaseOf(s), JudgeFunctional(s, part, operation, read, now))
  {
    hide FunctionalPlaced, FunctionalMs, ReadCsv, FileBytes, Fetch, V.FunctionalPassed, SummaryRead, V.AllPassed, SummaryUnreadable;
    FetchReport(s.w, read, MIB);
    assert Retrieved(CaseOf(s), part, operation, read, now);
    match Fetch(s.w, read, MIB)
    case Err(code) =>
      UnreadFunctional(CaseOf(s), part, operation, read, now, code);
    case Ok(raw) =>
      if ReadCsv(s.w, raw, s.plan.functional.selected).None? {
        UnparsedFunctional(CaseOf(s), part, operation, read, now, raw);
      } else {
        SummaryPassed(s.w, raw, s.plan.functional.selected);
        ParsedFunctional(CaseOf(s), part, operation, read, now, raw, ReadCsv(s.w, raw, s.plan.functional.selected).value);
      }
  }

  // ---------- reclamation ----------

  ghost predicate ReclaimReport(c: V.Case, phase: Phase, t0: nat, r: ReclaimOutcome) {
    && t0 <= r.now && Placed(c, r.row, Reclaim(phase)) && Ms(r.row) * MS <= r.now - t0
    && match r.halt
       case Running => Has(r.row) && r.row.value.output.Some? && ReclaimedWell(c.w, r.row.value.output.value, phase)
       case Raised(code, stop) =>
         match stop
         case NativeFailure(op) => op == Reclaim(phase) && r.row.Some? && !Good(r.row.value) && code == ReclamationFailed
         case BadContent(_) => Has(r.row) && r.row.value.output.Some? && !ReclaimedWell(c.w, r.row.value.output.value, phase)
         case OutOfTime(op) => op == Reclaim(phase) && r.row.None? && code == DeadlineReached && r.now >= DEADLINE
         case _ => false
  }

  lemma {:induction false} ReclaimStageReport(s: Session, now: nat, phase: Phase)
    requires Honest(s) && s.capture && phase in PHASES
    ensures ReclaimReport(CaseOf(s), phase, now, ReclaimStage(s, now, phase))
  {
    ObserveReport(s, now, Reclaim(phase), ReclaimSpace(phase), None, {}, None);
  }

  // ---------- fuzzing ----------

  function ReplayMs(replays: seq<Option<Row>>): int {
    if replays == [] then 0 else ReplayMs(replays[..|replays| - 1]) + Ms(replays[|replays| - 1])
  }

  function FuzzMs(f: FuzzPart): int {
    Ms(f.corpusStage) + Ms(f.configure) + Ms(f.build) + ReplayMs(f.replays) + Ms(f.campaign)
  }

  ghost predicate FuzzPlaced(c: V.Case, f: FuzzPart) {
    && f.target == c.plan.fuzz.target && f.corpusSha == Digests(c.plan.fuzz.corpus)
    && f.corpusStage.Some? && |f.replays| <= |c.plan.fuzz.corpus|
    && Placed(c, f.corpusStage, FuzzStage) && Placed(c, f.configure, FuzzConfigure) && Placed(c, f.build, FuzzBuild)
    && (forall i :: 0 <= i < |f.replays| ==> f.replays[i].Some? && Placed(c, f.replays[i], FuzzReplay(i)))
    && Placed(c, f.campaign, FuzzCampaign)
    && (f.configure.None? ==> f.build.None?) && (f.build.None? ==> f.replays == [])
  }

  ghost predicate Staged(c: V.Case, f: FuzzPart) {
    && Has(f.corpusStage) && f.corpusStage.value.output.Some?
    && Output(c.w, f.corpusStage.value, MIB).Some?
    && c.w.staged(f.corpusStage.value.output.value) == Some(ExpectedSeeds(c.plan.fuzz.corpus, 0))
    && f.staged == Some(ExpectedSeeds(c.plan.fuzz.corpus, 0))
  }

  ghost predicate ReplaysGood(f: FuzzPart, n: nat) {
    n <= |f.replays| && forall i :: 0 <= i < n ==> Has(f.replays[i])
  }

  ghost predicate FuzzFailedAt(c: V.Case, f: FuzzPart, op: OpId) {
    && f.campaign.None? && f.metrics.None?
    && match op
       case FuzzStage => f.corpusStage.Some? && !Good(f.corpusStage.value) && f.staged.None? && f.configure.None?
       case FuzzConfigure => Staged(c, f) && f.configure.Some? && !Good(f.configure.value) && f.build.None?
       case FuzzBuild => Staged(c, f) && Has(f.configure) && f.build.Some? && !Good(f.build.value) && f.replays == []
       case FuzzReplay(i) => Staged(c, f) && Has(f.configure) && Has(f.build) && |f.replays| == i + 1 && ReplaysGood(f, i) && !Has(f.replays[i])
       case _ => false
  }

  ghost predicate FuzzLate(c: V.Case, f: FuzzPart) {
    && f.campaign.None? && f.metrics.None? && Staged(c, f)
    && (f.configure.Some? ==> Good(f.configure.value)) && (f.build.Some? ==> Good(f.build.value))
    && ReplaysGood(f, |f.replays|)
  }

  ghost predicate CampaignRun(c: V.Case, f: FuzzPart) {
    && Staged(c, f) && Has(f.configure) && Has(f.build)
    && |f.replays| == |c.plan.fuzz.corpus| && ReplaysGood(f, |f.replays|)
    && f.campaign.Some? && f.metrics == CampaignMetrics(c.w, f.campaign.value)
  }

  ghost predicate FuzzEnding(c: V.Case, f: FuzzOutcome) {
    match f.halt
    case Running => f.part.Some? && CampaignRun(c, f.part.value) && f.part.value.metrics.Some?
    case Raised(code, stop) =>
      match stop
      case NativeFailure(op) => f.part.Some? && code == FuzzFailed && FuzzFailedAt(c, f.part.value, op)
      case BadContent(_) => f.part.Some? && Has(f.part.value.corpusStage) && !Staged(c, f.part.value) && f.part.value.campaign.None? && f.part.value.metrics.None?
      case OutOfTime(op) =>
        && f.now >= DEADLINE && code == DeadlineReached
        && if op == FuzzStage then f.part.None? else (op.FuzzConfigure? || op.FuzzBuild? || op.FuzzReplay? || op.FuzzCampaign?) && f.part.Some? && FuzzLate(c, f.part.value)
      case CampaignUnsuccessful => f.part.Some? && CampaignRun(c, f.part.value) && f.part.value.metrics.None? && (code == FuzzFailed || code == FuzzMetricsInvalid)
      case Mismatch(_) => false
  }

  ghost predicate FuzzReport(c: V.Case, t0: nat, f: FuzzOutcome) {
    && t0 <= f.now
    && (f.part.Some? ==> FuzzPlaced(c, f.part.value) && FuzzMs(f.part.value) * MS <= f.now - t0)
    && FuzzEnding(c, f)
  }

  /** The corpus is staged and nothing failed so far. */
  ghost predicate FuzzSoFar(c: V.Case, f: FuzzPart, t0: nat, now: nat) {
    && t0 <= now && FuzzPlaced(c, f) && FuzzMs(f) * MS <= now - t0 && FuzzLate(c, f)
  }

  lemma {:induction false} FuzzStagingReport(s: Session, now: nat)
    requires Honest(s)
    ensures FuzzReport(CaseOf(s), now, FuzzStaging(s, now))
  {
    hide Observe;
    var f := s.plan.fuzz;
    ObserveReport(s, now, FuzzStage, StageCorpus, Some(Root), {}, None);
    match Observe(s, now, FuzzStage, StageCorpus, Some(Root), {}, None)
    case Late(t) =>
    case Seen(stage, t) =>
      if Good(stage) {
        assert Output(s.w, stage, MIB) == stage.output;
        var staged := s.w.staged(stage.output.value);
        if staged == Some(ExpectedSeeds(f.corpus, 0)) {
          ConfigureFuzzingReport(s, FuzzPart(Some(stage), staged, None, None, [], None, None, f.target, Digests(f.corpus)), t, now);
        }
      }
  }

  lemma {:induction false} ConfigureFuzzingReport(s: Session, part: FuzzPart, now: nat, t0: nat)
    requires Honest(s)
    requires FuzzSoFar(CaseOf(s), part, t0, now) && part.configure.None? && part.build.None? && part.replays == []
    ensures FuzzReport(CaseOf(s), t0, ConfigureFuzzing(s, part, now))
  {
    hide Observe;
    ObserveReport(s, now, FuzzConfigure, ConfigureFuzz, None, {}, None);
    match Plain(s, now, FuzzConfigure, ConfigureFuzz)
    case Late(t) =>
    case Seen(c, t) =>
      if Good(c) {
        BuildFuzzingReport(s, part.(configure := Some(c)), t, t0);
      }
  }

  lemma {:induction false} BuildFuzzingReport(s: Session, part: FuzzPart, now: nat, t0: nat)
    requires Honest(s)
    requires FuzzSoFar(CaseOf(s), part, t0, now) && Has(part.configure) && part.build.None? && part.replays == []
    ensures FuzzReport(CaseOf(s), t0, BuildFuzzing(s, part, now))
  {
    var parallel := FuzzBuildParallel(s.plan);
    var command := BuildTree(Fuzzing, if parallel.Some? then parallel.value else 0, Some(s.plan.fuzz.buildTarget));
    FuzzBuildObserved(s, now, command);
    match Plain(s, now, FuzzBuild, command)
    case Late(t) =>
    case Seen(b, t) =>
      FuzzBuildGrown(s, part, b, t0, now, t);
      if Good(b) {
        ReplayCorpusReport(s, part.(build := Some(b)), t, 0, t0);
      }
  }

  lemma {:induction false} FuzzBuildObserved(s: Session, now: nat, command: Command)
    requires Honest(s)
    requires var parallel := FuzzBuildParallel(s.plan);
             command == BuildTree(Fuzzing, if parallel.Some? then parallel.value else 0, Some(s.plan.fuzz.buildTarget))
    ensures ObservedWell(s, now, FuzzBuild, Plain(s, now, FuzzBuild, command))
  {
    ObserveReport(s, now, FuzzBuild, command, None, {}, None);
  }

  lemma {:induction false} FuzzBuildGrown(s: Session, part: FuzzPart, b: Row, t0: nat, now: nat, t: nat)
    requires FuzzSoFar(CaseOf(s), part, t0, now) && Has(part.configure) && part.build.None? && part.replays == []
    requires Placed(CaseOf(s), Some(b), FuzzBuild) && now <= t && b.durationMs * MS <= t - now
    ensures var part' := part.(build := Some(b));
            && FuzzPlaced(CaseOf(s), part') && FuzzMs(part') * MS <= t - t0 && Staged(CaseOf(s), part')
            && (Good(b) ==> FuzzSoFar(CaseOf(s), part', t0, t))
  {}

  lemma {:induction false} ReplayCorpusReport(s: Session, part: FuzzPart, now: nat, i: nat, t0: nat)
    requires Honest(s) && i <= |s.plan.fuzz.corpus|
    requires FuzzSoFar(CaseOf(s), part, t0, now) && Has(part.configure) && Has(part.build) && |part.replays| == i
    ensures FuzzReport(CaseOf(s), t0, ReplayCorpus(s, part, now, i))
    decreases |s.plan.fuzz.corpus| - i
  {
    hide Observe, FuzzPlaced, Staged, Faithful;
    var f := s.plan.fuzz;
    if i == |f.corpus| {
      RunCampaignReport(s, part, now, t0);
    } else {
      var command := RunFuzz(f.binary, f.replayRuns, Seed(i));
      ObserveReport(s, now, FuzzReplay(i), command, None, FuzzSettings(s), None);
      match Observe(s, now, FuzzReplay(i), command, None, FuzzSettings(s), None)
      case Late(t) =>
      case Seen(r, t) =>
        ReplayGrown(s, part, r, t0, now, t);
        if Good(r) {
          ReplayCorpusReport(s, part.(replays := part.replays + [Some(r)]), t, i + 1, t0);
        }
    }
  }

  lemma {:induction false} ReplayGrown(s: Session, part: FuzzPart, r: Row, t0: nat, now: nat, t: nat)
    requires FuzzSoFar(CaseOf(s), part, t0, now) && Has(part.configure) && Has(part.build) && |part.replays| < |s.plan.fuzz.corpus|
    requires Placed(CaseOf(s), Some(r), FuzzReplay(|part.replays|)) && now <= t && r.durationMs * MS <= t - now
    ensures var part' := part.(replays := part.replays + [Some(r)]);
            && FuzzPlaced(CaseOf(s), part') && FuzzMs(part') * MS <= t - t0
            && Staged(CaseOf(s), part') && ReplaysGood(part', |part.replays|)
            && (Good(r) ==> FuzzSoFar(CaseOf(s), part', t0, t))
  {
    var replays := part.replays + [Some(r)];
    var part' := part.(replays := replays);
    assert replays[..|replays| - 1] == part.replays;
    assert FuzzMs(part') == FuzzMs(part) + r.durationMs;
    ReplayPlaced(CaseOf(s), part, part', r);
  }

  lemma {:induction false} ReplayPlaced(c: V.Case, part: FuzzPart, part': FuzzPart, r: Row)
    requires part' == part.(replays := part.replays + [Some(r)])
    requires FuzzPlaced(c, part) && FuzzLate(c, part) && part.build.Some? && |part.replays| < |c.plan.fuzz.corpus|
    requires Placed(c, Some(r), FuzzReplay(|part.replays|))
    ensures FuzzPlaced(c, part') && Staged(c, part') && ReplaysGood(part', |part.replays|)
    ensures Good(r) ==> FuzzLate(c, part')
  {
    forall i | 0 <= i < |part'.replays| ensures part'.replays[i].Some? && Placed(c, part'.replays[i], FuzzReplay(i)) {
      if i < |part.replays| {
        assert part'.replays[i] == part.replays[i];
      }
    }
    forall i | 0 <= i < |part.replays| ensures Has(part'.replays[i]) {
      assert part'.replays[i] == part.replays[i];
    }
  }

  lemma {:induction false} RunCampaignReport(s: Session, part: FuzzPart, now: nat, t0: nat)
    requires Honest(s)
    requires FuzzSoFar(CaseOf(s), part, t0, now) && Has(part.configure) && Has(part.build) && |part.replays| == |s.plan.fuzz.corpus|
    ensures FuzzReport(CaseOf(s), t0, RunCampaign(s, part, now))
  {
    var f := s.plan.fuzz;
    var command := RunFuzz(f.binary, f.campaignRuns, CampaignFor(f.campaignSeconds));
    CampaignObserved(s, now, command);
    match Observe(s, now, FuzzCampaign, command, None, FuzzSettings(s), None)
    case Late(t) =>
    case Seen(c, t) =>
      CampaignGrown(s, part, c, t0, now, t);
      JudgeCampaignReport(CaseOf(s), part.(campaign := Some(c), metrics := CampaignMetrics(s.w, c)), Good(c), t0, t);
  }

  lemma {:induction false} JudgeCampaignReport(c: V.Case, part: FuzzPart, succeeded: bool, t0: nat, t: nat)
    requires FuzzPlaced(c, part) && FuzzMs(part) * MS <= t - t0 && t0 <= t && CampaignRun(c, part)
    requires !succeeded ==> part.metrics.None?
    ensures FuzzReport(c, t0, JudgeCampaign(part, succeeded, t))
  {}

  lemma {:induction false} CampaignObserved(s: Session, now: nat, command: Command)
    requires Honest(s)
    requires var f := s.plan.fuzz; command == RunFuzz(f.binary, f.campaignRuns, CampaignFor(f.campaignSeconds))
    ensures ObservedWell(s, now, FuzzCampaign, Observe(s, now, FuzzCampaign, command, None, FuzzSettings(s), None))
  {
    ObserveReport(s, now, FuzzCampaign, command, None, FuzzSettings(s), None);
  }

  lemma {:induction false} CampaignGrown(s: Session, part: FuzzPart, c: Row, t0: nat, now: nat, t: nat)
    requires FuzzSoFar(CaseOf(s), part, t0, now) && Has(part.configure) && Has(part.build)
    requires |part.replays| == |s.plan.fuzz.corpus|
    requires Placed(CaseOf(s), Some(c), FuzzCampaign) && now <= t && c.durationMs * MS <= t - now
    ensures var part' := part.(campaign := Some(c), metrics := CampaignMetrics(s.w, c));
            && FuzzPlaced(CaseOf(s), part') && FuzzMs(part') * MS <= t - t0
            && CampaignRun(CaseOf(s), part')
  {}
}
