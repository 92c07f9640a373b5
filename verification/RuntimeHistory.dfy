/** A collection of the released plan as the list of its stage results, and the
    canonical order that list fills. */
module RuntimeHistory {
  import opened Results
  import opened RuntimeTypes
  import opened RuntimeProducer
  import V = RuntimeValidator
  import opened RuntimeSlots
  import opened RuntimeReports
  import opened RuntimeSegments
  import opened RuntimePrefix

  /** Stage results in the order the stages ran: functional, then reclamations and
      sanitizers alternating, then fuzzing. */
  datatype History = History(f: FunctionalOutcome, rs: seq<ReclaimOutcome>, ks: seq<KindOutcome>, fuzz: Option<FuzzOutcome>)

  const KINDS: seq<Kind> := [Address, Undefined]

  function Last<T>(s: seq<T>): T
    requires s != []
  {
    s[|s| - 1]
  }

  /** The outcome of the latest stage. */
  function HaltOf(h: History): Halt {
    if h.fuzz.Some? then h.fuzz.value.halt
    else if |h.rs| > |h.ks| then Last(h.rs).halt
    else if h.ks != [] then Last(h.ks).halt
    else h.f.halt
  }

  /** The clock after the first i stages; a stage that did not run leaves it alone. */
  function Clock(h: History, i: nat): nat {
    if i == 0 then 0
    else if i == 1 then h.f.now
    else if i == 7 then (if h.fuzz.Some? then h.fuzz.value.now else Clock(h, 6))
    else if i % 2 == 0 then (if i / 2 - 1 < |h.rs| then h.rs[i / 2 - 1].now else Clock(h, i - 1))
    else (if i / 2 - 1 < |h.ks| then h.ks[i / 2 - 1].now else Clock(h, i - 1))
  }

  function RowsIn(rs: seq<ReclaimOutcome>): seq<Row> {
    if rs == [] then []
    else RowsIn(rs[..|rs| - 1]) + (if Last(rs).row.Some? then [Last(rs).row.value] else [])
  }

  predicate AnyCompleted(ks: seq<KindOutcome>) {
    exists i :: 0 <= i < |ks| && ks[i].completed
  }

  function FuzzOf(h: History): Option<FuzzPart> {
    if h.fuzz.Some? then h.fuzz.value.part else None
  }

  /** What the producer holds after these stages. */
  function Reached(s: Session, h: History): Progress {
    Progress(Evidence(V.RuntimeTypes.V4, s.w.planSha(s.plan), Some(h.f.part), PartsOf(h.ks), FuzzOf(h), false, None, 0, RowsIn(h.rs), NotesOf(h.ks)),
             Clock(h, 7), AnyCompleted(h.ks), HaltOf(h))
  }

  // ---------- every collection has a history ----------

  ghost predicate Shaped(h: History) {
    && |h.ks| <= 2 && |h.rs| <= 3 && |h.ks| <= |h.rs| <= |h.ks| + 1
    && (h.fuzz.Some? ==> |h.ks| == 2 && |h.rs| == 3)
  }

  /** Each stage is reported, and all but the latest ran to their end. */
  ghost predicate Reported(c: V.Case, h: History)
    requires Shaped(h)
  {
    && FunctionalReport(c, h.f)
    && (forall i :: 0 <= i < |h.rs| ==> ReclaimReport(c, PHASES[i], Clock(h, 2 * i + 1), h.rs[i]))
    && (forall i :: 0 <= i < |h.ks| ==> KindReport(c, KINDS[i], Clock(h, 2 * i + 2), h.ks[i]))
    && (h.fuzz.Some? ==> FuzzReport(c, Clock(h, 6), h.fuzz.value))
  }

  ghost predicate Continued(h: History)
    requires Shaped(h)
  {
    && (h.rs != [] ==> h.f.halt.Running?)
    && (forall i :: 0 <= i < |h.ks| ==> h.rs[i].halt.Running?)
    && (forall i :: 0 <= i < |h.rs| - 1 ==> i < |h.ks| && h.ks[i].halt.Running?)
    && (h.fuzz.Some? ==> h.rs[2].halt.Running?)
  }

  ghost predicate Told(c: V.Case, h: History) {
    Shaped(h) && Reported(c, h) && Continued(h)
  }

  function WithRow(h: History, r: ReclaimOutcome): History {
    h.(rs := h.rs + [r])
  }

  function WithSanitizer(h: History, k: KindOutcome): History {
    h.(ks := h.ks + [k])
  }

  lemma {:induction false} ClockIdle(h: History, i: nat, j: nat)
    requires Shaped(h) && h.fuzz.None?
    requires i <= j <= 7 && i >= 1 && i >= 1 + |h.rs| + |h.ks|
    ensures Clock(h, j) == Clock(h, i)
    decreases j
  {
    if j > i {
      ClockIdle(h, i, j - 1);
    }
  }

  lemma {:induction false} ClockSame(h: History, h': History, i: nat)
    requires Shaped(h) && Shaped(h') && h.f == h'.f && h.rs <= h'.rs && h.ks <= h'.ks
    requires i <= 1 + |h.rs| + |h.ks| && i < 7
    ensures Clock(h, i) == Clock(h', i)
    decreases i
  {}

  lemma {:induction false} ReclaimClock(h: History, r: ReclaimOutcome)
    requires Shaped(h) && |h.rs| == |h.ks| < 3 && h.fuzz.None?
    ensures var i, h' := |h.rs|, WithRow(h, r);
            && Clock(h', 7) == r.now && Clock(h', 2 * i + 1) == Clock(h, 7)
            && forall j :: 0 <= j <= 2 * i + 1 ==> Clock(h', j) == Clock(h, j)
  {
    var i, h' := |h.rs|, WithRow(h, r);
    ClockIdle(h, 2 * i + 1, 7);
    ClockIdle(h', 2 * i + 2, 7);
    forall j | 0 <= j <= 2 * i + 1 ensures Clock(h, j) == Clock(h', j) {
      ClockSame(h, h', j);
    }
  }

  lemma {:induction false} ReclaimReached(s: Session, h: History)
    requires Shaped(h) && |h.rs| == |h.ks| < 3 && h.fuzz.None? && HaltOf(h).Running?
    ensures var h' := WithRow(h, ReclaimStage(s, Clock(h, 7), PHASES[|h.rs|]));
            WithReclaim(s, Reached(s, h), PHASES[|h.rs|]) == Reached(s, h')
  {
    hide ReclaimStage;
    var r := ReclaimStage(s, Clock(h, 7), PHASES[|h.rs|]);
    ReclaimClock(h, r);
    assert WithRow(h, r).rs[..|h.rs|] == h.rs;
  }

  lemma {:induction false} ReclaimTold(s: Session, h: History)
    requires Released(s) && Honest(s) && Told(CaseOf(s), h)
    requires |h.rs| == |h.ks| < 3 && h.fuzz.None? && HaltOf(h).Running?
    ensures Told(CaseOf(s), WithRow(h, ReclaimStage(s, Clock(h, 7), PHASES[|h.rs|])))
  {
    hide ReclaimReport, KindReport, FunctionalReport, FuzzReport, ReclaimStage, Clock;
    var r := ReclaimStage(s, Clock(h, 7), PHASES[|h.rs|]);
    ReclaimClock(h, r);
    ReclaimStageReport(s, Clock(h, 7), PHASES[|h.rs|]);
  }

  lemma {:induction false} KindClock(h: History, k: KindOutcome)
    requires Shaped(h) && |h.rs| == |h.ks| + 1 && |h.ks| < 2 && h.fuzz.None?
    ensures var i, h' := |h.ks|, WithSanitizer(h, k);
            && Clock(h', 7) == k.now && Clock(h', 2 * i + 2) == Clock(h, 7)
            && forall j :: 0 <= j <= 2 * i + 2 ==> Clock(h', j) == Clock(h, j)
  {
    var i, h' := |h.ks|, WithSanitizer(h, k);
    ClockIdle(h, 2 * i + 2, 7);
    ClockIdle(h', 2 * i + 3, 7);
    forall j | 0 <= j <= 2 * i + 2 ensures Clock(h, j) == Clock(h', j) {
      ClockSame(h, h', j);
    }
  }

  lemma {:induction false} KindReached(s: Session, h: History)
    requires Shaped(h) && |h.rs| == |h.ks| + 1 && |h.ks| < 2 && h.fuzz.None? && HaltOf(h).Running?
    ensures var h' := WithSanitizer(h, KindStage(s, Clock(h, 7), KINDS[|h.ks|]));
            WithKind(s, Reached(s, h), KINDS[|h.ks|]) == Reached(s, h')
  {
    hide KindStage;
    var k := KindStage(s, Clock(h, 7), KINDS[|h.ks|]);
    KindClock(h, k);
    var ks := WithSanitizer(h, k).ks;
    assert ks[..|ks| - 1] == h.ks;
    assert PartsOf(ks) == PartsOf(h.ks) + [k.part];
    CompletedGrows(h.ks, k);
  }

  lemma {:induction false} KindTold(s: Session, h: History)
    requires Released(s) && Honest(s) && Told(CaseOf(s), h)
    requires |h.rs| == |h.ks| + 1 && |h.ks| < 2 && h.fuzz.None? && HaltOf(h).Running?
    ensures Told(CaseOf(s), WithSanitizer(h, KindStage(s, Clock(h, 7), KINDS[|h.ks|])))
  {
    hide ReclaimReport, KindReport, FunctionalReport, FuzzReport, KindStage, Clock;
    var k := KindStage(s, Clock(h, 7), KINDS[|h.ks|]);
    KindClock(h, k);
    KindStageReport(s, Clock(h, 7), KINDS[|h.ks|]);
  }

  lemma {:induction false} CompletedGrows(ks: seq<KindOutcome>, k: KindOutcome)
    ensures AnyCompleted(ks + [k]) <==> AnyCompleted(ks) || k.completed
  {
    if AnyCompleted(ks) {
      var i :| 0 <= i < |ks| && ks[i].completed;
      assert (ks + [k])[i].completed;
    }
    assert (ks + [k])[|ks|] == k;
  }

  lemma {:induction false} FuzzNext(s: Session, h: History)
    requires Released(s) && Honest(s) && Told(CaseOf(s), h)
    requires |h.rs| == 3 && |h.ks| == 2 && h.fuzz.None? && HaltOf(h).Running?
    ensures var h' := h.(fuzz := Some(FuzzStaging(s, Clock(h, 7))));
            Told(CaseOf(s), h') && WithFuzz(s, Reached(s, h)) == Reached(s, h')
  {
    hide ReclaimReport, KindReport, FunctionalReport, FuzzReport, FuzzStaging;
    var h' := h.(fuzz := Some(FuzzStaging(s, Clock(h, 7))));
    FuzzStagingReport(s, Clock(h, 7));
    ClockIdle(h, 6, 7);
    forall j | 0 <= j <= 6 ensures Clock(h, j) == Clock(h', j) {
      ClockSame(h, h', j);
    }
  }

  /** One more stage, unless the collection has ended. */
  function Advance(s: Session, h: History): History {
    if HaltOf(h).Raised? || h.fuzz.Some? || |h.rs| > 3 || |h.ks| > 2 then h
    else if |h.rs| == |h.ks| && |h.rs| < 3 then WithRow(h, ReclaimStage(s, Clock(h, 7), PHASES[|h.rs|]))
    else if |h.ks| < 2 then WithSanitizer(h, KindStage(s, Clock(h, 7), KINDS[|h.ks|]))
    else h.(fuzz := Some(FuzzStaging(s, Clock(h, 7))))
  }

  /** The collection ended, or ran all of its stages. */
  predicate Ended(h: History) {
    HaltOf(h).Raised? || h.fuzz.Some?
  }

  function Start(s: Session): History {
    History(FunctionalStage(s), [], [], None)
  }

  lemma {:induction false} Started(s: Session)
    requires Released(s) && Honest(s)
    ensures Told(CaseOf(s), Start(s)) && Begin(s) == Reached(s, Start(s))
  {
    hide FunctionalReport, FunctionalStage;
    FunctionalStageReport(s);
    ClockIdle(Start(s), 1, 7);
  }

  function StageCount(h: History): nat {
    1 + |h.rs| + |h.ks| + (if h.fuzz.Some? then 1 else 0)
  }

  lemma {:induction false} Advanced(s: Session, h: History)
    requires Released(s) && Honest(s) && Told(CaseOf(s), h)
    ensures Told(CaseOf(s), Advance(s, h))
    ensures Ended(h) ==> Advance(s, h) == h
    ensures !Ended(h) ==> StageCount(Advance(s, h)) == StageCount(h) + 1
    ensures !Ended(h) && StageCount(h) in {1, 3, 5} ==> WithReclaim(s, Reached(s, h), PHASES[StageCount(h) / 2]) == Reached(s, Advance(s, h))
    ensures !Ended(h) && StageCount(h) in {2, 4} ==> WithKind(s, Reached(s, h), KINDS[StageCount(h) / 2 - 1]) == Reached(s, Advance(s, h))
    ensures !Ended(h) && StageCount(h) == 6 ==> WithFuzz(s, Reached(s, h)) == Reached(s, Advance(s, h))
  {
    hide Reported, Continued, ReclaimStage, KindStage, FuzzStaging, WithReclaim, WithKind, WithFuzz, Reached;
    if !Ended(h) {
      if |h.rs| == |h.ks| {
        ReclaimTold(s, h);
        ReclaimReached(s, h);
      } else if |h.ks| < 2 {
        KindTold(s, h);
        KindReached(s, h);
      } else {
        FuzzNext(s, h);
      }
    }
  }

  function Stages(s: Session, n: nat): History {
    if n == 0 then Start(s) else Advance(s, Stages(s, n - 1))
  }

  /** What the producer holds after its first n later stages. */
  function Later(s: Session, n: nat): Progress {
    if n == 0 then Begin(s)
    else if n % 2 == 1 && n < 6 then WithReclaim(s, Later(s, n - 1), PHASES[n / 2])
    else if n < 6 then WithKind(s, Later(s, n - 1), KINDS[n / 2 - 1])
    else WithFuzz(s, Later(s, n - 1))
  }

  lemma {:induction false} LaterIs(s: Session, n: nat)
    requires Released(s) && Honest(s) && n <= 6
    ensures Told(CaseOf(s), Stages(s, n)) && Later(s, n) == Reached(s, Stages(s, n))
    ensures HaltOf(Stages(s, n)).Raised? || StageCount(Stages(s, n)) == n + 1
  {
    hide Told, Reached, Begin, Start, Advance, HaltOf, StageCount, WithReclaim, WithKind, WithFuzz;
    if n == 0 {
      Started(s);
      StartCount(s);
    } else {
      LaterIs(s, n - 1);
      var h := Stages(s, n - 1);
      Advanced(s, h);
      CountRaised(CaseOf(s), h);
      if HaltOf(h).Raised? {
        Stays(s, h, n);
      }
    }
  }

  lemma {:induction false} StartCount(s: Session)
    ensures StageCount(Start(s)) == 1
  {}

  lemma {:induction false} CountRaised(c: V.Case, h: History)
    requires Told(c, h)
    ensures Ended(h) && StageCount(h) <= 6 ==> HaltOf(h).Raised?
  {
    hide Reported, Continued;
  }

  lemma {:induction false} Stays(s: Session, h: History, n: nat)
    requires HaltOf(h).Raised? && 0 < n <= 6
    ensures WithReclaim(s, Reached(s, h), PHASES[if n < 6 then n / 2 else 0]) == Reached(s, h)
    ensures WithKind(s, Reached(s, h), KINDS[if 2 <= n < 6 then n / 2 - 1 else 0]) == Reached(s, h)
    ensures WithFuzz(s, Reached(s, h)) == Reached(s, h)
  {}

  lemma {:induction false} CollectIsLater(s: Session)
    requires Released(s)
    ensures Collect(s) == Later(s, 6)
  {
    hide WithReclaim, WithKind, WithFuzz, Begin;
    assert Later(s, 3) == WithReclaim(s, WithKind(s, Later(s, 1), Address), Of(Address));
    assert Later(s, 5) == WithReclaim(s, WithKind(s, Later(s, 3), Undefined), Of(Undefined));
    assert Later(s, 1) == WithReclaim(s, Begin(s), Baseline);
    assert Later(s, 6) == WithFuzz(s, Later(s, 5));
    assert Kinds(s, Later(s, 5), 2) == Later(s, 5);
    assert Kinds(s, Later(s, 3), 1) == Kinds(s, Later(s, 5), 2);
    assert Kinds(s, Later(s, 1), 0) == Kinds(s, Later(s, 3), 1);
  }

  /** The producer's final state is that of a reported history which has ended. */
  lemma {:induction false} CollectHasHistory(s: Session) returns (h: History)
    requires Released(s) && Honest(s)
    ensures Told(CaseOf(s), h) && Ended(h) && Collect(s) == Reached(s, h)
  {
    hide Told, Reached;
    h := Stages(s, 6);
    LaterIs(s, 6);
    CollectIsLater(s);
    AllStages(CaseOf(s), h);
  }

  lemma {:induction false} AllStages(c: V.Case, h: History)
    requires Told(c, h) && (HaltOf(h).Raised? || StageCount(h) == 7)
    ensures Ended(h)
  {
    hide Reported, Continued;
  }
}
