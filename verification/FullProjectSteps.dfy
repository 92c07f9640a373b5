/** The step plan of a full-project run and its executor: nothing runs before
    everything it needs has succeeded. */
module FullProjectSteps {
  import opened Results

  datatype Group = Baseline | Sanitizer(name: string)

  datatype StepId =
    | CmakeVersion | CompilerVersion | AnalyzerVersion | StaticAnalysis
    | Configure(group: Group) | Build(group: Group) | Context(group: Group) | Evidence(group: Group)
    | Discover(group: Group) | UnitTests(group: Group) | IntegrationTests(group: Group) | NativeTests(group: Group)
    | FuzzCompilerVersion | FuzzConfigure | FuzzBuild | FuzzEvidence

  datatype Spec = Spec(id: StepId, needs: seq<StepId>)

  /** What the plan depends on: the sanitizers, in order, and which evidence is asked for. */
  datatype Configuration = Configuration(sanitizers: seq<string>, compilerEvidence: bool, generatedHeaders: bool, boundTests: bool, fuzz: bool)

  // ---------- the plan ----------

  function GroupSteps(c: Configuration, g: Group): seq<Spec> {
    [Spec(Configure(g), [CmakeVersion, CompilerVersion]), Spec(Build(g), [Configure(g)])]
    + (if c.compilerEvidence then
         (if c.generatedHeaders then [Spec(Context(g), [Build(g)])] else [])
         + [Spec(Evidence(g), [if c.generatedHeaders then Context(g) else Build(g)])]
       else [])
    + (if g == Baseline then
         [Spec(StaticAnalysis, [if c.compilerEvidence && c.generatedHeaders then Context(g) else Build(g), AnalyzerVersion])]
       else [])
    + [Spec(Discover(g), [Build(g)]), Spec(UnitTests(g), [Discover(g)]), Spec(IntegrationTests(g), [Discover(g)])]
  }

  function GroupsSteps(c: Configuration, groups: seq<Group>): seq<Spec> {
    if groups == [] then [] else GroupsSteps(c, groups[..|groups| - 1]) + GroupSteps(c, groups[|groups| - 1])
  }

  function NativeSteps(sanitizers: seq<string>): seq<Spec> {
    if sanitizers == [] then []
    else
      var g := Sanitizer(sanitizers[|sanitizers| - 1]);
      NativeSteps(sanitizers[..|sanitizers| - 1]) + [Spec(NativeTests(g), [Discover(g)])]
  }

  function Groups(sanitizers: seq<string>): seq<Group> {
    [Baseline] + seq(|sanitizers|, i requires 0 <= i < |sanitizers| => Sanitizer(sanitizers[i]))
  }

  const VERSIONS: seq<Spec> := [Spec(CmakeVersion, []), Spec(CompilerVersion, []), Spec(AnalyzerVersion, [])]
  const FUZZING: seq<Spec> := [Spec(FuzzCompilerVersion, []), Spec(FuzzConfigure, [CmakeVersion, FuzzCompilerVersion]),
                               Spec(FuzzBuild, [FuzzConfigure]), Spec(FuzzEvidence, [FuzzBuild])]

  function Steps(c: Configuration): seq<Spec> {
    VERSIONS + GroupsSteps(c, Groups(c.sanitizers)) + (if c.boundTests then NativeSteps(c.sanitizers) else []) + (if c.fuzz then FUZZING else [])
  }

  /** The plan is built by appending. */
  method ExecutionSteps(c: Configuration) returns (steps: seq<Spec>)
    ensures steps == Steps(c)
  {
    hide GroupSteps, VERSIONS, FUZZING, Groups;
    steps := VERSIONS;
    var groups := Groups(c.sanitizers);
    var i := 0;
    while i < |groups|
      invariant 0 <= i <= |groups| && steps == VERSIONS + GroupsSteps(c, groups[..i])
    {
      assert groups[..i + 1][..i] == groups[..i];
      steps := steps + GroupSteps(c, groups[i]);
      i := i + 1;
    }
    assert groups[..i] == groups;
    ghost var main := steps;
    if c.boundTests {
      i := 0;
      while i < |c.sanitizers|
        invariant 0 <= i <= |c.sanitizers| && steps == main + NativeSteps(c.sanitizers[..i])
      {
        assert c.sanitizers[..i + 1][..i] == c.sanitizers[..i];
        var g := Sanitizer(c.sanitizers[i]);
        steps := steps + [Spec(NativeTests(g), [Discover(g)])];
        i := i + 1;
      }
      assert c.sanitizers[..i] == c.sanitizers;
    }
    if c.fuzz {
      steps := steps + FUZZING;
    }
  }

  // ---------- needs before users, no step twice ----------

  /** Read after the steps in `done`, every step is new and needs only earlier ones. */
  ghost predicate InOrder(done: set<StepId>, steps: seq<Spec>)
    decreases |steps|
  {
    steps == [] ||
    (steps[0].id !in done && (forall n :: n in steps[0].needs ==> n in done) && InOrder(done + {steps[0].id}, steps[1..]))
  }

  function Ids(steps: seq<Spec>): (r: set<StepId>)
    ensures forall i :: 0 <= i < |steps| ==> steps[i].id in r
  {
    set i | 0 <= i < |steps| :: steps[i].id
  }

  lemma {:induction false} IdsConcat(a: seq<Spec>, b: seq<Spec>)
    ensures Ids(a + b) == Ids(a) + Ids(b)
  {
    forall i | 0 <= i < |a| ensures a[i].id in Ids(a + b) { assert (a + b)[i] == a[i]; }
    forall i | 0 <= i < |b| ensures b[i].id in Ids(a + b) { assert (a + b)[|a| + i] == b[i]; }
  }

  lemma {:induction false} InOrderConcat(done: set<StepId>, a: seq<Spec>, b: seq<Spec>)
    requires InOrder(done, a) && InOrder(done + Ids(a), b)
    ensures InOrder(done, a + b)
    decreases |a|
  {
    if a == [] {
      assert a + b == b;
      assert done + Ids(a) == done;
    } else {
      assert (a + b)[1..] == a[1..] + b;
      assert a == [a[0]] + a[1..];
      IdsConcat([a[0]], a[1..]);
      assert Ids([a[0]]) == {a[0].id};
      assert done + {a[0].id} + Ids(a[1..]) == done + Ids(a);
      InOrderConcat(done + {a[0].id}, a[1..], b);
    }
  }

  /** Nothing of this group has been planned yet. */
  predicate NewGroup(done: set<StepId>, g: Group) {
    && Configure(g) !in done && Build(g) !in done && Context(g) !in done && Evidence(g) !in done
    && Discover(g) !in done && UnitTests(g) !in done && IntegrationTests(g) !in done
    && (g == Baseline ==> StaticAnalysis !in done)
  }

  function EvidenceSteps(c: Configuration, g: Group): seq<Spec> {
    if c.compilerEvidence then
      (if c.generatedHeaders then [Spec(Context(g), [Build(g)])] else []) + [Spec(Evidence(g), [if c.generatedHeaders then Context(g) else Build(g)])]
    else []
  }

  function LintSteps(c: Configuration, g: Group): seq<Spec> {
    if g == Baseline then [Spec(StaticAnalysis, [if c.compilerEvidence && c.generatedHeaders then Context(g) else Build(g), AnalyzerVersion])] else []
  }

  lemma {:induction false} GroupInOrder(c: Configuration, g: Group, done: set<StepId>)
    requires CHECKED <= done && NewGroup(done, g)
    ensures InOrder(done, GroupSteps(c, g))
  {
    hide InOrder, Ids, EvidenceSteps, LintSteps, GroupSteps;
    var head := [Spec(Configure(g), [CmakeVersion, CompilerVersion]), Spec(Build(g), [Configure(g)])];
    var evidence, lint := EvidenceSteps(c, g), LintSteps(c, g);
    var tests := [Spec(Discover(g), [Build(g)]), Spec(UnitTests(g), [Discover(g)]), Spec(IntegrationTests(g), [Discover(g)])];
    GroupParts(c, g);
    Two(done, head[0], head[1]);
    var d1 := done + Ids(head);
    EvidenceInOrder(c, g, d1);
    LintInOrder(c, g, d1 + Ids(evidence));
    Three(d1 + Ids(evidence) + Ids(lint), tests[0], tests[1], tests[2]);
    FourInOrder(done, head, evidence, lint, tests);
  }

  /** Four parts, each in order after the ones before it. */
  lemma {:induction false} FourInOrder(done: set<StepId>, a: seq<Spec>, b: seq<Spec>, d: seq<Spec>, e: seq<Spec>)
    requires InOrder(done, a) && InOrder(done + Ids(a), b) && InOrder(done + Ids(a) + Ids(b), d)
    requires InOrder(done + Ids(a) + Ids(b) + Ids(d), e)
    ensures InOrder(done, a + b + d + e)
  {
    hide InOrder, Ids;
    InOrderConcat(done, a, b);
    IdsConcat(a, b);
    assert done + Ids(a + b) == done + Ids(a) + Ids(b);
    InOrderConcat(done, a + b, d);
    IdsConcat(a + b, d);
    assert done + Ids(a + b + d) == done + Ids(a) + Ids(b) + Ids(d);
    InOrderConcat(done, a + b + d, e);
  }

  lemma {:induction false} GroupParts(c: Configuration, g: Group)
    ensures GroupSteps(c, g) ==
      [Spec(Configure(g), [CmakeVersion, CompilerVersion]), Spec(Build(g), [Configure(g)])] + EvidenceSteps(c, g) + LintSteps(c, g)
      + [Spec(Discover(g), [Build(g)]), Spec(UnitTests(g), [Discover(g)]), Spec(IntegrationTests(g), [Discover(g)])]
  {}

  lemma {:induction false} LintInOrder(c: Configuration, g: Group, done: set<StepId>)
    requires Build(g) in done && AnalyzerVersion in done && (g == Baseline ==> StaticAnalysis !in done)
    requires c.compilerEvidence && c.generatedHeaders ==> Context(g) in done
    ensures InOrder(done, LintSteps(c, g)) && Ids(LintSteps(c, g)) <= {StaticAnalysis}
  {
    if g == Baseline {
      One(done, LintSteps(c, g)[0]);
    }
  }

  lemma {:induction false} EvidenceInOrder(c: Configuration, g: Group, done: set<StepId>)
    requires Build(g) in done && Context(g) !in done && Evidence(g) !in done
    ensures InOrder(done, EvidenceSteps(c, g)) && Ids(EvidenceSteps(c, g)) <= {Context(g), Evidence(g)}
    ensures c.compilerEvidence && c.generatedHeaders ==> Context(g) in Ids(EvidenceSteps(c, g))
  {
    if c.compilerEvidence && c.generatedHeaders {
      var a, b := Spec(Context(g), [Build(g)]), Spec(Evidence(g), [Context(g)]);
      assert [a] + [b] == [a, b];
      Two(done, a, b);
    } else if c.compilerEvidence {
      var b := Spec(Evidence(g), [Build(g)]);
      assert [] + [b] == [b];
      One(done, b);
    }
  }

  lemma {:induction false} One(done: set<StepId>, a: Spec)
    requires a.id !in done && forall n :: n in a.needs ==> n in done
    ensures InOrder(done, [a]) && Ids([a]) == {a.id}
  {
    assert InOrder(done + {a.id}, [a][1..]);
  }

  lemma {:induction false} Two(done: set<StepId>, a: Spec, b: Spec)
    requires a.id !in done && (forall n :: n in a.needs ==> n in done)
    requires b.id !in done && b.id != a.id && (forall n :: n in b.needs ==> n in done || n == a.id)
    ensures InOrder(done, [a, b]) && Ids([a, b]) == {a.id, b.id}
  {
    One(done, a);
    One(done + {a.id}, b);
    InOrderConcat(done, [a], [b]);
    IdsConcat([a], [b]);
    assert [a] + [b] == [a, b];
  }

  lemma {:induction false} Three(done: set<StepId>, a: Spec, b: Spec, d: Spec)
    requires a.id !in done && (forall n :: n in a.needs ==> n in done)
    requires b.id !in done && b.id != a.id && (forall n :: n in b.needs ==> n in done || n == a.id)
    requires d.id !in done && d.id != a.id && d.id != b.id && (forall n :: n in d.needs ==> n in done || n == a.id || n == b.id)
    ensures InOrder(done, [a, b, d]) && Ids([a, b, d]) == {a.id, b.id, d.id}
  {
    Two(done, a, b);
    One(done + {a.id, b.id}, d);
    InOrderConcat(done, [a, b], [d]);
    IdsConcat([a, b], [d]);
    assert [a, b] + [d] == [a, b, d];
  }

  ghost predicate OfGroup(id: StepId, g: Group) {
    || id == Configure(g) || id == Build(g) || id == Context(g) || id == Evidence(g) || id == Discover(g)
    || id == UnitTests(g) || id == IntegrationTests(g) || (g == Baseline && id == StaticAnalysis)
  }

  lemma {:induction false} GroupIds(c: Configuration, g: Group)
    ensures forall id :: id in Ids(GroupSteps(c, g)) ==> OfGroup(id, g)
    ensures Discover(g) in Ids(GroupSteps(c, g))
  {
    var steps := GroupSteps(c, g);
    assert steps[|steps| - 3].id == Discover(g);
  }

  predicate DistinctNames(sanitizers: seq<string>) {
    forall i, j :: 0 <= i < j < |sanitizers| ==> sanitizers[i] != sanitizers[j]
  }

  const CHECKED: set<StepId> := {CmakeVersion, CompilerVersion, AnalyzerVersion}

  /** Every id belongs to one of these groups. */
  ghost predicate OfGroups(ids: set<StepId>, groups: seq<Group>) {
    forall id :: id in ids ==> exists i :: 0 <= i < |groups| && OfGroup(id, groups[i])
  }

  lemma {:induction false} NextGroupIsNew(ids: set<StepId>, front: seq<Group>, g: Group)
    requires OfGroups(ids, front) && g !in front
    ensures NewGroup(CHECKED + ids, g)
  {
    assert forall i :: 0 <= i < |front| ==> front[i] != g;
  }

  lemma {:induction false} MoreGroups(ids: set<StepId>, more: set<StepId>, groups: seq<Group>)
    requires groups != [] && OfGroups(ids, groups[..|groups| - 1])
    requires forall id :: id in more ==> OfGroup(id, groups[|groups| - 1])
    ensures OfGroups(ids + more, groups)
  {
    hide OfGroup;
    forall id | id in ids ensures exists i :: 0 <= i < |groups| && OfGroup(id, groups[i]) {
      var front := groups[..|groups| - 1];
      var i :| 0 <= i < |front| && OfGroup(id, front[i]);
      assert groups[i] == front[i];
    }
  }

  lemma {:induction false} GroupsInOrder(c: Configuration, groups: seq<Group>)
    requires forall i, j :: 0 <= i < j < |groups| ==> groups[i] != groups[j]
    ensures InOrder(CHECKED, GroupsSteps(c, groups))
    ensures OfGroups(Ids(GroupsSteps(c, groups)), groups)
    ensures forall i :: 0 <= i < |groups| ==> Discover(groups[i]) in Ids(GroupsSteps(c, groups))
  {
    hide GroupSteps, InOrder, Ids, OfGroup, OfGroups, NewGroup;
    if groups == [] {
      EmptyInOrder(CHECKED);
      NoGroups();
    } else {
      var last := |groups| - 1;
      var front, g := groups[..last], groups[last];
      GroupsInOrder(c, front);
      var ids := Ids(GroupsSteps(c, front));
      NextGroupIsNew(ids, front, g);
      GroupInOrder(c, g, CHECKED + ids);
      InOrderConcat(CHECKED, GroupsSteps(c, front), GroupSteps(c, g));
      IdsConcat(GroupsSteps(c, front), GroupSteps(c, g));
      GroupIds(c, g);
      MoreGroups(ids, Ids(GroupSteps(c, g)), groups);
      forall i | 0 <= i < |groups| ensures Discover(groups[i]) in Ids(GroupsSteps(c, groups)) {
        assert i < last ==> groups[i] == front[i];
      }
    }
  }

  lemma {:induction false} NoGroups()
    ensures OfGroups({}, [])
  {}

  lemma {:induction false} NativeInOrder(sanitizers: seq<string>, done: set<StepId>)
    requires DistinctNames(sanitizers)
    requires forall i :: 0 <= i < |sanitizers| ==> Discover(Sanitizer(sanitizers[i])) in done && NativeTests(Sanitizer(sanitizers[i])) !in done
    ensures InOrder(done, NativeSteps(sanitizers))
    ensures forall id :: id in Ids(NativeSteps(sanitizers)) ==> exists i :: 0 <= i < |sanitizers| && id == NativeTests(Sanitizer(sanitizers[i]))
  {
    hide InOrder, Ids;
    NativeIds(sanitizers);
    if sanitizers == [] {
      EmptyInOrder(done);
    } else {
      var last := |sanitizers| - 1;
      var front, g := sanitizers[..last], Sanitizer(sanitizers[last]);
      var one := Spec(NativeTests(g), [Discover(g)]);
      assert forall i :: 0 <= i < last ==> front[i] == sanitizers[i];
      NativeInOrder(front, done);
      NativeIds(front);
      One(done + Ids(NativeSteps(front)), one);
      InOrderConcat(done, NativeSteps(front), [one]);
    }
  }

  /** One step for each sanitizer. */
  lemma {:induction false} NativeIds(sanitizers: seq<string>)
    ensures forall id :: id in Ids(NativeSteps(sanitizers)) ==> exists i :: 0 <= i < |sanitizers| && id == NativeTests(Sanitizer(sanitizers[i]))
  {
    hide Ids;
    if sanitizers == [] {
      EmptyInOrder({});
    } else {
      var last := |sanitizers| - 1;
      var front, g := sanitizers[..last], Sanitizer(sanitizers[last]);
      var one := Spec(NativeTests(g), [Discover(g)]);
      NativeIds(front);
      IdsConcat(NativeSteps(front), [one]);
      OneId(one);
      forall id | id in Ids(NativeSteps(sanitizers)) ensures exists i :: 0 <= i < |sanitizers| && id == NativeTests(Sanitizer(sanitizers[i])) {
        if id in Ids(NativeSteps(front)) {
          var i :| 0 <= i < |front| && id == NativeTests(Sanitizer(front[i]));
          assert front[i] == sanitizers[i];
        } else {
          assert id == NativeTests(Sanitizer(sanitizers[last]));
        }
      }
    }
  }

  lemma {:induction false} OneId(one: Spec)
    ensures Ids([one]) == {one.id}
  {
    assert [one][0].id == one.id;
  }

  lemma {:induction false} FuzzInOrder(done: set<StepId>)
    requires CmakeVersion in done && done !! {FuzzCompilerVersion, FuzzConfigure, FuzzBuild, FuzzEvidence}
    ensures InOrder(done, FUZZING)
  {
    Two(done, FUZZING[0], FUZZING[1]);
    Two(done + {FuzzCompilerVersion, FuzzConfigure}, FUZZING[2], FUZZING[3]);
    InOrderConcat(done, [FUZZING[0], FUZZING[1]], [FUZZING[2], FUZZING[3]]);
    assert FUZZING == [FUZZING[0], FUZZING[1]] + [FUZZING[2], FUZZING[3]];
  }

  lemma {:induction false} GroupsDistinct(sanitizers: seq<string>)
    requires DistinctNames(sanitizers)
    ensures var groups := Groups(sanitizers);
            && (forall i, j :: 0 <= i < j < |groups| ==> groups[i] != groups[j])
            && (forall i :: 0 <= i < |sanitizers| ==> i + 1 < |groups| && groups[i + 1] == Sanitizer(sanitizers[i]))
  {}

  /** Every sanitizer is one of the groups, so its tests have been discovered. */
  lemma {:induction false} Discoveries(sanitizers: seq<string>, ids: set<StepId>)
    requires forall i :: 0 <= i < |Groups(sanitizers)| ==> Discover(Groups(sanitizers)[i]) in ids
    ensures forall i :: 0 <= i < |sanitizers| ==> Discover(Sanitizer(sanitizers[i])) in ids
  {
    var groups := Groups(sanitizers);
    forall i | 0 <= i < |sanitizers| ensures Discover(Sanitizer(sanitizers[i])) in ids {
      assert i + 1 < |groups|;
      assert groups[i + 1] == Sanitizer(sanitizers[i]);
    }
  }

  /** Native tests and fuzzing are new after the groups. */
  lemma {:induction false} LateStepsNew(ids: set<StepId>, groups: seq<Group>)
    requires OfGroups(ids, groups)
    ensures forall g :: NativeTests(g) !in ids
    ensures ids !! {FuzzCompilerVersion, FuzzConfigure, FuzzBuild, FuzzEvidence}
  {}

  lemma {:induction false} NativeIdsLate(ids: set<StepId>, sanitizers: seq<string>)
    requires forall id :: id in ids ==> exists i :: 0 <= i < |sanitizers| && id == NativeTests(Sanitizer(sanitizers[i]))
    ensures ids !! {FuzzCompilerVersion, FuzzConfigure, FuzzBuild, FuzzEvidence}
  {}

  /** For every configuration with distinct sanitizers, no step is planned twice and
      every step comes after all it needs. */
  lemma {:induction false} PlanInOrder(c: Configuration)
    requires DistinctNames(c.sanitizers)
    ensures InOrder({}, Steps(c))
  {
    hide GroupsSteps, NativeSteps, FUZZING, VERSIONS, InOrder, Ids, OfGroups, Groups;
    var groups := Groups(c.sanitizers);
    var grouped := GroupsSteps(c, groups);
    var native := if c.boundTests then NativeSteps(c.sanitizers) else [];
    var fuzz := if c.fuzz then FUZZING else [];
    VersionsInOrder();
    GroupsDistinct(c.sanitizers);
    GroupsInOrder(c, groups);
    LateStepsNew(Ids(grouped), groups);
    assert {} + CHECKED == CHECKED;
    InOrderConcat({}, VERSIONS, grouped);
    IdsConcat(VERSIONS, grouped);
    var d1 := {} + Ids(VERSIONS + grouped);
    EmptyInOrder(d1);
    Discoveries(c.sanitizers, Ids(grouped));
    NativeInOrder(c.sanitizers, d1);
    InOrderConcat({}, VERSIONS + grouped, native);
    IdsConcat(VERSIONS + grouped, native);
    NativeIdsLate(Ids(native), c.sanitizers);
    var d2 := {} + Ids(VERSIONS + grouped + native);
    EmptyInOrder(d2);
    FuzzInOrder(d2);
    InOrderConcat({}, VERSIONS + grouped + native, fuzz);
  }

  lemma {:induction false} VersionsInOrder()
    ensures InOrder({}, VERSIONS) && Ids(VERSIONS) == CHECKED
  {
    Three({}, VERSIONS[0], VERSIONS[1], VERSIONS[2]);
    assert VERSIONS == [VERSIONS[0], VERSIONS[1], VERSIONS[2]];
  }

  lemma {:induction false} EmptyInOrder(done: set<StepId>)
    ensures InOrder(done, []) && Ids([]) == {}
  {}
}
