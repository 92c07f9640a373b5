/** Swapping tokens for placeholders, running the unchanged allowlist, and swapping
    back is the same as rewriting the command directly. */
module CompilerRewrite {
  import opened Results
  import opened Text
  import opened CompilerAllowlist

  /** A direct rewrite: what an include operand becomes under its flag, and what any
      other kept token becomes. None rejects the command. */
  datatype Policy = Policy(bind: (string, string) -> Option<string>, keep: string -> Option<string>)

  /** One pass over the command's tail, in its own order. */
  function Rewrite(tokens: Tokens, p: Policy): Option<Tokens> {
    if tokens == [] then Some([])
    else
      var a := tokens[0];
      match RoleOf(a)
      case Output => if |tokens| < 2 || Dashed(tokens[1]) then None else Rewrite(tokens[2..], p)
      case Dependency => Rewrite(tokens[1..], p)
      case Include =>
        if |tokens| < 2 || p.bind(a, tokens[1]).None? then None
        else Cons([a, p.bind(a, tokens[1]).value], Rewrite(tokens[2..], p))
      case Joined =>
        if p.bind("-I", a[2..]).None? then None
        else Cons(["-I" + p.bind("-I", a[2..]).value], Rewrite(tokens[1..], p))
      case Other =>
        if p.keep(a).None? then None else Cons([p.keep(a).value], Rewrite(tokens[1..], p))
  }

  // ---------- swapping back ----------

  type Subst = map<string, string>

  function Lookup(m: Subst, a: string): string {
    if a in m then m[a] else a
  }

  function Restore(tokens: Tokens, m: Subst): (r: Tokens)
    ensures |r| == |tokens|
    ensures forall i :: 0 <= i < |tokens| ==> r[i] == Lookup(m, tokens[i])
  {
    if tokens == [] then [] else [Lookup(m, tokens[0])] + Restore(tokens[1..], m)
  }

  function RestoreAll(tokens: Option<Tokens>, m: Subst): Option<Tokens> {
    if tokens.Some? then Some(Restore(tokens.value, m)) else None
  }

  lemma {:induction false} RestoreConcat(a: Tokens, b: Tokens, m: Subst)
    ensures Restore(a + b, m) == Restore(a, m) + Restore(b, m)
  {
    hide Lookup;
    var r, s, t := Restore(a + b, m), Restore(a, m), Restore(b, m);
    forall i | 0 <= i < |a + b| ensures r[i] == (s + t)[i] {
      assert r[i] == Lookup(m, (a + b)[i]);
    }
  }

  /** The swapped tail stands for the original one: step by step along the parser's own
      path, every placeholder passes the inner policy, and what comes out of it swaps
      back to what the outer policy wants. */
  ghost predicate StandsFor(swapped: Tokens, tokens: Tokens, inner: Policy, p: Policy, m: Subst)
    decreases |tokens|
  {
    && |swapped| == |tokens|
    && (tokens != [] ==>
          match RoleOf(tokens[0])
          case Output =>
            && RoleOf(swapped[0]) == Output
            && (|tokens| >= 2 ==> (Dashed(swapped[1]) <==> Dashed(tokens[1]))
                                  && (!Dashed(tokens[1]) ==> StandsFor(swapped[2..], tokens[2..], inner, p, m)))
          case Dependency => RoleOf(swapped[0]) == Dependency && StandsFor(swapped[1..], tokens[1..], inner, p, m)
          case Include =>
            && RoleOf(swapped[0]) == Include && Lookup(m, swapped[0]) == tokens[0]
            && (|tokens| >= 2 ==>
                  Passes(inner.bind(swapped[0], swapped[1]), p.bind(tokens[0], tokens[1]), m)
                  && (p.bind(tokens[0], tokens[1]).Some? ==> StandsFor(swapped[2..], tokens[2..], inner, p, m)))
          case Joined =>
            && RoleOf(swapped[0]) == Joined
            && PassesJoined(inner.bind("-I", swapped[0][2..]), p.bind("-I", tokens[0][2..]), m)
            && (p.bind("-I", tokens[0][2..]).Some? ==> StandsFor(swapped[1..], tokens[1..], inner, p, m))
          case Other =>
            && RoleOf(swapped[0]) == Other
            && Passes(inner.keep(swapped[0]), p.keep(tokens[0]), m)
            && (p.keep(tokens[0]).Some? ==> StandsFor(swapped[1..], tokens[1..], inner, p, m)))
  }

  /** The inner result exists exactly when the outer one does, and swaps back to it. */
  predicate Passes(got: Option<string>, want: Option<string>, m: Subst) {
    (got.Some? <==> want.Some?) && (got.Some? ==> Lookup(m, got.value) == want.value)
  }

  predicate PassesJoined(got: Option<string>, want: Option<string>, m: Subst) {
    (got.Some? <==> want.Some?) && (got.Some? ==> Lookup(m, "-I" + got.value) == "-I" + want.value)
  }

  lemma {:induction false} RestoreCons(head: Tokens, tail: Option<Tokens>, m: Subst)
    ensures RestoreAll(Cons(head, tail), m) == Cons(Restore(head, m), RestoreAll(tail, m))
  {
    if tail.Some? {
      RestoreConcat(head, tail.value, m);
    }
  }

  lemma {:induction false} RestoreOne(a: string, m: Subst)
    ensures Restore([a], m) == [Lookup(m, a)]
  {}

  lemma {:induction false} RestoreTwo(a: string, b: string, m: Subst)
    ensures Restore([a, b], m) == [Lookup(m, a), Lookup(m, b)]
  {
    RestoreConcat([a], [b], m);
    assert [a] + [b] == [a, b];
    RestoreOne(a, m);
    RestoreOne(b, m);
  }

  /** Swapping back the inner result gives the outer rewrite, and the inner policy
      rejects exactly when the outer one does. */
  lemma {:induction false} SwapsBack(swapped: Tokens, tokens: Tokens, inner: Policy, p: Policy, m: Subst)
    requires StandsFor(swapped, tokens, inner, p, m)
    ensures RestoreAll(Rewrite(swapped, inner), m) == Rewrite(tokens, p)
    decreases |tokens|
  {
    hide IsOutput, IsDependency, IsInclude, Cons, RestoreAll;
    if tokens == [] {
      EmptyBack(m);
    } else {
      NoneBack(m);
      match RoleOf(tokens[0])
      case Output =>
        if |tokens| >= 2 && !Dashed(tokens[1]) {
          SwapsBack(swapped[2..], tokens[2..], inner, p, m);
        }
      case Dependency =>
        SwapsBack(swapped[1..], tokens[1..], inner, p, m);
      case Include =>
        if |tokens| >= 2 && p.bind(tokens[0], tokens[1]).Some? {
          var got := inner.bind(swapped[0], swapped[1]).value;
          SwapsBack(swapped[2..], tokens[2..], inner, p, m);
          RestoreCons([swapped[0], got], Rewrite(swapped[2..], inner), m);
          RestoreTwo(swapped[0], got, m);
        }
      case Joined =>
        if p.bind("-I", tokens[0][2..]).Some? {
          var got := inner.bind("-I", swapped[0][2..]).value;
          SwapsBack(swapped[1..], tokens[1..], inner, p, m);
          RestoreCons(["-I" + got], Rewrite(swapped[1..], inner), m);
          RestoreOne("-I" + got, m);
        }
      case Other =>
        if p.keep(tokens[0]).Some? {
          var got := inner.keep(swapped[0]).value;
          SwapsBack(swapped[1..], tokens[1..], inner, p, m);
          RestoreCons([got], Rewrite(swapped[1..], inner), m);
          RestoreOne(got, m);
        }
    }
  }

  lemma {:induction false} NoneBack(m: Subst)
    ensures RestoreAll(None, m) == None
  {}

  lemma {:induction false} EmptyBack(m: Subst)
    ensures RestoreAll(Some([]), m) == Some([])
  {}

  // ---------- the allowlist itself, as a policy ----------

  /** The parser rewrites nothing. */
  function Plain(source: string): Policy {
    Policy((flag: string, value: string) => if InSource(value) then Some(value) else None,
           (a: string) => if Kept(a, source) then Some(a) else None)
  }

  lemma {:induction false} ScanIsPlain(tokens: Tokens, source: string)
    ensures Scan(tokens, source) == Rewrite(tokens, Plain(source))
    decreases |tokens|
  {
    hide Kept, InSource, IsOutput, IsDependency, IsInclude, StartsI;
    if tokens != [] {
      JoinedBack(tokens[0]);
      ScanIsPlain(tokens[1..], source);
      if |tokens| >= 2 {
        ScanIsPlain(tokens[2..], source);
      }
    }
  }

  lemma {:induction false} JoinedBack(a: string)
    ensures RoleOf(a) == Joined ==> "-I" + a[2..] == a
  {
    hide IsOutput, IsDependency, IsInclude;
    if StartsI(a) {
      assert a == [a[0]] + [a[1]] + a[2..];
    }
  }
}
