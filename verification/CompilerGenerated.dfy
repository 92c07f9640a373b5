/** Compile commands of projects with captured generated headers: include operands are
    bound to the private snapshot behind placeholders the allowlist accepts. */
module CompilerGenerated {
  import opened Results
  import opened Text
  import opened Names
  import opened CompilerAllowlist
  import opened CompilerRewrite
  import opened CompilerSyntax
  import P = ProjectPaths
  import opened CompilerCommands

  datatype Group = Baseline | Address | Undefined

  function BuildRoot(g: Group): string {
    match g
    case Baseline => "/work/build"
    case Address => "/work/address"
    case Undefined => "/work/undefined"
  }

  function SnapshotRoot(g: Group): string {
    match g
    case Baseline => "/work/analysis/generated-baseline"
    case Address => "/work/analysis/generated-address"
    case Undefined => "/work/analysis/generated-undefined"
  }

  /** An analyst-owned output stem of this configuration. */
  predicate GroupStem(g: Group, stem: string) {
    var head := "/work/analysis/compiler-" + GroupName(g) + "/u";
    head <= stem && Digits(stem[|head|..])
  }

  function GroupName(g: Group): string {
    match g
    case Baseline => "baseline"
    case Address => "address"
    case Undefined => "undefined"
  }

  lemma {:induction false} GroupStemOk(g: Group, stem: string)
    requires GroupStem(g, stem)
    ensures StemOk(stem)
  {
    assert GroupName(g) in ["baseline", "address", "undefined"];
  }

  const HEADER_SUFFIXES: seq<string> := [".h", ".hh", ".hpp", ".hxx", ".inc"]

  predicate EndsWith(s: string, suffix: string) {
    |s| > |suffix| && s[|s| - |suffix|..] == suffix
  }

  /** A declared generated header. */
  predicate HeaderOk(p: string) {
    && 1 <= |p| <= 500 && (Letter(p[0]) || Digit(p[0]) || p[0] == '_') && All(p, 1)
    && (exists s :: s in HEADER_SUFFIXES && EndsWith(p, s)) && P.PartsOk(Split(p))
  }

  predicate HeadersOk(headers: seq<string>) {
    1 <= |headers| <= 128 && (forall i :: 0 <= i < |headers| ==> HeaderOk(headers[i])) && P.Ordered(headers) && P.PairCheck(headers)
  }

  // ---------- the direct rewrite ----------

  predicate CleanOperand(value: string) {
    value != "" && value[0] == '/' && All(value, 0) && CleanParts(Split(value)[1..])
  }

  /** A header file for -include and -imacros, a directory holding one for the others. */
  predicate CapturedBy(flag: string, relative: string, headers: seq<string>) {
    if flag == "-include" || flag == "-imacros" then relative in headers
    else relative == "" || exists h :: h in headers && relative + "/" <= h
  }

  function Operand(value: string, flag: string, g: Group, headers: seq<string>): Option<string> {
    if !CleanOperand(value) then None
    else if InSource(value) || Pinned(value) then Some(value)
    else if value == BuildRoot(g) then if CapturedBy(flag, "", headers) then Some(SnapshotRoot(g)) else None
    else if Under(BuildRoot(g), value) then
      var relative := value[|BuildRoot(g)| + 1..];
      if CapturedBy(flag, relative, headers) then Some(SnapshotRoot(g) + "/" + relative) else None
    else None
  }

  /** Include operands bound, everything else as the allowlist keeps it. */
  function Bound(source: string, g: Group, headers: seq<string>): Policy {
    Policy((flag: string, value: string) => Operand(value, flag, g, headers),
           (a: string) => if Kept(a, source) then Some(a) else None)
  }

  // ---------- placeholders ----------

  const MARK := "__nico_bound_include_"

  function Marker(i: nat): string {
    TREE + MARK + Decimal(i)
  }

  /** The swaps from index i on. Unlike the syntax scanner, this one reads an output
      operand as a token of its own. */
  function Bind(tokens: Tokens, i: nat, g: Group, headers: seq<string>): Option<Swapped> {
    if tokens == [] then Some(Swapped([], map[]))
    else
      var a := tokens[0];
      if IsInclude(a) then
        if |tokens| < 2 || Operand(tokens[1], a, g, headers).None? then None
        else Put([a, Marker(i)], map[Marker(i) := Operand(tokens[1], a, g, headers).value], Bind(tokens[2..], i + 2, g, headers))
      else if StartsI(a) then
        if Operand(a[2..], "-I", g, headers).None? then None
        else Put(["-I" + Marker(i)], map["-I" + Marker(i) := "-I" + Operand(a[2..], "-I", g, headers).value], Bind(tokens[1..], i + 1, g, headers))
      else Put([a], map[], Bind(tokens[1..], i + 1, g, headers))
  }

  /** Some placeholder needed from index i on already stands in the command. */
  predicate Clashes(tokens: Tokens, i: nat, argv: Tokens) {
    if tokens == [] then false
    else if IsInclude(tokens[0]) then
      |tokens| >= 2 && (Marker(i) in argv || "-I" + Marker(i) in argv || Clashes(tokens[2..], i + 2, argv))
    else if StartsI(tokens[0]) then Marker(i) in argv || "-I" + Marker(i) in argv || Clashes(tokens[1..], i + 1, argv)
    else Clashes(tokens[1..], i + 1, argv)
  }

  /** Bind, run the allowlist, swap back; a clash refuses the command. */
  function ViaMarkers(argv: Tokens, source: string, stem: string, g: Group, headers: seq<string>): Option<Tokens> {
    if !HeadersOk(headers) || !GroupStem(g, stem) || argv == [] || Clashes(argv[1..], 1, argv) then None
    else
      match Bind(argv[1..], 1, g, headers)
      case None => None
      case Some(swapped) =>
        match SafeCompile([argv[0]] + swapped.tokens, source, stem)
        case None => None
        case Some(safe) => Some(Restore(safe, swapped.subst))
  }

  /** What the whole-command checks see: everything but include operands. */
  function Seen(tokens: Tokens): Tokens {
    if tokens == [] then []
    else if IsInclude(tokens[0]) then if |tokens| < 2 then [tokens[0]] else [tokens[0]] + Seen(tokens[2..])
    else if StartsI(tokens[0]) then Seen(tokens[1..])
    else [tokens[0]] + Seen(tokens[1..])
  }

  /** How often a placeholder of the scan from index i on is spelled like x: a placeholder
      for a separate include operand is a path, so it can be taken for the source. */
  function Borrowed(tokens: Tokens, i: nat, x: string): nat {
    if tokens == [] then 0
    else if IsInclude(tokens[0]) then
      if |tokens| < 2 then 0 else (if Marker(i) == x then 1 else 0) + Borrowed(tokens[2..], i + 2, x)
    else Borrowed(tokens[1..], i + 1, x)
  }

  /** The checks on the whole command; it names its source once, or fewer times if
      placeholders were taken for it. */
  predicate Whole(argv: Tokens, source: string, stem: string, borrowed: nat)
    requires argv != []
  {
    var seen := [argv[0]] + Seen(argv[1..]);
    && |argv| <= 4096 && (forall i :: 0 <= i < |seen| ==> PlainText(seen[i])) && Compiler(argv[0]) && SourcePath(source) && StemOk(stem)
    && Count(seen, "-c") == 1 && Count(seen, source) + borrowed == 1 && Count(seen, "-o") == 1
  }

  /** The direct route: no placeholders, except that `borrowed` of them count as the source. */
  function Directly(argv: Tokens, source: string, stem: string, g: Group, headers: seq<string>, borrowed: nat): Option<Tokens> {
    if !HeadersOk(headers) || !GroupStem(g, stem) || argv == [] || !Whole(argv, source, stem, borrowed) then None
    else
      match Rewrite(argv[1..], Bound(source, g, headers))
      case None => None
      case Some(kept) => Some([argv[0]] + kept + Destinations(stem))
  }

  // ---------- facts about markers ----------

  lemma {:induction false} MarkChars()
    ensures |MARK| == 21 && forall i :: 0 <= i < |MARK| ==> NameChar(MARK[i])
  {}

  lemma {:induction false} MarkerInSource(i: nat)
    ensures SourcePath(Marker(i))
  {
    MarkChars();
    var tail := MARK + Decimal(i);
    assert Marker(i) == TREE + tail;
    MarkerParts(tail);
  }

  lemma {:induction false} MarkerShape(i: nat)
    ensures |Marker(i)| > 34 && Marker(i)[0] == '/' && Marker(i)[6] == 's'
  {
    MarkChars();
    assert |TREE| == 13;
  }

  lemma {:induction false} MarkersDiffer(i: nat, j: nat)
    requires i != j
    ensures Marker(i) != Marker(j) && "-I" + Marker(i) != "-I" + Marker(j) && Marker(i) != "-I" + Marker(j) && "-I" + Marker(i) != Marker(j)
  {
    hide MARK, TREE;
    MarkerShape(i);
    MarkerShape(j);
    if Marker(i) == Marker(j) {
      PrefixedInjective(TREE + MARK, i, j);
      assert false;
    }
    assert ("-I" + Marker(i))[2..] == Marker(i) && ("-I" + Marker(j))[2..] == Marker(j);
  }

  predicate MarkAt(k: string, j: nat) {
    k == Marker(j) || k == "-I" + Marker(j)
  }

  ghost predicate MarksFrom(m: Subst, i: nat) {
    forall k :: k in m ==> exists j: nat :: i <= j && MarkAt(k, j)
  }

  lemma {:induction false} MarksLater(m: Subst, i: nat, j: nat)
    requires MarksFrom(m, j) && i <= j
    ensures MarksFrom(m, i)
  {
    forall k | k in m ensures exists n: nat :: i <= n && MarkAt(k, n) {
      var n: nat :| j <= n && MarkAt(k, n);
    }
  }

  lemma {:induction false} BindMarks(tokens: Tokens, i: nat, g: Group, headers: seq<string>)
    requires Bind(tokens, i, g, headers).Some?
    ensures MarksFrom(Bind(tokens, i, g, headers).value.subst, i) && |Bind(tokens, i, g, headers).value.tokens| == |tokens|
  {
    hide IsInclude, Operand, Marker, MarksFrom;
    if tokens == [] {
      NoMarks(i);
    } else {
      var a := tokens[0];
      if IsInclude(a) {
        BindMarks(tokens[2..], i + 2, g, headers);
        MarksLater(Bind(tokens[2..], i + 2, g, headers).value.subst, i, i + 2);
        OneMark(Marker(i), Operand(tokens[1], a, g, headers).value, i, Bind(tokens[2..], i + 2, g, headers).value.subst);
      } else {
        BindMarks(tokens[1..], i + 1, g, headers);
        var rest := Bind(tokens[1..], i + 1, g, headers).value.subst;
        MarksLater(rest, i, i + 1);
        if StartsI(a) {
          OneMark("-I" + Marker(i), "-I" + Operand(a[2..], "-I", g, headers).value, i, rest);
        } else {
          assert map[] + rest == rest;
        }
      }
    }
  }

  lemma {:induction false} NoMarks(i: nat)
    ensures MarksFrom(map[], i)
  {}

  lemma {:induction false} OneMark(k: string, v: string, i: nat, rest: Subst)
    requires MarkAt(k, i) && MarksFrom(rest, i)
    ensures MarksFrom(map[k := v] + rest, i)
  {}

  lemma {:induction false} NewMark(k: string, i: nat, n: nat, m: Subst)
    requires MarkAt(k, i) && i < n && MarksFrom(m, n)
    ensures k !in m
  {
    hide Marker;
    if k in m {
      var j: nat :| n <= j && MarkAt(k, j);
      MarkersDiffer(i, j);
      assert false;
    }
  }

  /** Without a clash, no token of the command is a placeholder in use. */
  lemma {:induction false} ClashFree(tokens: Tokens, i: nat, g: Group, headers: seq<string>, argv: Tokens)
    requires Bind(tokens, i, g, headers).Some? && !Clashes(tokens, i, argv)
    ensures forall k :: k in Bind(tokens, i, g, headers).value.subst ==> k !in argv
  {
    hide IsInclude, StartsI, Operand, Marker;
    if tokens != [] {
      if IsInclude(tokens[0]) {
        ClashFree(tokens[2..], i + 2, g, headers, argv);
      } else {
        ClashFree(tokens[1..], i + 1, g, headers, argv);
      }
    }
  }

  // ---------- the bound tail stands for the original ----------

  ghost predicate Apart(tokens: Tokens, m: Subst) {
    forall i :: 0 <= i < |tokens| ==> tokens[i] !in m
  }

  lemma {:induction false} BindStands(tokens: Tokens, i: nat, source: string, g: Group, headers: seq<string>, m: Subst)
    requires Bind(tokens, i, g, headers).Some? && Agrees(m, Bind(tokens, i, g, headers).value.subst) && Apart(tokens, m)
    ensures StandsFor(Bind(tokens, i, g, headers).value.tokens, tokens, Plain(source), Bound(source, g, headers), m)
    decreases |tokens|
  {
    hide IsOutput, IsInclude, IsDependency, StartsI, Operand, Marker, Kept, Agrees, StandsFor, SourcePath, Bind;
    if tokens == [] {
      NothingBound(i, source, g, headers, m);
    } else {
      var a := tokens[0];
      RolesApart(a);
      if IsInclude(a) {
        BoundInclude(tokens, i, source, g, headers, m);
      } else if StartsI(a) {
        BoundJoined(tokens, i, source, g, headers, m);
      } else {
        BoundOther(tokens, i, source, g, headers, m);
      }
    }
  }

  lemma {:induction false} NothingBound(i: nat, source: string, g: Group, headers: seq<string>, m: Subst)
    ensures Bind([], i, g, headers) == Some(Swapped([], map[]))
    ensures StandsFor([], [], Plain(source), Bound(source, g, headers), m)
  {}

  lemma {:induction false} RolesApart(a: string)
    ensures IsInclude(a) ==> RoleOf(a) == Include
    ensures StartsI(a) && !IsInclude(a) ==> RoleOf(a) == Joined
    ensures RoleOf(a) == Joined ==> StartsI(a) && !IsInclude(a)
    ensures RoleOf(a) == Include ==> IsInclude(a)
  {}

  lemma {:induction false} ApartTail(tokens: Tokens, n: nat, m: Subst)
    requires Apart(tokens, m) && n <= |tokens|
    ensures Apart(tokens[n..], m)
  {}

  lemma {:induction false} BoundInclude(tokens: Tokens, i: nat, source: string, g: Group, headers: seq<string>, m: Subst)
    requires tokens != [] && IsInclude(tokens[0])
    requires Bind(tokens, i, g, headers).Some? && Agrees(m, Bind(tokens, i, g, headers).value.subst) && Apart(tokens, m)
    ensures StandsFor(Bind(tokens, i, g, headers).value.tokens, tokens, Plain(source), Bound(source, g, headers), m)
    decreases |tokens|, 0
  {
    hide IsOutput, Marker, Operand, Kept, SourcePath, Agrees;
    RolesApart(tokens[0]);
    var rest := Bind(tokens[2..], i + 2, g, headers).value;
    BindMarks(tokens[2..], i + 2, g, headers);
    assert MarkAt(Marker(i), i);
    NewMark(Marker(i), i, i + 2, rest.subst);
    AgreesWith(m, Marker(i), Operand(tokens[1], tokens[0], g, headers).value, rest.subst);
    ApartTail(tokens, 2, m);
    BindStands(tokens[2..], i + 2, source, g, headers, m);
    MarkerInSource(i);
    assert ([tokens[0], Marker(i)] + rest.tokens)[2..] == rest.tokens;
  }

  lemma {:induction false} BoundJoined(tokens: Tokens, i: nat, source: string, g: Group, headers: seq<string>, m: Subst)
    requires tokens != [] && StartsI(tokens[0]) && !IsInclude(tokens[0])
    requires Bind(tokens, i, g, headers).Some? && Agrees(m, Bind(tokens, i, g, headers).value.subst) && Apart(tokens, m)
    ensures StandsFor(Bind(tokens, i, g, headers).value.tokens, tokens, Plain(source), Bound(source, g, headers), m)
    decreases |tokens|, 0
  {
    hide IsOutput, Marker, Operand, Kept, SourcePath, Agrees;
    RolesApart(tokens[0]);
    MarkerShape(i);
    LongJoined("-I" + Marker(i));
    var rest := Bind(tokens[1..], i + 1, g, headers).value;
    BindMarks(tokens[1..], i + 1, g, headers);
    assert MarkAt("-I" + Marker(i), i);
    NewMark("-I" + Marker(i), i, i + 1, rest.subst);
    AgreesWith(m, "-I" + Marker(i), "-I" + Operand(tokens[0][2..], "-I", g, headers).value, rest.subst);
    ApartTail(tokens, 1, m);
    BindStands(tokens[1..], i + 1, source, g, headers, m);
    MarkerInSource(i);
    assert ("-I" + Marker(i))[2..] == Marker(i);
    assert (["-I" + Marker(i)] + rest.tokens)[1..] == rest.tokens;
  }

  lemma {:induction false} BoundOther(tokens: Tokens, i: nat, source: string, g: Group, headers: seq<string>, m: Subst)
    requires tokens != [] && !StartsI(tokens[0]) && !IsInclude(tokens[0])
    requires Bind(tokens, i, g, headers).Some? && Agrees(m, Bind(tokens, i, g, headers).value.subst) && Apart(tokens, m)
    ensures StandsFor(Bind(tokens, i, g, headers).value.tokens, tokens, Plain(source), Bound(source, g, headers), m)
    decreases |tokens|, 1
  {
    hide IsOutput, IsInclude, IsDependency, StartsI, Marker, Operand, Kept, SourcePath, Agrees;
    var a := tokens[0];
    RolesApart(a);
    var rest := Bind(tokens[1..], i + 1, g, headers).value;
    AgreesEmpty(m, rest.subst);
    ApartTail(tokens, 1, m);
    BindMarks(tokens[1..], i + 1, g, headers);
    assert ([a] + rest.tokens)[1..] == rest.tokens;
    if RoleOf(a) == Output {
      if |tokens| >= 2 {
        OperandStands(tokens, i, source, g, headers, m);
        assert ([a] + rest.tokens)[1] == rest.tokens[0] && ([a] + rest.tokens)[2..] == rest.tokens[1..];
      }
    } else {
      BindStands(tokens[1..], i + 1, source, g, headers, m);
    }
  }

  /** An output operand that does not look like an option is kept as it is. */
  lemma {:induction false} OperandStands(tokens: Tokens, i: nat, source: string, g: Group, headers: seq<string>, m: Subst)
    requires |tokens| >= 2
    requires Bind(tokens[1..], i + 1, g, headers).Some? && Agrees(m, Bind(tokens[1..], i + 1, g, headers).value.subst) && Apart(tokens, m)
    ensures var rest := Bind(tokens[1..], i + 1, g, headers).value.tokens;
            && rest != [] && (Dashed(rest[0]) <==> Dashed(tokens[1]))
            && (!Dashed(tokens[1]) ==> StandsFor(rest[1..], tokens[2..], Plain(source), Bound(source, g, headers), m))
    decreases |tokens|, 0
  {
    hide IsOutput, IsDependency, Marker, Operand, Kept, SourcePath, Agrees, StandsFor;
    var b := tokens[1];
    assert tokens[1..][0] == b && tokens[1..][1..] == tokens[2..];
    FlagsDashed(b);
    if !Dashed(b) {
      var rest := Bind(tokens[2..], i + 2, g, headers).value;
      AgreesEmpty(m, rest.subst);
      ApartTail(tokens, 2, m);
      BindStands(tokens[2..], i + 2, source, g, headers, m);
      assert ([b] + rest.tokens)[1..] == rest.tokens;
    }
  }

  lemma {:induction false} FlagsDashed(a: string)
    ensures IsInclude(a) || StartsI(a) ==> Dashed(a)
  {}

  lemma {:induction false} BindRefuses(tokens: Tokens, i: nat, source: string, g: Group, headers: seq<string>)
    requires Bind(tokens, i, g, headers).None?
    ensures Rewrite(tokens, Bound(source, g, headers)).None?
    decreases |tokens|
  {
    hide IsOutput, IsDependency, Marker, Operand, Kept;
    var a := tokens[0];
    RolesApart(a);
    if IsInclude(a) {
      if |tokens| >= 2 && Operand(tokens[1], a, g, headers).Some? {
        BindRefuses(tokens[2..], i + 2, source, g, headers);
      }
    } else if !StartsI(a) || Operand(a[2..], "-I", g, headers).Some? {
      BindRefuses(tokens[1..], i + 1, source, g, headers);
      if RoleOf(a) == Output && |tokens| >= 2 && !Dashed(tokens[1]) {
        assert tokens[1..][0] == tokens[1] && tokens[1..][1..] == tokens[2..];
        FlagsDashed(tokens[1]);
        BindRefuses(tokens[2..], i + 2, source, g, headers);
      }
    }
  }

  // ---------- whole commands ----------

  lemma {:induction false} CountBound(tokens: Tokens, i: nat, g: Group, headers: seq<string>, x: string)
    requires Bind(tokens, i, g, headers).Some? && !StartsI(x)
    ensures Count(Bind(tokens, i, g, headers).value.tokens, x) == Count(Seen(tokens), x) + Borrowed(tokens, i, x)
    decreases |tokens|
  {
    hide IsInclude, Operand, Marker, Count;
    if tokens != [] {
      var a := tokens[0];
      if IsInclude(a) {
        var rest := Bind(tokens[2..], i + 2, g, headers).value;
        CountBound(tokens[2..], i + 2, g, headers, x);
        CountOne(Marker(i), x);
        CountTwo(a, Marker(i), x);
        CountConcat([a, Marker(i)], rest.tokens, x);
        CountConcat([a], Seen(tokens[2..]), x);
      } else {
        var rest := Bind(tokens[1..], i + 1, g, headers).value;
        CountBound(tokens[1..], i + 1, g, headers, x);
        CountOne("-I" + Marker(i), x);
        CountOne(a, x);
        CountConcat(["-I" + Marker(i)], rest.tokens, x);
        CountConcat([a], rest.tokens, x);
        CountConcat([a], Seen(tokens[1..]), x);
      }
    } else {
      CountEmpty(x);
    }
  }

  /** Only a path can be borrowed. */
  lemma {:induction false} NotBorrowed(tokens: Tokens, i: nat, x: string)
    requires x == "" || x[0] != '/'
    ensures Borrowed(tokens, i, x) == 0
  {
    hide IsInclude, Marker;
    if tokens != [] {
      MarkerShape(i);
      NotBorrowed(tokens[1..], i + 1, x);
      if |tokens| >= 2 {
        NotBorrowed(tokens[2..], i + 2, x);
      }
    }
  }

  /** Without a clash, a command that names a path never has that path borrowed. */
  lemma {:induction false} NamedNotBorrowed(tokens: Tokens, i: nat, x: string, argv: Tokens)
    requires x in argv && !Clashes(tokens, i, argv)
    ensures Borrowed(tokens, i, x) == 0
  {
    hide IsInclude, StartsI, Marker;
    if tokens != [] {
      if IsInclude(tokens[0]) {
        if |tokens| >= 2 {
          NamedNotBorrowed(tokens[2..], i + 2, x, argv);
        }
      } else {
        NamedNotBorrowed(tokens[1..], i + 1, x, argv);
      }
    }
  }

  lemma {:induction false} MarksPlain(i: nat)
    requires i < 5000
    ensures AllPlain([Marker(i)]) && AllPlain(["-I" + Marker(i)])
  {
    MarkChars();
    DecimalShort(i);
    PlainPath(Marker(i));
    PlainPath("-I" + Marker(i));
  }

  lemma {:induction false} PlainBound(tokens: Tokens, i: nat, g: Group, headers: seq<string>)
    requires Bind(tokens, i, g, headers).Some? && i + |tokens| < 5000
    ensures AllPlain(Bind(tokens, i, g, headers).value.tokens) <==> AllPlain(Seen(tokens))
    decreases |tokens|
  {
    hide IsInclude, Operand, Marker, AllPlain;
    if tokens != [] {
      var a := tokens[0];
      MarksPlain(i);
      if IsInclude(a) {
        var rest := Bind(tokens[2..], i + 2, g, headers).value;
        PlainBound(tokens[2..], i + 2, g, headers);
        PlainConcat([a, Marker(i)], rest.tokens);
        PlainConcat([a], [Marker(i)]);
        PlainConcat([a], Seen(tokens[2..]));
        assert [a, Marker(i)] == [a] + [Marker(i)];
      } else {
        var rest := Bind(tokens[1..], i + 1, g, headers).value;
        PlainBound(tokens[1..], i + 1, g, headers);
        PlainConcat(["-I" + Marker(i)], rest.tokens);
        PlainConcat([a], rest.tokens);
        PlainConcat([a], Seen(tokens[1..]));
      }
    }
  }

  lemma {:induction false} MarksLong(m: Subst, i: nat)
    requires MarksFrom(m, i)
    ensures forall k :: k in m ==> |k| > 34 && (if k[0] == '/' then k[6] == 's' else k[0] == '-' && k[1] == 'I')
  {
    hide Marker;
    forall k | k in m ensures |k| > 34 && (if k[0] == '/' then k[6] == 's' else k[0] == '-' && k[1] == 'I') {
      var j: nat :| i <= j && MarkAt(k, j);
      MarkerShape(j);
    }
  }

  lemma {:induction false} WholeAgrees(argv: Tokens, source: string, stem: string, g: Group, headers: seq<string>)
    requires argv != [] && !Clashes(argv[1..], 1, argv) && Bind(argv[1..], 1, g, headers).Some?
    ensures CommandOk([argv[0]] + Bind(argv[1..], 1, g, headers).value.tokens, source, stem)
            <==> Whole(argv, source, stem, Borrowed(argv[1..], 1, source))
  {
    hide Bind, Seen, Clashes, AllPlain, Compiler, SourcePath, StemOk, Count, Borrowed;
    var sw, seen := Bind(argv[1..], 1, g, headers).value, Seen(argv[1..]);
    BindMarks(argv[1..], 1, g, headers);
    CountBound(argv[1..], 1, g, headers, "-c");
    CountBound(argv[1..], 1, g, headers, "-o");
    NotBorrowed(argv[1..], 1, "-c");
    NotBorrowed(argv[1..], 1, "-o");
    HeadCounts(argv[0], sw.tokens, seen, "-c");
    HeadCounts(argv[0], sw.tokens, seen, "-o");
    if SourcePath(source) {
      SourceNotJoined(source);
      CountBound(argv[1..], 1, g, headers, source);
      HeadCounts(argv[0], sw.tokens, seen, source);
    }
    PlainMeans([argv[0]] + sw.tokens);
    PlainMeans([argv[0]] + seen);
    if |argv| <= 4096 {
      PlainBound(argv[1..], 1, g, headers);
      PlainConcat([argv[0]], sw.tokens);
      PlainConcat([argv[0]], seen);
    }
  }

  lemma {:induction false} SourceNotJoined(source: string)
    requires SourcePath(source)
    ensures source != "" && source[0] == '/' && !StartsI(source)
  {
    assert SOURCE[0] == '/';
  }

  lemma {:induction false} StemTop(stem: string)
    requires StemOk(stem)
    ensures |stem| > 6 && stem[0] == '/' && stem[6] == 'a'
  {
    var group :| group in ["baseline", "address", "undefined"] &&
      (var head := "/work/analysis/compiler-" + group + "/u"; head <= stem && Digits(stem[|head|..]));
    assert ("/work/analysis/compiler-" + group + "/u")[6] == 'a';
  }

  lemma {:induction false} RestoreEnds(head: string, kept: Tokens, stem: string, m: Subst)
    requires MarksFrom(m, 1) && StemOk(stem) && head !in m
    ensures Restore([head] + kept + Destinations(stem), m) == [head] + Restore(kept, m) + Destinations(stem)
  {
    hide StemOk, Restore;
    StemTop(stem);
    MarksLong(m, 1);
    RestoreConcat([head] + kept, Destinations(stem), m);
    RestoreConcat([head], kept, m);
    RestoreSame([head], m);
    forall t | t in Destinations(stem) ensures t !in m {
      assert t[0] == '/' ==> t[6] == 'a';
      assert t[0] == '-' ==> t[1] == 'o' || t[1] == 'M';
    }
    RestoreSame(Destinations(stem), m);
  }

  /** For every command: one in which a needed placeholder already stands is refused; any
      other is rewritten exactly as directly. */
  lemma {:induction false} MarkersAgree(argv: Tokens, source: string, stem: string, g: Group, headers: seq<string>)
    ensures ViaMarkers(argv, source, stem, g, headers) ==
              if argv == [] || Clashes(argv[1..], 1, argv) then None
              else Directly(argv, source, stem, g, headers, Borrowed(argv[1..], 1, source))
  {
    hide Bind, Clashes, CommandOk, Whole, Scan, Rewrite, Restore, Bound, Plain, Destinations, Agrees, HeadersOk, Borrowed, GroupStem;
    if HeadersOk(headers) && argv != [] && !Clashes(argv[1..], 1, argv) {
      var tail := argv[1..];
      if Bind(tail, 1, g, headers).None? {
        BindRefuses(tail, 1, source, g, headers);
      } else {
        var sw := Bind(tail, 1, g, headers).value;
        BindMarks(tail, 1, g, headers);
        ClashFree(tail, 1, g, headers, argv);
        SelfAgrees(sw.subst);
        BindStands(tail, 1, source, g, headers, sw.subst);
        SwapsBack(sw.tokens, tail, Plain(source), Bound(source, g, headers), sw.subst);
        ScanIsPlain(sw.tokens, source);
        WholeAgrees(argv, source, stem, g, headers);
        EndsAgree(argv, source, stem, g, headers, sw);
      }
    }
  }

  lemma {:induction false} EndsAgree(argv: Tokens, source: string, stem: string, g: Group, headers: seq<string>, sw: Swapped)
    requires argv != [] && HeadersOk(headers) && !Clashes(argv[1..], 1, argv) && Bind(argv[1..], 1, g, headers) == Some(sw)
    requires MarksFrom(sw.subst, 1) && argv[0] !in sw.subst
    requires RestoreAll(Scan(sw.tokens, source), sw.subst) == Rewrite(argv[1..], Bound(source, g, headers))
    requires CommandOk([argv[0]] + sw.tokens, source, stem) <==> Whole(argv, source, stem, Borrowed(argv[1..], 1, source))
    ensures ViaMarkers(argv, source, stem, g, headers) == Directly(argv, source, stem, g, headers, Borrowed(argv[1..], 1, source))
  {
    hide Bind, Clashes, Scan, Rewrite, Restore, Bound, Destinations, HeadersOk, MarksFrom, PlainText, Count, SourcePath, StemOk, Compiler, Seen, GroupStem, Borrowed;
    assert ([argv[0]] + sw.tokens)[1..] == sw.tokens;
    if Scan(sw.tokens, source).Some? && StemOk(stem) {
      RestoreEnds(argv[0], Scan(sw.tokens, source).value, stem, sw.subst);
    }
  }

  /** In a command that names its source, nothing is borrowed. */
  lemma {:induction false} NamedRewritten(argv: Tokens, source: string, stem: string, g: Group, headers: seq<string>)
    requires source in argv
    ensures ViaMarkers(argv, source, stem, g, headers) ==
              if Clashes(argv[1..], 1, argv) then None else Directly(argv, source, stem, g, headers, 0)
  {
    hide ViaMarkers, Directly, Clashes, Borrowed;
    MarkersAgree(argv, source, stem, g, headers);
    if !Clashes(argv[1..], 1, argv) {
      NamedNotBorrowed(argv[1..], 1, source, argv);
    }
  }

  /** Operands of an accepted command: sources, pinned directories, or the private
      snapshot of the same configuration; never a build tree. */
  predicate Private(path: string, g: Group) {
    && (InSource(path) || Pinned(path) || path == SnapshotRoot(g) || Under(SnapshotRoot(g), path))
    && OutsideBuilds(path)
  }

  /** Not in the build tree of any configuration. */
  predicate OutsideBuilds(path: string) {
    forall h: Group :: path != BuildRoot(h) && !Under(BuildRoot(h), path)
  }

  lemma {:induction false} OperandPrivate(value: string, flag: string, g: Group, headers: seq<string>)
    requires Operand(value, flag, g, headers).Some?
    ensures Private(Operand(value, flag, g, headers).value, g)
  {
    hide CleanOperand, CapturedBy, SourcePath, Pinned, BuildRoot, SnapshotRoot;
    var bound := Operand(value, flag, g, headers).value;
    forall h: Group ensures bound != BuildRoot(h) && !Under(BuildRoot(h), bound) {
      if InSource(value) {
        SourceTop(value);
        TopsDiffer(bound, h, 's');
      } else if Pinned(value) {
        PinnedOutside(bound, h);
      } else {
        SnapshotTop(bound, g);
        SnapshotNotBuild(bound, h);
      }
    }
  }

  lemma {:induction false} PinnedOutside(path: string, g: Group)
    requires Pinned(path)
    ensures path != BuildRoot(g) && !Under(BuildRoot(g), path)
  {
    PinnedTop(path);
    assert BuildRoot(g)[1] == 'w';
  }

  lemma {:induction false} PinnedTop(path: string)
    requires Pinned(path)
    ensures |path| > 1 && path[1] == 'u'
  {}

  lemma {:induction false} SnapshotTop(path: string, g: Group)
    requires path == SnapshotRoot(g) || Under(SnapshotRoot(g), path)
    ensures |path| > 7 && path[6] == 'a' && path[7] == 'n'
  {
    assert SnapshotRoot(g)[6] == 'a' && SnapshotRoot(g)[7] == 'n';
  }

  lemma {:induction false} SnapshotNotBuild(path: string, g: Group)
    requires |path| > 7 && path[6] == 'a' && path[7] == 'n'
    ensures path != BuildRoot(g) && !Under(BuildRoot(g), path)
  {
    assert BuildRoot(g)[7] == 'u' || BuildRoot(g)[7] == 'd' || BuildRoot(g)[7] == 'n';
    assert BuildRoot(g)[6] == 'b' || BuildRoot(g)[6] == 'a' || BuildRoot(g)[6] == 'u';
    assert BuildRoot(g)[6] == 'a' ==> BuildRoot(g)[7] == 'd';
  }

  lemma {:induction false} TopsDiffer(path: string, g: Group, c: char)
    requires |path| > 6 && path[6] == c && c == 's'
    ensures path != BuildRoot(g) && !Under(BuildRoot(g), path)
  {
    assert BuildRoot(g)[6] != 's';
  }
}
