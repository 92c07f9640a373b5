/** What the accepted commands of every route are confined to: the include directories
    they read, the files they write, and how often they name the analysed source. */
module CompilerConfinement {
  import opened Results
  import opened Text
  import opened CompilerAllowlist
  import opened CompilerRewrite
  import opened CompilerSyntax
  import opened CompilerCommands
  import opened CompilerGenerated
  import opened CompilerProject

  /** Read back token by token: every include operand lies where `ok` says, and nothing
      names an output or dependency file. */
  predicate Within(tokens: Tokens, ok: string -> bool) {
    tokens == [] ||
    (var a := tokens[0];
     && !IsOutput(a) && !IsDependency(a)
     && if IsInclude(a) then |tokens| >= 2 && ok(tokens[1]) && Within(tokens[2..], ok)
        else (StartsI(a) ==> ok(a[2..])) && Within(tokens[1..], ok))
  }

  /** How often an include operand names the file. */
  function AsInclude(tokens: Tokens, file: string): nat {
    if tokens == [] then 0
    else if IsOutput(tokens[0]) then if |tokens| < 2 then 0 else AsInclude(tokens[2..], file)
    else if tokens[0] != file && IsInclude(tokens[0]) then
      if |tokens| < 2 then 0 else (if tokens[1] == file then 1 else 0) + AsInclude(tokens[2..], file)
    else AsInclude(tokens[1..], file)
  }

  /** A policy that puts include operands where `ok` says and keeps options, "-c" and the
      source as they are. */
  ghost predicate Keeps(p: Policy, ok: string -> bool, source: string) {
    && (forall flag, value :: p.bind(flag, value).Some? ==> Rooted(value) && ok(p.bind(flag, value).value))
    && (forall path :: ok(path) ==> Rooted(path))
    && (forall a :: p.keep(a).Some? ==> p.keep(a).value == a && (a == source || OptionOk(a) || ExtraOption(a)))
    && p.keep("-c").Some? && p.keep(source).Some? && Rooted(source)
  }

  predicate Rooted(path: string) {
    path != "" && path[0] == '/'
  }

  /** A token the parser keeps for itself: "-c" or the source. */
  predicate Stands(x: string, source: string) {
    x == "-c" || x == source
  }

  lemma {:induction false} StandsRole(x: string, source: string)
    requires Stands(x, source) && Rooted(source)
    ensures RoleOf(x) == Other && !IsOutput(x) && !IsDependency(x) && !IsInclude(x) && !StartsI(x)
  {
    Slashed(source);
  }

  lemma {:induction false} RoleIs(a: string)
    ensures RoleOf(a) == Output <==> IsOutput(a)
    ensures RoleOf(a) == Dependency <==> IsDependency(a)
    ensures RoleOf(a) == Include <==> IsInclude(a)
    ensures RoleOf(a) == Joined <==> StartsI(a) && !IsInclude(a)
    ensures StartsI(a) ==> |a| >= 2
  {}

  lemma {:induction false} KeptRole(p: Policy, ok: string -> bool, source: string, a: string)
    requires Keeps(p, ok, source) && p.keep(a).Some?
    ensures p.keep(a).value == a && RoleOf(a) == Other
  {
    hide OptionOk, ExtraOption;
    if a == source {
      Slashed(a);
    } else {
      OptionDashed(a);
    }
  }

  lemma {:induction false} JoinedRooted(bound: string)
    requires Rooted(bound)
    ensures RoleOf("-I" + bound) == Joined && StartsI("-I" + bound) && !IsInclude("-I" + bound) && ("-I" + bound)[2..] == bound
  {
    assert ("-I" + bound)[2] == '/';
  }

  lemma {:induction false} KeptWithin(tokens: Tokens, p: Policy, ok: string -> bool, source: string)
    requires Keeps(p, ok, source) && Rewrite(tokens, p).Some?
    ensures Within(Rewrite(tokens, p).value, ok)
    decreases |tokens|
  {
    hide IsOutput, IsInclude, IsDependency, StartsI, OptionOk, ExtraOption;
    if tokens != [] {
      var a := tokens[0];
      RoleIs(a);
      match RoleOf(a)
      case Output => KeptWithin(tokens[2..], p, ok, source);
      case Dependency => KeptWithin(tokens[1..], p, ok, source);
      case Include =>
        KeptWithin(tokens[2..], p, ok, source);
        assert ([a, p.bind(a, tokens[1]).value] + Rewrite(tokens[2..], p).value)[2..] == Rewrite(tokens[2..], p).value;
      case Joined =>
        KeptWithin(tokens[1..], p, ok, source);
        var bound := p.bind("-I", a[2..]).value;
        JoinedRooted(bound);
        RoleIs("-I" + bound);
        assert (["-I" + bound] + Rewrite(tokens[1..], p).value)[1..] == Rewrite(tokens[1..], p).value;
      case Other =>
        KeptWithin(tokens[1..], p, ok, source);
        KeptRole(p, ok, source, a);
        assert ([a] + Rewrite(tokens[1..], p).value)[1..] == Rewrite(tokens[1..], p).value;
    }
  }

  /** What stands alone keeps standing alone. */
  lemma {:induction false} KeptAlone(tokens: Tokens, p: Policy, ok: string -> bool, source: string, x: string)
    requires Keeps(p, ok, source) && Stands(x, source) && Rewrite(tokens, p).Some?
    ensures Alone(Rewrite(tokens, p).value, x) == Alone(tokens, x)
    decreases |tokens|
  {
    hide IsOutput, IsInclude, IsDependency, StartsI, OptionOk, ExtraOption;
    if tokens != [] {
      var a := tokens[0];
      RoleIs(a);
      StandsRole(x, source);
      match RoleOf(a)
      case Output => KeptAlone(tokens[2..], p, ok, source, x);
      case Dependency => KeptAlone(tokens[1..], p, ok, source, x);
      case Include =>
        KeptAlone(tokens[2..], p, ok, source, x);
        assert ([a, p.bind(a, tokens[1]).value] + Rewrite(tokens[2..], p).value)[2..] == Rewrite(tokens[2..], p).value;
      case Joined =>
        KeptAlone(tokens[1..], p, ok, source, x);
        var bound := p.bind("-I", a[2..]).value;
        JoinedRooted(bound);
        RoleIs("-I" + bound);
        assert (["-I" + bound] + Rewrite(tokens[1..], p).value)[1..] == Rewrite(tokens[1..], p).value;
      case Other =>
        KeptAlone(tokens[1..], p, ok, source, x);
        KeptRole(p, ok, source, a);
        assert ([a] + Rewrite(tokens[1..], p).value)[1..] == Rewrite(tokens[1..], p).value;
    }
  }

  /** Nothing but "-c" standing alone is "-c" in a confined tail. */
  lemma {:induction false} WithinCompiles(kept: Tokens, ok: string -> bool)
    requires Within(kept, ok) && forall path :: ok(path) ==> Rooted(path)
    ensures Count(kept, "-c") == Alone(kept, "-c")
    decreases |kept|
  {
    hide IsOutput, IsInclude, IsDependency, StartsI, Count;
    CountEmpty("-c");
    if kept != [] {
      var a := kept[0];
      CountOne(a, "-c");
      if IsInclude(a) {
        WithinCompiles(kept[2..], ok);
        CompileIsOther();
        CountTwo(a, kept[1], "-c");
        CountOne(kept[1], "-c");
        CountConcat([a, kept[1]], kept[2..], "-c");
        assert kept == [a, kept[1]] + kept[2..];
      } else {
        WithinCompiles(kept[1..], ok);
        CountConcat([a], kept[1..], "-c");
        assert kept == [a] + kept[1..];
      }
    }
  }

  lemma {:induction false} CompileIsOther()
    ensures RoleOf("-c") == Other && !IsInclude("-c") && !IsOutput("-c") && !StartsI("-c")
  {}

  /** In an accepted command every mention of the source or of "-c" stands alone or is an
      operand. */
  lemma {:induction false} EveryMention(tokens: Tokens, p: Policy, ok: string -> bool, source: string, x: string)
    requires Keeps(p, ok, source) && Stands(x, source) && Rewrite(tokens, p).Some?
    ensures Count(tokens, x) == Alone(tokens, x) + AsOperand(tokens, x) + AsInclude(tokens, x)
    decreases |tokens|
  {
    hide IsOutput, IsInclude, IsDependency, StartsI, OptionOk, ExtraOption, Count, Keeps;
    CountEmpty(x);
    if tokens != [] {
      var a := tokens[0];
      KeepsRooted(p, ok, source);
      RoleIs(a);
      StandsRole(x, source);
      CountOne(a, x);
      if RoleOf(a) == Output || RoleOf(a) == Include {
        EveryMention(tokens[2..], p, ok, source, x);
        CountOne(tokens[1], x);
        CountTwo(a, tokens[1], x);
        assert tokens == [a, tokens[1]] + tokens[2..];
        CountConcat([a, tokens[1]], tokens[2..], x);
      } else {
        EveryMention(tokens[1..], p, ok, source, x);
        assert tokens == [a] + tokens[1..];
        CountConcat([a], tokens[1..], x);
      }
    }
  }

  /** What the whole-command checks count: everything but include operands. */
  lemma {:induction false} SeenMention(tokens: Tokens, p: Policy, ok: string -> bool, source: string, x: string)
    requires Keeps(p, ok, source) && Stands(x, source) && Rewrite(tokens, p).Some?
    ensures Count(Seen(tokens), x) == Alone(tokens, x) + AsOperand(tokens, x)
    decreases |tokens|
  {
    hide IsOutput, IsInclude, IsDependency, StartsI, OptionOk, ExtraOption, Count, Keeps;
    CountEmpty(x);
    if tokens != [] {
      var a := tokens[0];
      KeepsRooted(p, ok, source);
      RoleIs(a);
      StandsRole(x, source);
      CountOne(a, x);
      if RoleOf(a) == Output {
        SeenMention(tokens[2..], p, ok, source, x);
        CountOne(tokens[1], x);
        CountTwo(a, tokens[1], x);
        SeenOutput(tokens);
        CountConcat([a, tokens[1]], Seen(tokens[2..]), x);
      } else if RoleOf(a) == Include {
        SeenMention(tokens[2..], p, ok, source, x);
        CountConcat([a], Seen(tokens[2..]), x);
      } else {
        SeenMention(tokens[1..], p, ok, source, x);
        CountConcat([a], Seen(tokens[1..]), x);
      }
    }
  }

  /** No operand of an accepted command is "-c". */
  lemma {:induction false} CompileIsNoOperand(tokens: Tokens, p: Policy, ok: string -> bool, source: string)
    requires Keeps(p, ok, source) && Rewrite(tokens, p).Some?
    ensures AsOperand(tokens, "-c") == AsInclude(tokens, "-c") == 0
    decreases |tokens|
  {
    hide IsOutput, IsInclude, IsDependency, StartsI, OptionOk, ExtraOption;
    if tokens != [] {
      RoleIs(tokens[0]);
      CompileIsOther();
      if RoleOf(tokens[0]) == Output || RoleOf(tokens[0]) == Include {
        CompileIsNoOperand(tokens[2..], p, ok, source);
      } else {
        CompileIsNoOperand(tokens[1..], p, ok, source);
      }
    }
  }

  /** The whole-command checks see an output operand as a token of its own. */
  lemma {:induction false} SeenOutput(tokens: Tokens)
    requires |tokens| >= 2 && IsOutput(tokens[0]) && !Dashed(tokens[1])
    ensures Seen(tokens) == [tokens[0], tokens[1]] + Seen(tokens[2..])
  {
    hide IsOutput, IsInclude;
    OutputIsNoInclude(tokens[0]);
    FlagsDashed(tokens[1]);
    assert tokens[1..][0] == tokens[1] && tokens[1..][1..] == tokens[2..];
  }

  lemma {:induction false} OutputIsNoInclude(a: string)
    requires IsOutput(a)
    ensures !IsInclude(a) && !StartsI(a)
  {}

  // ---------- the three policies ----------

  lemma {:induction false} PrivateRooted(path: string, g: Group)
    requires Private(path, g)
    ensures Rooted(path)
  {
    hide OutsideBuilds;
    assert SOURCE[0] == '/' && SnapshotRoot(g)[0] == '/';
  }

  lemma {:induction false} OperandRooted(value: string, flag: string, g: Group, headers: seq<string>)
    ensures Operand(value, flag, g, headers).Some? ==> Rooted(value)
  {}

  lemma {:induction false} ReviewedKeeps(source: string, g: Group, headers: seq<string>)
    requires Rooted(source)
    ensures Keeps(Reviewed(source, g, headers), path => Private(path, g), source)
    ensures Keeps(Bound(source, g, headers), path => Private(path, g), source)
  {
    hide Operand, OptionOk, ProjectOption, ExtraOption, Private;
    CompileIsPlain();
    Slashed(source);
    forall flag, value | Operand(value, flag, g, headers).Some? ensures Rooted(value) && Private(Operand(value, flag, g, headers).value, g) {
      OperandRooted(value, flag, g, headers);
      OperandPrivate(value, flag, g, headers);
    }
    forall path | Private(path, g) ensures Rooted(path) {
      PrivateRooted(path, g);
    }
    forall a | ProjectOption(a) ensures ExtraOption(a) {
      OptionRole(a);
    }
  }

  lemma {:induction false} PlainKeeps(source: string)
    requires Rooted(source)
    ensures Keeps(Plain(source), path => InSource(path), source)
  {
    hide OptionOk, ExtraOption;
    CompileIsPlain();
    Slashed(source);
    assert SOURCE[0] == '/';
  }

  // ---------- accepted commands ----------

  /** The compiler, a confined tail that compiles once, and the analyst's destinations. */
  ghost predicate Analysed(argv: Tokens, result: Tokens, kept: Tokens, stem: string, ok: string -> bool) {
    && argv != [] && result == [argv[0]] + kept + Destinations(stem)
    && Within(kept, ok) && Count(kept, "-c") == 1
  }

  lemma {:induction false} TailConfined(argv: Tokens, p: Policy, ok: string -> bool, source: string)
    requires argv != [] && Compiler(argv[0]) && Keeps(p, ok, source) && Rewrite(argv[1..], p).Some?
    ensures var kept, seen := Rewrite(argv[1..], p).value, [argv[0]] + Seen(argv[1..]);
            && Within(kept, ok)
            && Count(kept, "-c") == Count(seen, "-c") == Count(argv, "-c")
            && Alone(kept, source) == Alone(argv[1..], source)
            && (source != argv[0] ==>
                 Count(seen, source) == Alone(kept, source) + AsOperand(argv[1..], source)
                 && Count(argv, source) == Count(seen, source) + AsInclude(argv[1..], source))
  {
    hide Rewrite, Seen, Alone, AsOperand, AsInclude, Within, Count, Keeps;
    var tail := argv[1..];
    assert argv == [argv[0]] + tail;
    assert Rooted(source) && Stands("-c", source) && Stands(source, source) by {
      KeepsRooted(p, ok, source);
    }
    KeptWithin(tail, p, ok, source);
    KeptAlone(tail, p, ok, source, source);
    KeptAlone(tail, p, ok, source, "-c");
    KeepsRooted(p, ok, source);
    WithinCompiles(Rewrite(tail, p).value, ok);
    EveryMention(tail, p, ok, source, source);
    EveryMention(tail, p, ok, source, "-c");
    SeenMention(tail, p, ok, source, source);
    SeenMention(tail, p, ok, source, "-c");
    CompileIsNoOperand(tail, p, ok, source);
    CountConcat([argv[0]], tail, "-c");
    CountConcat([argv[0]], Seen(tail), "-c");
    CountConcat([argv[0]], tail, source);
    CountConcat([argv[0]], Seen(tail), source);
    CountOne(argv[0], "-c");
    CountOne(argv[0], source);
  }

  lemma {:induction false} KeepsRooted(p: Policy, ok: string -> bool, source: string)
    requires Keeps(p, ok, source)
    ensures Rooted(source) && forall path :: ok(path) ==> Rooted(path)
  {}

  lemma {:induction false} CompilerNotSource(a: string, source: string)
    requires Compiler(a) && SourcePath(source)
    ensures a != source && Rooted(source)
  {
    SourceTop(source);
    assert a[1] == 'u' && SOURCE[0] == '/' && SOURCE[1] == 'w';
  }

  /** One row of a database. The source stands once in the result exactly when the row
      names it outside its output and dependency operands. */
  lemma {:induction false} RowConfined(argv: Tokens, p: Policy, source: string, stem: string, g: Group, borrowed: nat)
    requires argv != [] && Whole(argv, source, stem, borrowed) && Keeps(p, path => Private(path, g), source) && Rewrite(argv[1..], p).Some?
    requires source in argv ==> borrowed == 0
    ensures var kept := Rewrite(argv[1..], p).value;
            && Analysed(argv, [argv[0]] + kept + Destinations(stem), kept, stem, path => Private(path, g))
            && (Alone(kept, source) == 1 <==> source in argv && AsOperand(argv[1..], source) == 0)
  {
    hide Rewrite, Seen, Alone, AsOperand, AsInclude, Within, Keeps, Private, Compiler, SourcePath, StemOk, PlainText;
    CompilerNotSource(argv[0], source);
    TailConfined(argv, p, path => Private(path, g), source);
  }

  /** Every accepted command of a project with generated headers, include operands bound:
      it reads sources, pinned directories and the private snapshot only, compiles once
      and writes analyst files only. */
  lemma {:induction false} GeneratedIsConfined(argv: Tokens, source: string, stem: string, g: Group, headers: seq<string>)
    requires ViaMarkers(argv, source, stem, g, headers).Some?
    ensures argv != [] && Rewrite(argv[1..], Bound(source, g, headers)).Some?
    ensures var kept := Rewrite(argv[1..], Bound(source, g, headers)).value;
            && Analysed(argv, ViaMarkers(argv, source, stem, g, headers).value, kept, stem, path => Private(path, g))
            && (Alone(kept, source) == 1 <==> source in argv && AsOperand(argv[1..], source) == 0)
  {
    hide Rewrite, Whole, Alone, AsOperand, Analysed, Keeps, Private, Borrowed, Clashes, ViaMarkers, Bound, Destinations, HeadersOk, GroupStem;
    MarkersAgree(argv, source, stem, g, headers);
    WholeRooted(argv, source, stem, Borrowed(argv[1..], 1, source));
    ReviewedKeeps(source, g, headers);
    if source in argv {
      NamedNotBorrowed(argv[1..], 1, source, argv);
    }
    RowConfined(argv, Bound(source, g, headers), source, stem, g, Borrowed(argv[1..], 1, source));
  }

  lemma {:induction false} WholeRooted(argv: Tokens, source: string, stem: string, borrowed: nat)
    requires argv != [] && Whole(argv, source, stem, borrowed)
    ensures Rooted(source)
  {
    hide Seen, Count, PlainText, StemOk, Compiler;
    SourceNotJoined(source);
  }

  /** The same of every row of a database with reviewed options. */
  lemma {:induction false} OptionsAreConfined(rows: seq<Tokens>, row: nat, source: string, stem: string, g: Group, headers: seq<string>)
    requires row < |rows| && |Decimal(row)| <= 4000 && ViaOptions(rows, row, source, stem, g, headers).Some?
    ensures rows[row] != [] && Rewrite(rows[row][1..], Reviewed(source, g, headers)).Some?
    ensures var argv := rows[row];
            var kept := Rewrite(argv[1..], Reviewed(source, g, headers)).value;
            && Analysed(argv, ViaOptions(rows, row, source, stem, g, headers).value, kept, stem, path => Private(path, g))
            && (Alone(kept, source) == 1 <==> source in argv && AsOperand(argv[1..], source) == 0)
  {
    hide Rewrite, Whole, Alone, AsOperand, Analysed, Keeps, Private, Borrowed, Clashes, ViaOptions, Reviewed, Destinations, HeadersOk, GroupStem, Contains;
    var argv := rows[row];
    OptionsAgree(rows, row, source, stem, g, headers);
    WholeRooted(argv, source, stem, Borrowed(argv[1..], 1, source));
    ReviewedKeeps(source, g, headers);
    if source in argv {
      NamedNotBorrowed(argv[1..], 1, source, argv);
    }
    RowConfined(argv, Reviewed(source, g, headers), source, stem, g, Borrowed(argv[1..], 1, source));
  }

  /** The allowlist by itself: accepted commands read sources only, and the source stands
      once exactly when no output, dependency or include operand names it. */
  lemma {:induction false} AllowedIsConfined(argv: Tokens, source: string, stem: string)
    requires SafeCompile(argv, source, stem).Some?
    ensures argv != [] && Scan(argv[1..], source).Some?
    ensures var kept := Scan(argv[1..], source).value;
            && Analysed(argv, SafeCompile(argv, source, stem).value, kept, stem, path => InSource(path))
            && (Alone(kept, source) == 1 <==> AsOperand(argv[1..], source) == 0 && AsInclude(argv[1..], source) == 0)
  {
    hide Rewrite, Scan, Seen, Alone, AsOperand, AsInclude, Within, Keeps, InSource, Compiler, SourcePath, StemOk, PlainText, Plain, Destinations;
    CompilerNotSource(argv[0], source);
    PlainKeeps(source);
    ScanIsPlain(argv[1..], source);
    TailConfined(argv, Plain(source), path => InSource(path), source);
  }

  // ---------- names that are not there ----------

  /** An include operand can be the only mention: this command is accepted although
      nothing but "-include" names its source. */
  lemma {:induction false} OnlyIncluded()
    ensures var source, stem := TREE + "a.cpp", Stem(Context("a.cpp", false, 0, []));
            var argv := ["/usr/local/bin/gcc", "-c", "-include", source, "-o", "x.o"];
            && SafeCompile(argv, source, stem) == Some(["/usr/local/bin/gcc", "-c", "-include", source] + Destinations(stem))
            && AsOperand(argv[1..], source) == 0 && AsInclude(argv[1..], source) == 1
            && Alone(["-c", "-include", source], source) == 0
  {
    hide CommandOk, Destinations, Stem, Scan, AsOperand, AsInclude, Alone;
    var source, stem := TREE + "a.cpp", Stem(Context("a.cpp", false, 0, []));
    var argv := ["/usr/local/bin/gcc", "-c", "-include", source, "-o", "x.o"];
    MarkerParts("a.cpp");
    SourceNotJoined(source);
    IncludedCommand(source);
    IncludedScan(source);
    IncludedCounts(source);
    assert argv[1..] == ["-c", "-include", source, "-o", "x.o"];
    assert [argv[0]] + ["-c", "-include", source] == ["/usr/local/bin/gcc", "-c", "-include", source];
  }

  lemma {:induction false} IncludedCommand(source: string)
    requires source == TREE + "a.cpp"
    ensures CommandOk(["/usr/local/bin/gcc", "-c", "-include", source, "-o", "x.o"], source, Stem(Context("a.cpp", false, 0, [])))
  {
    hide Stem, StemOk, Count, SourcePath, PlainText;
    MarkerParts("a.cpp");
    StemFits(Context("a.cpp", false, 0, []));
    PlainPath(source);
    PlainPath("/usr/local/bin/gcc");
    PlainPath("-c");
    PlainPath("-include");
    PlainPath("-o");
    PlainPath("x.o");
    assert source[1] == 'w' && "/usr/local/bin/gcc"[1] == 'u';
    CountSix("/usr/local/bin/gcc", "-c", "-include", source, "-o", "x.o", "-c");
    CountSix("/usr/local/bin/gcc", "-c", "-include", source, "-o", "x.o", "-o");
    CountSix("/usr/local/bin/gcc", "-c", "-include", source, "-o", "x.o", source);
  }

  lemma {:induction false} CountSix(a: string, b: string, d: string, e: string, f: string, h: string, x: string)
    ensures Count([a, b, d, e, f, h], x) == (if a == x then 1 else 0) + (if b == x then 1 else 0) + (if d == x then 1 else 0)
                                            + (if e == x then 1 else 0) + (if f == x then 1 else 0) + (if h == x then 1 else 0)
  {
    assert [a, b, d, e, f, h] == [a, b, d, e] + [f, h];
    CountConcat([a, b, d, e], [f, h], x);
    CountFour(a, b, d, e, x);
    CountTwo(f, h, x);
    CountOne(f, x);
    CountOne(h, x);
  }

  lemma {:induction false} IncludedScan(source: string)
    requires Rooted(source) && InSource(source)
    ensures Scan(["-c", "-include", source, "-o", "x.o"], source) == Some(["-c", "-include", source])
  {
    hide OptionOk, SourcePath;
    CompileIsPlain();
    assert ["-c", "-include", source, "-o", "x.o"][1..] == ["-include", source, "-o", "x.o"];
    assert ["-include", source, "-o", "x.o"][2..] == ["-o", "x.o"];
    assert ["-o", "x.o"][2..] == [];
    assert Scan([], source) == Some([]);
    assert Scan(["-o", "x.o"], source) == Some([]);
    assert RoleOf("-include") == Include && ["-include", source] + [] == ["-include", source];
    assert Scan(["-include", source, "-o", "x.o"], source) == Some(["-include", source]);
    assert RoleOf("-c") == Other && Kept("-c", source);
    assert ["-c"] + ["-include", source] == ["-c", "-include", source];
  }

  lemma {:induction false} IncludedCounts(source: string)
    requires Rooted(source)
    ensures var tail := ["-c", "-include", source, "-o", "x.o"];
            AsOperand(tail, source) == 0 && AsInclude(tail, source) == 1
    ensures Alone(["-c", "-include", source], source) == 0
  {
    var tail := ["-c", "-include", source, "-o", "x.o"];
    assert tail[1..] == ["-include", source, "-o", "x.o"];
    assert tail[1..][2..] == ["-o", "x.o"];
    assert ["-o", "x.o"][2..] == [];
    assert source != "x.o";
    assert AsOperand(["-o", "x.o"], source) == 0 && AsInclude(["-o", "x.o"], source) == 0;
    assert AsOperand(tail[1..], source) == 0 && AsInclude(tail[1..], source) == 1;
    assert ["-c", "-include", source][1..] == ["-include", source] && ["-include", source][2..] == [];
    assert Alone([], source) == 0;
    assert Alone(["-include", source], source) == 0;
  }

  /** A source with a dot in its name is never borrowed. */
  lemma {:induction false} DottedNotBorrowed(tokens: Tokens, i: nat, source: string)
    requires '.' in source
    ensures Borrowed(tokens, i, source) == 0
  {
    hide IsInclude, Marker;
    if tokens != [] {
      MarkerDotless(i);
      DottedNotBorrowed(tokens[1..], i + 1, source);
      if |tokens| >= 2 {
        DottedNotBorrowed(tokens[2..], i + 2, source);
      }
    }
  }

  lemma {:induction false} MarkerDotless(i: nat)
    ensures '.' !in Marker(i)
  {
    MarkChars();
    forall k | 0 <= k < |Marker(i)| ensures Marker(i)[k] != '.' {
      if k >= 34 {
        assert Marker(i)[k] == Decimal(i)[k - 34];
      } else if k >= 13 {
        assert Marker(i)[k] == MARK[k - 13];
      } else {
        assert Marker(i)[k] == TREE[k];
      }
    }
  }

  /** A source spelled like a placeholder can be borrowed: this command never names it,
      and is accepted without it. */
  lemma {:induction false} BorrowedStandsIn(headers: seq<string>)
    requires HeadersOk(headers)
    ensures var source, stem := Marker(1), Stem(Context("a.cpp", false, 0, []));
            var argv := ["/usr/local/bin/gcc", "-I", SOURCE, "-c", "-o", "x.o"];
            && source !in argv
            && ViaMarkers(argv, source, stem, Baseline, headers) == Some(["/usr/local/bin/gcc", "-I", SOURCE, "-c"] + Destinations(stem))
  {
    hide HeadersOk, Marker, Destinations, Stem, Clashes, Bound, Borrowed, Whole, GroupStem;
    var source, stem := Marker(1), Stem(Context("a.cpp", false, 0, []));
    var argv := ["/usr/local/bin/gcc", "-I", SOURCE, "-c", "-o", "x.o"];
    MarkerShape(1);
    BorrowedStem();
    GroupStemOk(Baseline, stem);
    BorrowedTail(argv, source);
    BorrowedWhole(argv, source, stem);
    BorrowedRewrite(source, headers);
    MarkersAgree(argv, source, stem, Baseline, headers);
    assert argv[1..] == ["-I", SOURCE, "-c", "-o", "x.o"];
    assert [argv[0]] + ["-I", SOURCE, "-c"] == ["/usr/local/bin/gcc", "-I", SOURCE, "-c"];
  }

  lemma {:induction false} BorrowedStem()
    ensures GroupStem(Baseline, Stem(Context("a.cpp", false, 0, [])))
  {
    var c := Context("a.cpp", false, 0, []);
    var head := "/work/analysis/compiler-" + "baseline" + "/u";
    assert Stem(c)[|head|..] == Decimal(0);
  }

  lemma {:induction false} BorrowedTail(argv: Tokens, source: string)
    requires source == Marker(1) && argv == ["/usr/local/bin/gcc", "-I", SOURCE, "-c", "-o", "x.o"]
    ensures source !in argv && "-I" + source !in argv && !Clashes(argv[1..], 1, argv) && Borrowed(argv[1..], 1, source) == 1
    ensures Seen(argv[1..]) == ["-I", "-c", "-o", "x.o"]
  {
    hide Marker;
    MarkerShape(1);
    var tail := argv[1..];
    assert tail == ["-I", SOURCE, "-c", "-o", "x.o"];
    assert tail[2..] == ["-c", "-o", "x.o"];
    assert tail[2..][1..] == ["-o", "x.o"];
    assert ["-o", "x.o"][1..] == ["x.o"] && ["x.o"][1..] == [];
    assert |SOURCE| == 12;
    assert Seen([]) == [] && Seen(["x.o"]) == ["x.o"];
    assert Seen(["-o", "x.o"]) == ["-o", "x.o"];
    assert Seen(["-c", "-o", "x.o"]) == ["-c", "-o", "x.o"];
    assert !Clashes([], 6, argv) && !Clashes(["x.o"], 5, argv);
    assert !Clashes(["-o", "x.o"], 4, argv);
    assert !Clashes(["-c", "-o", "x.o"], 3, argv);
    assert Borrowed([], 6, source) == 0 && Borrowed(["x.o"], 5, source) == 0;
    assert Borrowed(["-o", "x.o"], 4, source) == 0;
    assert Borrowed(["-c", "-o", "x.o"], 3, source) == 0;
  }

  lemma {:induction false} BorrowedWhole(argv: Tokens, source: string, stem: string)
    requires argv == ["/usr/local/bin/gcc", "-I", SOURCE, "-c", "-o", "x.o"] && source == Marker(1) && source !in argv && StemOk(stem)
    requires Seen(argv[1..]) == ["-I", "-c", "-o", "x.o"]
    ensures Whole(argv, source, stem, 1)
  {
    hide Marker, StemOk, Count, PlainText, SourcePath, Seen;
    var seen := ["/usr/local/bin/gcc", "-I", "-c", "-o", "x.o"];
    assert [argv[0]] + Seen(argv[1..]) == seen;
    MarkerInSource(1);
    PlainPath("/usr/local/bin/gcc");
    PlainPath("-I");
    PlainPath("-c");
    PlainPath("-o");
    PlainPath("x.o");
    assert seen == ["/usr/local/bin/gcc", "-I", "-c", "-o"] + ["x.o"];
    forall x ensures Count(seen, x) == (if x in seen then 1 else 0) {
      CountConcat(["/usr/local/bin/gcc", "-I", "-c", "-o"], ["x.o"], x);
      CountFour("/usr/local/bin/gcc", "-I", "-c", "-o", x);
      CountOne("x.o", x);
    }
    assert source !in seen;
  }

  lemma {:induction false} BorrowedRewrite(source: string, headers: seq<string>)
    requires source == Marker(1)
    ensures Rewrite(["-I", SOURCE, "-c", "-o", "x.o"], Bound(source, Baseline, headers)) == Some(["-I", SOURCE, "-c"])
  {
    hide Marker, Operand, Kept, SOURCE;
    var p := Bound(source, Baseline, headers);
    CompileKept(source);
    SourceOperand(headers);
    assert ["-I", SOURCE, "-c", "-o", "x.o"][2..] == ["-c", "-o", "x.o"];
    assert ["-c", "-o", "x.o"][1..] == ["-o", "x.o"] && ["-o", "x.o"][2..] == [];
    assert Rewrite([], p) == Some([]);
    assert Rewrite(["-o", "x.o"], p) == Some([]);
    assert ["-c"] + [] == ["-c"] && ["-I", SOURCE] + ["-c"] == ["-I", SOURCE, "-c"];
    assert Rewrite(["-c", "-o", "x.o"], p) == Some(["-c"]);
    assert p.bind("-I", SOURCE) == Some(SOURCE);
  }

  lemma {:induction false} CompileKept(source: string)
    ensures Kept("-c", source) && RoleOf("-c") == Other
  {
    hide OptionOk;
    CompileIsPlain();
  }

  lemma {:induction false} SourceOperand(headers: seq<string>)
    ensures Operand(SOURCE, "-I", Baseline, headers) == Some(SOURCE)
  {
    hide Pinned, SourcePath, CapturedBy, CleanOperand;
    SourceIsClean();
  }

  lemma {:induction false} SourceIsClean()
    ensures CleanOperand(SOURCE)
  {
    hide Split;
    SourceSplits();
    assert Split(SOURCE)[1..] == ["work", "source"];
  }

  lemma {:induction false} SourceSplits()
    ensures Split(SOURCE) == ["", "work", "source"]
  {
    hide Split;
    assert SOURCE == "" + "/" + ("work" + "/" + "source");
    SplitJoin("", "work" + "/" + "source");
    SplitJoin("work", "source");
    SplitOne("");
    SplitOne("work");
    SplitOne("source");
    assert [""] + (["work"] + ["source"]) == ["", "work", "source"];
  }
}
