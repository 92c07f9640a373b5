/** Whole syntax-check commands: the placeholder route equals the direct rewrite, and
    what every accepted command is confined to. */
module CompilerCommands {
  import opened Results
  import opened Text
  import opened CompilerAllowlist
  import opened CompilerRewrite
  import opened CompilerSyntax

  // ---------- the two routes ----------

  function Framed(restored: Tokens): Tokens
    requires restored != []
  {
    [restored[0], IDENTITY] + restored[1..] + ["-fsyntax-only"]
  }

  predicate Supported(c: Context, files: set<string>) {
    Clean(c.arguments) && (c.generated ==> c.path in files) && c.arguments != []
  }

  /** Swap, run the allowlist, swap back, frame. */
  function ViaPlaceholders(c: Context, files: set<string>): Option<Tokens> {
    if !Supported(c, files) then None
    else
      match Swap(c.arguments[1..], 1, c, files)
      case None => None
      case Some(swapped) =>
        match SafeCompile([c.arguments[0]] + swapped.tokens, Allowed(c), Stem(c))
        case None => None
        case Some(safe) => if safe == [] then None else Some(Framed(Restore(safe, swapped.subst)))
  }

  /** What the checks on the whole command see: everything except include operands,
      reviewed options and, for a generated context, the file itself. */
  function Visible(tokens: Tokens, c: Context): Tokens {
    if tokens == [] then []
    else
      var a := tokens[0];
      if IsOutput(a) then if |tokens| < 2 then [a] else [a, tokens[1]] + Visible(tokens[2..], c)
      else if a == File(c) then (if c.generated then [] else [a]) + Visible(tokens[1..], c)
      else if IsInclude(a) then if |tokens| < 2 then [a] else [a] + Visible(tokens[2..], c)
      else if StartsI(a) || ExtraOption(a) then Visible(tokens[1..], c)
      else [a] + Visible(tokens[1..], c)
  }

  /** How often `file` stands alone, not as some option's operand. */
  function Alone(tokens: Tokens, file: string): nat {
    if tokens == [] then 0
    else if IsOutput(tokens[0]) || (tokens[0] != file && IsInclude(tokens[0])) then
      if |tokens| < 2 then 0 else Alone(tokens[2..], file)
    else (if tokens[0] == file then 1 else 0) + Alone(tokens[1..], file)
  }

  predicate AllPlain(tokens: Tokens) {
    forall i :: 0 <= i < |tokens| ==> PlainText(tokens[i])
  }

  predicate Acceptable(c: Context)
    requires c.arguments != []
  {
    var argv := c.arguments;
    var seen := [argv[0]] + Visible(argv[1..], c);
    && |argv| <= 4096 && AllPlain(seen) && Compiler(argv[0]) && (c.generated || SourcePath(File(c)))
    && Count(seen, "-c") == 1 && Count(seen, "-o") == 1
    && (if c.generated then Alone(argv[1..], File(c)) == 1 else Count(seen, File(c)) == 1)
  }

  /** The direct route: no placeholders. */
  function Direct(c: Context, files: set<string>): Option<Tokens> {
    if !Supported(c, files) || !Acceptable(c) then None
    else
      match Rewrite(c.arguments[1..], Wanted(c, files))
      case None => None
      case Some(kept) => Some([c.arguments[0], IDENTITY] + kept + Destinations(Stem(c)) + ["-fsyntax-only"])
  }

  // ---------- whole-command checks ----------

  lemma {:induction false} CountConcat(a: Tokens, b: Tokens, x: string)
    ensures Count(a + b, x) == Count(a, x) + Count(b, x)
  {
    if a == [] {
      assert a + b == b;
    } else {
      assert (a + b)[1..] == a[1..] + b;
      CountConcat(a[1..], b, x);
    }
  }

  lemma {:induction false} CountOne(a: string, x: string)
    ensures Count([a], x) == if a == x then 1 else 0
  {}

  lemma {:induction false} CountTwo(a: string, b: string, x: string)
    ensures Count([a, b], x) == Count([a], x) + Count([b], x)
  {
    assert [a, b] == [a] + [b];
    CountConcat([a], [b], x);
  }

  /** A token no placeholder equals is counted the same before and after swapping. */
  lemma {:induction false} CountSwapped(tokens: Tokens, i: nat, c: Context, files: set<string>, x: string)
    requires Swap(tokens, i, c, files).Some? && x != PLACEHOLDER && forall j: nat :: !KeyAt(x, j)
    ensures Count(Swap(tokens, i, c, files).value.tokens, x) == Count(Visible(tokens, c), x)
    decreases |tokens|
  {
    hide IsOutput, IsInclude, StartsI, ExtraOption, Bind, IncludeMarker, OptionMarker, PLACEHOLDER, File, AnalysisFile, Count;
    if tokens != [] {
      var a := tokens[0];
      MarkersUncounted(i, x);
      if IsOutput(a) {
        if |tokens| >= 2 {
          CountSwapped(tokens[2..], i + 2, c, files, x);
          CountConcat([a, tokens[1]], Swap(tokens[2..], i + 2, c, files).value.tokens, x);
          CountConcat([a, tokens[1]], Visible(tokens[2..], c), x);
        }
      } else if IsInclude(a) && a != File(c) {
        CountSwapped(tokens[2..], i + 2, c, files, x);
        CountTwo(a, IncludeMarker(i), x);
        CountConcat([a, IncludeMarker(i)], Swap(tokens[2..], i + 2, c, files).value.tokens, x);
        CountConcat([a], Visible(tokens[2..], c), x);
      } else {
        CountSwapped(tokens[1..], i + 1, c, files, x);
        var rest := Swap(tokens[1..], i + 1, c, files).value.tokens;
        CountConcat([a], rest, x);
        CountConcat(["-I" + IncludeMarker(i)], rest, x);
        CountConcat([OptionMarker(i)], rest, x);
        CountConcat([PLACEHOLDER], rest, x);
        CountConcat([a], Visible(tokens[1..], c), x);
        assert [] + Visible(tokens[1..], c) == Visible(tokens[1..], c);
      }
    }
  }

  lemma {:induction false} MarkersUncounted(i: nat, x: string)
    requires x != PLACEHOLDER && !KeyAt(x, i)
    ensures Count([IncludeMarker(i)], x) == 0 && Count(["-I" + IncludeMarker(i)], x) == 0
    ensures Count([OptionMarker(i)], x) == 0 && Count([PLACEHOLDER], x) == 0
  {
    hide IncludeMarker, OptionMarker, PLACEHOLDER;
    CountOne(IncludeMarker(i), x);
    CountOne("-I" + IncludeMarker(i), x);
    CountOne(OptionMarker(i), x);
    CountOne(PLACEHOLDER, x);
  }

  lemma {:induction false} MarkersNotPlaceholder(i: nat)
    ensures Count([IncludeMarker(i)], PLACEHOLDER) == 0 && Count(["-I" + IncludeMarker(i)], PLACEHOLDER) == 0
    ensures Count([OptionMarker(i)], PLACEHOLDER) == 0 && Count([PLACEHOLDER], PLACEHOLDER) == 1
  {
    hide IncludeMarker, OptionMarker, PLACEHOLDER;
    NotPlaceholder(i);
    CountOne(IncludeMarker(i), PLACEHOLDER);
    CountOne("-I" + IncludeMarker(i), PLACEHOLDER);
    CountOne(OptionMarker(i), PLACEHOLDER);
    CountOne(PLACEHOLDER, PLACEHOLDER);
  }

  lemma {:induction false} CleanUncounted(a: string)
    requires !Contains(a, RESERVED)
    ensures Count([a], PLACEHOLDER) == 0
  {
    hide Contains, RESERVED, PLACEHOLDER;
    PlaceholderReserved();
    CountOne(a, PLACEHOLDER);
  }

  /** The generated file's placeholder appears once for each time the file stands alone. */
  lemma {:induction false} CountFile(tokens: Tokens, i: nat, c: Context, files: set<string>)
    requires Swap(tokens, i, c, files).Some? && c.generated && Clean(tokens)
    ensures Count(Swap(tokens, i, c, files).value.tokens, PLACEHOLDER) == Alone(tokens, File(c))
    decreases |tokens|
  {
    hide IsOutput, IsInclude, StartsI, ExtraOption, Bind, IncludeMarker, OptionMarker, PLACEHOLDER, File, AnalysisFile, Count, Contains, RESERVED;
    if tokens == [] {
      CountEmpty(PLACEHOLDER);
    } else {
      var a := tokens[0];
      FileRole(c);
      MarkersNotPlaceholder(i);
      CleanUncounted(a);
      CleanTail(tokens, 1);
      if IsOutput(a) {
        if |tokens| >= 2 {
          CleanUncounted(tokens[1]);
          CleanTail(tokens, 2);
          CountFile(tokens[2..], i + 2, c, files);
          CountTwo(a, tokens[1], PLACEHOLDER);
          CountConcat([a, tokens[1]], Swap(tokens[2..], i + 2, c, files).value.tokens, PLACEHOLDER);
        }
      } else if IsInclude(a) && a != File(c) {
        CleanTail(tokens, 2);
        CountFile(tokens[2..], i + 2, c, files);
        CountTwo(a, IncludeMarker(i), PLACEHOLDER);
        CountConcat([a, IncludeMarker(i)], Swap(tokens[2..], i + 2, c, files).value.tokens, PLACEHOLDER);
      } else {
        CountFile(tokens[1..], i + 1, c, files);
        var rest := Swap(tokens[1..], i + 1, c, files).value.tokens;
        CountConcat([a], rest, PLACEHOLDER);
        CountConcat(["-I" + IncludeMarker(i)], rest, PLACEHOLDER);
        CountConcat([OptionMarker(i)], rest, PLACEHOLDER);
        CountConcat([PLACEHOLDER], rest, PLACEHOLDER);
      }
    }
  }

  lemma {:induction false} CountEmpty(x: string)
    ensures Count([], x) == 0
  {}

  lemma {:induction false} PlainConcat(a: Tokens, b: Tokens)
    ensures AllPlain(a + b) <==> AllPlain(a) && AllPlain(b)
  {
    hide PlainText;
    if AllPlain(a + b) {
      forall i | 0 <= i < |a| ensures PlainText(a[i]) { assert a[i] == (a + b)[i]; }
      forall i | 0 <= i < |b| ensures PlainText(b[i]) { assert b[i] == (a + b)[|a| + i]; }
    }
  }

  lemma {:induction false} PlainPath(a: string)
    requires 0 < |a| <= 4096 && forall i :: 0 <= i < |a| ==> PathChar(a[i])
    ensures PlainText(a)
  {}

  lemma {:induction false} MarkersPlain(i: nat)
    requires i < 5000
    ensures AllPlain([IncludeMarker(i)]) && AllPlain(["-I" + IncludeMarker(i)]) && AllPlain([OptionMarker(i)]) && AllPlain([PLACEHOLDER])
  {
    ReservedChars();
    DecimalShort(i);
    PlainPath(IncludeMarker(i));
    PlainPath("-I" + IncludeMarker(i));
    PlainPath(OptionMarker(i));
    PlainPath(PLACEHOLDER);
  }

  lemma {:induction false} PlainSwapped(tokens: Tokens, i: nat, c: Context, files: set<string>)
    requires Swap(tokens, i, c, files).Some? && i + |tokens| < 5000
    ensures AllPlain(Swap(tokens, i, c, files).value.tokens) <==> AllPlain(Visible(tokens, c))
    decreases |tokens|
  {
    hide IsOutput, IsInclude, StartsI, ExtraOption, Bind, IncludeMarker, OptionMarker, PLACEHOLDER, File, AnalysisFile, AllPlain;
    if tokens != [] {
      var a := tokens[0];
      MarkersPlain(i);
      if IsOutput(a) {
        if |tokens| >= 2 {
          PlainSwapped(tokens[2..], i + 2, c, files);
          PlainConcat([a, tokens[1]], Swap(tokens[2..], i + 2, c, files).value.tokens);
          PlainConcat([a, tokens[1]], Visible(tokens[2..], c));
        }
      } else if IsInclude(a) && a != File(c) {
        PlainSwapped(tokens[2..], i + 2, c, files);
        PlainConcat([a, IncludeMarker(i)], Swap(tokens[2..], i + 2, c, files).value.tokens);
        PlainConcat([a], Visible(tokens[2..], c));
        PlainConcat([a], [IncludeMarker(i)]);
        assert [a, IncludeMarker(i)] == [a] + [IncludeMarker(i)];
      } else {
        PlainSwapped(tokens[1..], i + 1, c, files);
        var rest := Swap(tokens[1..], i + 1, c, files).value.tokens;
        PlainConcat([a], rest);
        PlainConcat(["-I" + IncludeMarker(i)], rest);
        PlainConcat([OptionMarker(i)], rest);
        PlainConcat([PLACEHOLDER], rest);
        PlainConcat([a], Visible(tokens[1..], c));
        assert [] + Visible(tokens[1..], c) == Visible(tokens[1..], c);
      }
    }
  }

  lemma {:induction false} StemFits(c: Context)
    ensures StemOk(Stem(c))
  {
    var head := "/work/analysis/compiler-" + "baseline" + "/u";
    assert Stem(c)[|head|..] == Decimal(c.index);
    assert "baseline" in ["baseline", "address", "undefined"];
  }

  lemma {:induction false} ShortIsNoKey(x: string)
    requires |x| == 2
    ensures x != PLACEHOLDER && forall j: nat :: !KeyAt(x, j)
  {
    hide IncludeMarker, OptionMarker, PLACEHOLDER;
    KeyShapes(0);
    forall j: nat ensures !KeyAt(x, j) {
      KeyShapes(j);
    }
  }

  lemma {:induction false} CleanIsNoKey(x: string)
    requires !Contains(x, RESERVED)
    ensures x != PLACEHOLDER && forall j: nat :: !KeyAt(x, j)
  {
    hide IncludeMarker, OptionMarker, PLACEHOLDER, Contains, RESERVED;
    PlaceholderReserved();
    forall j: nat ensures !KeyAt(x, j) {
      MarkersReserved(j);
    }
  }

  /** The context's file cannot be mistaken for a placeholder: it is generated, it is not
      spelled with the reserved name, or the command names it. */
  predicate Distinguished(c: Context) {
    c.generated || !Contains(File(c), RESERVED) || File(c) in c.arguments
  }

  /** The parser's checks on the swapped command are the direct ones on the original. */
  lemma {:induction false} ChecksAgree(c: Context, files: set<string>)
    requires Supported(c, files) && Distinguished(c) && Swap(c.arguments[1..], 1, c, files).Some?
    ensures CommandOk([c.arguments[0]] + Swap(c.arguments[1..], 1, c, files).value.tokens, Allowed(c), Stem(c)) <==> Acceptable(c)
  {
    hide Swap, Visible, PLACEHOLDER, File, AllPlain, Compiler, Contains, SourcePath, StemOk, Count, RESERVED, KeyAt, Alone;
    var argv, swapped, seen := c.arguments, Swap(c.arguments[1..], 1, c, files).value.tokens, Visible(c.arguments[1..], c);
    SwapKeys(argv[1..], 1, c, files);
    StemFits(c);
    PlaceholderIsSource();
    ShortIsNoKey("-c");
    ShortIsNoKey("-o");
    HeadCounts(argv[0], swapped, seen, "-c");
    HeadCounts(argv[0], swapped, seen, "-o");
    CountSwapped(argv[1..], 1, c, files, "-c");
    CountSwapped(argv[1..], 1, c, files, "-o");
    if !c.generated {
      FileClean(c);
      CleanIsNoKey(File(c));
      HeadCounts(argv[0], swapped, seen, File(c));
      CountSwapped(argv[1..], 1, c, files, File(c));
    }
    PlainMeans([argv[0]] + swapped);
    if |argv| <= 4096 {
      PlainSwapped(argv[1..], 1, c, files);
      PlainConcat([argv[0]], swapped);
      PlainConcat([argv[0]], seen);
    }
    if c.generated {
      CleanTail(argv, 1);
      CountFile(argv[1..], 1, c, files);
      HeadPlaceholder(c, swapped);
    }
  }

  lemma {:induction false} PlainMeans(tokens: Tokens)
    ensures AllPlain(tokens) <==> forall i :: 0 <= i < |tokens| ==> PlainText(tokens[i])
  {}

  lemma {:induction false} FileClean(c: Context)
    requires Clean(c.arguments) && Distinguished(c) && !c.generated
    ensures !Contains(File(c), RESERVED)
  {}

  lemma {:induction false} HeadCounts(head: string, a: Tokens, b: Tokens, x: string)
    ensures Count([head] + a, x) - Count([head] + b, x) == Count(a, x) - Count(b, x)
  {
    CountConcat([head], a, x);
    CountConcat([head], b, x);
  }

  lemma {:induction false} HeadPlaceholder(c: Context, swapped: Tokens)
    requires Clean(c.arguments) && c.arguments != []
    ensures Count([c.arguments[0]] + swapped, PLACEHOLDER) == Count(swapped, PLACEHOLDER)
  {
    hide Contains, PLACEHOLDER, RESERVED;
    CleanUncounted(c.arguments[0]);
    CountConcat([c.arguments[0]], swapped, PLACEHOLDER);
  }

  // ---------- the routes agree ----------

  /** Destinations are no placeholders. */
  lemma {:induction false} DestinationIsNoKey(c: Context, t: string)
    requires t in Destinations(Stem(c))
    ensures !KeyFrom(t, 1)
  {
    hide IncludeMarker, OptionMarker, PLACEHOLDER, Stem;
    KeyShapes(0);
    StemShape(c);
    assert t[0] == '/' ==> |t| > 6 && t[6] == 'a';
    assert t[0] == '-' ==> t[1] == 'o' || t[1] == 'M';
    assert t[0] == '/' || t[0] == '-' || t[0] == 'n';
    forall j: nat ensures !KeyAt(t, j) {
      KeyShapes(j);
      assert ("-I" + IncludeMarker(j))[0] == '-' && ("-I" + IncludeMarker(j))[1] == 'I';
    }
  }

  lemma {:induction false} StemShape(c: Context)
    ensures |Stem(c)| > 6 && Stem(c)[0] == '/' && Stem(c)[6] == 'a'
  {}

  lemma {:induction false} RestoreSame(tokens: Tokens, m: Subst)
    requires forall t :: t in tokens ==> t !in m
    ensures Restore(tokens, m) == tokens
  {}

  lemma {:induction false} RestoreFrame(c: Context, kept: Tokens, m: Subst)
    requires KeysFrom(m, 1, c) && OnlyReserved(m) && Clean(c.arguments) && c.arguments != []
    ensures Restore([c.arguments[0]] + kept + Destinations(Stem(c)), m) == [c.arguments[0]] + Restore(kept, m) + Destinations(Stem(c))
  {
    hide Destinations, Stem, Contains, RESERVED, KeyFrom;
    var head := c.arguments[0];
    RestoreConcat([head] + kept, Destinations(Stem(c)), m);
    RestoreConcat([head], kept, m);
    assert head !in m;
    RestoreSame([head], m);
    forall t | t in Destinations(Stem(c)) ensures t !in m {
      DestinationIsNoKey(c, t);
    }
    RestoreSame(Destinations(Stem(c)), m);
  }

  lemma {:induction false} KeysAreReserved(m: Subst, i: nat, c: Context)
    requires KeysFrom(m, i, c)
    ensures OnlyReserved(m)
  {
    hide KeyFrom, Contains;
    forall k | k in m ensures Contains(k, RESERVED) {
      KeysReserved(k, i);
    }
  }

  /** For every distinguished context, as each context of a checked database is, and every
      captured file set: swapping tokens for placeholders, running the unchanged allowlist
      and swapping back gives exactly the direct rewrite, and refuses exactly the same
      commands. */
  lemma {:induction false} RoutesAgree(c: Context, files: set<string>)
    requires Distinguished(c)
    ensures ViaPlaceholders(c, files) == Direct(c, files)
  {
    hide Swap, CommandOk, Acceptable, Scan, Rewrite, Restore, Wanted, Plain, Clean, Destinations, Stem, Allowed, Agrees;
    if Supported(c, files) {
      var argv := c.arguments;
      var tail := argv[1..];
      if Swap(tail, 1, c, files).None? {
        SwapRefuses(tail, 1, c, files);
      } else {
        var sw := Swap(tail, 1, c, files).value;
        SwapKeys(tail, 1, c, files);
        KeysAreReserved(sw.subst, 1, c);
        CleanTail(argv, 1);
        SelfAgrees(sw.subst);
        SwapStands(tail, 1, c, files, sw.subst);
        SwapsBack(sw.tokens, tail, Plain(Allowed(c)), Wanted(c, files), sw.subst);
        ScanIsPlain(sw.tokens, Allowed(c));
        ChecksAgree(c, files);
        FramesAgree(c, files, sw);
      }
    }
  }

  lemma {:induction false} SelfAgrees(m: Subst)
    ensures Agrees(m, m)
  {}

  lemma {:induction false} FramesAgree(c: Context, files: set<string>, sw: Swapped)
    requires Supported(c, files) && Swap(c.arguments[1..], 1, c, files) == Some(sw)
    requires KeysFrom(sw.subst, 1, c) && OnlyReserved(sw.subst)
    requires RestoreAll(Scan(sw.tokens, Allowed(c)), sw.subst) == Rewrite(c.arguments[1..], Wanted(c, files))
    requires CommandOk([c.arguments[0]] + sw.tokens, Allowed(c), Stem(c)) <==> Acceptable(c)
    ensures ViaPlaceholders(c, files) == Direct(c, files)
  {
    hide Swap, CommandOk, Acceptable, Scan, Rewrite, Restore, Wanted, Destinations, Stem, Allowed, KeysFrom, OnlyReserved, Contains;
    var argv := c.arguments;
    assert ([argv[0]] + sw.tokens)[1..] == sw.tokens;
    match Scan(sw.tokens, Allowed(c))
    case None =>
    case Some(kept) =>
      RestoreFrame(c, kept, sw.subst);
      var full := [argv[0]] + Restore(kept, sw.subst) + Destinations(Stem(c));
      assert full[1..] == Restore(kept, sw.subst) + Destinations(Stem(c));
      assert Framed(full) == [argv[0], IDENTITY] + Restore(kept, sw.subst) + Destinations(Stem(c)) + ["-fsyntax-only"];
  }

  // ---------- what an accepted command is confined to ----------

  /** Include operands an accepted command may carry: sources, pinned toolchain
      directories and the private snapshot, never the mutable build tree. */
  predicate Safe(path: string) {
    && (InSource(path) || Pinned(path) || path == SNAPSHOT || Under(SNAPSHOT, path))
    && path != BUILD && !Under(BUILD, path)
  }

  /** Read back token by token: every include operand is safe, and nothing names an
      output or dependency file. */
  predicate Confined(tokens: Tokens) {
    tokens == [] ||
    (var a := tokens[0];
     && !IsOutput(a) && !IsDependency(a)
     && if IsInclude(a) then |tokens| >= 2 && Safe(tokens[1]) && Confined(tokens[2..])
        else (StartsI(a) ==> Safe(a[2..])) && Confined(tokens[1..]))
  }

  lemma {:induction false} SafeTops(path: string)
    requires |path| > 6 && path[..6] == "/work/" && path[6] != 'b'
    ensures path != BUILD && !Under(BUILD, path)
  {
    assert BUILD[6] == 'b';
  }

  lemma {:induction false} SourcesSafe(path: string)
    requires InSource(path)
    ensures Safe(path)
  {
    hide SourcePath, Pinned;
    SourceTop(path);
    SafeTops(path);
  }

  lemma {:induction false} SourceTop(path: string)
    requires InSource(path)
    ensures |path| > 6 && path[..6] == "/work/" && path[6] == 's'
  {
    assert SOURCE[..6] == "/work/";
  }

  lemma {:induction false} PinnedSafe(path: string)
    requires Pinned(path)
    ensures Safe(path)
  {
    hide SourcePath;
    assert |path| > 1 && path[1] == 'u';
    assert BUILD[1] == 'w';
  }

  lemma {:induction false} SnapshotSafe(path: string)
    requires path == SNAPSHOT || Under(SNAPSHOT, path)
    ensures Safe(path)
  {
    hide SourcePath, Pinned;
    assert SNAPSHOT[..6] == "/work/" && SNAPSHOT[6] == 'a';
    SafeTops(path);
  }

  lemma {:induction false} BindSafe(flag: string, value: string, files: set<string>)
    requires Bind(flag, value, files).Some?
    ensures Safe(Bind(flag, value, files).value)
  {
    hide Safe, CleanInclude, SourcePath, Pinned;
    var bound := Bind(flag, value, files).value;
    if value == BUILD || Under(BUILD, value) {
      SnapshotSafe(bound);
    } else if InSource(value) {
      SourcesSafe(bound);
    } else {
      PinnedSafe(bound);
    }
  }

  lemma {:induction false} AnalysisRole(c: Context)
    ensures RoleOf(AnalysisFile(c)) == Other && !IsOutput(AnalysisFile(c)) && !IsDependency(AnalysisFile(c)) && !IsInclude(AnalysisFile(c)) && !StartsI(AnalysisFile(c))
  {
    assert AnalysisFile(c)[0] == '/';
    Slashed(AnalysisFile(c));
  }

  lemma {:induction false} RewriteConfined(tokens: Tokens, c: Context, files: set<string>)
    requires Rewrite(tokens, Wanted(c, files)).Some?
    ensures Confined(Rewrite(tokens, Wanted(c, files)).value)
    decreases |tokens|
  {
    hide IsOutput, IsInclude, IsDependency, StartsI, Bind, File, AnalysisFile, OptionOk, ExtraOption, Safe;
    if tokens != [] {
      var a := tokens[0];
      JoinedLong(a);
      match RoleOf(a)
      case Output => RewriteConfined(tokens[2..], c, files);
      case Dependency => RewriteConfined(tokens[1..], c, files);
      case Include =>
        RewriteConfined(tokens[2..], c, files);
        BindSafe(a, tokens[1], files);
        var bound := Bind(a, tokens[1], files).value;
        assert ([a, bound] + Rewrite(tokens[2..], Wanted(c, files)).value)[2..] == Rewrite(tokens[2..], Wanted(c, files)).value;
      case Joined =>
        RewriteConfined(tokens[1..], c, files);
        BindSafe("-I", a[2..], files);
        var bound := Bind("-I", a[2..], files).value;
        BoundJoined(bound);
        assert ("-I" + bound)[2..] == bound;
        assert (["-I" + bound] + Rewrite(tokens[1..], Wanted(c, files)).value)[1..] == Rewrite(tokens[1..], Wanted(c, files)).value;
      case Other =>
        RewriteConfined(tokens[1..], c, files);
        AnalysisRole(c);
        var kept := Wanted(c, files).keep(a).value;
        assert ([kept] + Rewrite(tokens[1..], Wanted(c, files)).value)[1..] == Rewrite(tokens[1..], Wanted(c, files)).value;
    }
  }

  lemma {:induction false} BoundJoined(bound: string)
    requires Safe(bound)
    ensures RoleOf("-I" + bound) == Joined && StartsI("-I" + bound) && !IsInclude("-I" + bound) && !IsOutput("-I" + bound) && !IsDependency("-I" + bound)
  {
    hide Safe;
    SafeSlash(bound);
    assert ("-I" + bound)[2] == '/';
  }

  /** The analysed file stands alone in the result as often as the context's file did. */
  lemma {:induction false} AloneKept(tokens: Tokens, c: Context, files: set<string>)
    requires Rewrite(tokens, Wanted(c, files)).Some?
    ensures Alone(Rewrite(tokens, Wanted(c, files)).value, AnalysisFile(c)) == Alone(tokens, File(c))
    decreases |tokens|
  {
    hide IsOutput, IsInclude, IsDependency, StartsI, Bind, File, AnalysisFile, OptionOk, ExtraOption;
    if tokens != [] {
      var a := tokens[0];
      FileRole(c);
      AnalysisRole(c);
      JoinedLong(a);
      match RoleOf(a)
      case Output => AloneKept(tokens[2..], c, files);
      case Dependency => AloneKept(tokens[1..], c, files);
      case Include =>
        AloneKept(tokens[2..], c, files);
        var bound := Bind(a, tokens[1], files).value;
        assert ([a, bound] + Rewrite(tokens[2..], Wanted(c, files)).value)[2..] == Rewrite(tokens[2..], Wanted(c, files)).value;
      case Joined =>
        AloneKept(tokens[1..], c, files);
        BindSafe("-I", a[2..], files);
        var bound := Bind("-I", a[2..], files).value;
        BoundJoined(bound);
        assert (["-I" + bound] + Rewrite(tokens[1..], Wanted(c, files)).value)[1..] == Rewrite(tokens[1..], Wanted(c, files)).value;
      case Other =>
        AloneKept(tokens[1..], c, files);
        if a != File(c) {
          OptionIsNoFile(a, c);
        }
        var kept := Wanted(c, files).keep(a).value;
        assert ([kept] + Rewrite(tokens[1..], Wanted(c, files)).value)[1..] == Rewrite(tokens[1..], Wanted(c, files)).value;
    }
  }

  lemma {:induction false} OptionIsNoFile(a: string, c: Context)
    requires ExtraOption(a) || OptionOk(a)
    ensures a != AnalysisFile(c) && RoleOf(a) == Other
  {
    OptionDashed(a);
    assert AnalysisFile(c)[0] == '/';
  }

  lemma {:induction false} OptionDashed(a: string)
    requires ExtraOption(a) || OptionOk(a)
    ensures Dashed(a) && RoleOf(a) == Other
  {
    if ExtraOption(a) {
      ExtraRole(a);
      ExtraDashed(a);
    } else {
      PlainDashed(a);
    }
  }

  lemma {:induction false} ExtraDashed(a: string)
    requires ExtraOption(a)
    ensures Dashed(a)
  {
    hide InSource, RelativeTarget, ErrorName;
  }

  lemma {:induction false} PlainDashed(a: string)
    requires OptionOk(a)
    ensures Dashed(a) && RoleOf(a) == Other
  {
    hide FLAGS, LEVELS, StandardOk, WarningOk, DefineOk;
    if a in FLAGS {
      FlagShape(a);
    } else if a in LEVELS {
      LevelShape(a);
    } else if StandardOk(a) {
      StandardShape(a);
    } else if WarningOk(a) {
      WarningShape(a);
    }
    RoleShape(a);
  }

  lemma {:induction false} FlagShape(a: string)
    requires a in FLAGS
    ensures |a| >= 2 && a[0] == '-' && (a[1] == 'g' || a[1] == 'p' || a[1] == 'f')
  {}

  lemma {:induction false} LevelShape(a: string)
    requires a in LEVELS
    ensures |a| >= 2 && a[0] == '-' && a[1] == 'O'
  {}

  lemma {:induction false} StandardShape(a: string)
    requires StandardOk(a)
    ensures |a| >= 2 && a[0] == '-' && a[1] == 's'
  {}

  lemma {:induction false} WarningShape(a: string)
    requires WarningOk(a)
    ensures |a| >= 2 && a[0] == '-' && a[1] == 'W'
  {}

  lemma {:induction false} RoleShape(a: string)
    requires |a| >= 2 && a[0] == '-' && a[1] != 'o' && a[1] != 'M' && a[1] != 'I' && a[1] != 'i'
    ensures Dashed(a) && RoleOf(a) == Other
  {}

  lemma {:induction false} JoinedLong(a: string)
    ensures RoleOf(a) == Joined ==> |a| >= 2
    ensures IsDependency(a) ==> !IsInclude(a) && !IsOutput(a)
  {}

  lemma {:induction false} SafeSlash(path: string)
    requires Safe(path)
    ensures path != "" && path[0] == '/'
  {
    assert SOURCE[0] == '/' && SNAPSHOT[0] == '/';
  }

  // ---------- exactly one source ----------

  /** How often an output or dependency operand names the file. */
  function AsOperand(tokens: Tokens, file: string): nat {
    if tokens == [] then 0
    else if IsOutput(tokens[0]) then if |tokens| < 2 then 0 else (if tokens[1] == file then 1 else 0) + AsOperand(tokens[2..], file)
    else if tokens[0] != file && IsInclude(tokens[0]) then if |tokens| < 2 then 0 else AsOperand(tokens[2..], file)
    else AsOperand(tokens[1..], file)
  }

  lemma {:induction false} VisibleFile(tokens: Tokens, c: Context)
    requires !c.generated
    ensures Count(Visible(tokens, c), File(c)) == Alone(tokens, File(c)) + AsOperand(tokens, File(c))
    decreases |tokens|
  {
    hide IsOutput, IsInclude, IsDependency, StartsI, File, ExtraOption, Count;
    CountEmpty(File(c));
    if tokens != [] {
      var a := tokens[0];
      FileRole(c);
      CountOne(a, File(c));
      if ExtraOption(a) {
        OptionIsNoFile(a, c);
        OriginalStays(c);
      }
      if IsOutput(a) {
        if |tokens| >= 2 {
          CountOne(tokens[1], File(c));
          CountTwo(a, tokens[1], File(c));
          VisibleFile(tokens[2..], c);
          CountConcat([a, tokens[1]], Visible(tokens[2..], c), File(c));
        }
      } else if a != File(c) && IsInclude(a) {
        if |tokens| >= 2 {
          VisibleFile(tokens[2..], c);
          CountConcat([a], Visible(tokens[2..], c), File(c));
        }
      } else {
        VisibleFile(tokens[1..], c);
        CountConcat([a], Visible(tokens[1..], c), File(c));
      }
    }
  }

  lemma {:induction false} CompileFlagKept(tokens: Tokens, c: Context, files: set<string>)
    requires Rewrite(tokens, Wanted(c, files)).Some?
    ensures Count(Rewrite(tokens, Wanted(c, files)).value, "-c") == Count(Visible(tokens, c), "-c")
    decreases |tokens|
  {
    hide IsOutput, IsInclude, IsDependency, StartsI, Bind, File, AnalysisFile, OptionOk, ExtraOption, Count, Safe;
    if tokens != [] {
      var a := tokens[0];
      FileRole(c);
      JoinedLong(a);
      CountOne(a, "-c");
      FlagOfCompile(a, c);
      match RoleOf(a)
      case Output =>
        CompileFlagKept(tokens[2..], c, files);
        NotCompile(tokens[1]);
        CountTwo(a, tokens[1], "-c");
        CountConcat([a, tokens[1]], Visible(tokens[2..], c), "-c");
      case Dependency =>
        CompileFlagKept(tokens[1..], c, files);
        CountConcat([a], Visible(tokens[1..], c), "-c");
      case Include =>
        CompileFlagKept(tokens[2..], c, files);
        var bound := Bind(a, tokens[1], files).value;
        BindSafe(a, tokens[1], files);
        SafeNotCompile(bound);
        CountTwo(a, bound, "-c");
        CountConcat([a, bound], Rewrite(tokens[2..], Wanted(c, files)).value, "-c");
        CountConcat([a], Visible(tokens[2..], c), "-c");
      case Joined =>
        CompileFlagKept(tokens[1..], c, files);
        var bound := Bind("-I", a[2..], files).value;
        BindSafe("-I", a[2..], files);
        SafeSlash(bound);
        CountOne("-I" + bound, "-c");
        CountConcat(["-I" + bound], Rewrite(tokens[1..], Wanted(c, files)).value, "-c");
      case Other =>
        CompileFlagKept(tokens[1..], c, files);
        var kept := Wanted(c, files).keep(a).value;
        CountOne(kept, "-c");
        CountConcat([kept], Rewrite(tokens[1..], Wanted(c, files)).value, "-c");
        CountConcat([a], Visible(tokens[1..], c), "-c");
        CountEmpty("-c");
        assert [] + Visible(tokens[1..], c) == Visible(tokens[1..], c);
    }
  }

  lemma {:induction false} NotCompile(a: string)
    requires !Dashed(a)
    ensures Count([a], "-c") == 0
  {
    CountOne(a, "-c");
  }

  lemma {:induction false} SafeNotCompile(a: string)
    requires Safe(a)
    ensures Count([a], "-c") == 0
  {
    SafeSlash(a);
    NotCompile(a);
  }

  /** "-c" is an ordinary kept token, and no other kind of token equals it. */
  lemma {:induction false} FlagOfCompile(a: string, c: Context)
    ensures a == "-c" ==> RoleOf(a) == Other && OptionOk(a) && !ExtraOption(a)
    ensures File(c) != "-c" && AnalysisFile(c) != "-c" && !IsOutput("-c") && !IsInclude("-c") && !StartsI("-c")
    ensures RoleOf(a) != Other ==> Count([a], "-c") == 0 && !ExtraOption(a)
    ensures RoleOf(a) == Other ==> !IsOutput(a) && !IsInclude(a) && !StartsI(a)
    ensures RoleOf(a) == Output <==> IsOutput(a)
    ensures RoleOf(a) == Include ==> IsInclude(a)
    ensures RoleOf(a) == Joined ==> StartsI(a) && !IsInclude(a) && !IsOutput(a)
    ensures RoleOf(a) == Dependency ==> !StartsI(a)
  {
    hide ExtraOption, OptionOk;
    if ExtraOption(a) {
      ExtraRole(a);
    }
    CountOne(a, "-c");
    assert File(c)[0] == '/' && AnalysisFile(c)[0] == '/';
    CompileIsPlain();
  }

  lemma {:induction false} CompileIsPlain()
    ensures OptionOk("-c") && !ExtraOption("-c")
  {
    hide InSource, RelativeTarget, ErrorName;
  }

  /** Framed by the compiler and the analyst's own destinations. */
  ghost predicate AnalystOwned(c: Context, result: Tokens, kept: Tokens) {
    && c.arguments != [] && result == [c.arguments[0], IDENTITY] + kept + Destinations(Stem(c)) + ["-fsyntax-only"]
    && Confined(kept) && Count(kept, "-c") == 1
  }

  /** Every accepted command compiles once, reads only confined include directories and
      writes only analyst-owned files. The analysed file stands in it exactly once when
      the context is generated; for an original file this holds exactly when no output
      or dependency operand names that file. */
  lemma {:induction false} AcceptedIsConfined(c: Context, files: set<string>)
    requires Distinguished(c) && ViaPlaceholders(c, files).Some?
    ensures Rewrite(c.arguments[1..], Wanted(c, files)).Some?
    ensures var kept := Rewrite(c.arguments[1..], Wanted(c, files)).value;
            && AnalystOwned(c, ViaPlaceholders(c, files).value, kept)
            && (Alone(kept, AnalysisFile(c)) == 1 <==> c.generated || AsOperand(c.arguments[1..], File(c)) == 0)
  {
    hide Rewrite, Wanted, Visible, Count, Alone, AsOperand, Confined, File, AnalysisFile, Destinations, Stem, AllPlain, ViaPlaceholders, Compiler, SourcePath;
    RoutesAgree(c, files);
    var argv := c.arguments;
    var tail := argv[1..];
    var kept := Rewrite(tail, Wanted(c, files)).value;
    RewriteConfined(tail, c, files);
    AloneKept(tail, c, files);
    CompileFlagKept(tail, c, files);
    CountConcat([argv[0]], Visible(tail, c), "-c");
    CompilerNotFlag(argv[0], c);
    if !c.generated {
      VisibleFile(tail, c);
      CountConcat([argv[0]], Visible(tail, c), File(c));
    }
  }

  lemma {:induction false} CompilerNotFlag(a: string, c: Context)
    requires Compiler(a)
    ensures Count([a], "-c") == 0 && Count([a], File(c)) == 0
  {
    CountOne(a, "-c");
    CountOne(a, File(c));
    assert a[1] == 'u';
    assert File(c)[1] == 'w';
  }

  /** The source named only as the output operand is counted, accepted, and dropped. */
  lemma {:induction false} SourceMayVanish()
    ensures var argv, source, stem := ["/usr/local/bin/gcc", "-c", "-o", TREE + "a.cpp"], TREE + "a.cpp", Stem(Context("a.cpp", false, 0, []));
            && SafeCompile(argv, source, stem) == Some(["/usr/local/bin/gcc", "-c"] + Destinations(stem))
            && source !in SafeCompile(argv, source, stem).value
  {
    hide CommandOk, Scan, Destinations, Stem, OptionOk;
    var source, c := TREE + "a.cpp", Context("a.cpp", false, 0, []);
    var argv := ["/usr/local/bin/gcc", "-c", "-o", source];
    VanishingCommand(source, c);
    CompileIsPlain();
    VanishingScan(source);
    assert argv[1..] == ["-c", "-o", source];
    assert [argv[0]] + ["-c"] == ["/usr/local/bin/gcc", "-c"];
    VanishingTokens(source, c);
  }

  lemma {:induction false} VanishingTokens(source: string, c: Context)
    requires source == TREE + "a.cpp"
    ensures source !in ["/usr/local/bin/gcc", "-c"] + Destinations(Stem(c))
  {
    hide Stem;
    StemShape(c);
    assert source[0] == '/' && source[1] == 'w' && source[6] == 's';
    assert "/usr/local/bin/gcc"[1] == 'u';
  }

  lemma {:induction false} VanishingCommand(source: string, c: Context)
    requires source == TREE + "a.cpp"
    ensures CommandOk(["/usr/local/bin/gcc", "-c", "-o", source], source, Stem(c))
  {
    hide Stem, StemOk, Count, SourcePath, PlainText;
    MarkerParts("a.cpp");
    StemFits(c);
    PlainPath(source);
    PlainPath("/usr/local/bin/gcc");
    PlainPath("-c");
    PlainPath("-o");
    assert source[1] == 'w' && "/usr/local/bin/gcc"[1] == 'u';
    CountFour("/usr/local/bin/gcc", "-c", "-o", source, "-c");
    CountFour("/usr/local/bin/gcc", "-c", "-o", source, "-o");
    CountFour("/usr/local/bin/gcc", "-c", "-o", source, source);
  }

  lemma {:induction false} CountFour(a: string, b: string, d: string, e: string, x: string)
    ensures Count([a, b, d, e], x) == (if a == x then 1 else 0) + (if b == x then 1 else 0) + (if d == x then 1 else 0) + (if e == x then 1 else 0)
  {
    assert [a, b, d, e] == [a, b] + [d, e];
    CountConcat([a, b], [d, e], x);
    CountTwo(a, b, x);
    CountTwo(d, e, x);
    CountOne(a, x);
    CountOne(b, x);
    CountOne(d, x);
    CountOne(e, x);
  }

  lemma {:induction false} VanishingScan(source: string)
    requires source != "" && source[0] == '/' && OptionOk("-c")
    ensures Scan(["-c", "-o", source], source) == Some(["-c"])
  {
    hide OptionOk;
    assert ["-c", "-o", source][1..] == ["-o", source];
    assert ["-o", source][2..] == [];
    assert Scan([], source) == Some([]);
    assert RoleOf("-o") == Output && !Dashed(source);
    assert Scan(["-o", source], source) == Some([]);
    assert RoleOf("-c") == Other && Kept("-c", source);
    assert ["-c"] + [] == ["-c"];
  }
}
