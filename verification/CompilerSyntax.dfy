/** The syntax-check command: include operands, reviewed options and a generated source
    are swapped for placeholders, allowed, and swapped back. */
module CompilerSyntax {
  import opened Results
  import opened Text
  import opened CompilerAllowlist
  import opened CompilerRewrite

  /** One compilation of the database; a generated file lives in the build tree. */
  datatype Context = Context(path: string, generated: bool, index: nat, arguments: Tokens)

  const BUILD := "/work/build"
  const SNAPSHOT := "/work/analysis/generated-baseline"
  const RESERVED := "__NICO_PROJECT_COMPILER_"
  const TREE := "/work/source/"
  const PLACEHOLDER := TREE + RESERVED + "SOURCE.cpp"
  const IDENTITY := "-fmacro-prefix-map=/work/analysis/generated-baseline=/work/build"

  function File(c: Context): string {
    if c.generated then BUILD + "/" + c.path else SOURCE + "/" + c.path
  }

  function AnalysisFile(c: Context): string {
    if c.generated then SNAPSHOT + "/" + c.path else File(c)
  }

  function Stem(c: Context): string {
    "/work/analysis/compiler-" + "baseline" + "/u" + Decimal(c.index)
  }

  // ---------- reviewed options ----------

  const PROJECT_OPTIONS: set<string> := {
    "-fstack-protector", "-fstack-protector-all", "-fstack-protector-strong", "-fstack-protector-explicit",
    "-fstack-clash-protection", "-fvisibility=default", "-fvisibility=hidden", "-fvisibility=internal",
    "-fvisibility=protected", "-fvisibility-inlines-hidden", "-fstack-reuse=all", "-fstack-reuse=named_vars", "-fstack-reuse=none"}

  const EXTRA_OPTIONS: set<string> := {
    "-ftrapv", "-fno-extended-identifiers", "-fcf-protection=full", "-fcf-protection=branch", "-fcf-protection=return",
    "-fcf-protection=none", "-Wbidi-chars=any", "-Wbidi-chars=unpaired", "-mavx", "-mavx2", "-msha", "-msse4", "-msse4.1"}

  /** The name behind -Werror= or -Wno-error=. */
  predicate ErrorName(name: string) {
    && 1 <= |name| <= 100 && Letter(name[0]) && forall i :: 1 <= i < |name| ==> WordChar(name[i])
  }

  predicate ErrorOption(a: string) {
    || ("-Werror=" <= a && ErrorName(a[8..]))
    || ("-Wno-error=" <= a && ErrorName(a[11..]))
  }

  predicate ProjectOption(a: string) {
    a in PROJECT_OPTIONS || ErrorOption(a)
  }

  predicate NoGit(parts: seq<string>) {
    CleanParts(parts) && forall i :: 0 <= i < |parts| ==> parts[i] != ".git"
  }

  /** Where the first '=' is, or the end. */
  function Equals(s: string): (e: nat)
    ensures e <= |s| && (e < |s| ==> s[e] == '=')
  {
    if s == "" || s[0] == '=' then 0 else 1 + Equals(s[1..])
  }

  predicate RelativeTarget(s: string) {
    s == "." || (1 <= |s| <= 500 && (Letter(s[0]) || Digit(s[0]) || s[0] == '_') && All(s, 1) && NoGit(Split(s)))
  }

  /** A macro prefix map from the original sources to a clean relative name. */
  predicate PrefixMap(a: string) {
    "-fmacro-prefix-map=" <= a &&
    (var pair := a[19..];
     var e := Equals(pair);
     e < |pair| && Equals(pair[e + 1..]) == |pair| - e - 1 && InSource(pair[..e]) && RelativeTarget(pair[e + 1..]))
  }

  predicate ExtraOption(a: string) {
    ProjectOption(a) || a in EXTRA_OPTIONS || PrefixMap(a)
  }

  // ---------- include operands ----------

  predicate CleanInclude(value: string) {
    value != "" && value[0] == '/' && All(value, 0) && NoGit(Split(value)[1..])
  }

  predicate Pinned(value: string) {
    exists root :: root in ["/usr/include", "/usr/local/include", "/usr/lib/gcc", "/usr/local/lib/gcc"]
      && (value == root || Under(root, value))
  }

  /** Build-tree operands move to the private snapshot; sources and pinned toolchain
      directories stay; everything else is refused. */
  function Bind(flag: string, value: string, files: set<string>): Option<string> {
    if !CleanInclude(value) then None
    else if value == BUILD then if flag == "-include" || flag == "-imacros" then (if "" in files then Some(SNAPSHOT) else None) else Some(SNAPSHOT)
    else if Under(BUILD, value) then
      var relative := value[|BUILD| + 1..];
      if (flag == "-include" || flag == "-imacros") && relative !in files then None else Some(SNAPSHOT + "/" + relative)
    else if InSource(value) || Pinned(value) then Some(value)
    else None
  }

  /** The direct rewrite of the command. */
  function Wanted(c: Context, files: set<string>): Policy {
    Policy((flag: string, value: string) => Bind(flag, value, files),
           (a: string) => if a == File(c) then Some(AnalysisFile(c)) else if ExtraOption(a) || OptionOk(a) then Some(a) else None)
  }

  // ---------- placeholders ----------

  function IncludeMarker(i: nat): string {
    TREE + RESERVED + "INCLUDE_" + Decimal(i)
  }

  function OptionMarker(i: nat): string {
    "-D" + RESERVED + "OPTION_" + Decimal(i)
  }

  /** A swapped tail, and what its placeholders stand for. */
  datatype Swapped = Swapped(tokens: Tokens, subst: Subst)

  function Put(tokens: Tokens, subst: Subst, rest: Option<Swapped>): Option<Swapped> {
    if rest.Some? then Some(Swapped(tokens + rest.value.tokens, subst + rest.value.subst)) else None
  }

  /** The scanner's swaps from index i on. */
  function Swap(tokens: Tokens, i: nat, c: Context, files: set<string>): Option<Swapped> {
    if tokens == [] then Some(Swapped([], map[]))
    else
      var a := tokens[0];
      if IsOutput(a) then
        if |tokens| < 2 then Some(Swapped([a], map[])) else Put([a, tokens[1]], map[], Swap(tokens[2..], i + 2, c, files))
      else if a == File(c) then
        if c.generated then Put([PLACEHOLDER], map[PLACEHOLDER := AnalysisFile(c)], Swap(tokens[1..], i + 1, c, files))
        else Put([a], map[], Swap(tokens[1..], i + 1, c, files))
      else if IsInclude(a) then
        if |tokens| < 2 || Bind(a, tokens[1], files).None? then None
        else Put([a, IncludeMarker(i)], map[IncludeMarker(i) := Bind(a, tokens[1], files).value], Swap(tokens[2..], i + 2, c, files))
      else if StartsI(a) then
        if Bind("-I", a[2..], files).None? then None
        else Put(["-I" + IncludeMarker(i)], map["-I" + IncludeMarker(i) := "-I" + Bind("-I", a[2..], files).value], Swap(tokens[1..], i + 1, c, files))
      else if ExtraOption(a) then
        Put([OptionMarker(i)], map[OptionMarker(i) := a], Swap(tokens[1..], i + 1, c, files))
      else Put([a], map[], Swap(tokens[1..], i + 1, c, files))
  }

  // ---------- facts about placeholders ----------

  lemma {:induction false} MarkerParts(tail: string)
    requires (forall i :: 0 <= i < |tail| ==> PathChar(tail[i]) && tail[i] != '/') && |tail| > 2
    ensures SourcePath(TREE + tail)
  {
    var path := TREE + tail;
    assert path == "" + "/" + ("work" + "/" + ("source" + "/" + tail));
    TreeSplits(tail);
    SplitOne(tail);
    assert Split(path)[1..] == ["work", "source", tail];
    assert SOURCE + "/" <= path;
  }

  lemma {:induction false} TreeSplits(tail: string)
    ensures Split("" + "/" + ("work" + "/" + ("source" + "/" + tail))) == ["", "work", "source"] + Split(tail)
  {
    SplitJoin("", "work" + "/" + ("source" + "/" + tail));
    SplitJoin("work", "source" + "/" + tail);
    SplitJoin("source", tail);
    SplitOne("");
    SplitOne("work");
    SplitOne("source");
  }

  /** Reserved names are made of path characters other than a slash. */
  lemma {:induction false} ReservedChars()
    ensures forall i :: 0 <= i < |RESERVED| ==> NameChar(RESERVED[i])
    ensures |RESERVED| == 24
  {}

  lemma {:induction false} IncludeMarkerInSource(i: nat)
    ensures SourcePath(IncludeMarker(i))
  {
    ReservedChars();
    var tail := RESERVED + "INCLUDE_" + Decimal(i);
    assert IncludeMarker(i) == TREE + tail;
    MarkerParts(tail);
  }

  lemma {:induction false} PlaceholderIsSource()
    ensures SourcePath(PLACEHOLDER)
  {
    ReservedChars();
    var tail := RESERVED + "SOURCE.cpp";
    assert PLACEHOLDER == TREE + tail;
    MarkerParts(tail);
  }

  lemma {:induction false} Slashed(a: string)
    requires a != "" && a[0] == '/'
    ensures RoleOf(a) == Other && !IsOutput(a) && !IsInclude(a) && !StartsI(a) && !DefineLike(a) && !IsDependency(a) && !Dashed(a)
  {}

  lemma {:induction false} NameRun(a: string, i: nat)
    requires i <= |a| && forall j :: i <= j < |a| ==> NameChar(a[j])
    ensures NameEnd(a, i) == |a|
    decreases |a| - i
  {
    if i < |a| {
      NameRun(a, i + 1);
    }
  }

  lemma {:induction false} OptionMarkerKept(i: nat)
    ensures RoleOf(OptionMarker(i)) == Other && OptionOk(OptionMarker(i))
  {
    ReservedChars();
    var m := OptionMarker(i);
    assert m[0] == '-' && m[1] == 'D' && m[2] == RESERVED[0];
    forall j | 3 <= j < |m| ensures NameChar(m[j]) {
      if j < 26 {
        assert m[j] == RESERVED[j - 2];
      } else if j < 33 {
        assert m[j] == "OPTION_"[j - 26];
      } else {
        assert m[j] == Decimal(i)[j - 33];
      }
    }
    NameRun(m, 3);
  }

  /** Reviewed options are ordinary tokens to the parser. */
  lemma {:induction false} ExtraRole(a: string)
    requires ExtraOption(a)
    ensures RoleOf(a) == Other && !IsOutput(a) && !IsInclude(a) && !StartsI(a) && !IsDependency(a)
  {
    hide PROJECT_OPTIONS, EXTRA_OPTIONS, ErrorOption, PrefixMap;
    if a in PROJECT_OPTIONS {
      ListedShape(a);
    } else if ErrorOption(a) {
      ErrorShape(a);
    } else if a in EXTRA_OPTIONS {
      ExtraShape(a);
    } else {
      PrefixMapShape(a);
    }
    OptionShape(a);
  }

  lemma {:induction false} ListedShape(a: string)
    requires a in PROJECT_OPTIONS
    ensures |a| >= 2 && a[0] == '-' && a[1] == 'f'
  {}

  lemma {:induction false} ErrorShape(a: string)
    requires ErrorOption(a)
    ensures |a| >= 2 && a[0] == '-' && a[1] == 'W'
  {
    hide ErrorName;
  }

  lemma {:induction false} ExtraShape(a: string)
    requires a in EXTRA_OPTIONS
    ensures |a| >= 2 && a[0] == '-' && (a[1] == 'f' || a[1] == 'W' || a[1] == 'm')
  {}

  lemma {:induction false} PrefixMapShape(a: string)
    requires PrefixMap(a)
    ensures |a| >= 2 && a[0] == '-' && a[1] == 'f'
  {
    hide InSource, RelativeTarget;
  }

  lemma {:induction false} OptionShape(a: string)
    requires |a| >= 2 && a[0] == '-' && (a[1] == 'f' || a[1] == 'W' || a[1] == 'm')
    ensures RoleOf(a) == Other && !IsOutput(a) && !IsInclude(a) && !StartsI(a) && !IsDependency(a)
  {}

  lemma {:induction false} FileRole(c: Context)
    ensures RoleOf(File(c)) == Other && !IsOutput(File(c)) && !IsInclude(File(c)) && !StartsI(File(c)) && !DefineLike(File(c)) && !IsDependency(File(c))
  {
    Slashed(File(c));
  }

  // ---------- placeholders never meet user tokens or each other ----------

  predicate Clean(tokens: Tokens) {
    forall i :: 0 <= i < |tokens| ==> !Contains(tokens[i], RESERVED)
  }

  ghost predicate KeyFrom(k: string, i: nat) {
    k == PLACEHOLDER || exists j: nat :: i <= j && KeyAt(k, j)
  }

  predicate KeyAt(k: string, j: nat) {
    k == IncludeMarker(j) || k == "-I" + IncludeMarker(j) || k == OptionMarker(j)
  }

  lemma {:induction false} KeysReserved(k: string, i: nat)
    requires KeyFrom(k, i)
    ensures Contains(k, RESERVED)
  {
    hide IncludeMarker, OptionMarker, PLACEHOLDER;
    if k == PLACEHOLDER {
      PlaceholderReserved();
    } else {
      var j: nat :| i <= j && KeyAt(k, j);
      MarkersReserved(j);
    }
  }

  lemma {:induction false} PlaceholderReserved()
    ensures Contains(PLACEHOLDER, RESERVED)
  {
    hide RESERVED, TREE;
    ContainsMiddle(TREE, RESERVED, "SOURCE.cpp");
  }

  lemma {:induction false} MarkersReserved(j: nat)
    ensures Contains(IncludeMarker(j), RESERVED) && Contains("-I" + IncludeMarker(j), RESERVED) && Contains(OptionMarker(j), RESERVED)
  {
    hide RESERVED, TREE;
    ContainsMiddle(TREE, RESERVED, "INCLUDE_" + Decimal(j));
    assert TREE + RESERVED + ("INCLUDE_" + Decimal(j)) == IncludeMarker(j);
    ContainsMiddle("-I" + TREE, RESERVED, "INCLUDE_" + Decimal(j));
    assert "-I" + TREE + RESERVED + ("INCLUDE_" + Decimal(j)) == "-I" + IncludeMarker(j);
    ContainsMiddle("-D", RESERVED, "OPTION_" + Decimal(j));
    assert "-D" + RESERVED + ("OPTION_" + Decimal(j)) == OptionMarker(j);
  }

  /** First characters tell the kinds of placeholder apart. */
  lemma {:induction false} KeyShapes(j: nat)
    ensures |IncludeMarker(j)| > 37 && IncludeMarker(j)[0] == '/' && IncludeMarker(j)[37] == 'I' && IncludeMarker(j)[6] == 's'
    ensures |OptionMarker(j)| > 2 && OptionMarker(j)[0] == '-' && OptionMarker(j)[1] == 'D'
    ensures |PLACEHOLDER| > 37 && PLACEHOLDER[0] == '/' && PLACEHOLDER[37] == 'S' && PLACEHOLDER[6] == 's'
  {
    ReservedChars();
    assert |TREE| == 13;
    assert IncludeMarker(j)[37] == "INCLUDE_"[0];
    assert PLACEHOLDER[37] == "SOURCE.cpp"[0];
  }

  lemma {:induction false} KeysDiffer(i: nat, j: nat)
    requires i < j
    ensures !KeyAt(IncludeMarker(i), j) && !KeyAt("-I" + IncludeMarker(i), j) && !KeyAt(OptionMarker(i), j)
  {
    hide IncludeMarker, OptionMarker;
    KeyShapes(i);
    KeyShapes(j);
    IncludesDiffer(i, j);
    OptionsDiffer(i, j);
    assert ("-I" + IncludeMarker(i))[2..] == IncludeMarker(i) && ("-I" + IncludeMarker(j))[2..] == IncludeMarker(j);
  }

  lemma {:induction false} IncludesDiffer(i: nat, j: nat)
    requires i != j
    ensures IncludeMarker(i) != IncludeMarker(j)
  {
    hide RESERVED, TREE;
    if IncludeMarker(i) == IncludeMarker(j) {
      PrefixedInjective(TREE + RESERVED + "INCLUDE_", i, j);
      assert false;
    }
  }

  lemma {:induction false} OptionsDiffer(i: nat, j: nat)
    requires i != j
    ensures OptionMarker(i) != OptionMarker(j)
  {
    hide RESERVED;
    if OptionMarker(i) == OptionMarker(j) {
      PrefixedInjective("-D" + RESERVED + "OPTION_", i, j);
      assert false;
    }
  }

  lemma {:induction false} NewKey(k: string, i: nat, n: nat)
    requires KeyAt(k, i) && i < n
    ensures !KeyFrom(k, n)
  {
    hide IncludeMarker, OptionMarker, PLACEHOLDER;
    KeyShapes(i);
    if KeyFrom(k, n) && k != PLACEHOLDER {
      var j: nat :| n <= j && KeyAt(k, j);
      KeysDiffer(i, j);
      assert false;
    }
  }

  ghost predicate KeysFrom(m: Subst, i: nat, c: Context) {
    forall k :: k in m ==> KeyFrom(k, i) && (k == PLACEHOLDER ==> m[k] == AnalysisFile(c))
  }

  lemma {:induction false} KeysLater(m: Subst, i: nat, j: nat, c: Context)
    requires KeysFrom(m, j, c) && i <= j
    ensures KeysFrom(m, i, c)
  {}

  lemma {:induction false} NotPlaceholder(i: nat)
    ensures IncludeMarker(i) != PLACEHOLDER && "-I" + IncludeMarker(i) != PLACEHOLDER && OptionMarker(i) != PLACEHOLDER
  {
    hide IncludeMarker, OptionMarker, PLACEHOLDER;
    KeyShapes(i);
  }

  lemma {:induction false} NoKeys(i: nat, c: Context)
    ensures KeysFrom(map[], i, c)
  {}

  lemma {:induction false} SameKeys(rest: Subst, i: nat, j: nat, c: Context)
    requires KeysFrom(rest, j, c) && i <= j
    ensures KeysFrom(map[] + rest, i, c)
  {
    KeysLater(rest, i, j, c);
    assert map[] + rest == rest;
  }

  lemma {:induction false} OneKey(k: string, v: string, rest: Subst, i: nat, j: nat, c: Context)
    requires KeysFrom(rest, j, c) && i <= j && (KeyAt(k, i) || (k == PLACEHOLDER && v == AnalysisFile(c)))
    ensures KeysFrom(map[k := v] + rest, i, c)
  {
    hide IncludeMarker, OptionMarker, PLACEHOLDER, AnalysisFile;
    KeysLater(rest, i, j, c);
    NotPlaceholder(i);
  }

  lemma {:induction false} MarkersAreKeys(i: nat)
    ensures KeyAt(IncludeMarker(i), i) && KeyAt("-I" + IncludeMarker(i), i) && KeyAt(OptionMarker(i), i)
  {}

  lemma {:induction false} SwapKeys(tokens: Tokens, i: nat, c: Context, files: set<string>)
    requires Swap(tokens, i, c, files).Some?
    ensures KeysFrom(Swap(tokens, i, c, files).value.subst, i, c)
    ensures |Swap(tokens, i, c, files).value.tokens| == |tokens|
  {
    hide IsOutput, IsInclude, ExtraOption, Bind, IncludeMarker, OptionMarker, PLACEHOLDER, File, AnalysisFile, KeysFrom, KeyAt;
    MarkersAreKeys(i);
    if tokens == [] {
      NoKeys(i, c);
    } else {
      var a := tokens[0];
      if IsOutput(a) && |tokens| < 2 {
        NoKeys(i, c);
      } else if IsOutput(a) || (a != File(c) && IsInclude(a)) {
        SwapKeys(tokens[2..], i + 2, c, files);
        var rest := Swap(tokens[2..], i + 2, c, files).value.subst;
        if IsOutput(a) {
          SameKeys(rest, i, i + 2, c);
        } else {
          OneKey(IncludeMarker(i), Bind(a, tokens[1], files).value, rest, i, i + 2, c);
        }
      } else {
        SwapKeys(tokens[1..], i + 1, c, files);
        var rest := Swap(tokens[1..], i + 1, c, files).value.subst;
        if a == File(c) {
          if c.generated {
            OneKey(PLACEHOLDER, AnalysisFile(c), rest, i, i + 1, c);
          } else {
            SameKeys(rest, i, i + 1, c);
          }
        } else if StartsI(a) {
          OneKey("-I" + IncludeMarker(i), "-I" + Bind("-I", a[2..], files).value, rest, i, i + 1, c);
        } else if ExtraOption(a) {
          OneKey(OptionMarker(i), a, rest, i, i + 1, c);
        } else {
          SameKeys(rest, i, i + 1, c);
        }
      }
    }
  }

  // ---------- the swapped tail stands for the original ----------

  ghost predicate Agrees(m: Subst, sub: Subst) {
    forall k :: k in sub ==> k in m && m[k] == sub[k]
  }

  /** Adding a placeholder no later one repeats keeps both readings. */
  lemma {:induction false} AgreesWith(m: Subst, k: string, v: string, rest: Subst)
    requires Agrees(m, map[k := v] + rest) && (k in rest ==> rest[k] == v)
    ensures Agrees(m, rest) && Lookup(m, k) == v
  {
    assert k in map[k := v] + rest;
  }

  lemma {:induction false} AgreesEmpty(m: Subst, rest: Subst)
    requires Agrees(m, map[] + rest)
    ensures Agrees(m, rest)
  {
    assert map[] + rest == rest;
  }

  function Allowed(c: Context): string {
    if c.generated then PLACEHOLDER else File(c)
  }

  ghost predicate OnlyReserved(m: Subst) {
    forall k :: k in m ==> Contains(k, RESERVED)
  }

  lemma {:induction false} SwapStands(tokens: Tokens, i: nat, c: Context, files: set<string>, m: Subst)
    requires Swap(tokens, i, c, files).Some? && Clean(tokens)
    requires Agrees(m, Swap(tokens, i, c, files).value.subst) && OnlyReserved(m)
    ensures StandsFor(Swap(tokens, i, c, files).value.tokens, tokens, Plain(Allowed(c)), Wanted(c, files), m)
    decreases |tokens|
  {
    hide IsOutput, IsInclude, IsDependency, StartsI, ExtraOption, OptionOk, Bind, IncludeMarker, OptionMarker, PLACEHOLDER, File, AnalysisFile, SourcePath,
         Contains, StandsFor, Wanted, Swap, RESERVED, Agrees, DefineLike;
    if tokens == [] {
      NothingStands(Plain(Allowed(c)), Wanted(c, files), m, i, c, files);
    } else {
      var a := tokens[0];
      if IsOutput(a) {
        StandsOutput(tokens, i, c, files, m);
      } else if a == File(c) {
        StandsFile(tokens, i, c, files, m);
      } else if IsInclude(a) {
        StandsInclude(tokens, i, c, files, m);
      } else if StartsI(a) {
        StandsJoined(tokens, i, c, files, m);
      } else if ExtraOption(a) {
        StandsExtra(tokens, i, c, files, m);
      } else {
        StandsOther(tokens, i, c, files, m);
      }
    }
  }

  lemma {:induction false} NothingStands(p0: Policy, p: Policy, m: Subst, i: nat, c: Context, files: set<string>)
    ensures StandsFor([], [], p0, p, m) && Swap([], i, c, files) == Some(Swapped([], map[]))
  {}

  lemma {:induction false} CleanTail(tokens: Tokens, n: nat)
    requires Clean(tokens) && n <= |tokens|
    ensures Clean(tokens[n..])
  {}

  lemma {:induction false} StandsOutput(tokens: Tokens, i: nat, c: Context, files: set<string>, m: Subst)
    requires tokens != [] && IsOutput(tokens[0])
    requires Swap(tokens, i, c, files).Some? && Clean(tokens)
    requires Agrees(m, Swap(tokens, i, c, files).value.subst) && OnlyReserved(m)
    ensures StandsFor(Swap(tokens, i, c, files).value.tokens, tokens, Plain(Allowed(c)), Wanted(c, files), m)
    decreases |tokens|, 0
  {
    hide IsOutput, Wanted, Allowed, PLACEHOLDER, Contains, RESERVED, Bind, File, Agrees;
    if |tokens| >= 2 {
      var rest := Swap(tokens[2..], i + 2, c, files).value;
      AgreesEmpty(m, rest.subst);
      CleanTail(tokens, 2);
      SwapStands(tokens[2..], i + 2, c, files, m);
      assert ([tokens[0], tokens[1]] + rest.tokens)[2..] == rest.tokens;
    }
  }

  lemma {:induction false} StandsFile(tokens: Tokens, i: nat, c: Context, files: set<string>, m: Subst)
    requires tokens != [] && tokens[0] == File(c)
    requires Swap(tokens, i, c, files).Some? && Clean(tokens)
    requires Agrees(m, Swap(tokens, i, c, files).value.subst) && OnlyReserved(m)
    ensures StandsFor(Swap(tokens, i, c, files).value.tokens, tokens, Plain(Allowed(c)), Wanted(c, files), m)
    decreases |tokens|, 0
  {
    hide IsOutput, IsInclude, IsDependency, StartsI, PLACEHOLDER, Contains, RESERVED, Bind, File, AnalysisFile, OptionOk, ExtraOption, Agrees, DefineLike;
    FileRole(c);
    PlaceholderRole();
    OriginalStays(c);
    var rest := Swap(tokens[1..], i + 1, c, files).value;
    SwapKeys(tokens[1..], i + 1, c, files);
    if c.generated {
      AgreesWith(m, PLACEHOLDER, AnalysisFile(c), rest.subst);
    } else {
      AgreesEmpty(m, rest.subst);
    }
    CleanTail(tokens, 1);
    SwapStands(tokens[1..], i + 1, c, files, m);
    var head := if c.generated then PLACEHOLDER else tokens[0];
    assert ([head] + rest.tokens)[1..] == rest.tokens;
  }

  lemma {:induction false} OriginalStays(c: Context)
    ensures !c.generated ==> AnalysisFile(c) == File(c)
  {}

  lemma {:induction false} PlaceholderRole()
    ensures RoleOf(PLACEHOLDER) == Other && !DefineLike(PLACEHOLDER) && PLACEHOLDER != ""
  {
    KeyShapes(0);
    Slashed(PLACEHOLDER);
  }

  lemma {:induction false} StandsInclude(tokens: Tokens, i: nat, c: Context, files: set<string>, m: Subst)
    requires tokens != [] && IsInclude(tokens[0]) && !IsOutput(tokens[0]) && tokens[0] != File(c)
    requires Swap(tokens, i, c, files).Some? && Clean(tokens)
    requires Agrees(m, Swap(tokens, i, c, files).value.subst) && OnlyReserved(m)
    ensures StandsFor(Swap(tokens, i, c, files).value.tokens, tokens, Plain(Allowed(c)), Wanted(c, files), m)
    decreases |tokens|, 0
  {
    hide IsOutput, PLACEHOLDER, IncludeMarker, Contains, RESERVED, Bind, File, AnalysisFile, OptionOk, ExtraOption, SourcePath, Agrees, Allowed;
    IncludeNotDependency(tokens[0]);
    var rest := Swap(tokens[2..], i + 2, c, files).value;
    SwapKeys(tokens[2..], i + 2, c, files);
    NewKey(IncludeMarker(i), i, i + 2);
    AgreesWith(m, IncludeMarker(i), Bind(tokens[0], tokens[1], files).value, rest.subst);
    CleanTail(tokens, 2);
    SwapStands(tokens[2..], i + 2, c, files, m);
    IncludeMarkerInSource(i);
    assert ([tokens[0], IncludeMarker(i)] + rest.tokens)[2..] == rest.tokens;
  }

  lemma {:induction false} IncludeNotDependency(a: string)
    requires IsInclude(a)
    ensures RoleOf(a) == Include
  {}

  lemma {:induction false} StandsJoined(tokens: Tokens, i: nat, c: Context, files: set<string>, m: Subst)
    requires tokens != [] && StartsI(tokens[0]) && !IsInclude(tokens[0]) && !IsOutput(tokens[0]) && tokens[0] != File(c)
    requires Swap(tokens, i, c, files).Some? && Clean(tokens)
    requires Agrees(m, Swap(tokens, i, c, files).value.subst) && OnlyReserved(m)
    ensures StandsFor(Swap(tokens, i, c, files).value.tokens, tokens, Plain(Allowed(c)), Wanted(c, files), m)
    decreases |tokens|, 0
  {
    hide IsOutput, PLACEHOLDER, IncludeMarker, Contains, RESERVED, Bind, File, AnalysisFile, OptionOk, ExtraOption, SourcePath, Agrees, Allowed;
    JoinedRole(tokens[0]);
    KeyShapes(i);
    LongJoined("-I" + IncludeMarker(i));
    var rest := Swap(tokens[1..], i + 1, c, files).value;
    SwapKeys(tokens[1..], i + 1, c, files);
    NewKey("-I" + IncludeMarker(i), i, i + 1);
    AgreesWith(m, "-I" + IncludeMarker(i), "-I" + Bind("-I", tokens[0][2..], files).value, rest.subst);
    CleanTail(tokens, 1);
    SwapStands(tokens[1..], i + 1, c, files, m);
    IncludeMarkerInSource(i);
    assert ("-I" + IncludeMarker(i))[2..] == IncludeMarker(i);
    assert (["-I" + IncludeMarker(i)] + rest.tokens)[1..] == rest.tokens;
  }

  lemma {:induction false} JoinedRole(a: string)
    requires StartsI(a) && !IsInclude(a)
    ensures RoleOf(a) == Joined
  {}

  lemma {:induction false} LongJoined(a: string)
    requires StartsI(a) && |a| > 9
    ensures RoleOf(a) == Joined
  {}

  lemma {:induction false} StandsExtra(tokens: Tokens, i: nat, c: Context, files: set<string>, m: Subst)
    requires tokens != [] && ExtraOption(tokens[0]) && tokens[0] != File(c)
    requires Swap(tokens, i, c, files).Some? && Clean(tokens)
    requires Agrees(m, Swap(tokens, i, c, files).value.subst) && OnlyReserved(m)
    ensures StandsFor(Swap(tokens, i, c, files).value.tokens, tokens, Plain(Allowed(c)), Wanted(c, files), m)
    decreases |tokens|, 0
  {
    hide IsOutput, IsInclude, IsDependency, StartsI, PLACEHOLDER, OptionMarker, Contains, RESERVED, Bind, File, AnalysisFile, OptionOk, ExtraOption, Agrees, Allowed, DefineLike;
    ExtraRole(tokens[0]);
    OptionMarkerKept(i);
    var rest := Swap(tokens[1..], i + 1, c, files).value;
    SwapKeys(tokens[1..], i + 1, c, files);
    NewKey(OptionMarker(i), i, i + 1);
    AgreesWith(m, OptionMarker(i), tokens[0], rest.subst);
    CleanTail(tokens, 1);
    SwapStands(tokens[1..], i + 1, c, files, m);
    assert ([OptionMarker(i)] + rest.tokens)[1..] == rest.tokens;
  }

  lemma {:induction false} StandsOther(tokens: Tokens, i: nat, c: Context, files: set<string>, m: Subst)
    requires tokens != [] && !IsOutput(tokens[0]) && tokens[0] != File(c) && !IsInclude(tokens[0]) && !StartsI(tokens[0]) && !ExtraOption(tokens[0])
    requires Swap(tokens, i, c, files).Some? && Clean(tokens)
    requires Agrees(m, Swap(tokens, i, c, files).value.subst) && OnlyReserved(m)
    ensures StandsFor(Swap(tokens, i, c, files).value.tokens, tokens, Plain(Allowed(c)), Wanted(c, files), m)
    decreases |tokens|, 0
  {
    hide IsOutput, IsInclude, IsDependency, StartsI, PLACEHOLDER, Contains, RESERVED, Bind, File, AnalysisFile, OptionOk, ExtraOption, Agrees, DefineLike;
    var rest := Swap(tokens[1..], i + 1, c, files).value;
    AgreesEmpty(m, rest.subst);
    CleanTail(tokens, 1);
    SwapStands(tokens[1..], i + 1, c, files, m);
    PlaceholderReserved();
    assert tokens[0] != PLACEHOLDER;
    assert ([tokens[0]] + rest.tokens)[1..] == rest.tokens;
  }

  /** Where the scanner refuses, so does the direct rewrite. */
  lemma {:induction false} SwapRefuses(tokens: Tokens, i: nat, c: Context, files: set<string>)
    requires Swap(tokens, i, c, files).None?
    ensures Rewrite(tokens, Wanted(c, files)).None?
    decreases |tokens|
  {
    hide IsOutput, IsInclude, IsDependency, StartsI, PLACEHOLDER, IncludeMarker, OptionMarker, Bind, File, AnalysisFile, OptionOk, ExtraOption;
    var a := tokens[0];
    FileRole(c);
    if ExtraOption(a) {
      ExtraRole(a);
    }
    if IsInclude(a) {
      IncludeNotDependency(a);
    } else if StartsI(a) {
      JoinedRole(a);
    }
    if |tokens| >= 2 && Swap(tokens[2..], i + 2, c, files).None? {
      SwapRefuses(tokens[2..], i + 2, c, files);
    }
    if Swap(tokens[1..], i + 1, c, files).None? {
      SwapRefuses(tokens[1..], i + 1, c, files);
    }
  }
}
