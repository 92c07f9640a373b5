/** The compiler-invocation allowlist: which tokens of a compile command are kept, which
    are dropped, and which reject the command. */
module CompilerAllowlist {
  import opened Results
  import opened Text

  type Tokens = seq<string>

  // ---------- token roles ----------

  /** How the parser treats a token, in the order it asks. */
  datatype Role = Output | Dependency | Include | Joined | Other

  predicate IsOutput(a: string) { a == "-o" || a == "-MF" || a == "-MT" || a == "-MQ" }
  predicate IsDependency(a: string) { a == "-MD" || a == "-MMD" || a == "-MP" }
  predicate IsInclude(a: string) { a == "-I" || a == "-isystem" || a == "-iquote" || a == "-include" || a == "-imacros" }

  predicate Dashed(a: string) { |a| > 0 && a[0] == '-' }
  predicate StartsI(a: string) { |a| >= 2 && a[0] == '-' && a[1] == 'I' }

  function RoleOf(a: string): Role {
    if IsOutput(a) then Output
    else if IsDependency(a) then Dependency
    else if IsInclude(a) then Include
    else if StartsI(a) then Joined
    else Other
  }

  // ---------- operands ----------

  const SOURCE := "/work/source"

  /** Under a root: the root itself, a slash, and more. */
  predicate Under(root: string, path: string) {
    root + "/" <= path
  }

  predicate CleanParts(parts: seq<string>) {
    forall i :: 0 <= i < |parts| ==> parts[i] != "" && parts[i] != "." && parts[i] != ".."
  }

  /** A clean absolute path below the source tree. */
  predicate SourcePath(path: string) {
    Under(SOURCE, path) && All(path, 0) && CleanParts(Split(path)[1..])
  }

  predicate InSource(path: string) {
    path == SOURCE || SourcePath(path)
  }

  // ---------- options kept as they are ----------

  predicate NameStart(c: char) { Letter(c) || c == '_' }
  predicate NameChar(c: char) { Letter(c) || Digit(c) || c == '_' }
  predicate WordChar(c: char) { Letter(c) || Digit(c) || c == '_' || c == '-' }

  /** Length of the longest prefix of macro-name characters from i on. */
  function NameEnd(a: string, i: nat): (e: nat)
    requires i <= |a|
    ensures i <= e <= |a|
    ensures forall j :: i <= j < e ==> NameChar(a[j])
    ensures e < |a| ==> !NameChar(a[e])
    decreases |a| - i
  {
    if i < |a| && NameChar(a[i]) then NameEnd(a, i + 1) else i
  }

  /** A -D or -U of a C name, with or without a value. */
  predicate DefineOk(a: string) {
    && |a| >= 3 && a[0] == '-' && (a[1] == 'D' || a[1] == 'U') && NameStart(a[2])
    && (NameEnd(a, 3) == |a| || a[NameEnd(a, 3)] == '=')
  }

  const FLAGS: set<string> := {"-g", "-g0", "-g1", "-g2", "-g3", "-ggdb", "-pthread", "-pipe",
    "-fPIC", "-fPIE", "-fpic", "-fpie", "-fno-pie", "-fno-exceptions", "-fno-rtti", "-fno-omit-frame-pointer",
    "-fno-strict-aliasing", "-fwrapv", "-fno-sanitize-recover=all", "-fsanitize=address", "-fsanitize=undefined"}

  const LEVELS: set<string> := {"-O0", "-O1", "-O2", "-O3", "-Os", "-Og", "-Oz"}

  predicate Digits(s: string) {
    s != "" && forall i :: 0 <= i < |s| ==> Digit(s[i])
  }

  predicate StandardOk(a: string) {
    exists lang :: lang in ["-std=gnu++", "-std=c++", "-std=gnu", "-std=c"] && lang <= a && Digits(a[|lang|..])
  }

  /** Length of the run of word characters from i on. */
  function WordEnd(a: string, i: nat): (e: nat)
    requires i <= |a|
    ensures i <= e <= |a|
    decreases |a| - i
  {
    if i < |a| && WordChar(a[i]) then WordEnd(a, i + 1) else i
  }

  /** A warning option, with or without a numeric value. */
  predicate WarningOk(a: string) {
    && |a| >= 3 && a[0] == '-' && a[1] == 'W' && Letter(a[2])
    && (var e := WordEnd(a, 3);
        e == |a| || (a[e] == '=' && Digits(a[e + 1..])))
  }

  predicate DefineLike(a: string) { |a| >= 2 && a[0] == '-' && (a[1] == 'D' || a[1] == 'U') }

  /** Options the parser keeps as they are. */
  predicate OptionOk(a: string) {
    if DefineLike(a) then DefineOk(a)
    else a == "-c" || a in FLAGS || a in LEVELS || StandardOk(a) || WarningOk(a)
  }

  /** Tokens the parser keeps besides include operands. */
  predicate Kept(a: string, source: string) {
    OptionOk(a) || (a == source && !DefineLike(a))
  }

  // ---------- the parser ----------

  /** The kept tokens of a command's tail, or None when it must be rejected. */
  function Scan(tokens: Tokens, source: string): Option<Tokens> {
    if tokens == [] then Some([])
    else
      var a := tokens[0];
      match RoleOf(a)
      case Output => if |tokens| < 2 || Dashed(tokens[1]) then None else Scan(tokens[2..], source)
      case Dependency => Scan(tokens[1..], source)
      case Include => if |tokens| < 2 || !InSource(tokens[1]) then None else Cons([a, tokens[1]], Scan(tokens[2..], source))
      case Joined => if !InSource(a[2..]) then None else Cons([a], Scan(tokens[1..], source))
      case Other => if !Kept(a, source) then None else Cons([a], Scan(tokens[1..], source))
  }

  function Cons(head: Tokens, tail: Option<Tokens>): Option<Tokens> {
    if tail.Some? then Some(head + tail.value) else None
  }

  function Count(tokens: Tokens, a: string): (n: nat)
    ensures n > 0 <==> a in tokens
  {
    if tokens == [] then 0
    else
      assert tokens == [tokens[0]] + tokens[1..];
      (if tokens[0] == a then 1 else 0) + Count(tokens[1..], a)
  }

  predicate PlainText(a: string) {
    0 < |a| <= 4096 && forall i :: 0 <= i < |a| ==> a[i] as int >= 32
  }

  predicate Compiler(a: string) {
    a == "/usr/local/bin/gcc" || a == "/usr/local/bin/g++"
  }

  /** An analyst-owned output stem. */
  predicate StemOk(stem: string) {
    exists group :: group in ["baseline", "address", "undefined"] &&
      (var head := "/work/analysis/compiler-" + group + "/u"; head <= stem && Digits(stem[|head|..]))
  }

  /** What is asked of the whole command before its tokens are read. */
  predicate CommandOk(argv: Tokens, source: string, stem: string) {
    && 1 <= |argv| <= 4096 && (forall i :: 0 <= i < |argv| ==> PlainText(argv[i]))
    && Compiler(argv[0]) && SourcePath(source) && StemOk(stem)
    && Count(argv, "-c") == 1 && Count(argv, source) == 1 && Count(argv, "-o") == 1
  }

  /** Analyst-owned output and dependency destinations. */
  function Destinations(stem: string): Tokens {
    ["-o", stem + ".o", "-MD", "-MF", stem + ".d", "-MT", "nico_unit"]
  }

  function SafeCompile(argv: Tokens, source: string, stem: string): Option<Tokens> {
    if !CommandOk(argv, source, stem) then None
    else
      match Scan(argv[1..], source)
      case None => None
      case Some(kept) => Some([argv[0]] + kept + Destinations(stem))
  }

  /** The parser's index loop over the command. */
  method SafeCompileArgv(argv: Tokens, source: string, stem: string) returns (result: Option<Tokens>)
    ensures result == SafeCompile(argv, source, stem)
  {
    hide CommandOk, Kept, InSource, Destinations, Scan, IsOutput, IsDependency, IsInclude;
    if !CommandOk(argv, source, stem) { return None; }
    CommandHasCompiler(argv, source, stem);
    var kept := [argv[0]];
    var index := 1;
    while index < |argv|
      invariant 1 <= index <= |argv|
      invariant SafeCompile(argv, source, stem) == Finish(kept, Scan(argv[index..], source), stem)
    {
      var arg := argv[index];
      ScanAt(argv, source, index);
      index := index + 1;
      if IsOutput(arg) {
        if index >= |argv| || Dashed(argv[index]) { return None; }
        index := index + 1;
      } else if IsDependency(arg) {
      } else if IsInclude(arg) {
        if index >= |argv| || !InSource(argv[index]) { return None; }
        Extends(kept, [arg, argv[index]], Scan(argv[index + 1..], source), stem);
        kept := kept + [arg, argv[index]];
        index := index + 1;
      } else {
        if StartsI(arg) {
          if !InSource(arg[2..]) { return None; }
        } else if !Kept(arg, source) {
          return None;
        }
        Extends(kept, [arg], Scan(argv[index..], source), stem);
        kept := kept + [arg];
      }
    }
    NothingLeft(argv, source);
    assert kept + [] == kept;
    result := Some(kept + Destinations(stem));
  }

  lemma {:induction false} CommandHasCompiler(argv: Tokens, source: string, stem: string)
    requires CommandOk(argv, source, stem)
    ensures |argv| >= 1
    ensures SafeCompile(argv, source, stem) == Finish([argv[0]], Scan(argv[1..], source), stem)
  {
    hide Scan, Destinations;
  }

  lemma {:induction false} NothingLeft(argv: Tokens, source: string)
    ensures Scan(argv[|argv|..], source) == Some([])
  {}

  /** One step of the parser at an index. */
  lemma {:induction false} ScanAt(argv: Tokens, source: string, index: nat)
    requires index < |argv|
    ensures var a := argv[index];
            Scan(argv[index..], source) ==
              (match RoleOf(a)
               case Output => if index + 1 >= |argv| || Dashed(argv[index + 1]) then None else Scan(argv[index + 2..], source)
               case Dependency => Scan(argv[index + 1..], source)
               case Include => if index + 1 >= |argv| || !InSource(argv[index + 1]) then None else Cons([a, argv[index + 1]], Scan(argv[index + 2..], source))
               case Joined => if !InSource(a[2..]) then None else Cons([a], Scan(argv[index + 1..], source))
               case Other => if !Kept(a, source) then None else Cons([a], Scan(argv[index + 1..], source)))
  {
    hide Kept, InSource, IsOutput, IsDependency, IsInclude, Cons;
    var rest := argv[index..];
    assert rest[0] == argv[index] && rest[1..] == argv[index + 1..];
    if index + 1 < |argv| {
      assert rest[1] == argv[index + 1] && rest[2..] == argv[index + 2..];
    }
  }

  ghost function Finish(kept: Tokens, rest: Option<Tokens>, stem: string): Option<Tokens> {
    match rest
    case None => None
    case Some(more) => Some(kept + more + Destinations(stem))
  }

  lemma {:induction false} Extends(kept: Tokens, head: Tokens, rest: Option<Tokens>, stem: string)
    ensures Finish(kept + head, rest, stem) == Finish(kept, Cons(head, rest), stem)
  {
    if rest.Some? {
      assert kept + (head + rest.value) == kept + head + rest.value;
    }
  }
}
