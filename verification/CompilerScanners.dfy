/** The two scanners as they run: an index over the command, tokens replaced in place,
    and a table of replacements. */
module CompilerScanners {
  import opened Results
  import opened Text
  import opened CompilerAllowlist
  import opened CompilerRewrite
  import opened CompilerSyntax
  import opened CompilerCommands
  import opened CompilerGenerated

  lemma {:induction false} PutAgain(t: Tokens, m: Subst, u: Tokens, n: Subst, rest: Option<Swapped>)
    ensures Put(t, m, Put(u, n, rest)) == Put(t + u, m + n, rest)
  {
    if rest.Some? {
      assert t + (u + rest.value.tokens) == t + u + rest.value.tokens;
      assert m + (n + rest.value.subst) == m + n + rest.value.subst;
    }
  }

  /** The part before the index is swapped, the rest is still as it was. */
  ghost predicate Swapping(argv: Tokens, normalized: Tokens, index: nat) {
    1 <= index <= |argv| == |normalized| && normalized[0] == argv[0] && normalized[index..] == argv[index..]
  }

  /** Placing n new tokens at the index keeps the shape. */
  lemma {:induction false} Advance(argv: Tokens, before: Tokens, after: Tokens, index: nat, n: nat)
    requires Swapping(argv, before, index) && index + n <= |argv| && |after| == |argv|
    requires forall i :: 0 <= i < |argv| && !(index <= i < index + n) ==> after[i] == before[i]
    ensures Swapping(argv, after, index + n)
    ensures after[1..index + n] == before[1..index] + after[index..index + n]
  {
    assert forall i :: index + n <= i < |argv| ==> after[i] == before[i] == before[index..][i - index] == argv[index..][i - index] == argv[i];
    assert after[1..index + n] == after[1..index] + after[index..index + n];
    assert after[1..index] == before[1..index];
  }

  lemma {:induction false} TailAt(argv: Tokens, index: nat)
    requires index < |argv|
    ensures argv[index..] != [] && argv[index..][0] == argv[index] && argv[index..][1..] == argv[index + 1..]
    ensures index + 1 < |argv| ==> |argv[index..]| >= 2 && argv[index..][1] == argv[index + 1] && argv[index..][2..] == argv[index + 2..]
    ensures index + 1 >= |argv| ==> |argv[index..]| == 1
  {}

  lemma {:induction false} PutNothing(rest: Option<Swapped>)
    ensures Put([], map[], rest) == rest
  {
    if rest.Some? {
      assert [] + rest.value.tokens == rest.value.tokens;
      assert map[] + rest.value.subst == rest.value.subst;
    }
  }

  /** One move of a scanner: the tokens it passes, as it leaves them, and their table. */
  datatype Move = Move(head: Tokens, table: Subst)

  /** A scan is in step: what is done, plus the rest, is the whole. */
  ghost predicate InStep(argv: Tokens, normalized: Tokens, index: nat, table: Subst, rest: Option<Swapped>, whole: Option<Swapped>) {
    Swapping(argv, normalized, index) && Put(normalized[1..index], table, rest) == whole
  }

  lemma {:induction false} InStepMoves(argv: Tokens, before: Tokens, after: Tokens, index: nat, table: Subst, move: Move,
                                       now: Option<Swapped>, later: Option<Swapped>, whole: Option<Swapped>)
    requires InStep(argv, before, index, table, now, whole) && now == Put(move.head, move.table, later)
    requires |after| == |argv| && index + |move.head| <= |argv| && after[index..index + |move.head|] == move.head
    requires forall i :: 0 <= i < |argv| && !(index <= i < index + |move.head|) ==> after[i] == before[i]
    ensures InStep(argv, after, index + |move.head|, table + move.table, later, whole)
  {
    hide Put;
    Advance(argv, before, after, index, |move.head|);
    PutAgain(before[1..index], table, move.head, move.table, later);
  }

  // ---------- the syntax scanner ----------

  function SyntaxMove(tokens: Tokens, i: nat, c: Context, files: set<string>): Option<Move>
    requires tokens != []
  {
    var a := tokens[0];
    if IsOutput(a) then Some(Move(if |tokens| < 2 then [a] else [a, tokens[1]], map[]))
    else if a == File(c) then Some(if c.generated then Move([PLACEHOLDER], map[PLACEHOLDER := AnalysisFile(c)]) else Move([a], map[]))
    else if IsInclude(a) then
      if |tokens| < 2 || CompilerSyntax.Bind(a, tokens[1], files).None? then None
      else Some(Move([a, IncludeMarker(i)], map[IncludeMarker(i) := CompilerSyntax.Bind(a, tokens[1], files).value]))
    else if StartsI(a) then
      if CompilerSyntax.Bind("-I", a[2..], files).None? then None
      else Some(Move(["-I" + IncludeMarker(i)], map["-I" + IncludeMarker(i) := "-I" + CompilerSyntax.Bind("-I", a[2..], files).value]))
    else if ExtraOption(a) then Some(Move([OptionMarker(i)], map[OptionMarker(i) := a]))
    else Some(Move([a], map[]))
  }

  lemma {:induction false} SyntaxMoves(argv: Tokens, index: nat, c: Context, files: set<string>)
    requires index < |argv|
    ensures var move := SyntaxMove(argv[index..], index, c, files);
            match move
            case None => Swap(argv[index..], index, c, files).None?
            case Some(m) => index + |m.head| <= |argv|
                            && Swap(argv[index..], index, c, files) == Put(m.head, m.table, Swap(argv[index + |m.head|..], index + |m.head|, c, files))
  {
    hide IsOutput, IsInclude, ExtraOption, CompilerSyntax.Bind, IncludeMarker, OptionMarker, PLACEHOLDER, File, AnalysisFile;
    TailAt(argv, index);
    if index + 1 >= |argv| {
      assert argv[index + 1..] == [];
      var a := argv[index];
      var none: Subst := map[];
      assert [a] + [] == [a] && none + none == none;
    }
  }

  /** The syntax-check command of one context. */
  method SyntaxArgv(c: Context, files: set<string>) returns (result: Option<Tokens>)
    ensures result == ViaPlaceholders(c, files)
  {
    hide IsOutput, IsInclude, ExtraOption, CompilerSyntax.Bind, IncludeMarker, OptionMarker, PLACEHOLDER, File, AnalysisFile, Contains, RESERVED,
         Swap, Put, Framed, Restore, CommandOk, Scan, Destinations, InStep;
    var argv := c.arguments;
    if !Supported(c, files) { return None; }
    var normalized, replacements, index := argv, map[], 1;
    ghost var whole := Swap(argv[1..], 1, c, files);
    StepStarts(argv, whole);
    while index < |argv|
      invariant 1 <= index <= |argv| == |normalized|
      invariant InStep(argv, normalized, index, replacements, Swap(argv[index..], index, c, files), whole)
    {
      var arg := argv[index];
      ghost var before, table := normalized, replacements;
      TailAt(argv, index);
      StepKeeps(argv, normalized, index, replacements, Swap(argv[index..], index, c, files), whole);
      SyntaxMoves(argv, index, c, files);
      ghost var move := SyntaxMove(argv[index..], index, c, files);
      var n := 1;
      if IsOutput(arg) {
        n := if index + 1 < |argv| then 2 else 1;
        assert n == 2 ==> normalized[index + 1] == argv[index + 1];
      } else if arg == File(c) {
        if c.generated {
          normalized := normalized[index := PLACEHOLDER];
          replacements := replacements + map[PLACEHOLDER := AnalysisFile(c)];
        }
      } else if IsInclude(arg) {
        if index + 1 >= |argv| { return None; }
        var bound := CompilerSyntax.Bind(arg, argv[index + 1], files);
        if bound.None? { return None; }
        normalized := normalized[index + 1 := IncludeMarker(index)];
        replacements := replacements + map[IncludeMarker(index) := bound.value];
        n := 2;
      } else if StartsI(arg) {
        var bound := CompilerSyntax.Bind("-I", arg[2..], files);
        if bound.None? { return None; }
        normalized := normalized[index := "-I" + IncludeMarker(index)];
        replacements := replacements + map["-I" + IncludeMarker(index) := "-I" + bound.value];
      } else if ExtraOption(arg) {
        normalized := normalized[index := OptionMarker(index)];
        replacements := replacements + map[OptionMarker(index) := arg];
      }
      assert table + map[] == table;
      InStepMoves(argv, before, normalized, index, table, move.value, Swap(argv[index..], index, c, files), Swap(argv[index + n..], index + n, c, files), whole);
      index := index + n;
    }
    StepEnds(argv, normalized, replacements, Swap(argv[index..], index, c, files), whole);
    NothingToSwap(index, c, files);
    assert argv[index..] == [];
    var safe := SafeCompileArgv(normalized, Allowed(c), Stem(c));
    if safe.None? || safe.value == [] { return None; }
    result := Some(Framed(Restore(safe.value, replacements)));
  }

  lemma {:induction false} NothingToSwap(i: nat, c: Context, files: set<string>)
    ensures Swap([], i, c, files) == Some(Swapped([], map[]))
  {}

  lemma {:induction false} StepStarts(argv: Tokens, whole: Option<Swapped>)
    requires argv != []
    ensures InStep(argv, argv, 1, map[], whole, whole)
  {
    PutNothing(whole);
    assert argv[1..1] == [];
  }

  /** Where the rest is refused, so is the whole; the token at the index is untouched. */
  lemma {:induction false} StepKeeps(argv: Tokens, normalized: Tokens, index: nat, table: Subst, rest: Option<Swapped>, whole: Option<Swapped>)
    requires InStep(argv, normalized, index, table, rest, whole)
    ensures rest.None? ==> whole.None?
    ensures forall i :: index <= i < |argv| ==> normalized[i] == argv[i]
  {
    forall i | index <= i < |argv| ensures normalized[i] == argv[i] {
      assert normalized[i] == normalized[index..][i - index];
    }
  }

  lemma {:induction false} StepEnds(argv: Tokens, normalized: Tokens, table: Subst, rest: Option<Swapped>, whole: Option<Swapped>)
    requires InStep(argv, normalized, |argv|, table, rest, whole)
    ensures rest == Some(Swapped([], map[])) ==> whole == Some(Swapped(normalized[1..], table))
    ensures |normalized| >= 1 && [argv[0]] + normalized[1..] == normalized
  {
    if rest == Some(Swapped([], map[])) {
      assert normalized[1..|argv|] + [] == normalized[1..];
      assert table + map[] == table;
    }
  }

  // ---------- the include scanner ----------

  function IncludeMove(tokens: Tokens, i: nat, g: Group, headers: seq<string>): Option<Move>
    requires tokens != []
  {
    var a := tokens[0];
    if IsInclude(a) then
      if |tokens| < 2 || Operand(tokens[1], a, g, headers).None? then None
      else Some(Move([a, Marker(i)], map[Marker(i) := Operand(tokens[1], a, g, headers).value]))
    else if StartsI(a) then
      if Operand(a[2..], "-I", g, headers).None? then None
      else Some(Move(["-I" + Marker(i)], map["-I" + Marker(i) := "-I" + Operand(a[2..], "-I", g, headers).value]))
    else Some(Move([a], map[]))
  }

  lemma {:induction false} IncludeMoves(argv: Tokens, index: nat, g: Group, headers: seq<string>)
    requires index < |argv|
    ensures match IncludeMove(argv[index..], index, g, headers)
            case None => CompilerGenerated.Bind(argv[index..], index, g, headers).None?
            case Some(m) => index + |m.head| <= |argv|
                            && CompilerGenerated.Bind(argv[index..], index, g, headers)
                               == Put(m.head, m.table, CompilerGenerated.Bind(argv[index + |m.head|..], index + |m.head|, g, headers))
  {
    hide IsInclude, Operand, Marker;
    TailAt(argv, index);
  }

  /** The rest of the scan can clash only where a placeholder is needed. */
  lemma {:induction false} ClashMoves(argv: Tokens, index: nat, all: Tokens)
    requires index < |argv|
    ensures var a := argv[index];
            Clashes(argv[index..], index, all) ==
              if IsInclude(a) then index + 1 < |argv| && (Marker(index) in all || "-I" + Marker(index) in all || Clashes(argv[index + 2..], index + 2, all))
              else if StartsI(a) then Marker(index) in all || "-I" + Marker(index) in all || Clashes(argv[index + 1..], index + 1, all)
              else Clashes(argv[index + 1..], index + 1, all)
  {
    hide IsInclude, Marker;
    TailAt(argv, index);
  }

  /** The compile command of a project with captured generated headers. */
  method SafeGeneratedCompileArgv(argv: Tokens, source: string, stem: string, g: Group, headers: seq<string>) returns (result: Option<Tokens>)
    ensures result == ViaMarkers(argv, source, stem, g, headers)
  {
    hide IsInclude, Operand, Marker, CompilerGenerated.Bind, Put, Restore, CommandOk, Scan, Destinations, InStep, HeadersOk, Clashes, GroupStem;
    if !HeadersOk(headers) || !GroupStem(g, stem) || argv == [] { return None; }
    var normalized, substitutions, index := argv, map[], 1;
    ghost var whole := CompilerGenerated.Bind(argv[1..], 1, g, headers);
    StepStarts(argv, whole);
    while index < |argv|
      invariant 1 <= index <= |argv| == |normalized|
      invariant InStep(argv, normalized, index, substitutions, CompilerGenerated.Bind(argv[index..], index, g, headers), whole)
      invariant Clashes(argv[1..], 1, argv) == Clashes(argv[index..], index, argv)
    {
      var flag := argv[index];
      ghost var before, table := normalized, substitutions;
      TailAt(argv, index);
      StepKeeps(argv, normalized, index, substitutions, CompilerGenerated.Bind(argv[index..], index, g, headers), whole);
      IncludeMoves(argv, index, g, headers);
      ClashMoves(argv, index, argv);
      ghost var move := IncludeMove(argv[index..], index, g, headers);
      var n := 1;
      if IsInclude(flag) || StartsI(flag) {
        if IsInclude(flag) && index + 1 >= |argv| { return None; }
        var bound := if IsInclude(flag) then Operand(argv[index + 1], flag, g, headers) else Operand(flag[2..], "-I", g, headers);
        if bound.None? { return None; }
        var marker := Marker(index);
        if marker in argv || "-I" + marker in argv { return None; }
        if IsInclude(flag) {
          normalized := normalized[index + 1 := marker];
          substitutions := substitutions + map[marker := bound.value];
          n := 2;
        } else {
          normalized := normalized[index := "-I" + marker];
          substitutions := substitutions + map["-I" + marker := "-I" + bound.value];
        }
      }
      assert table + map[] == table;
      InStepMoves(argv, before, normalized, index, table, move.value, CompilerGenerated.Bind(argv[index..], index, g, headers),
                  CompilerGenerated.Bind(argv[index + n..], index + n, g, headers), whole);
      index := index + n;
    }
    StepEnds(argv, normalized, substitutions, CompilerGenerated.Bind(argv[index..], index, g, headers), whole);
    NothingToBind(index, g, headers, argv);
    assert argv[index..] == [];
    var safe := SafeCompileArgv(normalized, source, stem);
    if safe.None? { return None; }
    result := Some(Restore(safe.value, substitutions));
  }

  lemma {:induction false} NothingToBind(i: nat, g: Group, headers: seq<string>, argv: Tokens)
    ensures CompilerGenerated.Bind([], i, g, headers) == Some(Swapped([], map[])) && !Clashes([], i, argv)
  {}
}
