/** Whole databases of compile commands: reviewed options are swapped for defines,
    row by row, under one table for all rows. */
module CompilerProject {
  import opened Results
  import opened Text
  import opened CompilerAllowlist
  import opened CompilerRewrite
  import opened CompilerSyntax
  import opened CompilerCommands
  import opened CompilerGenerated

  const OPTION_NAME := "__NICO_PROJECT_OPTION_"

  /** What no token of a database may hold. */
  const OPTION_PREFIX := "-D" + OPTION_NAME

  function OptionMark(row: nat, i: nat): string {
    OPTION_PREFIX + (Decimal(row) + "_" + Decimal(i)) + "=1"
  }

  /** The tail of row `row` with its reviewed options swapped, and the table back. */
  function Mask(tokens: Tokens, row: nat, i: nat): Tokens {
    if tokens == [] then []
    else [if ProjectOption(tokens[0]) then OptionMark(row, i) else tokens[0]] + Mask(tokens[1..], row, i + 1)
  }

  function Table(tokens: Tokens, row: nat, i: nat): Subst {
    if tokens == [] then map[]
    else (if ProjectOption(tokens[0]) then map[OptionMark(row, i) := tokens[0]] else map[]) + Table(tokens[1..], row, i + 1)
  }

  /** The tables of the rows before n together. */
  function Tables(rows: seq<Tokens>, n: nat): Subst
    requires n <= |rows|
  {
    if n == 0 then map[] else Tables(rows, n - 1) + (if rows[n - 1] == [] then map[] else Table(rows[n - 1][1..], n - 1, 1))
  }

  /** Every row is a command, and no token of any row carries the reserved prefix. */
  predicate Unmarked(rows: seq<Tokens>) {
    forall r :: 0 <= r < |rows| ==> 1 <= |rows[r]| <= 4096 && forall i :: 0 <= i < |rows[r]| ==> !Contains(rows[r][i], OPTION_PREFIX)
  }

  /** What becomes of row `row`: swap options, bind includes, allow, swap both back. */
  function ViaOptions(rows: seq<Tokens>, row: nat, source: string, stem: string, g: Group, headers: seq<string>): Option<Tokens>
    requires row < |rows|
  {
    if !Unmarked(rows) then None
    else RestoreAll(ViaMarkers([rows[row][0]] + Mask(rows[row][1..], row, 1), source, stem, g, headers), Tables(rows, |rows|))
  }

  /** Include operands bound, reviewed options and allowlisted tokens kept. */
  function Reviewed(source: string, g: Group, headers: seq<string>): Policy {
    Policy((flag: string, value: string) => Operand(value, flag, g, headers),
           (a: string) => if ProjectOption(a) || Kept(a, source) then Some(a) else None)
  }

  function DirectRow(argv: Tokens, source: string, stem: string, g: Group, headers: seq<string>, borrowed: nat): Option<Tokens> {
    if !HeadersOk(headers) || !GroupStem(g, stem) || argv == [] || !Whole(argv, source, stem, borrowed) then None
    else
      match Rewrite(argv[1..], Reviewed(source, g, headers))
      case None => None
      case Some(kept) => Some([argv[0]] + kept + Destinations(stem))
  }

  // ---------- option marks ----------

  lemma {:induction false} NameChars()
    ensures |OPTION_NAME| == 22 && forall i :: 0 <= i < |OPTION_NAME| ==> NameChar(OPTION_NAME[i])
  {}

  lemma {:induction false} StopUnique(a: string, m: nat, n: nat)
    requires m < |a| && n < |a| && a[m] == '_' && a[n] == '_'
    requires (forall k :: 0 <= k < m ==> Digit(a[k])) && (forall k :: 0 <= k < n ==> Digit(a[k]))
    ensures m == n
  {}

  lemma {:induction false} PairInjective(r: nat, i: nat, s: nat, j: nat)
    requires Decimal(r) + "_" + Decimal(i) == Decimal(s) + "_" + Decimal(j)
    ensures r == s && i == j
  {
    var a, b := Decimal(r) + "_" + Decimal(i), Decimal(s) + "_" + Decimal(j);
    var m, n := |Decimal(r)|, |Decimal(s)|;
    assert a[m] == '_' && b[n] == '_';
    assert forall k :: 0 <= k < m ==> a[k] == Decimal(r)[k];
    assert forall k :: 0 <= k < n ==> b[k] == Decimal(s)[k];
    StopUnique(a, m, n);
    assert a[..m] == Decimal(r) && b[..m] == Decimal(s);
    assert a[m + 1..] == Decimal(i) && b[m + 1..] == Decimal(j);
    DecimalInjective(r, s);
    DecimalInjective(i, j);
  }

  lemma {:induction false} MarksApart(r: nat, i: nat, s: nat, j: nat)
    requires OptionMark(r, i) == OptionMark(s, j)
    ensures r == s && i == j
  {
    hide OPTION_NAME;
    var x, y := Decimal(r) + "_" + Decimal(i), Decimal(s) + "_" + Decimal(j);
    var a, b := OptionMark(r, i), OptionMark(s, j);
    var n := |OPTION_PREFIX|;
    assert a[n..|a| - 2] == x && b[n..|b| - 2] == y;
    PairInjective(r, i, s, j);
  }

  lemma {:induction false} PrefixShape()
    ensures |OPTION_PREFIX| == 24 && OPTION_PREFIX[0] == '-' && OPTION_PREFIX[1] == 'D'
  {}

  lemma {:induction false} OptionMarkShape(r: nat, i: nat)
    ensures |OptionMark(r, i)| > 24 && OptionMark(r, i)[0] == '-' && OptionMark(r, i)[1] == 'D' && Contains(OptionMark(r, i), OPTION_PREFIX)
    ensures RoleOf(OptionMark(r, i)) == Other && OptionOk(OptionMark(r, i)) && Dashed(OptionMark(r, i))
  {
    hide OPTION_PREFIX, Decimal, DefineOk;
    PrefixShape();
    var middle := Decimal(r) + "_" + Decimal(i);
    ContainsMiddle("", OPTION_PREFIX, middle + "=1");
    assert "" + OPTION_PREFIX + (middle + "=1") == OptionMark(r, i);
    OptionMarkDefines(r, i);
    assert DefineLike(OptionMark(r, i));
  }

  lemma {:induction false} NameStops(a: string, i: nat, e: nat)
    requires i <= e < |a| && (forall j :: i <= j < e ==> NameChar(a[j])) && !NameChar(a[e])
    ensures NameEnd(a, i) == e
    decreases e - i
  {
    if i < e {
      NameStops(a, i + 1, e);
    }
  }

  lemma {:induction false} OptionMarkDefines(r: nat, i: nat)
    ensures DefineOk(OptionMark(r, i))
  {
    NameChars();
    var m, middle := OptionMark(r, i), Decimal(r) + "_" + Decimal(i);
    var e := |m| - 2;
    assert m == "-D" + OPTION_NAME + middle + "=1";
    assert m[0] == '-' && m[1] == 'D' && m[2] == OPTION_NAME[0] && m[e] == '=';
    forall j | 3 <= j < e ensures NameChar(m[j]) {
      if j < 24 {
        assert m[j] == OPTION_NAME[j - 2];
      } else {
        assert m[j] == middle[j - 24];
      }
    }
    NameStops(m, 3, e);
  }

  // ---------- tables ----------

  ghost predicate OfRow(m: Subst, row: nat, i: nat) {
    forall k :: k in m ==> exists j: nat :: i <= j && k == OptionMark(row, j)
  }

  lemma {:induction false} TableOf(tokens: Tokens, row: nat, i: nat)
    ensures OfRow(Table(tokens, row, i), row, i)
  {
    hide ProjectOption, OptionMark;
    if tokens != [] {
      TableOf(tokens[1..], row, i + 1);
      var rest := Table(tokens[1..], row, i + 1);
      forall k | k in Table(tokens, row, i) ensures exists j: nat :: i <= j && k == OptionMark(row, j) {
        if k in rest {
          var j: nat :| i + 1 <= j && k == OptionMark(row, j);
        }
      }
    }
  }

  ghost predicate OptionKeys(m: Subst) {
    forall k :: k in m ==> exists r: nat, j: nat :: k == OptionMark(r, j)
  }

  lemma {:induction false} TablesKeys(rows: seq<Tokens>, n: nat)
    requires n <= |rows|
    ensures forall k :: k in Tables(rows, n) ==> exists r: nat, j: nat :: r < n && k == OptionMark(r, j)
    ensures OptionKeys(Tables(rows, n))
  {
    hide OptionMark, Table;
    if n > 0 {
      TablesKeys(rows, n - 1);
      if rows[n - 1] != [] {
        TableOf(rows[n - 1][1..], n - 1, 1);
      }
      forall k | k in Tables(rows, n) ensures exists r: nat, j: nat :: r < n && k == OptionMark(r, j) {
        if k in Tables(rows, n - 1) {
          var r: nat, j: nat :| r < n - 1 && k == OptionMark(r, j);
        } else {
          var j: nat :| 1 <= j && k == OptionMark(n - 1, j);
        }
      }
    }
  }

  /** The joint table reads every row's own marks as that row's table does. */
  lemma {:induction false} TablesAgree(rows: seq<Tokens>, row: nat, n: nat)
    requires row < n <= |rows| && rows[row] != []
    ensures Agrees(Tables(rows, n), Table(rows[row][1..], row, 1))
  {
    hide OptionMark, Table;
    var own := Table(rows[row][1..], row, 1);
    TableOf(rows[row][1..], row, 1);
    if n - 1 > row {
      TablesAgree(rows, row, n - 1);
      var last := if rows[n - 1] == [] then map[] else Table(rows[n - 1][1..], n - 1, 1);
      if rows[n - 1] != [] {
        TableOf(rows[n - 1][1..], n - 1, 1);
      }
      forall k | k in own ensures k !in last {
        var j: nat :| 1 <= j && k == OptionMark(row, j);
        if k in last {
          var i: nat :| 1 <= i && k == OptionMark(n - 1, i);
          MarksApart(row, j, n - 1, i);
          assert false;
        }
      }
    }
  }

  lemma {:induction false} AgreesHead(m: Subst, tokens: Tokens, row: nat, i: nat)
    requires tokens != [] && Agrees(m, Table(tokens, row, i))
    ensures Agrees(m, Table(tokens[1..], row, i + 1))
    ensures ProjectOption(tokens[0]) ==> Lookup(m, OptionMark(row, i)) == tokens[0]
  {
    hide OptionMark, ProjectOption;
    var rest := Table(tokens[1..], row, i + 1);
    TableOf(tokens[1..], row, i + 1);
    if OptionMark(row, i) in rest {
      var j: nat :| i + 1 <= j && OptionMark(row, i) == OptionMark(row, j);
      MarksApart(row, i, row, j);
      assert false;
    }
    assert forall k :: k in rest ==> Table(tokens, row, i)[k] == rest[k];
    if ProjectOption(tokens[0]) {
      assert OptionMark(row, i) in Table(tokens, row, i);
    }
  }

  // ---------- the masked tail stands for the original ----------

  ghost predicate PlainOf(tokens: Tokens) {
    forall i :: 0 <= i < |tokens| ==> !Contains(tokens[i], OPTION_PREFIX)
  }

  lemma {:induction false} NoKey(m: Subst, a: string)
    requires OptionKeys(m) && (!Contains(a, OPTION_PREFIX) || (|a| >= 2 && !(a[0] == '-' && a[1] == 'D')))
    ensures a !in m
  {
    hide OptionMark, Contains;
    if a in m {
      var r: nat, j: nat :| a == OptionMark(r, j);
      OptionMarkShape(r, j);
      assert false;
    }
  }

  lemma {:induction false} MaskHead(tokens: Tokens, row: nat, i: nat)
    requires tokens != []
    ensures |Mask(tokens, row, i)| == |tokens| && Mask(tokens, row, i)[1..] == Mask(tokens[1..], row, i + 1)
    ensures Mask(tokens, row, i)[0] == if ProjectOption(tokens[0]) then OptionMark(row, i) else tokens[0]
  {
    hide ProjectOption, OptionMark;
    MaskLength(tokens, row, i);
  }

  lemma {:induction false} MaskLength(tokens: Tokens, row: nat, i: nat)
    ensures |Mask(tokens, row, i)| == |tokens|
  {
    hide ProjectOption, OptionMark;
    if tokens != [] {
      MaskLength(tokens[1..], row, i + 1);
    }
  }

  lemma {:induction false} OptionRole(a: string)
    requires ProjectOption(a)
    ensures RoleOf(a) == Other && Dashed(a) && ExtraOption(a)
  {
    hide ProjectOption;
    ExtraRole(a);
    ExtraDashed(a);
  }

  lemma {:induction false} MaskStands(tokens: Tokens, row: nat, i: nat, source: string, g: Group, headers: seq<string>, m: Subst)
    requires PlainOf(tokens) && OptionKeys(m) && Agrees(m, Table(tokens, row, i))
    ensures StandsFor(Mask(tokens, row, i), tokens, Bound(source, g, headers), Reviewed(source, g, headers), m)
    decreases |tokens|
  {
    hide ProjectOption, OptionMark, Agrees, Table, Operand, OptionKeys, Contains, IsOutput, IsInclude, IsDependency, StartsI, OptionOk, DefineLike, OPTION_NAME, OPTION_PREFIX, Mask;
    MaskLength(tokens, row, i);
    if tokens != [] {
      var a, masked := tokens[0], Mask(tokens, row, i);
      MaskHead(tokens, row, i);
      AgreesHead(m, tokens, row, i);
      NoKey(m, a);
      assert PlainOf(tokens[1..]);
      MaskStands(tokens[1..], row, i + 1, source, g, headers, m);
      OptionMarkShape(row, i);
      if ProjectOption(a) {
        OptionRole(a);
      } else if |tokens| >= 2 {
        OperandMask(tokens, row, i, source, g, headers, m);
      }
      BoundNoKey(a, g, headers, m);
    }
  }

  lemma {:induction false} BoundNoKey(a: string, g: Group, headers: seq<string>, m: Subst)
    requires OptionKeys(m)
    ensures RoleOf(a) == Joined ==>
      (var bound := Operand(a[2..], "-I", g, headers); bound.Some? ==> Lookup(m, "-I" + bound.value) == "-I" + bound.value)
  {
    hide OptionKeys, OPTION_NAME, OPTION_PREFIX;
    if RoleOf(a) == Joined && Operand(a[2..], "-I", g, headers).Some? {
      var bound := Operand(a[2..], "-I", g, headers).value;
      assert ("-I" + bound)[1] == 'I';
      NoKey(m, "-I" + bound);
    }
  }

  /** The second token: an operand that is an option is refused either way. */
  lemma {:induction false} OperandMask(tokens: Tokens, row: nat, i: nat, source: string, g: Group, headers: seq<string>, m: Subst)
    requires |tokens| >= 2 && PlainOf(tokens) && OptionKeys(m) && Agrees(m, Table(tokens[1..], row, i + 1))
    ensures |Mask(tokens, row, i)| == |tokens|
    ensures var b := Mask(tokens, row, i)[1];
            && (Dashed(b) <==> Dashed(tokens[1]))
            && Passes(Operand(b, tokens[0], g, headers), Operand(tokens[1], tokens[0], g, headers), m)
            && StandsFor(Mask(tokens, row, i)[2..], tokens[2..], Bound(source, g, headers), Reviewed(source, g, headers), m)
    decreases |tokens|, 0
  {
    hide ProjectOption, OptionMark, Agrees, Table, OptionKeys, Contains, StandsFor, OPTION_NAME, OPTION_PREFIX, Mask;
    MaskHead(tokens, row, i);
    MaskHead(tokens[1..], row, i + 1);
    assert tokens[1..][0] == tokens[1] && tokens[1..][1..] == tokens[2..];
    assert Mask(tokens, row, i)[1] == Mask(tokens[1..], row, i + 1)[0];
    assert Mask(tokens, row, i)[2..] == Mask(tokens[1..], row, i + 1)[1..];
    AgreesHead(m, tokens[1..], row, i + 1);
    MaskStands(tokens[2..], row, i + 2, source, g, headers, m);
    OptionMarkShape(row, i + 1);
    if ProjectOption(tokens[1]) {
      OptionRole(tokens[1]);
    } else if Operand(tokens[1], tokens[0], g, headers).Some? {
      OperandSlash(tokens[1], tokens[0], g, headers);
      NoKey(m, Operand(tokens[1], tokens[0], g, headers).value);
    }
  }

  lemma {:induction false} OperandSlash(value: string, flag: string, g: Group, headers: seq<string>)
    requires Operand(value, flag, g, headers).Some?
    ensures |Operand(value, flag, g, headers).value| >= 2 && Operand(value, flag, g, headers).value[0] == '/'
  {
    hide All, Split, CapturedBy;
    var bound := Operand(value, flag, g, headers).value;
    if InSource(value) {
      assert SOURCE[0] == '/';
    } else if Pinned(value) {
      assert bound[0] == '/';
    } else {
      assert SnapshotRoot(g)[0] == '/';
    }
  }

  // ---------- whole rows ----------

  lemma {:induction false} MaskMember(tokens: Tokens, row: nat, i: nat, x: string)
    requires !ProjectOption(x) && forall j: nat :: x != OptionMark(row, j)
    ensures x in Mask(tokens, row, i) <==> x in tokens
  {
    hide ProjectOption, OptionMark;
    if tokens != [] {
      MaskMember(tokens[1..], row, i + 1, x);
      MaskHead(tokens, row, i);
      assert tokens == [tokens[0]] + tokens[1..];
      assert Mask(tokens, row, i) == [Mask(tokens, row, i)[0]] + Mask(tokens[1..], row, i + 1);
    }
  }

  /** Nothing but an option or a mark changes its count, seen or whole. */
  lemma {:induction false} MaskSeen(tokens: Tokens, row: nat, i: nat, x: string)
    requires !ProjectOption(x) && forall j: nat :: x != OptionMark(row, j)
    ensures Count(Seen(Mask(tokens, row, i)), x) == Count(Seen(tokens), x)
    decreases |tokens|
  {
    hide ProjectOption, OptionMark, IsInclude, StartsI, Count, Mask;
    MaskLength(tokens, row, i);
    if tokens != [] {
      var a, b := tokens[0], Mask(tokens, row, i)[0];
      MaskHead(tokens, row, i);
      MarkNotInclude(row, i);
      if ProjectOption(a) {
        OptionNotInclude(a);
      }
      CountOne(a, x);
      CountOne(b, x);
      MaskSeen(tokens[1..], row, i + 1, x);
      if IsInclude(a) {
        if |tokens| >= 2 {
          MaskTwo(tokens, row, i);
          MaskSeen(tokens[2..], row, i + 2, x);
          CountConcat([a], Seen(tokens[2..]), x);
          CountConcat([a], Seen(Mask(tokens[2..], row, i + 2)), x);
        }
      } else {
        CountConcat([a], Seen(tokens[1..]), x);
        CountConcat([b], Seen(Mask(tokens[1..], row, i + 1)), x);
      }
    }
  }

  lemma {:induction false} MaskTwo(tokens: Tokens, row: nat, i: nat)
    requires |tokens| >= 2
    ensures |Mask(tokens, row, i)| == |tokens| && Mask(tokens, row, i)[2..] == Mask(tokens[2..], row, i + 2)
  {
    hide ProjectOption, OptionMark, Mask;
    MaskHead(tokens, row, i);
    MaskHead(tokens[1..], row, i + 1);
    assert tokens[1..][1..] == tokens[2..];
    assert Mask(tokens, row, i)[2..] == Mask(tokens, row, i)[1..][1..];
  }

  lemma {:induction false} MarkNotInclude(row: nat, i: nat)
    ensures !IsInclude(OptionMark(row, i)) && !StartsI(OptionMark(row, i))
  {
    hide OptionMark;
    OptionMarkShape(row, i);
  }

  lemma {:induction false} OptionNotInclude(a: string)
    requires ProjectOption(a)
    ensures !IsInclude(a) && !StartsI(a)
  {
    hide ProjectOption;
    ExtraRole(a);
  }

  lemma {:induction false} OptionPlain(a: string)
    requires ProjectOption(a)
    ensures AllPlain([a])
  {
    if a in PROJECT_OPTIONS {
      ListedPlain(a);
    } else if "-Werror=" <= a && ErrorName(a[8..]) {
      ErrorPlain(a, "-Werror=");
    } else {
      ErrorPlain(a, "-Wno-error=");
    }
  }

  lemma {:induction false} ListedPlain(a: string)
    requires a in PROJECT_OPTIONS
    ensures PlainText(a)
  {}

  lemma {:induction false} ErrorPlain(a: string, head: string)
    requires head <= a && ErrorName(a[|head|..]) && |head| <= 11 && forall i :: 0 <= i < |head| ==> head[i] as int >= 32
    ensures PlainText(a)
  {
    forall i | 0 <= i < |a| ensures a[i] as int >= 32 {
      if i >= |head| {
        assert a[i] == a[|head|..][i - |head|];
      } else {
        assert a[i] == head[i];
      }
    }
  }

  lemma {:induction false} MarkPlain(row: nat, i: nat)
    requires |Decimal(row)| <= 4000 && i < 5000
    ensures AllPlain([OptionMark(row, i)])
  {
    NameChars();
    DecimalShort(i);
    var m, middle := OptionMark(row, i), Decimal(row) + "_" + Decimal(i);
    assert m == "-D" + OPTION_NAME + middle + "=1";
    forall j | 0 <= j < |m| ensures m[j] as int >= 32 {
      if 2 <= j < 24 {
        assert m[j] == OPTION_NAME[j - 2];
      } else if 24 <= j < 24 + |middle| {
        assert m[j] == middle[j - 24];
      } else if j >= 2 {
        assert m[j] == "=1"[j - 24 - |middle|];
      } else {
        assert m[j] == "-D"[j];
      }
    }
  }

  lemma {:induction false} MaskPlain(tokens: Tokens, row: nat, i: nat)
    requires |Decimal(row)| <= 4000 && i + |tokens| < 5000
    ensures AllPlain(Seen(Mask(tokens, row, i))) <==> AllPlain(Seen(tokens))
    decreases |tokens|
  {
    hide ProjectOption, OptionMark, IsInclude, StartsI, AllPlain, Mask;
    MaskLength(tokens, row, i);
    if tokens != [] {
      var a, b := tokens[0], Mask(tokens, row, i)[0];
      MaskHead(tokens, row, i);
      MarkNotInclude(row, i);
      MarkPlain(row, i);
      if ProjectOption(a) {
        OptionNotInclude(a);
        OptionPlain(a);
      }
      MaskPlain(tokens[1..], row, i + 1);
      if IsInclude(a) {
        if |tokens| >= 2 {
          MaskTwo(tokens, row, i);
          MaskPlain(tokens[2..], row, i + 2);
          PlainConcat([a], Seen(tokens[2..]));
          PlainConcat([a], Seen(Mask(tokens[2..], row, i + 2)));
        }
      } else {
        PlainConcat([a], Seen(tokens[1..]));
        PlainConcat([b], Seen(Mask(tokens[1..], row, i + 1)));
      }
    }
  }

  lemma {:induction false} MaskClashes(tokens: Tokens, row: nat, i: nat, j: nat, argv: Tokens, masked: Tokens)
    requires forall k: nat :: (Marker(k) in masked <==> Marker(k) in argv) && ("-I" + Marker(k) in masked <==> "-I" + Marker(k) in argv)
    ensures Clashes(Mask(tokens, row, i), j, masked) == Clashes(tokens, j, argv)
    decreases |tokens|
  {
    hide ProjectOption, OptionMark, IsInclude, StartsI, Marker, Mask;
    MaskLength(tokens, row, i);
    if tokens != [] {
      MaskHead(tokens, row, i);
      MarkNotInclude(row, i);
      if ProjectOption(tokens[0]) {
        OptionNotInclude(tokens[0]);
      }
      MaskClashes(tokens[1..], row, i + 1, j + 1, argv, masked);
      if |tokens| >= 2 {
        MaskTwo(tokens, row, i);
        MaskClashes(tokens[2..], row, i + 2, j + 2, argv, masked);
      }
    }
  }

  lemma {:induction false} MaskBorrowed(tokens: Tokens, row: nat, i: nat, j: nat, x: string)
    ensures Borrowed(Mask(tokens, row, i), j, x) == Borrowed(tokens, j, x)
    decreases |tokens|
  {
    hide ProjectOption, OptionMark, IsInclude, StartsI, Marker, Mask;
    MaskLength(tokens, row, i);
    if tokens != [] {
      MaskHead(tokens, row, i);
      MarkNotInclude(row, i);
      if ProjectOption(tokens[0]) {
        OptionNotInclude(tokens[0]);
      }
      MaskBorrowed(tokens[1..], row, i + 1, j + 1, x);
      if |tokens| >= 2 {
        MaskTwo(tokens, row, i);
        MaskBorrowed(tokens[2..], row, i + 2, j + 2, x);
      }
    }
  }

  lemma {:induction false} MarkersUnmasked(k: nat, row: nat)
    ensures !ProjectOption(Marker(k)) && !ProjectOption("-I" + Marker(k))
    ensures forall j: nat :: Marker(k) != OptionMark(row, j) && "-I" + Marker(k) != OptionMark(row, j)
  {
    hide Marker, OptionMark, ProjectOption;
    MarkerShape(k);
    SlashNoOption(Marker(k));
    JoinedNoOption("-I" + Marker(k));
    forall j: nat ensures Marker(k) != OptionMark(row, j) && "-I" + Marker(k) != OptionMark(row, j) {
      OptionMarkShape(row, j);
      assert ("-I" + Marker(k))[1] == 'I';
    }
  }

  lemma {:induction false} SlashNoOption(a: string)
    requires a != "" && a[0] == '/'
    ensures !ProjectOption(a)
  {
    hide ProjectOption;
    if ProjectOption(a) {
      OptionRole(a);
      assert false;
    }
  }

  lemma {:induction false} JoinedNoOption(a: string)
    requires StartsI(a)
    ensures !ProjectOption(a)
  {
    hide ProjectOption;
    if ProjectOption(a) {
      OptionNotInclude(a);
      assert false;
    }
  }

  lemma {:induction false} OptionLong(a: string)
    requires |a| <= 2
    ensures !ProjectOption(a)
  {
    hide PROJECT_OPTIONS, ErrorName;
    ListedLong(a);
  }

  lemma {:induction false} ListedLong(a: string)
    ensures a in PROJECT_OPTIONS ==> |a| > 2
  {}

  lemma {:induction false} FlagsNoOption(row: nat)
    ensures !ProjectOption("-c") && !ProjectOption("-o")
    ensures forall j: nat :: "-c" != OptionMark(row, j) && "-o" != OptionMark(row, j)
  {
    hide OptionMark, ProjectOption;
    OptionLong("-c");
    OptionLong("-o");
    forall j: nat ensures "-c" != OptionMark(row, j) && "-o" != OptionMark(row, j) {
      OptionMarkShape(row, j);
    }
  }

  lemma {:induction false} PathNoOption(source: string, row: nat)
    requires source != "" && source[0] == '/'
    ensures !ProjectOption(source) && forall j: nat :: source != OptionMark(row, j)
  {
    hide OptionMark, ProjectOption;
    SlashNoOption(source);
    forall j: nat ensures source != OptionMark(row, j) {
      OptionMarkShape(row, j);
    }
  }

  lemma {:induction false} MaskWhole(head: string, tail: Tokens, row: nat, source: string, stem: string, borrowed: nat)
    requires |Decimal(row)| <= 4000
    ensures Whole([head] + Mask(tail, row, 1), source, stem, borrowed) <==> Whole([head] + tail, source, stem, borrowed)
  {
    hide Mask, Seen, Count, PlainText, Compiler, SourcePath, StemOk, ProjectOption, OptionMark;
    var masked := Mask(tail, row, 1);
    MaskLength(tail, row, 1);
    FlagsNoOption(row);
    MaskSeen(tail, row, 1, "-c");
    MaskSeen(tail, row, 1, "-o");
    HeadCounts(head, Seen(masked), Seen(tail), "-c");
    HeadCounts(head, Seen(masked), Seen(tail), "-o");
    if SourcePath(source) {
      SourceNotJoined(source);
      PathNoOption(source, row);
      MaskSeen(tail, row, 1, source);
      HeadCounts(head, Seen(masked), Seen(tail), source);
    }
    assert ([head] + masked)[1..] == masked && ([head] + tail)[1..] == tail;
    if |tail| < 4096 {
      MaskPlain(tail, row, 1);
      PlainConcat([head], Seen(masked));
      PlainConcat([head], Seen(tail));
      PlainMeans([head] + Seen(masked));
      PlainMeans([head] + Seen(tail));
    }
  }

  lemma {:induction false} RestoreRow(head: string, kept: Tokens, stem: string, m: Subst)
    requires OptionKeys(m) && StemOk(stem) && !Contains(head, OPTION_PREFIX)
    ensures Restore([head] + kept + Destinations(stem), m) == [head] + Restore(kept, m) + Destinations(stem)
  {
    hide StemOk, Restore, OptionKeys, Contains, OPTION_NAME, OPTION_PREFIX;
    StemTop(stem);
    RestoreConcat([head] + kept, Destinations(stem), m);
    RestoreConcat([head], kept, m);
    NoKey(m, head);
    RestoreSame([head], m);
    forall t | t in Destinations(stem) ensures t !in m {
      assert |t| >= 2 && (t[0] == '-' ==> t[1] == 'o' || t[1] == 'M');
      NoKey(m, t);
    }
    RestoreSame(Destinations(stem), m);
  }

  /** Every row of a database comes out as its own direct rewrite, reviewed options in
      their original places, whatever the other rows hold. */
  lemma {:induction false} OptionsAgree(rows: seq<Tokens>, row: nat, source: string, stem: string, g: Group, headers: seq<string>)
    requires row < |rows| && |Decimal(row)| <= 4000
    ensures ViaOptions(rows, row, source, stem, g, headers) ==
              if !Unmarked(rows) || Clashes(rows[row][1..], 1, rows[row]) then None
              else DirectRow(rows[row], source, stem, g, headers, Borrowed(rows[row][1..], 1, source))
  {
    hide Mask, Tables, Table, OptionMark, ProjectOption, Clashes, Whole, Rewrite, Restore, Bound, Reviewed, Destinations, Agrees, HeadersOk, ViaMarkers, StemOk,
         OptionKeys, Contains, OPTION_NAME, OPTION_PREFIX, Marker, Borrowed;
    if Unmarked(rows) {
      var argv, m := rows[row], Tables(rows, |rows|);
      var head, tail := argv[0], argv[1..];
      var masked := [head] + Mask(tail, row, 1);
      assert argv == [head] + tail && masked[1..] == Mask(tail, row, 1);
      TablesKeys(rows, |rows|);
      TablesAgree(rows, row, |rows|);
      MaskStands(tail, row, 1, source, g, headers, m);
      SwapsBack(Mask(tail, row, 1), tail, Bound(source, g, headers), Reviewed(source, g, headers), m);
      forall k: nat ensures (Marker(k) in masked <==> Marker(k) in argv) && ("-I" + Marker(k) in masked <==> "-I" + Marker(k) in argv) {
        MarkersUnmasked(k, row);
        MaskMember(tail, row, 1, Marker(k));
        MaskMember(tail, row, 1, "-I" + Marker(k));
      }
      MaskClashes(tail, row, 1, 1, argv, masked);
      MaskBorrowed(tail, row, 1, 1, source);
      MarkersAgree(masked, source, stem, g, headers);
      MaskWhole(head, tail, row, source, stem, Borrowed(tail, 1, source));
      RowEnds(rows, row, source, stem, g, headers);
    }
  }

  lemma {:induction false} WholeHasStem(argv: Tokens, source: string, stem: string, borrowed: nat)
    requires argv != [] && Whole(argv, source, stem, borrowed)
    ensures StemOk(stem)
  {
    hide Seen, Count, PlainText, SourcePath, StemOk;
  }

  lemma {:induction false} RowEnds(rows: seq<Tokens>, row: nat, source: string, stem: string, g: Group, headers: seq<string>)
    requires row < |rows| && Unmarked(rows) && OptionKeys(Tables(rows, |rows|))
    requires var argv := rows[row];
             var masked, borrowed := [argv[0]] + Mask(argv[1..], row, 1), Borrowed(argv[1..], 1, source);
             && RestoreAll(Rewrite(Mask(argv[1..], row, 1), Bound(source, g, headers)), Tables(rows, |rows|)) == Rewrite(argv[1..], Reviewed(source, g, headers))
             && Clashes(Mask(argv[1..], row, 1), 1, masked) == Clashes(argv[1..], 1, argv)
             && ViaMarkers(masked, source, stem, g, headers) == (if Clashes(masked[1..], 1, masked) then None else Directly(masked, source, stem, g, headers, borrowed))
             && (Whole(masked, source, stem, borrowed) <==> Whole([argv[0]] + argv[1..], source, stem, borrowed))
    ensures ViaOptions(rows, row, source, stem, g, headers) ==
              if Clashes(rows[row][1..], 1, rows[row]) then None else DirectRow(rows[row], source, stem, g, headers, Borrowed(rows[row][1..], 1, source))
  {
    hide Mask, Tables, Clashes, Whole, Rewrite, Restore, Bound, Reviewed, Destinations, HeadersOk, ViaMarkers, StemOk, OptionKeys, Contains, OPTION_NAME, OPTION_PREFIX,
         Borrowed, GroupStem;
    var argv, m := rows[row], Tables(rows, |rows|);
    var masked, borrowed := [argv[0]] + Mask(argv[1..], row, 1), Borrowed(argv[1..], 1, source);
    assert argv == [argv[0]] + argv[1..] && masked[1..] == Mask(argv[1..], row, 1);
    assert !Contains(argv[0], OPTION_PREFIX);
    if Whole(argv, source, stem, borrowed) && Rewrite(masked[1..], Bound(source, g, headers)).Some? {
      WholeHasStem(argv, source, stem, borrowed);
      RestoreRow(argv[0], Rewrite(masked[1..], Bound(source, g, headers)).value, stem, m);
    }
  }
}
