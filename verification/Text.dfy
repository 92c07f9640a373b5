/** Strings as the path and argument checks read them. */
module Text {
  /** s contains sub somewhere. */
  predicate Contains(s: string, sub: string) {
    sub <= s || (s != "" && Contains(s[1..], sub))
  }

  predicate Digit(c: char) { '0' <= c <= '9' }
  predicate Letter(c: char) { 'a' <= c <= 'z' || 'A' <= c <= 'Z' }
  predicate PathChar(c: char) { Letter(c) || Digit(c) || c == '_' || c == '.' || c == '/' || c == '+' || c == '-' }

  predicate All(s: string, from: nat)
    requires from <= |s|
  {
    forall i :: from <= i < |s| ==> PathChar(s[i])
  }

  /** The parts between slashes; always at least one. */
  function Split(s: string): (r: seq<string>)
    ensures r != []
  {
    if s == "" then [""]
    else
      var rest := Split(s[1..]);
      if s[0] == '/' then [""] + rest else [[s[0]] + rest[0]] + rest[1..]
  }

  lemma {:induction false} SplitOne(s: string)
    requires forall i :: 0 <= i < |s| ==> s[i] != '/'
    ensures Split(s) == [s]
  {
    if s != "" {
      SplitOne(s[1..]);
      assert [s[0]] + s[1..] == s;
    }
  }

  lemma {:induction false} SplitCons(c: char, s: string)
    ensures Split([c] + s) == if c == '/' then [""] + Split(s) else [[c] + Split(s)[0]] + Split(s)[1..]
  {
    assert ([c] + s)[1..] == s;
  }

  lemma {:induction false} SplitEmpty()
    ensures Split("") == [""]
  {}

  lemma {:induction false} SplitJoin(a: string, b: string)
    ensures Split(a + "/" + b) == Split(a) + Split(b)
  {
    hide Split;
    if a == "" {
      SplitEmpty();
      SplitCons('/', b);
      assert a + "/" + b == ['/'] + b;
    } else {
      var c, rest := a[0], a[1..];
      var whole := rest + "/" + b;
      SplitJoin(rest, b);
      SplitCons(c, whole);
      SplitCons(c, rest);
      assert [c] + rest == a;
      assert [c] + whole == a + "/" + b;
      PutFirst(c, Split(rest), Split(b));
    }
  }

  lemma {:induction false} PutFirst(c: char, x: seq<string>, y: seq<string>)
    requires x != []
    ensures [""] + (x + y) == [""] + x + y
    ensures [[c] + (x + y)[0]] + (x + y)[1..] == [[c] + x[0]] + x[1..] + y
  {
    assert (x + y)[1..] == x[1..] + y;
  }

  // ---------- decimal numerals ----------

  function DigitOf(n: nat): char
    requires n < 10
  {
    "0123456789"[n]
  }

  function Decimal(n: nat): (r: string)
    ensures r != "" && forall i :: 0 <= i < |r| ==> Digit(r[i])
  {
    if n < 10 then [DigitOf(n)] else Decimal(n / 10) + [DigitOf(n % 10)]
  }

  function Value(s: string): int {
    if s == "" then 0 else 10 * Value(s[..|s| - 1]) + (s[|s| - 1] as int - '0' as int)
  }

  lemma {:induction false} DecimalValue(n: nat)
    ensures Value(Decimal(n)) == n
  {
    var s := Decimal(n);
    if n >= 10 {
      DecimalValue(n / 10);
      assert s[..|s| - 1] == Decimal(n / 10);
      assert s[|s| - 1] == DigitOf(n % 10);
    } else {
      assert s[..0] == "";
      assert Value(s) == s[0] as int - '0' as int;
    }
  }

  /** Different numbers have different numerals. */
  lemma {:induction false} DecimalInjective(m: nat, n: nat)
    requires Decimal(m) == Decimal(n)
    ensures m == n
  {
    DecimalValue(m);
    DecimalValue(n);
  }

  lemma {:induction false} PrefixedInjective(prefix: string, m: nat, n: nat)
    requires prefix + Decimal(m) == prefix + Decimal(n)
    ensures m == n
  {
    assert (prefix + Decimal(m))[|prefix|..] == Decimal(m);
    assert (prefix + Decimal(n))[|prefix|..] == Decimal(n);
    DecimalInjective(m, n);
  }

  lemma {:induction false} ContainsMiddle(a: string, sub: string, b: string)
    ensures Contains(a + sub + b, sub)
  {
    if a == "" {
      assert a + sub + b == sub + b;
    } else {
      assert (a + sub + b)[1..] == a[1..] + sub + b;
      ContainsMiddle(a[1..], sub, b);
    }
  }

  lemma {:induction false} DecimalShort(n: nat)
    requires n < 10000
    ensures |Decimal(n)| <= 4
  {
    if n >= 10 {
      assert |Decimal(n)| == |Decimal(n / 10)| + 1;
      if n >= 100 {
        assert |Decimal(n / 10)| == |Decimal(n / 10 / 10)| + 1;
        if n >= 1000 {
          assert |Decimal(n / 10 / 10)| == |Decimal(n / 10 / 10 / 10)| + 1;
        }
      }
    }
  }
}
