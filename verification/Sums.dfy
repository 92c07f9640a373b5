/** Finite sums over a set of keys, the accounting tool of the allocator. */
module Sums {

  ghost function Sum<K(!new)>(s: set<K>, f: K -> int): int
  {
    if s == {} then 0 else
    var k :| k in s;
    f(k) + Sum(s - {k}, f)
  }

  lemma {:induction false} SumEmpty<K(!new)>(f: K -> int)
    ensures Sum({}, f) == 0
  {}

  /** The choice made by Sum does not matter: any element can be taken out. */
  lemma {:induction false} SumRemove<K(!new)>(s: set<K>, f: K -> int, k: K)
    requires k in s
    ensures Sum(s, f) == f(k) + Sum(s - {k}, f)
    decreases s
  {
    var e :| e in s && Sum(s, f) == f(e) + Sum(s - {e}, f);
    if e != k {
      SumRemove(s - {e}, f, k);
      SumRemove(s - {k}, f, e);
      assert s - {e} - {k} == s - {k} - {e};
    }
  }

  lemma {:induction false} SumUnion<K(!new)>(a: set<K>, b: set<K>, f: K -> int)
    requires a !! b
    ensures Sum(a + b, f) == Sum(a, f) + Sum(b, f)
    decreases a
  {
    if a == {} {
      assert a + b == b;
    } else {
      var k :| k in a;
      SumRemove(a, f, k);
      SumRemove(a + b, f, k);
      assert (a + b) - {k} == (a - {k}) + b;
      SumUnion(a - {k}, b, f);
    }
  }

  /** Sums only look at the values on their own keys. */
  lemma {:induction false} SumAgree<K(!new)>(s: set<K>, f: K -> int, g: K -> int)
    requires forall k :: k in s ==> f(k) == g(k)
    ensures Sum(s, f) == Sum(s, g)
    decreases s
  {
    if s != {} {
      var k :| k in s;
      SumRemove(s, f, k);
      SumRemove(s, g, k);
      SumAgree(s - {k}, f, g);
    }
  }

  /** A cross-multiplied comparison that holds of every key holds of the sums. */
  lemma {:induction false} SumScaledLe<K(!new)>(s: set<K>, a: int, f: K -> int, b: int, g: K -> int)
    requires forall k :: k in s ==> a * f(k) <= b * g(k)
    ensures a * Sum(s, f) <= b * Sum(s, g)
    decreases s
  {
    if s != {} {
      var k :| k in s;
      SumRemove(s, f, k);
      SumRemove(s, g, k);
      SumScaledLe(s - {k}, a, f, b, g);
      Distribute(a, f(k), Sum(s - {k}, f));
      Distribute(b, g(k), Sum(s - {k}, g));
    }
  }

  lemma {:induction false} SumScaledLt<K(!new)>(s: set<K>, a: int, f: K -> int, b: int, g: K -> int)
    requires s != {}
    requires forall k :: k in s ==> a * f(k) < b * g(k)
    ensures a * Sum(s, f) < b * Sum(s, g)
  {
    var k :| k in s;
    SumRemove(s, f, k);
    SumRemove(s, g, k);
    SumScaledLe(s - {k}, a, f, b, g);
    Distribute(a, f(k), Sum(s - {k}, f));
    Distribute(b, g(k), Sum(s - {k}, g));
  }

  lemma {:induction false} SumPositive<K(!new)>(s: set<K>, f: K -> int)
    requires forall k :: k in s ==> f(k) > 0
    ensures Sum(s, f) >= |s|
    decreases s
  {
    if s != {} {
      var k :| k in s;
      SumRemove(s, f, k);
      SumPositive(s - {k}, f);
    }
  }

  lemma {:induction false} SumPlusOne<K(!new)>(s: set<K>, f: K -> int, g: K -> int)
    requires forall k :: k in s ==> g(k) == f(k) + 1
    ensures Sum(s, g) == Sum(s, f) + |s|
    decreases s
  {
    if s != {} {
      var k :| k in s;
      SumRemove(s, f, k);
      SumRemove(s, g, k);
      SumPlusOne(s - {k}, f, g);
    }
  }

  lemma {:induction false} Distribute(a: int, x: int, y: int)
    ensures a * (x + y) == a * x + a * y
  {}
}
