/** Lists of names: code-point order, Python's `sorted`, and filtering in order. */
module Names {

  predicate Before(a: string, b: string) {
    if a == "" then true
    else if b == "" then false
    else a[0] < b[0] || (a[0] == b[0] && Before(a[1..], b[1..]))
  }

  lemma {:induction false} BeforeTotal(a: string, b: string)
    ensures Before(a, b) || Before(b, a)
    ensures Before(a, b) && Before(b, a) ==> a == b
    decreases |a|
  {
    if a != "" && b != "" {
      BeforeTotal(a[1..], b[1..]);
      assert a == [a[0]] + a[1..] && b == [b[0]] + b[1..];
    }
  }

  lemma {:induction false} BeforeTransitive(a: string, b: string, c: string)
    requires Before(a, b) && Before(b, c)
    ensures Before(a, c)
    decreases |a|
  {
    if a != "" && a[0] == b[0] == c[0] {
      BeforeTransitive(a[1..], b[1..], c[1..]);
    }
  }

  ghost predicate Sorted(names: seq<string>) {
    forall i, j :: 0 <= i < j < |names| ==> Before(names[i], names[j])
  }

  predicate Distinct<T(==)>(items: seq<T>) {
    forall i, j :: 0 <= i < j < |items| ==> items[i] != items[j]
  }

  function Insert(name: string, names: seq<string>): (r: seq<string>)
    ensures multiset(r) == multiset([name]) + multiset(names)
    ensures Sorted(names) ==> Sorted(r)
  {
    if names == [] then [name]
    else if Before(name, names[0]) then
      assert [name] + names == [name] + [names[0]] + names[1..];
      assert Sorted(names) ==> Sorted([name] + names) by {
        if Sorted(names) {
          forall j | 0 <= j < |names| ensures Before(name, names[j]) {
            if j > 0 { BeforeTransitive(name, names[0], names[j]); }
          }
        }
      }
      [name] + names
    else
      var tail := Insert(name, names[1..]);
      assert names == [names[0]] + names[1..];
      assert Sorted(names) ==> Sorted([names[0]] + tail) by {
        if Sorted(names) {
          forall j | 0 <= j < |tail| ensures Before(names[0], tail[j]) {
            BeforeTotal(name, names[0]);
            assert tail[j] in multiset(tail);
            assert tail[j] == name || tail[j] in multiset(names[1..]);
            if tail[j] != name { assert tail[j] in names[1..]; }
          }
        }
      }
      [names[0]] + tail
  }

  /** Python's sorted(): the same names, each as often, in code-point order. */
  function Sort(names: seq<string>): (r: seq<string>)
    ensures multiset(r) == multiset(names)
    ensures Sorted(r)
  {
    if names == [] then []
    else
      assert names == [names[0]] + names[1..];
      Insert(names[0], Sort(names[1..]))
  }

  /** The listed names that belong to `keep`, in the order they were listed. */
  function Select(names: seq<string>, keep: set<string>): (r: seq<string>)
    ensures forall n :: n in r <==> n in names && n in keep
    ensures |r| <= |names|
  {
    if names == [] then []
    else
      var tail := Select(names[1..], keep);
      assert names == [names[0]] + names[1..];
      if names[0] in keep then [names[0]] + tail else tail
  }

  lemma {:induction false} SelectSplits(names: seq<string>, p: set<string>, q: set<string>)
    requires forall n :: n in names ==> (n in p <==> n !in q)
    ensures multiset(Select(names, p)) + multiset(Select(names, q)) == multiset(names)
  {
    if names != [] {
      assert names == [names[0]] + names[1..];
      SelectSplits(names[1..], p, q);
    }
  }

  /** Selecting twice is selecting what belongs to both. */
  lemma {:induction false} SelectTwice(names: seq<string>, p: set<string>, q: set<string>)
    ensures Select(Select(names, p), q) == Select(names, p * q)
  {
    if names != [] {
      SelectTwice(names[1..], p, q);
      if names[0] in p {
        assert ([names[0]] + Select(names[1..], p))[1..] == Select(names[1..], p);
      }
    }
  }

  lemma {:induction false} SelectAll(names: seq<string>, keep: set<string>)
    requires forall n :: n in names ==> n in keep
    ensures Select(names, keep) == names
  {
    if names != [] {
      SelectAll(names[1..], keep);
    }
  }

  // ---------- sorted(set(...)) ----------

  function Unique(names: seq<string>): (r: seq<string>)
    ensures forall n :: n in r <==> n in names
    ensures Distinct(r)
  {
    if names == [] then []
    else
      var rest := Unique(names[1..]);
      assert names == [names[0]] + names[1..];
      if names[0] in rest then rest else [names[0]] + rest
  }

  function SortedSet(names: seq<string>): seq<string> {
    Sort(Unique(names))
  }

  /** The same names, each once. */
  lemma {:induction false} SortedSetHas(names: seq<string>)
    ensures forall n :: n in SortedSet(names) <==> n in names
    ensures Distinct(SortedSet(names))
  {
    var u := Unique(names);
    forall n ensures n in Sort(u) <==> n in u {
      assert n in Sort(u) <==> n in multiset(Sort(u));
      assert n in u <==> n in multiset(u);
    }
    DistinctSort(u, Sort(u));
  }

  lemma {:induction false} DistinctSort(a: seq<string>, b: seq<string>)
    requires multiset(a) == multiset(b) && Distinct(a)
    ensures Distinct(b)
  {
    forall i, j | 0 <= i < j < |b| ensures b[i] != b[j] {
      if b[i] == b[j] {
        Twice(b, i, j);
        Once(a, b[i]);
        assert false;
      }
    }
  }

  lemma {:induction false} Twice(b: seq<string>, i: nat, j: nat)
    requires i < j < |b| && b[i] == b[j]
    ensures multiset(b)[b[i]] >= 2
  {
    assert b == b[..j] + [b[j]] + b[j + 1..];
    assert b[i] in b[..j];
  }

  lemma {:induction false} Once(a: seq<string>, x: string)
    requires Distinct(a)
    ensures multiset(a)[x] <= 1
  {
    if a != [] {
      assert a == [a[0]] + a[1..];
      Once(a[1..], x);
      if x == a[0] {
        assert x !in a[1..];
      }
    }
  }
}
