/** Populations of relative paths: the fast ancestor check is the quadratic one, and
    what passes it can be the files of one tree. */
module ProjectPaths {
  import opened Text
  import opened Names

  const MAX_FILES := 2048

  predicate PartsOk(parts: seq<string>) {
    forall i :: 0 <= i < |parts| ==> parts[i] != "" && parts[i] != "." && parts[i] != ".." && parts[i] != ".git"
  }

  predicate PathOk(p: string) {
    && 1 <= |p| <= 1000 && (Letter(p[0]) || Digit(p[0]) || p[0] == '_') && All(p, 1)
    && PartsOk(Split(p))
  }

  /** Sorted without repetition. */
  predicate Ordered(paths: seq<string>) {
    forall i, j :: 0 <= i < j < |paths| ==> Before(paths[i], paths[j]) && paths[i] != paths[j]
  }

  function Join(parts: seq<string>): string
    requires parts != []
  {
    if |parts| == 1 then parts[0] else parts[0] + "/" + Join(parts[1..])
  }

  /** No proper prefix of a path's parts is itself a member: one set lookup a prefix. */
  predicate FastCheck(paths: seq<string>) {
    var members := set p | p in paths;
    forall p :: p in paths ==> forall i :: 1 <= i < |Split(p)| ==> Join(Split(p)[..i]) !in members
  }

  /** No path starts with another one and a slash: every pair is compared. */
  predicate PairCheck(paths: seq<string>) {
    forall p, other :: p in paths && other in paths && p != other ==> !(other + "/" <= p)
  }

  predicate PathsOk(paths: seq<string>) {
    |paths| <= MAX_FILES && (forall i :: 0 <= i < |paths| ==> PathOk(paths[i])) && Ordered(paths) && FastCheck(paths)
  }

  // ---------- splitting and joining ----------

  lemma {:induction false} JoinSplit(s: string)
    ensures Join(Split(s)) == s
  {
    if s != "" {
      JoinSplit(s[1..]);
      var rest := Split(s[1..]);
      if s[0] == '/' {
        assert ([""] + rest)[1..] == rest;
        assert "" + "/" + s[1..] == s;
      } else {
        var first := [s[0]] + rest[0];
        assert ([first] + rest[1..])[1..] == rest[1..];
        assert s == [s[0]] + s[1..];
        if |rest| > 1 {
          assert first + "/" + Join(rest[1..]) == [s[0]] + (rest[0] + "/" + Join(rest[1..]));
        }
      }
    }
  }

  lemma {:induction false} JoinConcat(a: seq<string>, b: seq<string>)
    requires a != [] && b != []
    ensures Join(a + b) == Join(a) + "/" + Join(b)
  {
    if |a| == 1 {
      assert (a + b)[1..] == b;
    } else {
      assert (a + b)[1..] == a[1..] + b;
      JoinConcat(a[1..], b);
      assert a[0] + "/" + (Join(a[1..]) + "/" + Join(b)) == a[0] + "/" + Join(a[1..]) + "/" + Join(b);
    }
  }

  /** The parts of one path start the parts of another. */
  predicate Above(other: string, p: string) {
    |Split(other)| < |Split(p)| && Split(p)[..|Split(other)|] == Split(other)
  }

  /** Starting with another path and a slash is having its parts as a proper prefix. */
  lemma {:induction false} AboveMeans(other: string, p: string)
    ensures other + "/" <= p <==> Above(other, p)
  {
    if other + "/" <= p {
      var rest := p[|other| + 1..];
      assert p == other + "/" + rest;
      SplitJoin(other, rest);
      assert Split(p)[..|Split(other)|] == Split(other);
    }
    if Above(other, p) {
      var n := |Split(other)|;
      assert Split(p) == Split(p)[..n] + Split(p)[n..];
      JoinConcat(Split(p)[..n], Split(p)[n..]);
      JoinSplit(p);
      JoinSplit(other);
    }
  }

  /** The set-based check accepts exactly the lists the pairwise check accepts. */
  lemma {:induction false} FastIsPair(paths: seq<string>)
    ensures FastCheck(paths) <==> PairCheck(paths)
  {
    if FastCheck(paths) {
      forall p, other | p in paths && other in paths && p != other ensures !(other + "/" <= p) {
        AboveMeans(other, p);
        JoinSplit(other);
      }
    }
    if PairCheck(paths) {
      forall p, i | p in paths && 1 <= i < |Split(p)| ensures Join(Split(p)[..i]) !in paths {
        var other := Join(Split(p)[..i]);
        PrefixStarts(p, i);
      }
    }
  }

  lemma {:induction false} PrefixStarts(p: string, i: nat)
    requires 1 <= i < |Split(p)|
    ensures Join(Split(p)[..i]) + "/" <= p && Join(Split(p)[..i]) != p
  {
    assert Split(p) == Split(p)[..i] + Split(p)[i..];
    JoinConcat(Split(p)[..i], Split(p)[i..]);
    JoinSplit(p);
  }

  // ---------- one tree ----------

  type Name = seq<string>

  /** Every directory on the way to one of these files. */
  ghost function Directories(paths: seq<string>): iset<Name> {
    iset p, i | p in paths && 0 <= i < |Split(p)| :: Split(p)[..i]
  }

  /** The paths can all be files of one tree: no file is also a directory, and different
      paths are different files. */
  ghost predicate OneTree(paths: seq<string>) {
    && (forall p :: p in paths ==> Split(p) !in Directories(paths))
    && (forall p, other :: p in paths && other in paths && Split(p) == Split(other) ==> p == other)
  }

  /** A population passes the check exactly when one tree can hold it. */
  lemma {:induction false} FastMeansOneTree(paths: seq<string>)
    ensures FastCheck(paths) <==> OneTree(paths)
  {
    FastIsPair(paths);
    if PairCheck(paths) {
      forall p | p in paths ensures Split(p) !in Directories(paths) {
        if Split(p) in Directories(paths) {
          var q, i :| q in paths && 0 <= i < |Split(q)| && Split(q)[..i] == Split(p);
          assert Above(p, q);
          AboveMeans(p, q);
          assert false;
        }
      }
      forall p, other | p in paths && other in paths && Split(p) == Split(other) ensures p == other {
        JoinSplit(p);
        JoinSplit(other);
      }
    }
    if OneTree(paths) {
      forall p, other | p in paths && other in paths && p != other ensures !(other + "/" <= p) {
        AboveMeans(other, p);
      }
    }
  }
}
