/** The receipt-budget allocator of the full-project runner: a capped, weighted,
    integer water-filling loop that shares one byte cap among every capture. */
module CaptureLimits {
  import opened Sums
  import opened Results

  datatype Slot = Slot(weight: nat, ceiling: nat)

  ghost predicate Positive<K(!new)>(slots: map<K, Slot>) {
    forall k :: k in slots ==> slots[k].weight > 0
  }

  ghost function Weight<K(!new)>(slots: map<K, Slot>): K -> int {
    k => if k in slots then slots[k].weight else 0
  }

  ghost function Ceiling<K(!new)>(slots: map<K, Slot>): K -> int {
    k => if k in slots then slots[k].ceiling else 0
  }

  /** Bytes left for the slots outside `capped`. */
  ghost function Left<K(!new)>(slots: map<K, Slot>, budget: int, capped: set<K>): int {
    budget - Sum(capped, Ceiling(slots))
  }

  /** Weight that still shares those bytes. */
  ghost function Load<K(!new)>(slots: map<K, Slot>, capped: set<K>): int {
    Sum(slots.Keys - capped, Weight(slots))
  }

  /** The level Left/Load is final: exactly the capped slots would receive at least
      their ceiling from it. */
  ghost predicate Settled<K(!new)>(slots: map<K, Slot>, budget: int, capped: set<K>) {
    && capped <= slots.Keys
    && Left(slots, budget, capped) >= 0
    && (forall k :: k in slots.Keys - capped ==>
          Left(slots, budget, capped) * slots[k].weight < slots[k].ceiling * Load(slots, capped))
    && (capped != slots.Keys ==> forall k :: k in capped ==>
          Left(slots, budget, capped) * slots[k].weight >= slots[k].ceiling * Load(slots, capped))
  }

  /** What every slot receives at the level fixed by `capped`. */
  ghost predicate Poured<K(!new)>(slots: map<K, Slot>, budget: int, capped: set<K>, limits: map<K, int>) {
    && limits.Keys == slots.Keys
    && (forall k :: k in capped && k in slots ==> limits[k] == slots[k].ceiling)
    && (forall k :: k in slots.Keys - capped ==>
          Load(slots, capped) > 0 &&
          limits[k] == Left(slots, budget, capped) * slots[k].weight / Load(slots, capped))
  }

  /** The limits come from one final rational level. */
  ghost predicate IsPouring<K(!new)>(slots: map<K, Slot>, budget: int, limits: map<K, int>) {
    exists capped :: Settled(slots, budget, capped) && Poured(slots, budget, capped, limits)
  }

  // ---------- arithmetic of integer shares ----------

  /** The floored share reaches an integer ceiling exactly when the rational share does. */
  lemma {:induction false} FloorReaches(n: int, d: int, c: int)
    requires d > 0
    ensures n / d >= c <==> n >= c * d
  {
    assert n == d * (n / d) + n % d;
    if n / d >= c {
      assert d * (n / d) >= d * c;
    } else {
      assert d * (n / d) <= d * (c - 1);
    }
  }

  lemma {:induction false} CancelLe(a: int, b: int, d: int)
    requires d > 0 && a * d <= b * d
    ensures a <= b
  {}

  lemma {:induction false} FloorMonotone(a: int, b: int, d: int, e: int, w: int)
    requires d > 0 && e > 0 && w >= 0
    requires a * e <= b * d
    ensures a * w / d <= b * w / e
  {
    var q := a * w / d;
    FloorReaches(a * w, d, q);
    assert q * d * e <= a * w * e;
    assert a * w * e == w * (a * e) <= w * (b * d) by { assert w * (a * e) <= w * (b * d); }
    assert (q * e) * d <= (b * w) * d;
    CancelLe(q * e, b * w, d);
    FloorReaches(b * w, e, q);
  }

  // ---------- one round ----------

  lemma {:induction false} Shrinks<K(!new)>(slots: map<K, Slot>, budget: int, capped: set<K>, more: set<K>)
    requires capped <= slots.Keys && more <= slots.Keys - capped
    ensures Left(slots, budget, capped + more) == Left(slots, budget, capped) - Sum(more, Ceiling(slots))
    ensures Load(slots, capped + more) == Load(slots, capped) - Sum(more, Weight(slots))
  {
    SumUnion(capped, more, Ceiling(slots));
    SumUnion(slots.Keys - (capped + more), more, Weight(slots));
    assert slots.Keys - (capped + more) + more == slots.Keys - capped;
  }

  /** Fixing slots whose share reaches their ceiling keeps the rest nonnegative
      and never lowers the level Left/Load. */
  lemma {:induction false} LevelRises<K(!new)>(slots: map<K, Slot>, budget: int, capped: set<K>, more: set<K>,
                                               a: int, w: int, a': int, w': int)
    requires Positive(slots)
    requires capped <= slots.Keys && more <= slots.Keys - capped
    requires a == Left(slots, budget, capped) && w == Load(slots, capped)
    requires a' == Left(slots, budget, capped + more) && w' == Load(slots, capped + more)
    requires a >= 0
    requires forall k :: k in more ==> a * slots[k].weight >= slots[k].ceiling * w
    ensures a' >= 0
    ensures a' * w >= a * w'
  {
    var c, v := Sum(more, Ceiling(slots)), Sum(more, Weight(slots));
    assert a' == a - c && w' == w - v by { Shrinks(slots, budget, capped, more); }
    assert w * c <= a * v by { DemandBelowShare(slots, more, a, w); }
    assert 0 <= v by { SumPositive(more, Weight(slots)); }
    assert 0 <= w' by { LoadPositive(slots, capped + more); }
    if more == {} {
      assert capped + more == capped;
    } else {
      assert w > 0 by {
        var k :| k in more;
        assert k in slots.Keys - capped;
        LoadPositive(slots, capped);
      }
      RisesArithmetic(a, w, c, v, a', w');
    }
  }

  /** Slots that each reach their ceiling together demand at most their joint share. */
  lemma {:induction false} DemandBelowShare<K(!new)>(slots: map<K, Slot>, more: set<K>, a: int, w: int)
    requires more <= slots.Keys
    requires forall k :: k in more ==> a * slots[k].weight >= slots[k].ceiling * w
    ensures w * Sum(more, Ceiling(slots)) <= a * Sum(more, Weight(slots))
  {
    var c, v := Ceiling(slots), Weight(slots);
    forall k | k in more ensures w * c(k) <= a * v(k) {
      assert c(k) == slots[k].ceiling && v(k) == slots[k].weight;
      assert w * c(k) == slots[k].ceiling * w;
    }
    SumScaledLe(more, w, c, a, v);
  }

  lemma {:induction false} RisesArithmetic(a: int, w: int, c: int, v: int, a': int, w': int)
    requires a >= 0 && 0 <= v <= w && w > 0
    requires w * c <= a * v
    requires a' == a - c && w' == w - v
    ensures a' >= 0
    ensures a' * w >= a * w'
  {
    assert a * v <= a * w;
    CancelLe(c, a, w);
  }

  /** Some weight is left while some slot is. */
  lemma {:induction false} LoadPositive<K(!new)>(slots: map<K, Slot>, capped: set<K>)
    requires Positive(slots) && capped <= slots.Keys
    ensures Load(slots, capped) >= 0
    ensures capped != slots.Keys ==> Load(slots, capped) > 0
  {
    var rest := slots.Keys - capped;
    SumPositive(rest, Weight(slots));
    if capped != slots.Keys {
      var e :| e in rest;
      assert |rest| > 0;
    }
  }

  /** The slots fixed so far keep their full ceiling at every later level. */
  lemma {:induction false} StaysCapped(a: int, w: int, a': int, w': int, weight: int, ceiling: int)
    requires w > 0 && w' > 0 && weight > 0
    requires a * weight >= ceiling * w
    requires a' * w >= a * w'
    ensures a' * weight >= ceiling * w'
  {
    assert (a' * w) * weight >= (a * w') * weight;
    assert (a' * weight) * w == (a' * w) * weight;
    assert (a * w') * weight == (a * weight) * w';
    assert (a * weight) * w' >= (ceiling * w) * w';
    assert (ceiling * w) * w' == (ceiling * w') * w;
    CancelLe(ceiling * w', a' * weight, w);
  }

  ghost predicate Reached<K(!new)>(slots: map<K, Slot>, budget: int, capped: set<K>) {
    && capped <= slots.Keys
    && Left(slots, budget, capped) >= 0
    && (capped != slots.Keys ==> forall k :: k in capped ==>
          Left(slots, budget, capped) * slots[k].weight >= slots[k].ceiling * Load(slots, capped))
  }

  lemma {:induction false} RoundKeepsReached<K(!new)>(slots: map<K, Slot>, budget: int, capped: set<K>, more: set<K>)
    requires Positive(slots)
    requires Reached(slots, budget, capped)
    requires more <= slots.Keys - capped
    requires forall k :: k in more ==>
      Left(slots, budget, capped) * slots[k].weight >= slots[k].ceiling * Load(slots, capped)
    ensures Reached(slots, budget, capped + more)
  {
    var a, w := Left(slots, budget, capped), Load(slots, capped);
    var a', w' := Left(slots, budget, capped + more), Load(slots, capped + more);
    LevelRises(slots, budget, capped, more, a, w, a', w');
    if capped + more != slots.Keys {
      LoadPositive(slots, capped);
      LoadPositive(slots, capped + more);
      forall k | k in capped + more
        ensures a' * slots[k].weight >= slots[k].ceiling * w'
      {
        StaysCapped(a, w, a', w', slots[k].weight, slots[k].ceiling);
      }
    }
  }

  // ---------- what a settled level means ----------

  /** Every slot gets the smaller of its ceiling and its share of one common level,
      Left/Load, as long as some slot is below its ceiling. */
  lemma {:induction false} LimitIsMinimum<K(!new)>(slots: map<K, Slot>, budget: int, capped: set<K>, limits: map<K, int>, k: K)
    requires Positive(slots)
    requires Settled(slots, budget, capped) && Poured(slots, budget, capped, limits)
    requires capped != slots.Keys && k in slots
    ensures Load(slots, capped) > 0
    ensures var share := Left(slots, budget, capped) * slots[k].weight / Load(slots, capped);
            limits[k] == if share < slots[k].ceiling then share else slots[k].ceiling
  {
    LoadPositive(slots, capped);
    var a, w := Left(slots, budget, capped), Load(slots, capped);
    FloorReaches(a * slots[k].weight, w, slots[k].ceiling);
    if k !in capped {
      assert k in slots.Keys - capped;
    }
  }

  lemma {:induction false} LimitWithinCeiling<K(!new)>(slots: map<K, Slot>, budget: int, capped: set<K>, limits: map<K, int>, k: K)
    requires Positive(slots)
    requires Settled(slots, budget, capped) && Poured(slots, budget, capped, limits)
    requires k in slots
    ensures 0 <= limits[k] <= slots[k].ceiling
  {
    if k !in capped {
      assert k in slots.Keys - capped;
      LoadPositive(slots, capped);
      var a, w := Left(slots, budget, capped), Load(slots, capped);
      FloorReaches(a * slots[k].weight, w, slots[k].ceiling);
      FloorReaches(a * slots[k].weight, w, 0);
    }
  }

  /** A larger budget settles at a level that is at least as high. */
  lemma {:induction false} LevelMonotone<K(!new)>(slots: map<K, Slot>, b1: int, c1: set<K>, b2: int, c2: set<K>)
    requires Positive(slots) && b1 <= b2
    requires Settled(slots, b1, c1) && Settled(slots, b2, c2)
    requires c2 != slots.Keys
    ensures c1 != slots.Keys
    ensures Left(slots, b1, c1) * Load(slots, c2) <= Left(slots, b2, c2) * Load(slots, c1)
  {
    var a1, w1 := Left(slots, b1, c1), Load(slots, c1);
    var a2, w2 := Left(slots, b2, c2), Load(slots, c2);
    LoadPositive(slots, c1);
    LoadPositive(slots, c2);
    if a2 * w1 < a1 * w2 || c1 == slots.Keys {
      forall k | k in c2 ensures k in c1 {
        if k !in c1 {
          assert k in slots.Keys - c1;
          StaysCapped(a2, w2, a1, w1, slots[k].weight, slots[k].ceiling);
          assert false;
        }
      }
      var more := c1 - c2;
      var c, v := Sum(more, Ceiling(slots)), Sum(more, Weight(slots));
      assert Left(slots, b2, c1) == a2 - c && w1 == w2 - v by {
        Shrinks(slots, b2, c2, more);
        assert c2 + more == c1;
      }
      assert a2 * v <= w2 * c && (more != {} ==> a2 * v < w2 * c) by {
        ShareBelowDemand(slots, more, a2, w2);
      }
      assert a1 <= a2 - c;
      assert slots.Keys - c2 != {};
      assert c1 == slots.Keys ==> slots.Keys - c1 == {} && more != {};
      NoFall(a1, w1, a2, w2, c, v, more != {}, c1 == slots.Keys);
      assert false;
    }
  }

  /** The arithmetic behind LevelMonotone: the level cannot drop, and the budget
      cannot cover every ceiling, when the remaining demand exceeds the share. */
  lemma {:induction false} NoFall(a1: int, w1: int, a2: int, w2: int, c: int, v: int, some: bool, all: bool)
    requires w2 > 0 && a1 <= a2 - c && w1 == w2 - v && a2 * v <= w2 * c
    requires some ==> a2 * v < w2 * c
    requires all ==> some && w1 == 0 && a1 >= 0
    ensures a1 * w2 <= a2 * w1
    ensures !all
  {
    CompareLevels(a1, w1, a2, w2, c, v);
  }

  lemma {:induction false} CompareLevels(a1: int, w1: int, a2: int, w2: int, c: int, v: int)
    requires w2 > 0 && a1 <= a2 - c && w1 == w2 - v && a2 * v <= w2 * c
    ensures a1 * w2 <= a2 * w1
  {
    assert a1 * w2 <= (a2 - c) * w2;
  }

  /** Slots below their ceiling together receive less than they could use. */
  lemma {:induction false} ShareBelowDemand<K(!new)>(slots: map<K, Slot>, more: set<K>, a: int, w: int)
    requires more <= slots.Keys
    requires forall k :: k in more ==> a * slots[k].weight < slots[k].ceiling * w
    ensures a * Sum(more, Weight(slots)) <= w * Sum(more, Ceiling(slots))
    ensures more != {} ==> a * Sum(more, Weight(slots)) < w * Sum(more, Ceiling(slots))
  {
    var c, v := Ceiling(slots), Weight(slots);
    forall k | k in more ensures a * v(k) < w * c(k) {
      assert c(k) == slots[k].ceiling && v(k) == slots[k].weight;
      assert w * c(k) == slots[k].ceiling * w;
    }
    SumScaledLe(more, a, v, w, c);
    if more != {} {
      SumScaledLt(more, a, v, w, c);
    }
  }

  /** No limit falls when the budget grows and everything else stays the same. */
  lemma {:induction false} LimitsMonotone<K(!new)>(slots: map<K, Slot>, b1: int, c1: set<K>, l1: map<K, int>,
                                                   b2: int, c2: set<K>, l2: map<K, int>, k: K)
    requires Positive(slots) && b1 <= b2
    requires Settled(slots, b1, c1) && Poured(slots, b1, c1, l1)
    requires Settled(slots, b2, c2) && Poured(slots, b2, c2, l2)
    requires k in slots
    ensures l1[k] <= l2[k]
  {
    LimitWithinCeiling(slots, b1, c1, l1, k);
    if k !in c2 {
      assert k in slots.Keys - c2;
      LevelMonotone(slots, b1, c1, b2, c2);
      LoadPositive(slots, c1);
      LoadPositive(slots, c2);
      var a1, w1 := Left(slots, b1, c1), Load(slots, c1);
      var a2, w2 := Left(slots, b2, c2), Load(slots, c2);
      if k in c1 {
        StaysCapped(a1, w1, a2, w2, slots[k].weight, slots[k].ceiling);
        assert false;
      }
      assert k in slots.Keys - c1;
      FloorMonotone(a1, a2, w1, w2, slots[k].weight);
    }
  }

  /** The limits depend on the slots and the budget only: not on the order of the
      slots, nor on how many are fixed in one round. */
  lemma {:induction false} LimitsUnique<K(!new)>(slots: map<K, Slot>, budget: int, c1: set<K>, l1: map<K, int>, c2: set<K>, l2: map<K, int>)
    requires Positive(slots)
    requires Settled(slots, budget, c1) && Poured(slots, budget, c1, l1)
    requires Settled(slots, budget, c2) && Poured(slots, budget, c2, l2)
    ensures l1 == l2
  {
    forall k | k in slots ensures l1[k] == l2[k] {
      LimitsMonotone(slots, budget, c1, l1, budget, c2, l2, k);
      LimitsMonotone(slots, budget, c2, l2, budget, c1, l1, k);
    }
  }

  /** The limits depend on the slots and the budget alone, in whatever order and
      rounds the slots were fixed. */
  lemma {:induction false} OnePouring<K(!new)>(slots: map<K, Slot>, budget: int, l1: map<K, int>, l2: map<K, int>)
    requires Positive(slots) && IsPouring(slots, budget, l1) && IsPouring(slots, budget, l2)
    ensures l1 == l2
  {
    var c1 :| Settled(slots, budget, c1) && Poured(slots, budget, c1, l1);
    var c2 :| Settled(slots, budget, c2) && Poured(slots, budget, c2, l2);
    LimitsUnique(slots, budget, c1, l1, c2, l2);
  }

  function Given<K(!new)>(limits: map<K, int>): K -> int {
    k => if k in limits then limits[k] else 0
  }

  /** The limits never exceed the budget, and rounding loses fewer bytes than there
      are slots below their ceiling. */
  lemma {:induction false} SafeAndTight<K(!new)>(slots: map<K, Slot>, budget: int, capped: set<K>, limits: map<K, int>)
    requires Positive(slots)
    requires Settled(slots, budget, capped) && Poured(slots, budget, capped, limits)
    ensures Sum(slots.Keys, Given(limits)) <= budget
    ensures capped != slots.Keys ==>
      budget - Sum(slots.Keys, Given(limits)) < |slots.Keys - capped|
  {
    hide Load, Weight, Sum, Given, Ceiling;
    var rest := slots.Keys - capped;
    assert slots.Keys == capped + rest;
    SumUnion(capped, rest, Given(limits));
    CappedTakeCeilings(slots, budget, capped, limits);
    SumEmpty(Given(limits));
    if rest != {} {
      UncappedTakeLevel(slots, budget, capped, limits, Left(slots, budget, capped), Load(slots, capped));
    }
  }

  lemma {:induction false} CappedTakeCeilings<K(!new)>(slots: map<K, Slot>, budget: int, capped: set<K>, limits: map<K, int>)
    requires capped <= slots.Keys && Poured(slots, budget, capped, limits)
    ensures Sum(capped, Given(limits)) == Sum(capped, Ceiling(slots))
  {
    hide Load, Left, Weight, Sum;
    SumAgree(capped, Given(limits), Ceiling(slots));
  }

  lemma {:induction false} UncappedTakeLevel<K(!new)>(slots: map<K, Slot>, budget: int, capped: set<K>, limits: map<K, int>, a: int, w: int)
    requires Positive(slots) && capped <= slots.Keys && slots.Keys - capped != {}
    requires Poured(slots, budget, capped, limits)
    requires a == Left(slots, budget, capped) && w == Load(slots, capped)
    ensures a - |slots.Keys - capped| < Sum(slots.Keys - capped, Given(limits)) <= a
  {
    hide Sum, Left, Weight, Given;
    var rest := slots.Keys - capped;
    assert w > 0 by {
      var e :| e in rest;
      assert e !in capped && e in slots.Keys;
      LoadPositive(slots, capped);
    }
    RestTakesLevel(slots, rest, a, w, limits);
    TightArithmetic(w, Sum(rest, Given(limits)), |rest|, a);
  }

  lemma {:induction false} TightArithmetic(w: int, given: int, n: int, a: int)
    requires w > 0 && w * given <= a * w && w * (given + n) > a * w
    ensures given <= a < given + n
  {
    CancelLe(given, a, w);
  }

  lemma {:induction false} RestTakesLevel<K(!new)>(slots: map<K, Slot>, rest: set<K>, a: int, w: int, limits: map<K, int>)
    requires rest <= slots.Keys && rest <= limits.Keys && w > 0 && rest != {}
    requires forall k :: k in rest ==> limits[k] == a * slots[k].weight / w
    ensures w * Sum(rest, Given(limits)) <= a * Sum(rest, Weight(slots)) < w * (Sum(rest, Given(limits)) + |rest|)
  {
    var f, g, v := Given(limits), (k => Given(limits)(k) + 1), Weight(slots);
    forall k | k in rest ensures w * f(k) <= a * v(k) && a * v(k) < w * g(k) {
      ShareRounding(a * slots[k].weight, w);
    }
    SumScaledLe(rest, w, f, a, v);
    SumScaledLt(rest, a, v, w, g);
    SumPlusOne(rest, f, g);
  }

  lemma {:induction false} ShareRounding(n: int, w: int)
    requires w > 0
    ensures w * (n / w) <= n < w * (n / w + 1)
  {}

  // ---------- capping one slot at a time ----------

  ghost function Elements<K(!new)>(order: seq<K>): set<K> {
    set k | k in order
  }

  /** `order` fixes one slot after another, each because the level reached so far
      already covers its ceiling. */
  ghost predicate OneByOne<K(!new)>(slots: map<K, Slot>, budget: int, order: seq<K>)
    decreases |order|
  {
    order == [] ||
    (var capped, k := Elements(order[..|order| - 1]), order[|order| - 1];
     && OneByOne(slots, budget, order[..|order| - 1])
     && k in slots && k !in capped
     && capped <= slots.Keys
     && Left(slots, budget, capped) * slots[k].weight >= slots[k].ceiling * Load(slots, capped))
  }

  lemma {:induction false} OneByOneReached<K(!new)>(slots: map<K, Slot>, budget: int, order: seq<K>)
    requires Positive(slots) && budget >= 0
    requires OneByOne(slots, budget, order)
    ensures Reached(slots, budget, Elements(order))
    decreases |order|
  {
    if order == [] {
      assert Elements(order) == {};
    } else {
      var before, k := order[..|order| - 1], order[|order| - 1];
      OneByOneReached(slots, budget, before);
      RoundKeepsReached(slots, budget, Elements(before), {k});
      assert order == before + [k];
      assert Elements(order) == Elements(before) + {k};
    }
  }

  /** Fixing whole rounds at once, as the loop does, gives the same limits as fixing
      one slot at a time in any order until no further slot qualifies. */
  lemma {:induction false} RoundsEqualOneByOne<K(!new)>(slots: map<K, Slot>, budget: int, capped: set<K>, limits: map<K, int>,
                                                         order: seq<K>, others: map<K, int>)
    requires Positive(slots) && budget >= 0
    requires Settled(slots, budget, capped) && Poured(slots, budget, capped, limits)
    requires OneByOne(slots, budget, order)
    requires forall k :: k in slots.Keys - Elements(order) ==>
      Left(slots, budget, Elements(order)) * slots[k].weight < slots[k].ceiling * Load(slots, Elements(order))
    requires Poured(slots, budget, Elements(order), others)
    ensures limits == others
  {
    OneByOneReached(slots, budget, order);
    LimitsUnique(slots, budget, capped, limits, Elements(order), others);
  }

  // ---------- the loop ----------

  method TotalWeight<K(!new,==)>(slots: map<K, Slot>) returns (total: int)
    ensures total == Sum(slots.Keys, Weight(slots))
  {
    total := 0;
    var rest := slots.Keys;
    while rest != {}
      invariant rest <= slots.Keys
      invariant total == Sum(slots.Keys, Weight(slots)) - Sum(rest, Weight(slots))
      decreases rest
    {
      var k :| k in rest;
      SumRemove(rest, Weight(slots), k);
      total := total + slots[k].weight;
      rest := rest - {k};
    }
  }

  /** The state between two rounds: `capped` slots hold their ceiling, the others are pending. */
  ghost predicate Filling<K(!new)>(slots: map<K, Slot>, budget: int, capped: set<K>, pending: map<K, Slot>,
                                   available: int, limits: map<K, int>) {
    && Reached(slots, budget, capped)
    && pending.Keys == slots.Keys - capped
    && (forall k :: k in pending ==> pending[k] == slots[k])
    && available == Left(slots, budget, capped)
    && limits.Keys == capped
    && (forall k :: k in capped ==> limits[k] == slots[k].ceiling)
  }

  /** Share `budget` among the slots. */
  method Pour<K(!new,==)>(slots: map<K, Slot>, budget: nat) returns (limits: map<K, int>)
    requires Positive(slots)
    ensures IsPouring(slots, budget, limits)
  {
    var pending, available := slots, budget as int;
    ghost var capped: set<K> := {};
    limits := map[];
    while pending != map[]
      invariant Filling(slots, budget, capped, pending, available, limits)
      decreases pending.Keys
    {
      var total := TotalWeight(pending);
      LoadIsTotal(slots, budget, capped, pending, available, limits);
      var full := FullSlots(pending, available, total);
      if full == map[] {
        limits := Share(slots, budget, capped, pending, available, total, limits);
        return;
      }
      var available', pending', limits' := FixRound(slots, full, available, pending, limits);
      NextFilling(slots, budget, capped, pending, available, limits, full, available', pending', limits');
      available, pending, limits, capped := available', pending', limits', capped + full.Keys;
    }
    assert capped == slots.Keys;
    assert Settled(slots, budget, capped) && Poured(slots, budget, capped, limits);
  }

  lemma {:induction false} LoadIsTotal<K(!new)>(slots: map<K, Slot>, budget: int, capped: set<K>, pending: map<K, Slot>,
                             available: int, limits: map<K, int>)
    requires Positive(slots) && Filling(slots, budget, capped, pending, available, limits) && pending != map[]
    ensures Sum(pending.Keys, Weight(pending)) == Load(slots, capped) > 0
  {
    SumAgree(pending.Keys, Weight(pending), Weight(slots));
    assert pending.Keys != {};
    LoadPositive(slots, capped);
  }

  /** No slot is full any more: every pending slot takes its floored share. */
  method Share<K(!new,==)>(ghost slots: map<K, Slot>, ghost budget: int, ghost capped: set<K>, pending: map<K, Slot>,
                           available: int, total: int, limits: map<K, int>) returns (limits': map<K, int>)
    requires Filling(slots, budget, capped, pending, available, limits)
    requires total == Load(slots, capped) > 0
    requires forall k :: k in pending ==> available * pending[k].weight < pending[k].ceiling * total
    ensures Settled(slots, budget, capped)
    ensures Poured(slots, budget, capped, limits')
  {
    var shares := map k | k in pending :: available * pending[k].weight / total;
    limits' := limits + shares;
    forall k | k in slots.Keys - capped
      ensures limits'[k] == available * slots[k].weight / total
    {
      assert k in pending && limits'[k] == shares[k];
    }
  }

  /** The slots whose floored share reaches their ceiling. */
  method FullSlots<K(!new,==)>(pending: map<K, Slot>, available: int, total: int) returns (full: map<K, nat>)
    requires total > 0
    ensures full.Keys <= pending.Keys
    ensures forall k :: k in full ==> full[k] == pending[k].ceiling
    ensures forall k :: k in pending ==>
      (k in full <==> available * pending[k].weight >= pending[k].ceiling * total)
  {
    full := map k | k in pending && available * pending[k].weight / total >= pending[k].ceiling :: pending[k].ceiling;
    forall k | k in pending
      ensures k in full <==> available * pending[k].weight >= pending[k].ceiling * total
    {
      FloorReaches(available * pending[k].weight, total, pending[k].ceiling);
    }
  }

  /** One round: give every full slot its ceiling and take it out. */
  method FixRound<K(!new,==)>(ghost slots: map<K, Slot>, full: map<K, nat>, available: int, pending: map<K, Slot>, limits: map<K, int>)
      returns (available': int, pending': map<K, Slot>, limits': map<K, int>)
    requires full.Keys <= pending.Keys
    requires forall k :: k in full ==> k in slots && full[k] == slots[k].ceiling
    ensures available' == available - Sum(full.Keys, Ceiling(slots))
    ensures pending'.Keys == pending.Keys - full.Keys
    ensures forall k :: k in pending' ==> pending'[k] == pending[k]
    ensures limits'.Keys == limits.Keys + full.Keys
    ensures forall k :: k in limits' ==> limits'[k] == if k in full then full[k] else limits[k]
  {
    hide Sum;
    SumEmpty(Ceiling(slots));
    available', pending', limits' := available, pending, limits;
    var rest := full.Keys;
    while rest != {}
      invariant rest <= full.Keys
      invariant available' == available - Sum(full.Keys, Ceiling(slots)) + Sum(rest, Ceiling(slots))
      invariant pending'.Keys == pending.Keys - (full.Keys - rest)
      invariant forall k :: k in pending' ==> pending'[k] == pending[k]
      invariant limits'.Keys == limits.Keys + (full.Keys - rest)
      invariant forall k :: k in limits' ==> limits'[k] == if k in full.Keys - rest then full[k] else limits[k]
      decreases rest
    {
      var k :| k in rest;
      SumRemove(rest, Ceiling(slots), k);
      limits' := limits'[k := full[k]];
      available' := available' - full[k];
      pending' := pending' - {k};
      rest := rest - {k};
    }
  }

  lemma {:induction false} NextFilling<K(!new)>(slots: map<K, Slot>, budget: int, capped: set<K>, pending: map<K, Slot>, available: int,
                                                limits: map<K, int>, full: map<K, nat>, available': int, pending': map<K, Slot>, limits': map<K, int>)
    requires Positive(slots) && Filling(slots, budget, capped, pending, available, limits)
    requires full != map[] && full.Keys <= pending.Keys
    requires forall k :: k in full ==> full[k] == slots[k].ceiling
    requires forall k :: k in full.Keys ==> available * slots[k].weight >= slots[k].ceiling * Load(slots, capped)
    requires available' == available - Sum(full.Keys, Ceiling(slots))
    requires pending'.Keys == pending.Keys - full.Keys
    requires forall k :: k in pending' ==> pending'[k] == pending[k]
    requires limits'.Keys == limits.Keys + full.Keys
    requires forall k :: k in limits' ==> limits'[k] == if k in full then full[k] else limits[k]
    ensures Filling(slots, budget, capped + full.Keys, pending', available', limits')
    ensures pending'.Keys < pending.Keys
  {
    RoundKeepsReached(slots, budget, capped, full.Keys);
    Shrinks(slots, budget, capped, full.Keys);
    var k :| k in full;
    assert k in pending.Keys && k !in pending'.Keys;
    assert pending'.Keys == slots.Keys - (capped + full.Keys);
  }

  // ---------- slots of one execution plan ----------

  datatype Artifact = CompilationDatabase | AnalysisXml | Junit
  datatype CaptureStep = CaptureStep(id: string, compilerConfiguration: bool, generatedConfiguration: bool,
                                     nativeTestConfiguration: bool, fuzzExecution: bool, artifacts: set<Artifact>)
  datatype Part = Output | File(artifact: Artifact)
  datatype CaptureKey = CaptureKey(step: string, part: Part)

  predicate EndsWith(s: string, suffix: string) {
    |suffix| <= |s| && s[|s| - |suffix|..] == suffix
  }

  function OutputSlot(step: CaptureStep): Slot {
    if step.compilerConfiguration then Slot(32, 2097152)
    else if step.generatedConfiguration then Slot(8, 524288)
    else if step.nativeTestConfiguration || step.fuzzExecution then Slot(16, 1048576)
    else if EndsWith(step.id, "-configure") || EndsWith(step.id, "-build") || EndsWith(step.id, "-discover")
         || EndsWith(step.id, "-unit") || EndsWith(step.id, "-integration") || step.id == "static-analysis"
    then Slot(4, 524288)
    else Slot(1, 65536)
  }

  function ArtifactSlot(artifact: Artifact): Slot {
    match artifact
    case CompilationDatabase => Slot(16, 1048576)
    case AnalysisXml => Slot(8, 1048576)
    case Junit => Slot(4, 262144)
  }

  function AddSlots(slots: map<CaptureKey, Slot>, step: CaptureStep): map<CaptureKey, Slot> {
    slots[CaptureKey(step.id, Output) := OutputSlot(step)]
      + (map a | a in step.artifacts :: CaptureKey(step.id, File(a)) := ArtifactSlot(a))
  }

  function SlotTable(steps: seq<CaptureStep>): (slots: map<CaptureKey, Slot>)
    ensures Positive(slots)
  {
    if steps == [] then map[]
    else AddSlots(SlotTable(steps[..|steps| - 1]), steps[|steps| - 1])
  }

  /** Bytes that are never shared: the fixed native record, the second target map and
      64 KiB of identity data, plus 8 bytes of encoding slack for every slot. */
  function Reserve(nativeBytes: nat, targetBytes: nat, slotCount: nat): nat {
    nativeBytes + targetBytes + 65536 + 8 * slotCount
  }

  function Budget(maxReceiptBytes: int, nativeBytes: nat, targetBytes: nat, slotCount: nat): int {
    (maxReceiptBytes - Reserve(nativeBytes, targetBytes, slotCount)) * 3 / 4
  }

  datatype BudgetError = EvidenceBudgetInvalid

  /** Bytes for every capture, or the refusal when some capture would get too few. */
  method CaptureLimits(maxReceiptBytes: int, nativeBytes: nat, targetBytes: nat, steps: seq<CaptureStep>)
      returns (r: Result<map<CaptureKey, int>, BudgetError>)
    ensures var slots := SlotTable(steps);
            var budget := Budget(maxReceiptBytes, nativeBytes, targetBytes, |slots|);
            && (r.Ok? ==> IsPouring(slots, budget, r.value) && forall k :: k in r.value ==> r.value[k] >= 1024)
            && (r.Err? ==> budget < |slots| * 1024 ||
                           exists poured :: IsPouring(slots, budget, poured) && exists k :: k in poured && poured[k] < 1024)
            && (r.Ok? ==> budget >= |slots| * 1024)
  {
    var slots: map<CaptureKey, Slot> := map[];
    for i := 0 to |steps|
      invariant slots == SlotTable(steps[..i])
    {
      assert steps[..i + 1][..i] == steps[..i];
      slots := AddSlots(slots, steps[i]);
    }
    assert steps[..|steps|] == steps;
    var available := Budget(maxReceiptBytes, nativeBytes, targetBytes, |slots|);
    if available < |slots| * 1024 {
      return Err(EvidenceBudgetInvalid);
    }
    var limits := Pour(slots, available);
    r := if exists k :: k in limits && limits[k] < 1024 then Err(EvidenceBudgetInvalid) else Ok(limits);
  }

  // ---------- the receipt ----------

  /** Characters of the base64 text of n bytes. */
  function Base64Length(n: int): int {
    4 * ((n + 2) / 3)
  }

  ghost function Encoded<K(!new)>(limits: map<K, int>): K -> int {
    k => if k in limits then Base64Length(limits[k]) else 0
  }

  /** Whatever every capture holds, its base64 text and all unshared bytes together
      stay within the receipt cap. */
  lemma {:induction false} ReceiptFits(maxReceiptBytes: int, nativeBytes: nat, targetBytes: nat, steps: seq<CaptureStep>, limits: map<CaptureKey, int>)
    requires IsPouring(SlotTable(steps), Budget(maxReceiptBytes, nativeBytes, targetBytes, |SlotTable(steps)|), limits)
    ensures Sum(SlotTable(steps).Keys, Encoded(limits)) + nativeBytes + targetBytes + 65536 <= maxReceiptBytes
  {
    var slots := SlotTable(steps);
    var budget := Budget(maxReceiptBytes, nativeBytes, targetBytes, |slots|);
    var capped :| Settled(slots, budget, capped) && Poured(slots, budget, capped, limits);
    SafeAndTight(slots, budget, capped, limits);
    EncodedSum(slots.Keys, limits);
    assert |slots.Keys| == |slots|;
  }

  lemma {:induction false} EncodedSum<K(!new)>(s: set<K>, limits: map<K, int>)
    requires s <= limits.Keys
    ensures 3 * Sum(s, Encoded(limits)) <= 4 * Sum(s, Given(limits)) + 8 * |s|
    decreases s
  {
    if s != {} {
      var k :| k in s;
      SumRemove(s, Encoded(limits), k);
      SumRemove(s, Given(limits), k);
      EncodedSum(s - {k}, limits);
    }
  }

  /** A larger receipt cap never takes bytes from a capture and never turns an
      accepted plan into a refused one. */
  lemma {:induction false} CapMonotone(steps: seq<CaptureStep>, nativeBytes: nat, targetBytes: nat, max1: int, max2: int,
                                       l1: map<CaptureKey, int>, l2: map<CaptureKey, int>)
    requires max1 <= max2
    requires IsPouring(SlotTable(steps), Budget(max1, nativeBytes, targetBytes, |SlotTable(steps)|), l1)
    requires IsPouring(SlotTable(steps), Budget(max2, nativeBytes, targetBytes, |SlotTable(steps)|), l2)
    ensures l1.Keys == l2.Keys
    ensures forall k :: k in l1 ==> l1[k] <= l2[k]
    ensures (forall k :: k in l1 ==> l1[k] >= 1024) ==> (forall k :: k in l2 ==> l2[k] >= 1024)
  {
    var slots := SlotTable(steps);
    var b1, b2 := Budget(max1, nativeBytes, targetBytes, |slots|), Budget(max2, nativeBytes, targetBytes, |slots|);
    var c1 :| Settled(slots, b1, c1) && Poured(slots, b1, c1, l1);
    var c2 :| Settled(slots, b2, c2) && Poured(slots, b2, c2, l2);
    forall k | k in l1 ensures l1[k] <= l2[k] {
      LimitsMonotone(slots, b1, c1, l1, b2, c2, l2, k);
    }
  }
}
