/** What whole runs promise about one grant, and exactly when reconcilers are safe. */
module DeliveryHistory {
  import opened Results
  import opened DeliveryStore
  import opened DeliveryProtocol
  import opened DeliverySafety

  // ---------- revoked and expired grants ----------

  /** A grant keeps its identity; revocation is final. */
  ghost predicate SameGrant(g: Grant, g': Grant) {
    && g'.tokenHash == g.tokenHash && g'.expires == g.expires && g'.max == g.max
    && (g.status.Revoked? ==> g'.status.Revoked?)
  }

  lemma {:induction false} GrantStays(t: Timing, w: World, step: Step, id: AccessId)
    requires Enabled(t, w, step) && id in w.store.access
    ensures w.now <= Next(t, w, step).now
    ensures id in Next(t, w, step).store.access && SameGrant(w.store.access[id], Next(t, w, step).store.access[id])
  {
    hide Of, Newest;
  }

  lemma {:induction false} GrantLasts(t: Timing, worlds: seq<World>, steps: seq<Step>, id: AccessId, n: nat, m: nat)
    requires Run(t, worlds, steps) && n <= m < |worlds| && id in worlds[n].store.access
    ensures worlds[n].now <= worlds[m].now
    ensures id in worlds[m].store.access && SameGrant(worlds[n].store.access[id], worlds[m].store.access[id])
    decreases m - n
  {
    hide Next, Enabled;
    if n < m {
      GrantLasts(t, worlds, steps, id, n, m - 1);
      GrantStays(t, worlds[m - 1], steps[m - 1], id);
    }
  }

  /** The clock an attempt is checked against has passed the grant's expiry, for every
      attempt from now on. */
  predicate Over(t: Timing, w: World, id: AccessId, durable: bool)
    requires id in w.store.access
  {
    w.store.access[id].status.Revoked? || w.now - (if durable then t.lag else 0) >= w.store.access[id].expires
  }

  predicate Redeems(step: Step, id: AccessId, durable: bool) {
    match step
    case Deliver(x, _, _, _, _) => x == id && !durable
    case Consume(x, _, _, d, _) => x == id && d == durable
    case _ => false
  }

  /** Once a grant is revoked or past its expiry, no redemption of it changes anything.
      A durable two-step redemption compares the expiry with its stamp, so it can be
      late by the commit lag; every other redemption stops at the expiry itself. */
  lemma {:induction false} NothingAfterTheEnd(t: Timing, worlds: seq<World>, steps: seq<Step>, id: AccessId, durable: bool, n: nat, m: nat)
    requires Run(t, worlds, steps) && n <= m < |steps| && id in worlds[n].store.access
    requires 0 <= t.lag && Over(t, worlds[n], id, durable) && Redeems(steps[m], id, durable)
    ensures worlds[m + 1] == worlds[m]
  {
    GrantLasts(t, worlds, steps, id, n, m);
    assert SameGrant(worlds[n].store.access[id], worlds[m].store.access[id]);
  }

  /** A two-step redemption counts exactly when the grant is active, has downloads left
      and has not expired by the time it is checked against: the stamp on the durable
      path, the clock itself otherwise. */
  lemma {:induction false} CountsExactly(t: Timing, w: World, id: AccessId, tokenHash: string, stamp: int, durable: bool, ticket: TicketId)
    requires Enabled(t, w, Consume(id, tokenHash, stamp, durable, ticket))
    ensures Next(t, w, Consume(id, tokenHash, stamp, durable, ticket)) != w <==>
              id in w.store.access &&
              (var g := w.store.access[id];
               g.tokenHash == tokenHash && g.status.Active? && g.count < g.max && (if durable then stamp else w.now) < g.expires)
  {
    var w' := Next(t, w, Consume(id, tokenHash, stamp, durable, ticket));
    if id in w.store.access && Redeemable(w.store.access[id], tokenHash, if durable then stamp else w.now) {
      assert ticket in w'.tickets && ticket !in w.tickets;
    }
  }

  /** In some run a durable redemption counts `delay` seconds after its grant expired. */
  ghost predicate CountsLate(t: Timing, delay: nat) {
    exists worlds: seq<World>, steps: seq<Step>, i: nat, id: AccessId :: LateAt(t, worlds, steps, i, id, delay)
  }

  ghost predicate LateAt(t: Timing, worlds: seq<World>, steps: seq<Step>, i: nat, id: AccessId, delay: nat) {
    && Run(t, worlds, steps) && i < |steps| && Redeems(steps[i], id, true) && worlds[i + 1] != worlds[i]
    && id in worlds[i].store.access && worlds[i].now >= worlds[i].store.access[id].expires + delay
  }

  /** The durable path is late by less than the commit lag, and by any such delay. */
  lemma {:induction false} LateExactlyWithinLag(t: Timing, delay: nat)
    ensures CountsLate(t, delay) <==> delay < t.lag
  {
    if CountsLate(t, delay) {
      var worlds: seq<World>, steps: seq<Step>, i: nat, id: AccessId :| LateAt(t, worlds, steps, i, id, delay);
      var step := steps[i];
      CountsExactly(t, worlds[i], id, step.tokenHash, step.stamp, true, step.ticket);
    }
    if delay < t.lag {
      LateRun(t, delay);
    }
  }

  lemma {:induction false} LateRun(t: Timing, delay: nat)
    requires delay < t.lag
    ensures CountsLate(t, delay)
  {
    hide Of;
    var g := Grant("hash", Active, 1, 1, 0, None);
    var steps := [Create("grant", g), Wait(delay + 1), Consume("grant", "hash", 0, true, "ticket")];
    var w1 := World(Store(map["grant" := g], map[]), 0, map[], map[]);
    var w2 := w1.(now := delay + 1);
    NoReceipts("grant");
    assert w1 == Next(t, EMPTY, steps[0]) && Enabled(t, EMPTY, steps[0]);
    assert w2 == Next(t, w1, steps[1]) && Enabled(t, w1, steps[1]);
    assert Enabled(t, w2, steps[2]);
    var w3 := Next(t, w2, steps[2]);
    CountsExactly(t, w2, "grant", "hash", 0, true, "ticket");
    var worlds := [EMPTY, w1, w2, w3];
    forall i | 0 <= i < |steps| ensures Enabled(t, worlds[i], steps[i]) && worlds[i + 1] == Next(t, worlds[i], steps[i]) {
      assert i == 0 || i == 1 || i == 2;
    }
    assert LateAt(t, worlds, steps, 2, "grant", delay);
  }

  lemma {:induction false} NoReceipts(id: AccessId)
    ensures Of(EMPTY.store, id) == {}
  {}

  // ---------- grants redeemed only atomically ----------

  ghost predicate NeverConsumed(steps: seq<Step>, id: AccessId) {
    forall j :: 0 <= j < |steps| && steps[j].Consume? ==> steps[j].id != id
  }

  /** The numbers on a grant's receipts. */
  ghost function Numbers(s: Store, id: AccessId): set<int> {
    set r | r in Of(s, id) :: s.receipts[r].number
  }

  /** Count, receipts and their numbers agree exactly. */
  ghost predicate InStep(s: Store, id: AccessId) {
    && id in s.access && s.access[id].count == |Of(s, id)|
    && (forall k :: k in Numbers(s, id) <==> 1 <= k <= s.access[id].count)
    && (forall a, b :: a in Of(s, id) && b in Of(s, id) && s.receipts[a].number == s.receipts[b].number ==> a == b)
  }

  /** Nothing under way can break the agreement: no two-step receipt is owed, and no
      reconciler has found or can find a download without a receipt. */
  ghost predicate Undisturbed(w: World, id: AccessId) {
    && (forall k :: k in w.tickets ==> w.tickets[k].access != id)
    && (forall n :: n in w.workers && w.workers[n].access == id ==> w.workers[n].Loaded? && w.workers[n].count <= |Of(w.store, id)|)
  }

  ghost predicate Atomic(w: World, id: AccessId) {
    Undisturbed(w, id) && if id in w.store.access then InStep(w.store, id) else Of(w.store, id) == {}
  }

  ghost predicate NewReceipt(s: Store, s': Store, id: AccessId, stamp: int, receipt: ReceiptId) {
    InStep(s, id) && receipt !in s.receipts && s' == Delivered(s, id, stamp, receipt)
  }

  lemma {:induction false} NewAmong(s: Store, s': Store, id: AccessId, stamp: int, receipt: ReceiptId)
    requires NewReceipt(s, s', id, stamp, receipt)
    ensures Of(s', id) == Of(s, id) + {receipt} && |Of(s', id)| == |Of(s, id)| + 1
    ensures forall r :: r in Of(s, id) ==> s'.receipts[r] == s.receipts[r] && s.receipts[r].number <= s.access[id].count
    ensures s'.receipts[receipt].number == s'.access[id].count == s.access[id].count + 1
  {
    OfGrows(s, s', id, receipt, s'.receipts[receipt]);
    forall r | r in Of(s, id) ensures s.receipts[r].number <= s.access[id].count {
      assert s.receipts[r].number in Numbers(s, id);
    }
  }

  lemma {:induction false} NewNumbers(s: Store, s': Store, id: AccessId, stamp: int, receipt: ReceiptId)
    requires NewReceipt(s, s', id, stamp, receipt)
    ensures Numbers(s', id) == Numbers(s, id) + {s'.access[id].count}
  {
    NewAmong(s, s', id, stamp, receipt);
    var n := s'.access[id].count;
    forall k | k in Numbers(s, id) + {n} ensures k in Numbers(s', id) {
      if k == n {
        assert receipt in Of(s', id);
      } else {
        var x :| x in Of(s, id) && s.receipts[x].number == k;
        assert x in Of(s', id);
      }
    }
  }

  lemma {:induction false} NewNumber(s: Store, s': Store, id: AccessId, stamp: int, receipt: ReceiptId)
    requires NewReceipt(s, s', id, stamp, receipt)
    ensures InStep(s', id)
  {
    hide Of, Numbers;
    NewAmong(s, s', id, stamp, receipt);
    NewNumbers(s, s', id, stamp, receipt);
  }

  lemma {:induction false} OtherStays(s: Store, s': Store, id: AccessId)
    requires Of(s', id) == Of(s, id) && (forall r :: r in Of(s, id) ==> r in s.receipts && r in s'.receipts && s'.receipts[r] == s.receipts[r])
    requires InStep(s, id) && id in s'.access && s'.access[id].count == s.access[id].count
    ensures InStep(s', id)
  {
    assert Numbers(s', id) == Numbers(s, id);
  }

  lemma {:induction false} AtomicDeliver(t: Timing, w: World, id: AccessId, x: AccessId, stamp: int, receipt: ReceiptId)
    requires Atomic(w, id) && x in w.store.access && receipt !in w.store.receipts
    ensures Atomic(w.(store := Delivered(w.store, x, stamp, receipt)), id)
  {
    hide InStep;
    var w' := w.(store := Delivered(w.store, x, stamp, receipt));
    OfGrows(w.store, w'.store, id, receipt, w'.store.receipts[receipt]);
    if id in w.store.access {
      if x == id {
        NewNumber(w.store, w'.store, id, stamp, receipt);
      } else {
        SameReceipts(w.store, w'.store, id);
        OtherStays(w.store, w'.store, id);
      }
    }
  }

  lemma {:induction false} SameReceipts(s: Store, s': Store, id: AccessId)
    requires forall r :: r in s.receipts ==> r in s'.receipts && s'.receipts[r] == s.receipts[r]
    ensures forall r :: r in Of(s, id) ==> r in s.receipts && r in s'.receipts && s'.receipts[r] == s.receipts[r]
  {}

  lemma {:induction false} AtomicRecord(t: Timing, w: World, id: AccessId, ticket: TicketId, receipt: ReceiptId)
    requires Atomic(w, id) && Enabled(t, w, Record(ticket, receipt))
    ensures Atomic(Next(t, w, Record(ticket, receipt)), id)
  {
    hide InStep, Of;
    var w' := Next(t, w, Record(ticket, receipt));
    OfGrows(w.store, w'.store, id, receipt, w'.store.receipts[receipt]);
    if id in w.store.access {
      SameReceipts(w.store, w'.store, id);
      OtherStays(w.store, w'.store, id);
    }
  }

  /** Steps that leave the receipts alone and do not count this grant. */
  lemma {:induction false} AtomicQuiet(t: Timing, w: World, id: AccessId, step: Step)
    requires Atomic(w, id) && Enabled(t, w, step)
    requires !step.Deliver? && !step.Record? && !step.Create? && (step.Consume? ==> step.id != id)
    ensures Atomic(Next(t, w, step), id)
  {
    hide InStep, Of, Newest;
    var w' := Next(t, w, step);
    OfSame(w.store, w'.store);
    if id in w.store.access {
      OfReceipts(w.store, id);
      SameReceipts(w.store, w'.store, id);
      CountStays(t, w, id, step);
      OtherStays(w.store, w'.store, id);
      CountKnown(w, id);
    }
  }

  lemma {:induction false} CountKnown(w: World, id: AccessId)
    requires Atomic(w, id) && id in w.store.access
    ensures w.store.access[id].count == |Of(w.store, id)|
  {}

  lemma {:induction false} CountStays(t: Timing, w: World, id: AccessId, step: Step)
    requires Undisturbed(w, id) && Enabled(t, w, step) && id in w.store.access
    requires !step.Deliver? && !step.Record? && !step.Create? && (step.Consume? ==> step.id != id)
    ensures id in Next(t, w, step).store.access && Next(t, w, step).store.access[id].count == w.store.access[id].count
  {
    hide Of, Newest;
  }

  lemma {:induction false} AtomicCreate(t: Timing, w: World, id: AccessId, x: AccessId, g: Grant)
    requires Atomic(w, id) && Enabled(t, w, Create(x, g))
    ensures Atomic(Next(t, w, Create(x, g)), id)
  {
    var w' := Next(t, w, Create(x, g));
    OfSame(w.store, w'.store);
    if id in w.store.access {
      OtherStays(w.store, w'.store, id);
    }
  }

  lemma {:induction false} AtomicStep(t: Timing, w: World, id: AccessId, step: Step)
    requires Atomic(w, id) && Enabled(t, w, step) && (step.Consume? ==> step.id != id)
    ensures Atomic(Next(t, w, step), id)
  {
    hide Atomic;
    match step
    case Deliver(x, hash, matches, stamp, receipt) =>
      if Deliverable(w.store, x, hash, matches, w.now, receipt) {
        AtomicDeliver(t, w, id, x, stamp, receipt);
      }
    case Record(ticket, receipt) => AtomicRecord(t, w, id, ticket, receipt);
    case Create(x, g) => AtomicCreate(t, w, id, x, g);
    case _ => AtomicQuiet(t, w, id, step);
  }

  lemma {:induction false} AtomicRun(t: Timing, worlds: seq<World>, steps: seq<Step>, id: AccessId, n: nat)
    requires Run(t, worlds, steps) && NeverConsumed(steps, id) && n < |worlds|
    ensures Atomic(worlds[n], id)
  {
    hide Next, Enabled, Undisturbed, InStep;
    if n == 0 {
      assert Of(EMPTY.store, id) == {};
      EmptyUndisturbed(id);
    } else {
      AtomicRun(t, worlds, steps, id, n - 1);
      AtomicStep(t, worlds[n - 1], id, steps[n - 1]);
    }
  }

  lemma {:induction false} EmptyUndisturbed(id: AccessId)
    ensures Undisturbed(EMPTY, id)
  {}

  /** In any run at all, whatever the delays, a grant that is only ever redeemed
      atomically has exactly one receipt per download, numbered 1 to its count. */
  lemma {:induction false} AtomicGrantsInStep(t: Timing, worlds: seq<World>, steps: seq<Step>, id: AccessId, n: nat)
    requires Run(t, worlds, steps) && NeverConsumed(steps, id) && n < |worlds| && id in worlds[n].store.access
    ensures InStep(worlds[n].store, id)
  {
    hide InStep, Undisturbed;
    AtomicRun(t, worlds, steps, id, n);
  }

  // ---------- exactly when reconciling is safe ----------

  ghost predicate AlwaysSound(t: Timing) {
    forall worlds, steps, i: nat :: Run(t, worlds, steps) && i < |worlds| ==> Sound(worlds[i])
  }

  /** Two downloads commit in one second, the older stamp last: the grant shows the
      older stamp, a reconciler takes both for lost, and the newer receipt then arrives. */
  function BadSteps(t: Timing): seq<Step>
    requires 0 <= t.lag && 0 < t.window && 0 <= t.grace
  {
    [Wait(t.lag),
     Create("grant", Grant("hash", Active, t.lag + t.grace + 1, 2, 0, None)),
     Consume("grant", "hash", t.lag, false, "newer"),
     Consume("grant", "hash", 0, false, "older"),
     Wait(if t.grace > t.lag then t.grace - t.lag else 0),
     Load("worker", "grant"), Compare("worker"), Aim("worker"), Listing("worker"), Write("worker"),
     Record("newer", "receipt")]
  }

  ghost predicate Leads(t: Timing, w: World, step: Step, w': World) {
    Enabled(t, w, step) && w' == Next(t, w, step)
  }

  const BLANK := Store(map[], map[])

  function Holding(t: Timing, count: int, last: Option<int>): Store {
    Store(map["grant" := Grant("hash", Active, t.lag + t.grace + 1, 2, count, last)], map[])
  }

  function BadTickets(t: Timing): map<TicketId, Ticket> {
    map["newer" := Ticket("grant", t.lag, 1), "older" := Ticket("grant", 0, 2)]
  }

  lemma {:induction false} Redeeming(t: Timing)
    requires 0 <= t.lag && 0 < t.window && 0 <= t.grace
    ensures var s := BadSteps(t);
            && Leads(t, EMPTY, s[0], World(BLANK, t.lag, map[], map[]))
            && Leads(t, World(BLANK, t.lag, map[], map[]), s[1], World(Holding(t, 0, None), t.lag, map[], map[]))
            && Leads(t, World(Holding(t, 0, None), t.lag, map[], map[]), s[2],
                     World(Holding(t, 1, Some(t.lag)), t.lag, map["newer" := Ticket("grant", t.lag, 1)], map[]))
            && Leads(t, World(Holding(t, 1, Some(t.lag)), t.lag, map["newer" := Ticket("grant", t.lag, 1)], map[]), s[3],
                     World(Holding(t, 2, Some(0)), t.lag, BadTickets(t), map[]))
  {}

  function Later(t: Timing): int {
    if t.grace > t.lag then t.grace else t.lag
  }

  lemma {:induction false} Reconciling(t: Timing)
    requires 0 <= t.lag && 0 < t.window && 0 <= t.grace
    ensures var s, n, store, k := BadSteps(t), Later(t), Holding(t, 2, Some(0)), BadTickets(t);
            && Leads(t, World(store, t.lag, k, map[]), s[4], World(store, n, k, map[]))
            && Leads(t, World(store, n, k, map[]), s[5], World(store, n, k, map["worker" := Loaded("grant", 2, Some(0))]))
            && Leads(t, World(store, n, k, map["worker" := Loaded("grant", 2, Some(0))]), s[6],
                     World(store, n, k, map["worker" := Suspected("grant", 2, Some(0))]))
  {
    assert Of(Holding(t, 2, Some(0)), "grant") == {};
  }

  lemma {:induction false} Rewriting(t: Timing)
    requires 0 <= t.lag && 0 < t.window && 0 <= t.grace
    ensures var s, n, store, k := BadSteps(t), Later(t), Holding(t, 2, Some(0)), BadTickets(t);
            && Leads(t, World(store, n, k, map["worker" := Suspected("grant", 2, Some(0))]), s[7],
                     World(store, n, k, map["worker" := Aimed("grant", 2, 0, n)]))
            && Leads(t, World(store, n, k, map["worker" := Aimed("grant", 2, 0, n)]), s[8],
                     World(store, n, k, map["worker" := Listed("grant", 2, 0, n, {}, None)]))
            && Leads(t, World(store, n, k, map["worker" := Listed("grant", 2, 0, n, {}, None)]), s[9],
                     World(Holding(t, 0, None), n, k, map[]))
  {
    assert Of(Holding(t, 2, Some(0)), "grant") == {};
  }

  lemma {:induction false} ArrivesLate(t: Timing)
    requires 0 <= t.lag && 0 < t.window && 0 <= t.grace < t.lag + t.window
    ensures var store := Holding(t, 0, None).(receipts := map["receipt" := Receipt("grant", t.lag, 1)]);
            Leads(t, World(Holding(t, 0, None), Later(t), BadTickets(t), map[]), BadSteps(t)[10],
                  World(store, Later(t), map["older" := Ticket("grant", 0, 2)], map[]))
            && !Sound(World(store, Later(t), map["older" := Ticket("grant", 0, 2)], map[]))
  {
    var store := Holding(t, 0, None).(receipts := map["receipt" := Receipt("grant", t.lag, 1)]);
    assert "receipt" in Of(store, "grant");
  }

  lemma {:induction false} BadRun(t: Timing)
    requires 0 <= t.lag && 0 < t.window && 0 <= t.grace < t.lag + t.window
    ensures !AlwaysSound(t)
  {
    hide Next, Enabled, Sound;
    Redeeming(t);
    Reconciling(t);
    Rewriting(t);
    ArrivesLate(t);
    var n, held, k := Later(t), Holding(t, 2, Some(0)), BadTickets(t);
    var first := map["newer" := Ticket("grant", t.lag, 1)];
    var worlds := [EMPTY, World(BLANK, t.lag, map[], map[]), World(Holding(t, 0, None), t.lag, map[], map[]),
                   World(Holding(t, 1, Some(t.lag)), t.lag, first, map[]), World(held, t.lag, k, map[]),
                   World(held, n, k, map[]), World(held, n, k, map["worker" := Loaded("grant", 2, Some(0))]),
                   World(held, n, k, map["worker" := Suspected("grant", 2, Some(0))]),
                   World(held, n, k, map["worker" := Aimed("grant", 2, 0, n)]),
                   World(held, n, k, map["worker" := Listed("grant", 2, 0, n, {}, None)]),
                   World(Holding(t, 0, None), n, k, map[]),
                   World(Holding(t, 0, None).(receipts := map["receipt" := Receipt("grant", t.lag, 1)]), n, map["older" := Ticket("grant", 0, 2)], map[])];
    var steps := BadSteps(t);
    forall i | 0 <= i < |steps| ensures Leads(t, worlds[i], steps[i], worlds[i + 1]) {}
    assert Run(t, worlds, steps);
    assert !Sound(worlds[11]);
  }

  /** Reconciling keeps every run sound exactly when the grace period covers the time a
      commit may lag behind its stamp plus the time a receipt may take. The receipt time
      alone is not enough: stamps need not commit in order. */
  lemma {:induction false} SafeExactlyWhenPatient(t: Timing)
    requires 0 <= t.lag && 0 < t.window && 0 <= t.grace
    ensures AlwaysSound(t) <==> t.lag + t.window <= t.grace
  {
    if t.lag + t.window <= t.grace {
      forall worlds, steps, i: nat | Run(t, worlds, steps) && i < |worlds| ensures Sound(worlds[i]) {
        RunSound(t, worlds, steps, i);
      }
    } else {
      BadRun(t);
    }
  }
}
