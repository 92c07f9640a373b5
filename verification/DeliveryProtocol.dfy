/** Deliveries as a concurrent protocol: redemptions in one step or two, revocation,
    and any number of reconcilers, in any interleaving. */
module DeliveryProtocol {
  import opened Results
  import opened DeliveryStore

  type TicketId = string
  type WorkerId = string

  /** A two-step redemption whose receipt is not written yet. */
  datatype Ticket = Ticket(access: AccessId, stamp: int, number: int)

  /** How far one reconciler has got with one grant: it has read the grant, has seen
      more downloads than receipts, has read the clock, has listed the receipts. */
  datatype Intent =
    | Loaded(access: AccessId, count: int, last: Option<int>)
    | Suspected(access: AccessId, count: int, last: Option<int>)
    | Aimed(access: AccessId, count: int, seen: int, since: int)
    | Listed(access: AccessId, count: int, seen: int, since: int, rows: set<ReceiptId>, newest: Option<int>)

  datatype World = World(store: Store, now: int, tickets: map<TicketId, Ticket>, workers: map<WorkerId, Intent>)

  /** Seconds: a redemption commits at most `lag` after reading its stamp; a two-step
      receipt is written less than `window` after the stamp, or never; a reconciler
      leaves grants alone that were redeemed less than `grace` ago. */
  datatype Timing = Timing(lag: int, window: int, grace: int)

  datatype Step =
    | Wait(seconds: nat)
    | Create(id: AccessId, grant: Grant)
    | Revoke(id: AccessId)
    | Deliver(id: AccessId, tokenHash: string, matches: bool, stamp: int, receipt: ReceiptId)
    | Consume(id: AccessId, tokenHash: string, stamp: int, durable: bool, ticket: TicketId)
    | Record(ticket: TicketId, receipt: ReceiptId)
    | Load(worker: WorkerId, id: AccessId)
    | Compare(worker: WorkerId)
    | Aim(worker: WorkerId)
    | Listing(worker: WorkerId)
    | Write(worker: WorkerId)

  /** The receipts of one grant. */
  function Of(s: Store, id: AccessId): set<ReceiptId> {
    set r | r in s.receipts && s.receipts[r].access == id
  }

  /** The newest stamp among some receipts, if any. */
  ghost function Newest(s: Store, rows: set<ReceiptId>): (n: Option<int>)
    requires rows <= s.receipts.Keys
    ensures rows == {} <==> n.None?
    ensures n.Some? ==> forall r :: r in rows ==> s.receipts[r].stamp <= n.value
    ensures n.Some? ==> exists r :: r in rows && s.receipts[r].stamp == n.value
  {
    if rows == {} then None
    else
      NewestExists(s, rows);
      var r :| r in rows && forall x :: x in rows ==> s.receipts[x].stamp <= s.receipts[r].stamp;
      Some(s.receipts[r].stamp)
  }

  lemma {:induction false} NewestExists(s: Store, rows: set<ReceiptId>)
    requires rows <= s.receipts.Keys && rows != {}
    ensures exists r :: r in rows && forall x :: x in rows ==> s.receipts[x].stamp <= s.receipts[r].stamp
  {
    var r :| r in rows;
    var rest := rows - {r};
    assert forall x :: x in rows ==> x == r || x in rest;
    if rest != {} {
      NewestExists(s, rest);
      var m :| m in rest && forall x :: x in rest ==> s.receipts[x].stamp <= s.receipts[m].stamp;
      var top := if s.receipts[r].stamp <= s.receipts[m].stamp then m else r;
      assert top in rows && forall x :: x in rows ==> s.receipts[x].stamp <= s.receipts[top].stamp;
    }
  }

  // ---------- steps ----------

  predicate Stamped(t: Timing, w: World, stamp: int) {
    w.now - t.lag <= stamp <= w.now
  }

  /** When the environment lets a step happen. */
  predicate Enabled(t: Timing, w: World, step: Step) {
    match step
    case Create(id, g) => id !in w.store.access && g.status.Active? && g.count == 0 && g.max >= 0 && g.last.None? && Of(w.store, id) == {}
    case Deliver(_, _, _, stamp, _) => Stamped(t, w, stamp)
    case Consume(_, _, stamp, _, ticket) => Stamped(t, w, stamp) && ticket !in w.tickets
    case Record(ticket, receipt) => ticket in w.tickets && w.now < w.tickets[ticket].stamp + t.window && receipt !in w.store.receipts
    case Load(worker, _) => worker !in w.workers
    case Compare(worker) => worker in w.workers && w.workers[worker].Loaded?
    case Aim(worker) => worker in w.workers && w.workers[worker].Suspected?
    case Listing(worker) => worker in w.workers && w.workers[worker].Aimed?
    case Write(worker) => worker in w.workers && w.workers[worker].Listed?
    case _ => true
  }

  function Without<K, V>(m: map<K, V>, k: K): map<K, V> {
    map x | x in m && x != k :: m[x]
  }

  ghost function Next(t: Timing, w: World, step: Step): World
    requires Enabled(t, w, step)
  {
    match step
    case Wait(n) => w.(now := w.now + n)
    case Create(id, g) => w.(store := w.store.(access := w.store.access[id := g]))
    case Revoke(id) => w.(store := RevokedStore(w.store, id))
    case Deliver(id, hash, matches, stamp, receipt) =>
      if Deliverable(w.store, id, hash, matches, w.now, receipt) then w.(store := Delivered(w.store, id, stamp, receipt)) else w
    case Consume(id, hash, stamp, durable, ticket) =>
      if id in w.store.access && Redeemable(w.store.access[id], hash, if durable then stamp else w.now)
      then w.(store := Consumed(w.store, id, stamp), tickets := w.tickets[ticket := Ticket(id, stamp, w.store.access[id].count + 1)])
      else w
    case Record(ticket, receipt) =>
      var k := w.tickets[ticket];
      w.(store := WithReceipt(w.store, receipt, Receipt(k.access, k.stamp, k.number)), tickets := Without(w.tickets, ticket))
    case Load(worker, id) =>
      if id in w.store.access then w.(workers := w.workers[worker := Loaded(id, w.store.access[id].count, w.store.access[id].last)]) else w
    case Compare(worker) =>
      var i := w.workers[worker];
      if i.count > |Of(w.store, i.access)| then w.(workers := w.workers[worker := Suspected(i.access, i.count, i.last)])
      else w.(workers := Without(w.workers, worker))
    case Aim(worker) =>
      var i := w.workers[worker];
      if i.last.Some? && w.now - i.last.value >= t.grace
      then w.(workers := w.workers[worker := Aimed(i.access, i.count, i.last.value, w.now)])
      else w.(workers := Without(w.workers, worker))
    case Listing(worker) =>
      var i := w.workers[worker];
      var rows := Of(w.store, i.access);
      w.(workers := w.workers[worker := Listed(i.access, i.count, i.seen, i.since, rows, Newest(w.store, rows))])
    case Write(worker) =>
      var i := w.workers[worker];
      var done := w.(workers := Without(w.workers, worker));
      if Unchanged(w.store, i.access, i.count, Some(i.seen)) then done.(store := Repaired(w.store, i.access, |i.rows|, i.newest)) else done
  }

  // ---------- runs ----------

  const EMPTY := World(Store(map[], map[]), 0, map[], map[])

  /** A run from the empty ledger: the worlds it passes through, one more than its steps. */
  ghost predicate Run(t: Timing, worlds: seq<World>, steps: seq<Step>) {
    && |worlds| == |steps| + 1 && worlds[0] == EMPTY
    && forall i :: 0 <= i < |steps| ==> Enabled(t, worlds[i], steps[i]) && worlds[i + 1] == Next(t, worlds[i], steps[i])
  }
}
