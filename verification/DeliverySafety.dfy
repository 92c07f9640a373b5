/** What every interleaving keeps: no grant is over-receipted, over-counted or repaired
    below its receipts. */
module DeliverySafety {
  import opened Results
  import opened DeliveryStore
  import opened DeliveryProtocol

  // ---------- tickets that may still be written ----------

  predicate Live(t: Timing, w: World, k: TicketId, id: AccessId) {
    k in w.tickets && w.tickets[k].access == id && w.now < w.tickets[k].stamp + t.window
  }

  ghost function LiveOf(t: Timing, w: World, id: AccessId): set<TicketId> {
    set k | k in w.tickets && Live(t, w, k, id)
  }

  // ---------- invariants ----------

  /** Receipts and receipts still to come are covered by the count. */
  ghost predicate Covered(t: Timing, w: World) {
    forall id :: id in w.store.access ==>
      |Of(w.store, id)| + |LiveOf(t, w, id)| <= w.store.access[id].count <= w.store.access[id].max
  }

  ghost predicate Bound(w: World) {
    && (forall r :: r in w.store.receipts ==> w.store.receipts[r].access in w.store.access)
    && (forall k :: k in w.tickets ==> w.tickets[k].access in w.store.access && w.tickets[k].stamp <= w.now)
    && (forall n :: n in w.workers ==> w.workers[n].access in w.store.access)
  }

  /** A ticket that may still be written is at most `lag` newer than the grant's stamp. */
  ghost predicate Tracked(t: Timing, w: World) {
    forall k :: k in w.tickets && w.now < w.tickets[k].stamp + t.window ==>
      var id := w.tickets[k].access;
      id in w.store.access && w.store.access[id].last.Some? && w.tickets[k].stamp <= w.store.access[id].last.value + t.lag
  }

  /** The grant moved past the stamp the worker saw, and a receipt proves it. */
  ghost predicate MovedOn(w: World, i: Intent)
    requires i.Aimed? || i.Listed?
  {
    && i.access in w.store.access && w.store.access[i.access].last.Some? && w.store.access[i.access].last.value > i.seen
    && exists r :: r in Of(w.store, i.access) && w.store.receipts[r].stamp > i.seen
  }

  ghost predicate IntentKept(t: Timing, w: World, i: Intent) {
    && (i.Aimed? || i.Listed? ==> i.since - i.seen >= t.grace && i.since <= w.now)
    && (i.Listed? ==>
          && i.rows <= Of(w.store, i.access)
          && i.newest == Newest(w.store, i.rows)
          && (i.rows == Of(w.store, i.access) || MovedOn(w, i)))
  }

  ghost predicate Kept(t: Timing, w: World) {
    Covered(t, w) && Bound(w) && Tracked(t, w) && IntentsKept(t, w)
  }

  ghost predicate IntentsKept(t: Timing, w: World) {
    forall n :: n in w.workers ==> IntentKept(t, w, w.workers[n])
  }

  /** Receipts are quick enough for the reconcilers' patience. */
  predicate Patient(t: Timing) {
    0 <= t.lag && 0 < t.window && t.lag + t.window <= t.grace
  }

  lemma {:induction false} Starts(t: Timing)
    ensures Kept(t, EMPTY)
  {}

  // ---------- cardinalities ----------

  lemma {:induction false} SubsetSize<T>(a: set<T>, b: set<T>)
    requires a <= b
    ensures |a| <= |b|
    ensures |a| == |b| ==> a == b
  {
    assert b == a + (b - a);
  }

  /** Receipts only grow: the newest stamp of a fixed set does not change. */
  lemma {:induction false} NewestStays(s: Store, s': Store, rows: set<ReceiptId>)
    requires rows <= s.receipts.Keys && rows <= s'.receipts.Keys
    requires forall r :: r in rows ==> s.receipts[r].stamp == s'.receipts[r].stamp
    ensures Newest(s, rows) == Newest(s', rows)
  {
    if rows != {} {
      var a :| a in rows && s.receipts[a].stamp == Newest(s, rows).value;
      var b :| b in rows && s'.receipts[b].stamp == Newest(s', rows).value;
      assert s.receipts[b].stamp <= Newest(s, rows).value;
      assert s'.receipts[a].stamp <= Newest(s', rows).value;
    }
  }

  lemma {:induction false} OfGrows(s: Store, s': Store, id: AccessId, receipt: ReceiptId, r: Receipt)
    requires receipt !in s.receipts && s'.receipts == s.receipts[receipt := r]
    ensures Of(s', id) == if r.access == id then Of(s, id) + {receipt} else Of(s, id)
    ensures |Of(s', id)| == |Of(s, id)| + (if r.access == id then 1 else 0)
  {
    assert receipt !in Of(s, id);
  }

  lemma {:induction false} OfSame(s: Store, s': Store)
    requires s.receipts == s'.receipts
    ensures forall id :: Of(s', id) == Of(s, id)
  {}

  /** Intents survive when receipts stay and the worker's grant keeps its stamp. */
  lemma {:induction false} IntentStays(t: Timing, w: World, w': World, i: Intent)
    requires IntentKept(t, w, i) && w.now <= w'.now && w'.store.receipts == w.store.receipts
    requires i.access in w.store.access ==> i.access in w'.store.access && w'.store.access[i.access].last == w.store.access[i.access].last
    ensures IntentKept(t, w', i)
  {
    OfSame(w.store, w'.store);
    if i.Listed? {
      NewestStays(w.store, w'.store, i.rows);
      if i.rows != Of(w.store, i.access) {
        MovedStays(w, w', i);
      }
    }
  }

  lemma {:induction false} MovedStays(w: World, w': World, i: Intent)
    requires (i.Aimed? || i.Listed?) && MovedOn(w, i)
    requires forall r :: r in w.store.receipts ==> r in w'.store.receipts && w'.store.receipts[r] == w.store.receipts[r]
    requires i.access in w'.store.access && w'.store.access[i.access].last == w.store.access[i.access].last
    ensures MovedOn(w', i)
  {
    var r :| r in Of(w.store, i.access) && w.store.receipts[r].stamp > i.seen;
    assert r in Of(w'.store, i.access);
  }

  // ---------- steps that leave receipts and counts alone ----------

  lemma {:induction false} WaitKeeps(t: Timing, w: World, seconds: nat)
    requires Kept(t, w)
    ensures Kept(t, Next(t, w, Wait(seconds)))
  {
    hide IntentKept, Of;
    var w' := Next(t, w, Wait(seconds));
    forall id | id in w.store.access ensures |LiveOf(t, w', id)| <= |LiveOf(t, w, id)| {
      SubsetSize(LiveOf(t, w', id), LiveOf(t, w, id));
    }
    forall n | n in w'.workers ensures IntentKept(t, w', w'.workers[n]) {
      IntentStays(t, w, w', w.workers[n]);
    }
  }

  lemma {:induction false} CreateKeeps(t: Timing, w: World, id: AccessId, g: Grant)
    requires Kept(t, w) && Enabled(t, w, Create(id, g))
    ensures Kept(t, Next(t, w, Create(id, g)))
  {
    hide IntentKept;
    var w' := Next(t, w, Create(id, g));
    CreateCovered(t, w, id, g);
    forall n | n in w'.workers ensures IntentKept(t, w', w'.workers[n]) {
      IntentStays(t, w, w', w.workers[n]);
    }
  }

  lemma {:induction false} CreateCovered(t: Timing, w: World, id: AccessId, g: Grant)
    requires Covered(t, w) && Bound(w) && Enabled(t, w, Create(id, g))
    ensures Covered(t, Next(t, w, Create(id, g)))
  {
    var w' := Next(t, w, Create(id, g));
    assert LiveOf(t, w', id) == {};
    forall x | x in w.store.access ensures LiveOf(t, w', x) == LiveOf(t, w, x) && Of(w'.store, x) == Of(w.store, x) {}
  }

  lemma {:induction false} RevokeKeeps(t: Timing, w: World, id: AccessId)
    requires Kept(t, w)
    ensures Kept(t, Next(t, w, Revoke(id)))
  {
    hide IntentKept, LiveOf;
    var w' := Next(t, w, Revoke(id));
    OfSame(w.store, w'.store);
    LiveSame(t, w, w');
    forall n | n in w'.workers ensures IntentKept(t, w', w'.workers[n]) {
      IntentStays(t, w, w', w.workers[n]);
    }
  }

  lemma {:induction false} LiveSame(t: Timing, w: World, w': World)
    requires w.tickets == w'.tickets && w.now == w'.now
    ensures forall id :: LiveOf(t, w', id) == LiveOf(t, w, id)
  {}

  // ---------- redemptions ----------

  /** A redemption's stamp is newer than anything a worker has aimed at. */
  lemma {:induction false} StampsPassAims(t: Timing, w: World, stamp: int, i: Intent)
    requires Patient(t) && Stamped(t, w, stamp) && IntentKept(t, w, i) && (i.Aimed? || i.Listed?)
    ensures stamp > i.seen
  {
    hide Of, MovedOn;
  }

  lemma {:induction false} DeliverKeeps(t: Timing, w: World, id: AccessId, hash: string, matches: bool, stamp: int, receipt: ReceiptId)
    requires Patient(t) && Kept(t, w) && Enabled(t, w, Deliver(id, hash, matches, stamp, receipt))
    ensures Kept(t, Next(t, w, Deliver(id, hash, matches, stamp, receipt)))
  {
    hide IntentKept, Covered;
    if Deliverable(w.store, id, hash, matches, w.now, receipt) {
      var w' := w.(store := Delivered(w.store, id, stamp, receipt));
      DeliverCovered(t, w, id, stamp, receipt);
      forall n | n in w'.workers ensures IntentKept(t, w', w'.workers[n]) {
        var i := w.workers[n];
        if i.Aimed? || i.Listed? {
          StampsPassAims(t, w, stamp, i);
        }
        ReceiptedIntent(t, w, w', id, stamp, receipt, i);
      }
    }
  }

  lemma {:induction false} DeliverCovered(t: Timing, w: World, id: AccessId, stamp: int, receipt: ReceiptId)
    requires Covered(t, w) && id in w.store.access && w.store.access[id].count < w.store.access[id].max && receipt !in w.store.receipts
    ensures Covered(t, w.(store := Delivered(w.store, id, stamp, receipt)))
  {
    hide LiveOf, Of;
    var w' := w.(store := Delivered(w.store, id, stamp, receipt));
    LiveSame(t, w, w');
    forall x | x in w'.store.access
      ensures |Of(w'.store, x)| + |LiveOf(t, w', x)| <= w'.store.access[x].count <= w'.store.access[x].max
    {
      OfGrows(w.store, w'.store, x, receipt, w'.store.receipts[receipt]);
    }
  }

  /** One new receipt, newer than any aim at its grant, whose grant carries a newer
      stamp too: every intent is kept. */
  lemma {:induction false} ReceiptedIntent(t: Timing, w: World, w': World, id: AccessId, stamp: int, receipt: ReceiptId, i: Intent)
    requires IntentKept(t, w, i) && w'.now == w.now && receipt !in w.store.receipts
    requires exists r: Receipt :: r.access == id && r.stamp == stamp && w'.store.receipts == w.store.receipts[receipt := r]
    requires i.access in w.store.access ==> i.access in w'.store.access
    requires i.access != id && i.access in w.store.access ==> w'.store.access[i.access].last == w.store.access[i.access].last
    requires (i.Aimed? || i.Listed?) && i.access == id ==>
               stamp > i.seen && id in w'.store.access && w'.store.access[id].last.Some? && w'.store.access[id].last.value > i.seen
    ensures IntentKept(t, w', i)
  {
    hide Of;
    var r: Receipt :| r.access == id && r.stamp == stamp && w'.store.receipts == w.store.receipts[receipt := r];
    if i.Listed? {
      OfGrows(w.store, w'.store, i.access, receipt, r);
      OfReceipts(w.store, i.access);
      OfReceipts(w'.store, i.access);
      NewestStays(w.store, w'.store, i.rows);
      if i.access == id {
        assert receipt in Of(w'.store, id) && w'.store.receipts[receipt].stamp > i.seen;
      } else if i.rows != Of(w.store, i.access) {
        MovedStays(w, w', i);
      }
    }
  }

  lemma {:induction false} OfReceipts(s: Store, id: AccessId)
    ensures Of(s, id) <= s.receipts.Keys
  {}

  // ---------- the two halves of the older redemption ----------

  ghost function Counted(w: World, id: AccessId, stamp: int, ticket: TicketId): World
    requires id in w.store.access
  {
    w.(store := Consumed(w.store, id, stamp), tickets := w.tickets[ticket := Ticket(id, stamp, w.store.access[id].count + 1)])
  }

  lemma {:induction false} ConsumeKeeps(t: Timing, w: World, id: AccessId, hash: string, stamp: int, durable: bool, ticket: TicketId)
    requires Patient(t) && Kept(t, w) && Enabled(t, w, Consume(id, hash, stamp, durable, ticket))
    ensures Kept(t, Next(t, w, Consume(id, hash, stamp, durable, ticket)))
  {
    hide IntentKept, Covered;
    if id in w.store.access && Redeemable(w.store.access[id], hash, if durable then stamp else w.now) {
      var w' := Counted(w, id, stamp, ticket);
      ConsumeCovered(t, w, id, stamp, ticket);
      forall n | n in w'.workers ensures IntentKept(t, w', w'.workers[n]) {
        ConsumedIntent(t, w, id, stamp, ticket, w.workers[n]);
      }
    }
  }

  lemma {:induction false} ConsumeCovered(t: Timing, w: World, id: AccessId, stamp: int, ticket: TicketId)
    requires Covered(t, w) && id in w.store.access && w.store.access[id].count < w.store.access[id].max && ticket !in w.tickets
    ensures Covered(t, Counted(w, id, stamp, ticket))
  {
    hide Of;
    var w' := Counted(w, id, stamp, ticket);
    OfSame(w.store, w'.store);
    forall x | x in w'.store.access
      ensures |Of(w'.store, x)| + |LiveOf(t, w', x)| <= w'.store.access[x].count <= w'.store.access[x].max
    {
      LiveGrows(t, w, w', x, ticket);
    }
  }

  lemma {:induction false} LiveGrows(t: Timing, w: World, w': World, id: AccessId, ticket: TicketId)
    requires ticket !in w.tickets && ticket in w'.tickets && w'.tickets == w.tickets[ticket := w'.tickets[ticket]] && w'.now == w.now
    ensures |LiveOf(t, w', id)| <= |LiveOf(t, w, id)| + (if w'.tickets[ticket].access == id then 1 else 0)
  {
    var more := if w'.tickets[ticket].access == id then {ticket} else {};
    assert LiveOf(t, w', id) <= LiveOf(t, w, id) + more;
    SubsetSize(LiveOf(t, w', id), LiveOf(t, w, id) + more);
  }

  lemma {:induction false} ConsumedIntent(t: Timing, w: World, id: AccessId, stamp: int, ticket: TicketId, i: Intent)
    requires Patient(t) && IntentKept(t, w, i) && Stamped(t, w, stamp) && id in w.store.access
    ensures IntentKept(t, Counted(w, id, stamp, ticket), i)
  {
    hide Of;
    var w' := Counted(w, id, stamp, ticket);
    OfSame(w.store, w'.store);
    if i.Listed? {
      OfReceipts(w.store, i.access);
      NewestStays(w.store, w'.store, i.rows);
      StampsPassAims(t, w, stamp, i);
      if i.rows != Of(w.store, i.access) {
        if i.access == id {
          var r :| r in Of(w.store, id) && w.store.receipts[r].stamp > i.seen;
          assert r in Of(w'.store, id);
        } else {
          MovedStays(w, w', i);
        }
      }
    }
  }

  /** Receipts that may still come are newer than anything aimed at. */
  lemma {:induction false} LivePassesAims(t: Timing, w: World, k: TicketId, i: Intent)
    requires Patient(t) && Tracked(t, w) && IntentKept(t, w, i) && (i.Aimed? || i.Listed?)
    requires k in w.tickets && w.tickets[k].access == i.access && w.now < w.tickets[k].stamp + t.window
    ensures w.tickets[k].stamp > i.seen
    ensures i.access in w.store.access && w.store.access[i.access].last.Some? && w.store.access[i.access].last.value > i.seen
  {
    hide Of, MovedOn;
  }

  ghost function Receipted(w: World, ticket: TicketId, receipt: ReceiptId): World
    requires ticket in w.tickets
  {
    var k := w.tickets[ticket];
    w.(store := WithReceipt(w.store, receipt, Receipt(k.access, k.stamp, k.number)), tickets := Without(w.tickets, ticket))
  }

  lemma {:induction false} RecordKeeps(t: Timing, w: World, ticket: TicketId, receipt: ReceiptId)
    requires Patient(t) && Kept(t, w) && Enabled(t, w, Record(ticket, receipt))
    ensures Kept(t, Next(t, w, Record(ticket, receipt)))
  {
    hide IntentKept, Covered;
    var w' := Receipted(w, ticket, receipt);
    var k := w.tickets[ticket];
    RecordCovered(t, w, ticket, receipt);
    forall n | n in w'.workers ensures IntentKept(t, w', w'.workers[n]) {
      var i := w.workers[n];
      if (i.Aimed? || i.Listed?) && i.access == k.access {
        LivePassesAims(t, w, ticket, i);
      }
      assert w'.store.receipts == w.store.receipts[receipt := Receipt(k.access, k.stamp, k.number)];
      ReceiptedIntent(t, w, w', k.access, k.stamp, receipt, i);
    }
  }

  lemma {:induction false} RecordCovered(t: Timing, w: World, ticket: TicketId, receipt: ReceiptId)
    requires Covered(t, w) && Enabled(t, w, Record(ticket, receipt))
    ensures Covered(t, Receipted(w, ticket, receipt))
  {
    hide Of;
    var w' := Receipted(w, ticket, receipt);
    var k := w.tickets[ticket];
    forall x | x in w'.store.access
      ensures |Of(w'.store, x)| + |LiveOf(t, w', x)| <= w'.store.access[x].count <= w'.store.access[x].max
    {
      OfGrows(w.store, w'.store, x, receipt, Receipt(k.access, k.stamp, k.number));
      LiveShrinks(t, w, w', x, ticket);
    }
  }

  lemma {:induction false} LiveShrinks(t: Timing, w: World, w': World, id: AccessId, ticket: TicketId)
    requires ticket in w.tickets && w'.tickets == Without(w.tickets, ticket) && w'.now == w.now
    requires w.now < w.tickets[ticket].stamp + t.window
    ensures |LiveOf(t, w', id)| == |LiveOf(t, w, id)| - (if w.tickets[ticket].access == id then 1 else 0)
  {
    if w.tickets[ticket].access == id {
      assert ticket in LiveOf(t, w, id);
      assert LiveOf(t, w', id) == LiveOf(t, w, id) - {ticket};
    } else {
      assert LiveOf(t, w', id) == LiveOf(t, w, id);
    }
  }

  // ---------- reconcilers ----------

  lemma {:induction false} LookKeeps(t: Timing, w: World, step: Step)
    requires Kept(t, w) && Enabled(t, w, step) && (step.Load? || step.Compare? || step.Aim? || step.Listing?)
    ensures Kept(t, Next(t, w, step)) && Next(t, w, step).store == w.store
  {
    hide MovedOn, Covered;
    var w' := Next(t, w, step);
    LookCovered(t, w, w');
    forall n | n in w'.workers ensures IntentKept(t, w', w'.workers[n]) {
      if n in w.workers && w'.workers[n] == w.workers[n] {
        IntentStays(t, w, w', w.workers[n]);
      } else if step.Listing? {
        assert IntentKept(t, w, w.workers[n]);
        OfReceipts(w.store, w.workers[n].access);
      }
    }
  }

  lemma {:induction false} LookCovered(t: Timing, w: World, w': World)
    requires Covered(t, w) && w'.store == w.store && w'.tickets == w.tickets && w'.now == w.now
    ensures Covered(t, w')
  {
    LiveSame(t, w, w');
  }

  /** When the write goes through, the receipts are exactly those listed, and none can
      still come. */
  lemma {:induction false} WriteIsExact(t: Timing, w: World, i: Intent)
    requires Patient(t) && Tracked(t, w) && IntentKept(t, w, i) && i.Listed? && Unchanged(w.store, i.access, i.count, Some(i.seen))
    ensures i.rows == Of(w.store, i.access) && LiveOf(t, w, i.access) == {}
  {
    forall k | k in w.tickets ensures !Live(t, w, k, i.access) {
      if Live(t, w, k, i.access) {
        LivePassesAims(t, w, k, i);
        assert false;
      }
    }
  }

  ghost function Rewritten(w: World, worker: WorkerId): World
    requires worker in w.workers && w.workers[worker].Listed? && w.workers[worker].access in w.store.access
  {
    var i := w.workers[worker];
    w.(workers := Without(w.workers, worker), store := Repaired(w.store, i.access, |i.rows|, i.newest))
  }

  lemma {:induction false} WriteKeeps(t: Timing, w: World, worker: WorkerId)
    requires Patient(t) && Kept(t, w) && Enabled(t, w, Write(worker))
    ensures Kept(t, Next(t, w, Write(worker)))
  {
    hide IntentKept, Covered, Tracked;
    var i := w.workers[worker];
    if Unchanged(w.store, i.access, i.count, Some(i.seen)) {
      WriteIsExact(t, w, i);
      var w' := Rewritten(w, worker);
      WriteCovered(t, w, worker);
      WriteTracked(t, w, worker);
      forall n | n in w'.workers ensures IntentKept(t, w', w'.workers[n]) {
        WrittenIntent(t, w, worker, w.workers[n]);
      }
    } else {
      var w' := w.(workers := Without(w.workers, worker));
      LookCovered(t, w, w');
      DroppedTracked(t, w, w');
      forall n | n in w'.workers ensures IntentKept(t, w', w'.workers[n]) {
        IntentStays(t, w, w', w.workers[n]);
      }
    }
  }

  lemma {:induction false} DroppedTracked(t: Timing, w: World, w': World)
    requires Tracked(t, w) && w'.store == w.store && w'.tickets == w.tickets && w'.now == w.now
    ensures Tracked(t, w')
  {}

  lemma {:induction false} WriteTracked(t: Timing, w: World, worker: WorkerId)
    requires Enabled(t, w, Write(worker)) && Tracked(t, w) && w.workers[worker].access in w.store.access
    requires LiveOf(t, w, w.workers[worker].access) == {}
    ensures Tracked(t, Rewritten(w, worker))
  {
    var w', id := Rewritten(w, worker), w.workers[worker].access;
    forall k | k in w'.tickets && w'.now < w'.tickets[k].stamp + t.window ensures w'.tickets[k].access != id {
      assert k !in LiveOf(t, w, id);
    }
  }

  lemma {:induction false} WriteCovered(t: Timing, w: World, worker: WorkerId)
    requires Enabled(t, w, Write(worker)) && Covered(t, w) && w.workers[worker].access in w.store.access
    requires w.workers[worker].rows == Of(w.store, w.workers[worker].access) && LiveOf(t, w, w.workers[worker].access) == {}
    ensures Covered(t, Rewritten(w, worker))
    ensures |w.workers[worker].rows| <= w.store.access[w.workers[worker].access].count
  {
    hide Of, LiveOf;
    var w' := Rewritten(w, worker);
    OfSame(w.store, w'.store);
    LiveSame(t, w, w');
  }

  lemma {:induction false} WrittenIntent(t: Timing, w: World, worker: WorkerId, j: Intent)
    requires Enabled(t, w, Write(worker)) && IntentKept(t, w, w.workers[worker]) && w.workers[worker].access in w.store.access
    requires w.workers[worker].rows == Of(w.store, w.workers[worker].access)
    requires IntentKept(t, w, j)
    ensures IntentKept(t, Rewritten(w, worker), j)
  {
    hide Of;
    var w', i := Rewritten(w, worker), w.workers[worker];
    OfSame(w.store, w'.store);
    if j.Listed? {
      OfReceipts(w.store, j.access);
      NewestStays(w.store, w'.store, j.rows);
      if j.rows != Of(w.store, j.access) {
        if j.access == i.access {
          var r :| r in Of(w.store, j.access) && w.store.receipts[r].stamp > j.seen;
          assert r in i.rows && r in Of(w'.store, j.access);
          assert w.store.receipts[r].stamp <= i.newest.value;
        } else {
          MovedStays(w, w', j);
        }
      }
    }
  }

  // ---------- every run ----------

  lemma {:induction false} StepKeeps(t: Timing, w: World, step: Step)
    requires Patient(t) && Kept(t, w) && Enabled(t, w, step)
    ensures Kept(t, Next(t, w, step))
  {
    hide Kept, Next, Enabled;
    match step
    case Wait(n) => WaitKeeps(t, w, n);
    case Create(id, g) => CreateKeeps(t, w, id, g);
    case Revoke(id) => RevokeKeeps(t, w, id);
    case Deliver(id, hash, matches, stamp, receipt) => DeliverKeeps(t, w, id, hash, matches, stamp, receipt);
    case Consume(id, hash, stamp, durable, ticket) => ConsumeKeeps(t, w, id, hash, stamp, durable, ticket);
    case Record(ticket, receipt) => RecordKeeps(t, w, ticket, receipt);
    case Load(_, _) => LookKeeps(t, w, step);
    case Compare(_) => LookKeeps(t, w, step);
    case Aim(_) => LookKeeps(t, w, step);
    case Listing(_) => LookKeeps(t, w, step);
    case Write(worker) => WriteKeeps(t, w, worker);
  }

  lemma {:induction false} RunKeeps(t: Timing, worlds: seq<World>, steps: seq<Step>, i: nat)
    requires Patient(t) && Run(t, worlds, steps) && i < |worlds|
    ensures Kept(t, worlds[i])
  {
    hide Kept, Next, Enabled;
    if i == 0 {
      Starts(t);
    } else {
      RunKeeps(t, worlds, steps, i - 1);
      StepKeeps(t, worlds[i - 1], steps[i - 1]);
    }
  }

  /** Receipts never outnumber downloads, downloads never exceed the cap. */
  ghost predicate Sound(w: World) {
    forall id :: id in w.store.access ==> |Of(w.store, id)| <= w.store.access[id].count <= w.store.access[id].max
  }

  lemma {:induction false} RunSound(t: Timing, worlds: seq<World>, steps: seq<Step>, i: nat)
    requires Patient(t) && Run(t, worlds, steps) && i < |worlds|
    ensures Sound(worlds[i])
  {
    RunKeeps(t, worlds, steps, i);
  }

  /** In every run, a repair that goes through leaves exactly the number of receipts the
      grant has, never raises the count, and no receipt can still arrive; one that saw
      an older count or stamp changes nothing. */
  lemma {:induction false} RepairsAreExact(t: Timing, worlds: seq<World>, steps: seq<Step>, n: nat)
    requires Patient(t) && Run(t, worlds, steps) && n < |steps| && steps[n].Write?
    ensures var w, w' := worlds[n], worlds[n + 1];
            var i := w.workers[steps[n].worker];
            if Unchanged(w.store, i.access, i.count, Some(i.seen)) then
              && w'.store.access[i.access].count == |Of(w'.store, i.access)| <= w.store.access[i.access].count
              && LiveOf(t, w', i.access) == {} && w'.store.receipts == w.store.receipts
              && (forall x :: x in w.store.access && x != i.access ==> w'.store.access[x] == w.store.access[x])
            else w'.store == w.store
  {
    hide Covered, IntentKept, Tracked;
    var w, w' := worlds[n], worlds[n + 1];
    var i := w.workers[steps[n].worker];
    RunKeeps(t, worlds, steps, n);
    assert IntentKept(t, w, i);
    if Unchanged(w.store, i.access, i.count, Some(i.seen)) {
      WriteIsExact(t, w, i);
      WriteCovered(t, w, steps[n].worker);
      OfSame(w.store, w'.store);
      LiveSame(t, w, w');
    }
  }

  /** A worker whose listing has gone stale cannot write: once the grant has a receipt
      the worker did not list, its write leaves the store as it is. */
  lemma {:induction false} StaleWorkersChangeNothing(t: Timing, worlds: seq<World>, steps: seq<Step>, n: nat)
    requires Patient(t) && Run(t, worlds, steps) && n < |steps| && steps[n].Write?
    requires worlds[n].workers[steps[n].worker].rows != Of(worlds[n].store, worlds[n].workers[steps[n].worker].access)
    ensures worlds[n + 1].store == worlds[n].store
  {
    hide Covered, Of;
    RunKeeps(t, worlds, steps, n);
    assert IntentKept(t, worlds[n], worlds[n].workers[steps[n].worker]);
  }
}
