/** The delivery ledger's two stores and the transactions that change them. Each
    transaction runs under its locks, so it is one step: it commits or changes nothing. */
module DeliveryStore {
  import opened Results

  type AccessId = string
  type ReceiptId = string

  datatype Status = Active | Revoked

  /** A download grant. Times are whole seconds; `last` is the latest redemption stamp. */
  datatype Grant = Grant(tokenHash: string, status: Status, expires: int, max: int, count: int, last: Option<int>)

  /** A delivery receipt, with the identity fields the ledger reasons about. */
  datatype Receipt = Receipt(access: AccessId, stamp: int, number: int)

  datatype Store = Store(access: map<AccessId, Grant>, receipts: map<ReceiptId, Receipt>)

  // ---------- what each transaction does ----------

  /** The grant may be redeemed when its clock reads `now`. */
  predicate Redeemable(g: Grant, tokenHash: string, now: int) {
    g.tokenHash == tokenHash && g.status.Active? && g.expires > now && g.count < g.max
  }

  function Redeemed(g: Grant, stamp: int): Grant {
    g.(count := g.count + 1, last := Some(stamp))
  }

  /** Counting and receipting together. `matches` says the approved artifact is still
      the one the grant was made for. */
  predicate Deliverable(s: Store, id: AccessId, tokenHash: string, matches: bool, now: int, receipt: ReceiptId) {
    id in s.access && Redeemable(s.access[id], tokenHash, now) && matches && receipt !in s.receipts
  }

  function Delivered(s: Store, id: AccessId, stamp: int, receipt: ReceiptId): Store
    requires id in s.access
  {
    var g := Redeemed(s.access[id], stamp);
    Store(s.access[id := g], s.receipts[receipt := Receipt(id, stamp, g.count)])
  }

  /** The older first half: counting alone. */
  function Consumed(s: Store, id: AccessId, stamp: int): Store
    requires id in s.access
  {
    s.(access := s.access[id := Redeemed(s.access[id], stamp)])
  }

  function WithReceipt(s: Store, receipt: ReceiptId, r: Receipt): Store {
    if receipt in s.receipts then s else s.(receipts := s.receipts[receipt := r])
  }

  function RevokedStore(s: Store, id: AccessId): Store {
    if id in s.access then s.(access := s.access[id := s.access[id].(status := Revoked)]) else s
  }

  /** The reconciler's write: it goes through only if the grant still shows the count
      and the stamp the reconciler saw. */
  predicate Unchanged(s: Store, id: AccessId, count: int, last: Option<int>) {
    id in s.access && s.access[id].count == count && s.access[id].last == last
  }

  function Repaired(s: Store, id: AccessId, count: int, last: Option<int>): Store
    requires id in s.access
  {
    s.(access := s.access[id := s.access[id].(count := count, last := last)])
  }

  // ---------- the stores in place ----------

  class Ledger {
    var access: map<AccessId, Grant>
    var receipts: map<ReceiptId, Receipt>

    function State(): Store
      reads this
    {
      Store(access, receipts)
    }

    constructor ()
      ensures State() == Store(map[], map[])
    {
      access, receipts := map[], map[];
    }

    method PutAccess(id: AccessId, g: Grant)
      modifies this`access
      ensures State() == old(State()).(access := old(access)[id := g])
    {
      access := access[id := g];
    }

    method Revoke(id: AccessId)
      modifies this`access
      ensures State() == RevokedStore(old(State()), id)
    {
      if id in access && access[id].status.Active? {
        access := access[id := access[id].(status := Revoked)];
      }
    }

    /** One download, counted. The durable store compares the expiry with the stamp,
        the in-memory store with its own clock: `clock` is whichever applies. */
    method Consume(id: AccessId, tokenHash: string, stamp: int, clock: int) returns (consumed: Option<Grant>)
      modifies this`access
      ensures consumed.Some? <==> id in old(access) && Redeemable(old(access)[id], tokenHash, clock)
      ensures consumed.Some? ==> State() == Consumed(old(State()), id, stamp) && consumed.value == access[id]
      ensures consumed.None? ==> State() == old(State())
    {
      if id !in access { return None; }
      var g := access[id];
      var valid := g.tokenHash == tokenHash && g.status == Active && clock < g.expires && g.count < g.max;
      if !valid { return None; }
      access := access[id := g.(count := g.count + 1)];
      access := access[id := access[id].(last := Some(stamp))];
      consumed := Some(access[id]);
    }

    /** Insert once: an existing receipt is returned unchanged. */
    method PutReceipt(id: ReceiptId, r: Receipt) returns (stored: Receipt)
      modifies this`receipts
      ensures State() == WithReceipt(old(State()), id, r) && stored == receipts[id]
    {
      if id in receipts {
        stored := receipts[id];
      } else {
        receipts := receipts[id := r];
        stored := r;
      }
    }

    /** Count and receipt in one commit; on any refusal nothing changes. */
    method DeliverAtomically(id: AccessId, tokenHash: string, matches: bool, stamp: int, now: int, receipt: ReceiptId)
        returns (committed: Option<(Grant, Receipt)>)
      modifies this
      ensures committed.Some? <==> Deliverable(old(State()), id, tokenHash, matches, now, receipt)
      ensures committed.Some? ==> State() == Delivered(old(State()), id, stamp, receipt)
                                  && committed.value == (access[id], receipts[receipt])
      ensures committed.None? ==> State() == old(State())
    {
      if id !in access { return None; }
      var current := access[id];
      if current.tokenHash != tokenHash { return None; }
      if !(current.status.Active? && current.expires > now && current.count < current.max) { return None; }
      if !matches { return None; }
      var next := current.count + 1;
      var r := Receipt(id, stamp, next);
      if receipt in receipts { return None; }
      var updated := current.(count := next, last := Some(stamp));
      access := access[id := updated];
      receipts := receipts[receipt := r];
      committed := Some((updated, r));
    }

    method ConditionalRepair(id: AccessId, expectedCount: int, expectedLast: Option<int>, repairedCount: int, repairedLast: Option<int>)
        returns (updated: Option<Grant>)
      modifies this`access
      ensures updated.Some? <==> Unchanged(old(State()), id, expectedCount, expectedLast)
      ensures updated.Some? ==> State() == Repaired(old(State()), id, repairedCount, repairedLast) && updated.value == access[id]
      ensures updated.None? ==> State() == old(State())
    {
      if id !in access { return None; }
      var record := access[id];
      if record.count != expectedCount { return None; }
      if record.last != expectedLast { return None; }
      record := record.(count := repairedCount, last := repairedLast);
      access := access[id := record];
      updated := Some(record);
    }
  }
}
