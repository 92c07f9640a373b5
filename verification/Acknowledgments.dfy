/** Client acknowledgments of delivery receipts: inserted once, by racing callers. */
module Acknowledgments {
  import opened Results

  type AckId = string
  type ReceiptId = string
  type CallId = string

  /** What a grant, its receipts and their acknowledgments all have to share. */
  datatype Identity = Identity(access: string, run: string, report: string, approval: string, customer: string, project: string, fingerprint: string)

  datatype Receipt = Receipt(identity: Identity, sha: string)
  datatype Ack = Ack(id: AckId, receipt: ReceiptId, receiptSha: string, identity: Identity, signer: string, at: int)

  ghost predicate Found(acks: map<AckId, Ack>, receipt: ReceiptId, a: Ack) {
    a.id in acks && acks[a.id] == a && a.receipt == receipt
  }

  ghost predicate Unknown(acks: map<AckId, Ack>, receipt: ReceiptId) {
    forall k :: k in acks ==> acks[k].receipt != receipt
  }

  /** Stored under their own id, one per receipt. */
  ghost predicate OnePerReceipt(acks: map<AckId, Ack>) {
    && (forall k :: k in acks ==> acks[k].id == k)
    && (forall j, k :: j in acks && k in acks && acks[j].receipt == acks[k].receipt ==> j == k)
  }

  // ---------- the store in place ----------

  class AckStore {
    var acks: map<AckId, Ack>

    constructor ()
      ensures acks == map[]
    {
      acks := map[];
    }

    /** Scans the stored records for one about this receipt. */
    method ByReceipt(receipt: ReceiptId) returns (found: Option<Ack>)
      requires OnePerReceipt(acks)
      ensures match found case Some(a) => Found(acks, receipt, a) case None => Unknown(acks, receipt)
    {
      var left := acks.Keys;
      while left != {}
        invariant left <= acks.Keys
        invariant forall k :: k in acks && k !in left ==> acks[k].receipt != receipt
        decreases |left|
      {
        var k :| k in left;
        if acks[k].receipt == receipt {
          return Some(acks[k]);
        }
        left := left - {k};
      }
      return None;
    }

    /** Insert once: a record already kept for the receipt wins and is returned. */
    method Put(a: Ack) returns (stored: Ack)
      requires OnePerReceipt(acks) && a.id !in acks
      modifies this
      ensures OnePerReceipt(acks) && Found(acks, a.receipt, stored)
      ensures if Unknown(old(acks), a.receipt) then stored == a && acks == old(acks)[a.id := a] else acks == old(acks)
    {
      var existing := ByReceipt(a.receipt);
      if existing.Some? {
        return existing.value;
      }
      acks := acks[a.id := a];
      stored := a;
    }
  }

  // ---------- racing callers ----------

  /** Where one call stands: it has matched its token and receipt, it has found no
      acknowledgment yet, or it has answered. */
  datatype Call =
    | Matched(receipt: ReceiptId, seen: Receipt, signer: string)
    | Clear(receipt: ReceiptId, seen: Receipt, signer: string)
    | Acknowledged(receipt: ReceiptId, signer: string, record: Ack)
    | Blocked

  datatype World = World(receipts: map<ReceiptId, Receipt>, acks: map<AckId, Ack>, calls: map<CallId, Call>)

  datatype Step =
    | Deliver(id: ReceiptId, delivered: Receipt)
    | Match(call: CallId, grant: Identity, receipt: ReceiptId, signer: string)
    | Look(call: CallId)
    | Insert(call: CallId, id: AckId, at: int)

  /** New receipts, calls and acknowledgments get ids of their own. */
  predicate Enabled(w: World, step: Step) {
    match step
    case Deliver(id, _) => id !in w.receipts
    case Match(call, _, _, _) => call !in w.calls
    case Look(call) => call in w.calls && w.calls[call].Matched?
    case Insert(call, id, _) => call in w.calls && w.calls[call].Clear? && id !in w.acks
  }

  ghost function Existing(acks: map<AckId, Ack>, receipt: ReceiptId): Option<Ack> {
    if k :| k in acks && acks[k].receipt == receipt then Some(acks[k]) else None
  }

  /** An answer is given only for a record by the same recipient. */
  function Answer(receipt: ReceiptId, signer: string, a: Ack): Call {
    if a.signer == signer then Acknowledged(receipt, signer, a) else Blocked
  }

  ghost function Next(w: World, step: Step): World
    requires Enabled(w, step)
  {
    match step
    case Deliver(id, r) => w.(receipts := w.receipts[id := r])
    case Match(call, grant, receipt, signer) =>
      if receipt in w.receipts && w.receipts[receipt].identity == grant && |signer| >= 2
      then w.(calls := w.calls[call := Matched(receipt, w.receipts[receipt], signer)])
      else w.(calls := w.calls[call := Blocked])
    case Look(call) =>
      var c := w.calls[call];
      var e := Existing(w.acks, c.receipt);
      w.(calls := w.calls[call := if e.Some? then Answer(c.receipt, c.signer, e.value) else Clear(c.receipt, c.seen, c.signer)])
    case Insert(call, id, at) =>
      var c := w.calls[call];
      var e := Existing(w.acks, c.receipt);
      var a := Ack(id, c.receipt, c.seen.sha, c.seen.identity, c.signer, at);
      if e.Some? then w.(calls := w.calls[call := Answer(c.receipt, c.signer, e.value)])
      else w.(acks := w.acks[id := a], calls := w.calls[call := Answer(c.receipt, c.signer, a)])
  }

  const EMPTY := World(map[], map[], map[])

  ghost predicate Run(worlds: seq<World>, steps: seq<Step>) {
    && |worlds| == |steps| + 1 && worlds[0] == EMPTY
    && forall i :: 0 <= i < |steps| ==> Enabled(worlds[i], steps[i]) && worlds[i + 1] == Next(worlds[i], steps[i])
  }

  // ---------- invariants ----------

  /** Every acknowledgment is about a stored receipt with the same identity and digest. */
  ghost predicate Refers(w: World) {
    forall k :: k in w.acks ==>
      var a := w.acks[k];
      a.receipt in w.receipts && a.identity == w.receipts[a.receipt].identity && a.receiptSha == w.receipts[a.receipt].sha
  }

  /** Calls under way hold what the store holds; answers report what it holds. */
  ghost predicate CallKept(w: World, c: Call) {
    match c
    case Matched(receipt, seen, _) => receipt in w.receipts && w.receipts[receipt] == seen
    case Clear(receipt, seen, _) => receipt in w.receipts && w.receipts[receipt] == seen
    case Acknowledged(receipt, signer, a) => Found(w.acks, receipt, a) && a.signer == signer
    case Blocked => true
  }

  ghost predicate Kept(w: World) {
    OnePerReceipt(w.acks) && Refers(w) && forall c :: c in w.calls ==> CallKept(w, w.calls[c])
  }

  /** Nothing stored is ever altered or removed. */
  ghost predicate Extends(w: World, w': World) {
    && (forall k :: k in w.acks ==> k in w'.acks && w'.acks[k] == w.acks[k])
    && (forall r :: r in w.receipts ==> r in w'.receipts && w'.receipts[r] == w.receipts[r])
  }

  lemma {:induction false} CallStays(w: World, w': World, c: Call)
    requires CallKept(w, c) && Extends(w, w')
    ensures CallKept(w', c)
  {}

  lemma {:induction false} ExistingIsFound(acks: map<AckId, Ack>, receipt: ReceiptId)
    requires OnePerReceipt(acks)
    ensures Existing(acks, receipt).Some? ==> Found(acks, receipt, Existing(acks, receipt).value)
    ensures Existing(acks, receipt).None? ==> Unknown(acks, receipt)
  {}

  ghost predicate Grows(w: World, step: Step, w': World) {
    && OnePerReceipt(w'.acks) && Refers(w') && Extends(w, w')
    && (forall c :: c in w'.calls && !(c in w.calls && w'.calls[c] == w.calls[c]) ==> CallKept(w', w'.calls[c]))
    && (forall c :: c in w.calls && w.calls[c].Acknowledged? ==> c in w'.calls && w'.calls[c] == w.calls[c])
  }

  lemma {:induction false} OpenGrows(w: World, step: Step)
    requires Kept(w) && Enabled(w, step) && (step.Deliver? || step.Match?)
    ensures Grows(w, step, Next(w, step))
  {}

  lemma {:induction false} LookGrows(w: World, step: Step)
    requires Kept(w) && Enabled(w, step) && step.Look?
    ensures Grows(w, step, Next(w, step))
  {
    hide Existing;
    ExistingIsFound(w.acks, w.calls[step.call].receipt);
    assert CallKept(w, w.calls[step.call]);
  }

  lemma {:induction false} InsertGrows(w: World, step: Step)
    requires Kept(w) && Enabled(w, step) && step.Insert?
    ensures Grows(w, step, Next(w, step))
  {
    hide Existing;
    ExistingIsFound(w.acks, w.calls[step.call].receipt);
    assert CallKept(w, w.calls[step.call]);
  }

  lemma {:induction false} StepKeeps(w: World, step: Step)
    requires Kept(w) && Enabled(w, step)
    ensures Kept(Next(w, step)) && Extends(w, Next(w, step))
    ensures forall c :: c in w.calls && w.calls[c].Acknowledged? ==> c in Next(w, step).calls && Next(w, step).calls[c] == w.calls[c]
  {
    hide Next, OnePerReceipt, Refers, Extends, CallKept;
    if step.Deliver? || step.Match? {
      OpenGrows(w, step);
    } else if step.Look? {
      LookGrows(w, step);
    } else {
      InsertGrows(w, step);
    }
    var w' := Next(w, step);
    forall c | c in w'.calls ensures CallKept(w', w'.calls[c]) {
      if c in w.calls && w'.calls[c] == w.calls[c] {
        CallStays(w, w', w.calls[c]);
      }
    }
  }

  lemma {:induction false} RunKeeps(worlds: seq<World>, steps: seq<Step>, i: nat, j: nat)
    requires Run(worlds, steps) && i <= j < |worlds|
    ensures Kept(worlds[i]) && Kept(worlds[j]) && Extends(worlds[i], worlds[j])
    ensures forall c :: c in worlds[i].calls && worlds[i].calls[c].Acknowledged? ==> c in worlds[j].calls && worlds[j].calls[c] == worlds[i].calls[c]
    decreases j
  {
    hide Kept, Next, Enabled;
    if j == 0 {
      assert Kept(EMPTY) by { EmptyKept(); }
    } else if i == j {
      RunKeeps(worlds, steps, j - 1, j - 1);
      StepKeeps(worlds[j - 1], steps[j - 1]);
    } else {
      RunKeeps(worlds, steps, i, j - 1);
      StepKeeps(worlds[j - 1], steps[j - 1]);
    }
  }

  lemma {:induction false} EmptyKept()
    ensures Kept(EMPTY)
  {}

  /** In any interleaving of any number of calls: an acknowledgment, once stored, is
      the only one for its receipt, stays as it is, and belongs to a stored receipt. */
  lemma {:induction false} StoredOnceForAll(worlds: seq<World>, steps: seq<Step>, i: nat, j: nat, k: AckId)
    requires Run(worlds, steps) && i <= j < |worlds| && k in worlds[i].acks
    ensures k in worlds[j].acks && worlds[j].acks[k] == worlds[i].acks[k]
    ensures forall m :: m in worlds[j].acks && worlds[j].acks[m].receipt == worlds[j].acks[k].receipt ==> m == k
    ensures var a := worlds[j].acks[k];
            a.receipt in worlds[j].receipts && worlds[j].receipts[a.receipt] == Receipt(a.identity, a.receiptSha)
  {
    RunKeeps(worlds, steps, i, j);
  }

  /** Two calls that both answer "acknowledged" for a receipt, at whatever times, report
      the same stored record, made by the recipient each of them named. */
  lemma {:induction false} AnswersAgree(worlds: seq<World>, steps: seq<Step>, i: nat, j: nat, c: CallId, d: CallId)
    requires Run(worlds, steps) && i < |worlds| && j < |worlds|
    requires c in worlds[i].calls && d in worlds[j].calls
    requires worlds[i].calls[c].Acknowledged? && worlds[j].calls[d].Acknowledged?
    requires worlds[i].calls[c].receipt == worlds[j].calls[d].receipt
    ensures worlds[i].calls[c].record == worlds[j].calls[d].record
    ensures worlds[i].calls[c].signer == worlds[j].calls[d].signer == worlds[i].calls[c].record.signer
    ensures Found(worlds[i].acks, worlds[i].calls[c].receipt, worlds[i].calls[c].record)
  {
    var last := if i < j then j else i;
    RunKeeps(worlds, steps, i, last);
    RunKeeps(worlds, steps, j, last);
    assert CallKept(worlds[last], worlds[last].calls[c]) && CallKept(worlds[last], worlds[last].calls[d]);
    assert CallKept(worlds[i], worlds[i].calls[c]);
  }
}
