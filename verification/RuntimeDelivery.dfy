/**
 * retail_context/runtime_delivery.py and its claim step, statement by statement against the store. Each procedure is
 * proved to take exactly the steps of the worker's program, whatever fault each store call meets.
 */
module RuntimeDelivery {
  import opened Wrappers
  import opened RetailPayment
  import opened RetailLedger
  import opened DeliveryProtocol
  import opened ControlStore

  /** A whole worker run so far: the first n steps from the start. */
  ghost function Alone(l: Ledger, mode: Mode, j: Job, c: Choice, fault: nat -> Fault, n: nat): (Ledger, Pc) {
    Uninterrupted(l, mode, j, Starting, c, fault, n)
  }

  lemma Next(l: Ledger, mode: Mode, j: Job, c: Choice, fault: nat -> Fault, n: nat)
    ensures var s := Alone(l, mode, j, c, fault, n);
            Alone(l, mode, j, c, fault, n + 1) == Advance(s.0, mode, j, s.1, fault(n), c)
  {
  }

  /** Claim a settled payment: health, kill switch, claim, and the notes that go with its outcome. */
  method ClaimSettledPayment(store: RetailControlStore, j: Job, fault: nat -> Fault, ghost l: Ledger, ghost c: Choice)
    returns (pc: Pc, k: nat)
    requires Alone(l, store.mode, j, c, fault, 1) == (store.Rows(), CheckingHealth)
    modifies store`claims, store`settlements, store`receipts, store`events, store`incidents
    ensures Alone(l, store.mode, j, c, fault, k) == (store.Rows(), pc)
    ensures pc.Refused? || pc.Resuming? || pc == Rendering(Cap(j), true)
  {
    hide Alone, ClaimStep, NoteStep, ReportStep, BindingOf, ClaimIdOf, ReplayEvent, ConflictIncident, ClaimedEvent;
    ghost var mode := store.mode;
    Next(l, mode, j, c, fault, 1);
    if !fault(1).NoFault? { return Refused(UNAVAILABLE), 2; }
    Next(l, mode, j, c, fault, 2);
    if !fault(2).NoFault? { return Refused(UNAVAILABLE), 3; }
    if store.mode.Disabled? { return Refused("service_disabled"), 3; }
    Next(l, mode, j, c, fault, 3);
    var decision := store.ClaimPayment(ClaimIdOf(j), BindingOf(j), j.at, fault(3));
    Next(l, mode, j, c, fault, 4);
    if decision.Err? { return Refused(UNAVAILABLE), 4; }
    if decision.value.Claimed? {
      var failed := store.RecordTelemetry(ClaimedEvent(BindingOf(j), j.at), fault(4));
      pc := if failed then Refused(UNAVAILABLE) else Rendering(Cap(j), true);
      return pc, 5;
    }
    var conflict := decision.value.ReplayConflict?;
    var raised := store.RecordTelemetry(ReplayEvent(j, if conflict then CONFLICT else "payment_already_consumed"),
      fault(4));
    if raised { return Refused(UNAVAILABLE), 5; }
    if !conflict { return Resuming, 5; }
    Next(l, mode, j, c, fault, 5);
    raised := store.RecordIncident(ConflictIncident(j), fault(5));
    pc := if raised then Refused(UNAVAILABLE) else Refused(CONFLICT);
    return pc, 6;
  }

  /** A capability for a fresh or resumable claim, or the reason there is none. */
  method ClaimOrResume(store: RetailControlStore, j: Job, fault: nat -> Fault, ghost c: Choice) returns (pc: Pc, k: nat)
    modifies store`claims, store`settlements, store`receipts, store`events, store`incidents
    ensures Alone(old(store.Rows()), store.mode, j, c, fault, k) == (store.Rows(), pc)
    ensures pc.Refused? || pc.Rendering?
  {
    hide AllowsAccess, Strip, BindingOf, ClaimIdOf;
    ghost var l := store.Rows();
    assert Alone(l, store.mode, j, c, fault, 0) == (l, Starting);
    Next(l, store.mode, j, c, fault, 0);
    if !AllowsAccess(j.outcome) { return Refused("invalid_payment_outcome"), 1; }
    if j.outcome.receipt.resourceType != j.prepared.resourceType { return Refused(CONFLICT), 1; }
    if j.outcome.receipt.resourceUri != j.prepared.ResourceUri() { return Refused(CONFLICT), 1; }
    pc, k := ClaimSettledPayment(store, j, fault, l, c);
    if pc.Resuming? {
      pc, k := ResumeExisting(store, j, fault, l, c, k);
    }
  }

  /** Read the row of the settlement and compare it with the payment and the request. */
  method ResumeExisting(store: RetailControlStore, j: Job, fault: nat -> Fault, ghost l: Ledger, ghost c: Choice,
      k: nat)
    returns (pc: Pc, n: nat)
    requires Alone(l, store.mode, j, c, fault, k) == (store.Rows(), Resuming)
    ensures Alone(l, store.mode, j, c, fault, n) == (store.Rows(), pc)
    ensures pc.Refused? || pc.Rendering?
  {
    hide Alone, ClaimMatches;
    Next(l, store.mode, j, c, fault, k);
    n := k + 1;
    if !fault(k).NoFault? { return Refused(UNAVAILABLE), n; }
    var key := SettlementKey(j.outcome.receipt.network, TransactionOf(j));
    if key !in store.settlements || store.settlements[key] !in store.claims { return Refused(CONFLICT), n; }
    var id := store.settlements[key];
    var existing := store.claims[id];
    if !ClaimMatches(existing.binding, j) { return Refused(CONFLICT), n; }
    if existing.delivery.Undelivered? { return Refused("delivery_reconciliation_required"), n; }
    return Rendering(Capability(id, existing.binding.receipt), false), n;
  }

  /** Fail a delivery that cannot be rendered: mark the row failed unless it is already settled. */
  method FailDelivery(store: RetailControlStore, j: Job, cap: Capability, reason: string, elapsed: nat,
      fault: nat -> Fault,
                      ghost l: Ledger, ghost c: Choice, k: nat) returns (pc: Pc, n: nat)
    requires Alone(l, store.mode, j, c, fault, k) == (store.Rows(), ReadingForFailure(cap, reason, elapsed))
    modifies store`claims, store`events, store`incidents
    ensures Alone(l, store.mode, j, c, fault, n) == (store.Rows(), pc)
    ensures pc.Refused?
  {
    hide Alone, MarkStep;
    Next(l, store.mode, j, c, fault, k);
    if !fault(k).NoFault? { return Refused(UNAVAILABLE), k + 1; }
    if cap.claimId !in store.claims || !store.claims[cap.claimId].delivery.Pending? { return Refused(reason), k + 1; }
    Next(l, store.mode, j, c, fault, k + 1);
    var marked := store.MarkDelivery(cap.claimId, Undelivered(j.at, reason, Some(elapsed)), fault(k + 1));
    pc := if marked.Ok? then Refused(reason) else Refused(UNAVAILABLE);
    n := k + 2;
  }

  /** Compare the rendered body with the row: repeat a delivery, refuse it, or go on to mark a pending one. */
  method CompareWithRow(store: RetailControlStore, j: Job, cap: Capability, body: Bytes, elapsed: nat,
      fault: nat -> Fault,
                        ghost l: Ledger, ghost c: Choice, k: nat) returns (pc: Pc, n: nat)
    requires Alone(l, store.mode, j, c, fault, k) == (store.Rows(), Reading(cap, body, elapsed))
    modifies store`incidents
    ensures Alone(l, store.mode, j, c, fault, n) == (store.Rows(), pc)
    ensures pc.Refused? || pc.Returned? || pc == Marking(cap, body, elapsed)
  {
    hide Alone, ReportStep, MismatchIncident;
    Next(l, store.mode, j, c, fault, k);
    if !fault(k).NoFault? { return Refused(UNAVAILABLE), k + 1; }
    if cap.claimId !in store.claims { return Refused(CONFLICT), k + 1; }
    var claim := store.claims[cap.claimId];
    if claim.binding.requestId != j.prepared.RequestId() || claim.binding.resourceUri != j.prepared.ResourceUri() ||
       claim.binding.receipt != cap.receipt {
      return Refused(CONFLICT), k + 1;
    }
    if claim.delivery.Undelivered? { return Refused("delivery_reconciliation_required"), k + 1; }
    if claim.delivery.Pending? { return Marking(cap, body, elapsed), k + 1; }
    if claim.delivery.digest == Sha256(body) && claim.delivery.bytes == |body| { return Redelivered(cap, body), k + 1; }
    Next(l, store.mode, j, c, fault, k + 1);
    var raised := store.RecordIncident(MismatchIncident(j), fault(k + 1));
    pc := if raised then Refused(UNAVAILABLE) else Refused("response_digest_mismatch");
    n := k + 2;
  }

  /** Mark a pending row delivered; after a lost race, deliver again only what the winner stored. */
  method MarkOrReread(store: RetailControlStore, j: Job, cap: Capability, body: Bytes, elapsed: nat,
      fault: nat -> Fault,
                      ghost l: Ledger, ghost c: Choice, k: nat) returns (pc: Pc, n: nat)
    requires Alone(l, store.mode, j, c, fault, k) == (store.Rows(), Marking(cap, body, elapsed))
    modifies store`claims, store`events, store`incidents
    ensures Alone(l, store.mode, j, c, fault, n) == (store.Rows(), pc)
    ensures pc.Refused? || pc.Returned?
  {
    hide Alone, MarkStep;
    Next(l, store.mode, j, c, fault, k);
    var marked := store.MarkDelivery(cap.claimId, Complete(j, body, elapsed), fault(k));
    if marked.Ok? { return Returned(cap, Resource(body, Sha256(body), |body|, true)), k + 1; }
    if marked.error.Unavailable? { return Refused(UNAVAILABLE), k + 1; }
    Next(l, store.mode, j, c, fault, k + 1);
    n := k + 2;
    if !fault(k + 1).NoFault? { return Refused(UNAVAILABLE), n; }
    if cap.claimId !in store.claims || !store.claims[cap.claimId].delivery.Delivered? {
      return Refused("invalid_delivery_state"), n;
    }
    var raced := store.claims[cap.claimId].delivery;
    if raced.digest != Sha256(body) || raced.bytes != |body| { return Refused("response_digest_mismatch"), n; }
    return Redelivered(cap, body), n;
  }

  /** Deliver or redeliver the resource of a capability: the rendering is given, None when it raises. */
  method DeliverOrRedeliver(store: RetailControlStore, j: Job, cap: Capability, owned: bool, rendered: Option<Bytes>,
      elapsed: nat,
                            fault: nat -> Fault, ghost l: Ledger, k: nat) returns (pc: Pc, n: nat)
    requires Alone(l, store.mode, j, Choice(rendered, elapsed, None), fault, k) == (store.Rows(), Rendering(cap, owned))
    modifies store`claims, store`events, store`incidents
    ensures Alone(l, store.mode, j, Choice(rendered, elapsed, None), fault, n) == (store.Rows(), pc)
    ensures pc.Refused? || pc.Returned?
  {
    hide Alone;
    ghost var c := Choice(rendered, elapsed, None);
    Next(l, store.mode, j, c, fault, k);
    if rendered.None? {
      pc, n := FailDelivery(store, j, cap, "resource_render_failed", elapsed, fault, l, c, k + 1);
      return;
    }
    if |rendered.value| > j.maxBytes {
      pc, n := FailDelivery(store, j, cap, "response_size_exceeded", elapsed, fault, l, c, k + 1);
      return;
    }
    pc, n := CompareWithRow(store, j, cap, rendered.value, elapsed, fault, l, c, k + 1);
    if pc.Marking? {
      pc, n := MarkOrReread(store, j, cap, rendered.value, elapsed, fault, l, c, n);
    }
  }

  /** The two procedures in a row are one whole run of a worker from its start to its end. */
  method HandlePayment(store: RetailControlStore, j: Job, rendered: Option<Bytes>, elapsed: nat, fault: nat -> Fault)
    returns (pc: Pc, ghost n: nat)
    modifies store`claims, store`settlements, store`receipts, store`events, store`incidents
    ensures Alone(old(store.Rows()), store.mode, j, Choice(rendered, elapsed, None), fault, n) == (store.Rows(), pc)
    ensures pc.Refused? || pc.Returned?
  {
    hide Alone;
    ghost var l := store.Rows();
    var k: nat;
    pc, k := ClaimOrResume(store, j, fault, Choice(rendered, elapsed, None));
    n := k;
    if pc.Rendering? {
      var m: nat;
      pc, m := DeliverOrRedeliver(store, j, pc.cap, pc.owned, rendered, elapsed, fault, l, k);
      n := m;
    }
  }

  /** A worker that nothing interrupts, started on a sound ledger, keeps it sound, and what it returns its row backs. */
  lemma {:induction false} AloneIsSafe(l: Ledger, mode: Mode, j: Job, c: Choice, fault: nat -> Fault, n: nat)
    requires Sound(l) && OutcomeOf(j.payment) == Some(j.outcome)
    ensures Advances(l, j, Alone(l, mode, j, c, fault, n))
    decreases n
  {
    hide Sound, Grows, OutcomeOf, Advance;
    GrowsReflexive(l);
    if n == 0 {
    } else {
      AloneIsSafe(l, mode, j, c, fault, n - 1);
      var s := Alone(l, mode, j, c, fault, n - 1);
      AdvanceOk(s.0, mode, j, s.1, fault(n - 1), c);
      GrowsTransitive(l, s.0, Alone(l, mode, j, c, fault, n).0);
    }
  }
}
