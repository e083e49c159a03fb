/** What one delivery worker achieves when it runs alone and meets no fault. */
module SoloWorker {
  import opened Wrappers
  import opened RetailPayment
  import opened RetailLedger
  import opened DeliveryProtocol

  const CALM: nat -> Fault := i => NoFault

  ghost function Drive(l: Ledger, mode: Mode, j: Job, pc: Pc, c: Choice, steps: nat): (Ledger, Pc) {
    Uninterrupted(l, mode, j, pc, c, CALM, steps)
  }

  ghost predicate Renders(j: Job, c: Choice, body: Bytes) {
    c.mark.None? && c.rendered == Some(body) && |body| <= j.maxBytes
  }

  lemma {:induction false} DriveFurther(l: Ledger, mode: Mode, j: Job, pc: Pc, c: Choice, m: nat, n: nat)
    ensures var mid := Drive(l, mode, j, pc, c, m);
            Drive(l, mode, j, pc, c, m + n) == Drive(mid.0, mode, j, mid.1, c, n)
    decreases n
  {
    hide Advance;
    if n == 0 {
    } else {
      DriveFurther(l, mode, j, pc, c, m, n - 1);
    }
  }

  lemma DriveOne(l: Ledger, mode: Mode, j: Job, pc: Pc, c: Choice)
    ensures Drive(l, mode, j, pc, c, 1) == Advance(l, mode, j, pc, NoFault, c)
  {
    hide Advance;
    assert Drive(l, mode, j, pc, c, 0) == (l, pc);
  }

  lemma DriveToClaiming(l: Ledger, j: Job, c: Choice)
    requires Cleared(j)
    ensures Drive(l, ControlledProof, j, Starting, c, 3) == (l, Claiming)
  {
    hide AllowsAccess, Strip;
    DriveFurther(l, ControlledProof, j, Starting, c, 1, 2);
    DriveFurther(l, ControlledProof, j, CheckingHealth, c, 1, 1);
    DriveOne(l, ControlledProof, j, Starting, c);
    DriveOne(l, ControlledProof, j, CheckingHealth, c);
    DriveOne(l, ControlledProof, j, CheckingMode, c);
  }

  lemma DriveThroughClaim(l: Ledger, j: Job, c: Choice)
    requires !Taken(l, ClaimIdOf(j), BindingOf(j))
    ensures Drive(l, ControlledProof, j, Claiming, c, 2) ==
            (Inserted(l, ClaimIdOf(j), BindingOf(j), j.at), Rendering(Cap(j), true))
  {
    hide Noted, BindingOf, ClaimIdOf, KeyOf;
    var m := Inserted(l, ClaimIdOf(j), BindingOf(j), j.at);
    NotedExtends(l.events, ClaimedEvent(BindingOf(j), j.at));
    NoteAgain(m, ClaimedEvent(BindingOf(j), j.at));
    assert m.(events := m.events) == m;
    DriveFurther(l, ControlledProof, j, Claiming, c, 1, 1);
    DriveOne(l, ControlledProof, j, Claiming, c);
    DriveOne(m, ControlledProof, j, NotingClaim, c);
  }

  /** From a capability to the end, as a function of the claim row it names. */
  function Conclusion(row: Claim, j: Job, cap: Capability, body: Bytes): Pc {
    if row.binding.requestId != j.prepared.RequestId() || row.binding.resourceUri != j.prepared.ResourceUri() ||
       row.binding.receipt != cap.receipt then Refused(CONFLICT)
    else if row.delivery.Undelivered? then Refused("delivery_reconciliation_required")
    else if row.delivery.Pending? then Returned(cap, Resource(body, Sha256(body), |body|, true))
    else if SameContent(row.delivery, body) then Redelivered(cap, body)
    else Refused("response_digest_mismatch")
  }

  /** What becomes of that row: a first delivery completes it. */
  function Concluded(row: Claim, j: Job, end: Pc, c: Choice, body: Bytes): Claim {
    if end.Returned? && end.resource.initial then row.(delivery := Complete(j, body, c.elapsed)) else row
  }

  lemma DriveFinished(l: Ledger, mode: Mode, j: Job, pc: Pc, c: Choice)
    requires Finished(pc)
    ensures Drive(l, mode, j, pc, c, 1) == (l, pc)
  {
    DriveOne(l, mode, j, pc, c);
  }

  lemma DriveMarking(l: Ledger, j: Job, cap: Capability, c: Choice, body: Bytes)
    requires cap.claimId in l.claims && l.claims[cap.claimId].delivery.Pending?
    ensures var r := Drive(l, ControlledProof, j, Marking(cap, body, c.elapsed), c, 1);
            r.1 == Returned(cap, Resource(body, Sha256(body), |body|, true)) &&
            r.0.claims == l.claims[cap.claimId := l.claims[cap.claimId].(delivery := Complete(j, body, c.elapsed))]
  {
    hide Noted, ValidReason;
    DriveOne(l, ControlledProof, j, Marking(cap, body, c.elapsed), c);
  }

  lemma RenderedAndRead(l: Ledger, j: Job, cap: Capability, owned: bool, c: Choice, body: Bytes)
    requires Renders(j, c, body)
    ensures Advance(l, ControlledProof, j, Rendering(cap, owned), NoFault, c) == (l, Reading(cap, body, c.elapsed))
    ensures Advance(l, ControlledProof, j, Reading(cap, body, c.elapsed), NoFault, c) ==
              (l, Read(l, j, cap, body, c.elapsed, NoFault))
  {
    hide Read;
  }

  lemma DriveToEnd(l: Ledger, j: Job, cap: Capability, owned: bool, c: Choice, body: Bytes)
    requires cap.claimId in l.claims && Renders(j, c, body)
    ensures var r := Drive(l, ControlledProof, j, Rendering(cap, owned), c, 3);
            r.1 == Conclusion(l.claims[cap.claimId], j, cap, body) &&
            r.0.claims == l.claims[cap.claimId := Concluded(l.claims[cap.claimId], j, r.1, c, body)] &&
            (r.1 == Refused("response_digest_mismatch") ==> MismatchIncident(j) in r.0.incidents)
  {
    hide Advance, Renders, Drive;
    var mode := ControlledProof;
    var third := Read(l, j, cap, body, c.elapsed, NoFault);
    RenderedAndRead(l, j, cap, owned, c, body);
    DriveFurther(l, mode, j, Rendering(cap, owned), c, 1, 2);
    DriveOne(l, mode, j, Rendering(cap, owned), c);
    DriveFurther(l, mode, j, Reading(cap, body, c.elapsed), c, 1, 1);
    DriveOne(l, mode, j, Reading(cap, body, c.elapsed), c);
    if third.Marking? { DriveMarking(l, j, cap, c, body); }
    else if third.ReportingMismatch? { DriveMismatch(l, j, c); }
    else { DriveFinished(l, mode, j, third, c); }
  }

  lemma DriveMismatch(l: Ledger, j: Job, c: Choice)
    ensures var r := Drive(l, ControlledProof, j, ReportingMismatch, c, 1);
            r.1 == Refused("response_digest_mismatch") && r.0 == l.(incidents := l.incidents + {MismatchIncident(j)})
  {
    DriveOne(l, ControlledProof, j, ReportingMismatch, c);
  }

  /** The columns a claim row takes from the request and from its payment. */
  ghost predicate BindsPurchase(b: Binding, j: Job) { b.requestId == j.prepared.RequestId() && Purchases(b, j) }

  /** The columns of the purchase, whatever request presented it. */
  ghost predicate Purchases(b: Binding, j: Job) {
    var t := j.outcome.receipt;
    b.resourceType == j.prepared.resourceType && b.resourceUri == j.prepared.ResourceUri() && b.receipt == t.id &&
    b.requirement == t.requirement && SettledBy(b, j) && b.payer == t.payer && b.amount == t.amount &&
    b.wallet == t.wallet
  }

  ghost predicate SettledBy(b: Binding, j: Job) {
    b.network == j.outcome.receipt.network && Some(b.transaction) == j.outcome.receipt.transaction
  }

  lemma MatchesIffBinds(b: Binding, j: Job)
    requires Cleared(j)
    ensures ClaimMatches(b, j) <==> BindsPurchase(b, j)
    ensures SamePurchase(b, BindingOf(j)) <==> Purchases(b, j)
    ensures SettlementOf(b) == SettlementOf(BindingOf(j)) <==> SettledBy(b, j)
  {
    hide Strip;
    RequestIdIsClean(j.prepared);
  }

  lemma BindingBinds(j: Job)
    requires Cleared(j)
    ensures BindsPurchase(BindingOf(j), j)
  {
    hide Strip;
    RequestIdIsClean(j.prepared);
  }

  /** What a step never takes back from the audit. */
  ghost predicate AuditKept(l: Ledger, m: Ledger) { l.events.Keys <= m.events.Keys && l.incidents <= m.incidents }

  lemma ClaimKeepsAudit(l: Ledger, id: StableId, b: Binding, at: nat, f: Fault)
    ensures AuditKept(l, ClaimStep(l, id, b, at, f).0)
  {
    hide ClaimedEvent, Taken, KeyOf;
  }

  lemma MarkKeepsAudit(l: Ledger, id: StableId, d: Delivery, f: Fault)
    ensures AuditKept(l, MarkStep(l, id, d, f).0)
  {
    hide TerminalEvent, FailureIncident, ValidReason, KeyOf;
  }

  lemma NoticeKeepsAudit(l: Ledger, e: Event, i: Incident, f: Fault)
    ensures AuditKept(l, NoteStep(l, e, f).0) && AuditKept(l, ReportStep(l, i, f).0)
  {
    hide KeyOf;
  }

  lemma AdvanceKeepsAudit(l: Ledger, mode: Mode, j: Job, pc: Pc, f: Fault, c: Choice)
    ensures AuditKept(l, Advance(l, mode, j, pc, f, c).0)
  {
    hide ClaimStep, MarkStep, NoteStep, ReportStep, AuditKept, Begin, Resume, Render, Read, Reread, ReadForFailure,
      BindingOf, ClaimIdOf, ReplayEvent, ConflictIncident, MismatchIncident, AfterClaim, AfterMark, ClaimedEvent,
      TerminalEvent, FailureIncident;
    AuditStays(l);
    ClaimKeepsAudit(l, ClaimIdOf(j), BindingOf(j), j.at, f);
    forall id, d ensures AuditKept(l, MarkStep(l, id, d, f).0) { MarkKeepsAudit(l, id, d, f); }
    forall e ensures AuditKept(l, NoteStep(l, e, f).0) { NoticeKeepsAudit(l, e, ConflictIncident(j), f); }
    forall i ensures AuditKept(l, ReportStep(l, i, f).0) {
      NoticeKeepsAudit(l, ClaimedEvent(BindingOf(j), j.at), i, f);
    }
  }

  lemma AuditStays(l: Ledger)
    ensures AuditKept(l, l)
  {
  }

  lemma {:induction false} DriveKeepsAudit(l: Ledger, mode: Mode, j: Job, pc: Pc, c: Choice, n: nat)
    ensures AuditKept(l, Drive(l, mode, j, pc, c, n).0)
  {
    hide Advance;
    if n == 0 {
    } else {
      DriveKeepsAudit(l, mode, j, pc, c, n - 1);
      var s := Drive(l, mode, j, pc, c, n - 1);
      AdvanceKeepsAudit(s.0, mode, j, s.1, NoFault, c);
    }
  }

  /** The audit says that a settlement was presented again, and why that did not count. */
  ghost predicate ReplayRecorded(l: Ledger, j: Job, reason: string) {
    EventKey(j.at, PaymentReplayDenied, j.prepared.RequestId(), Some(j.prepared.resourceType),
             Some(j.outcome.receipt.id), Some(reason)) in l.events
  }

  ghost predicate ConflictRecorded(l: Ledger, j: Job) {
    Incident(j.at, ReplayConflictIncident, Some(j.prepared.RequestId()), Some(j.prepared.resourceType),
             Some(j.outcome.receipt.id), "payment_replay_conflict", ConflictScope("settlement_reconciliation"))
      in l.incidents
  }

  /**
   * Alone, without faults and on an unclaimed settlement, a paid worker makes the first delivery of what it renders,
   * and its claim row says so.
   */
  lemma SoloDelivery(l: Ledger, j: Job, c: Choice, body: Bytes)
    requires Cleared(j) && Renders(j, c, body) && !Taken(l, ClaimIdOf(j), BindingOf(j))
    ensures var r := Drive(l, ControlledProof, j, Starting, c, 8);
            r.1 == Returned(Cap(j), Resource(body, Sha256(body), |body|, true)) && BindsPurchase(BindingOf(j), j) &&
            r.0.claims == l.claims[ClaimIdOf(j) :=
              Claim(BindingOf(j), j.at, Delivered(j.at, Sha256(body), |body|, c.elapsed))]
  {
    hide AllowsAccess, Strip, Drive, Renders, Noted, Taken;
    var m := Inserted(l, ClaimIdOf(j), BindingOf(j), j.at);
    RequestIdIsClean(j.prepared);
    BindingBinds(j);
    DriveFurther(l, ControlledProof, j, Starting, c, 3, 5);
    DriveToClaiming(l, j, c);
    DriveFurther(l, ControlledProof, j, Claiming, c, 2, 3);
    DriveThroughClaim(l, j, c);
    DriveToEnd(m, j, Cap(j), true, c, body);
  }

  lemma ClaimingIsRefused(l: Ledger, j: Job, c: Choice, claim: StableId)
    requires Indexed(l) && claim in l.claims && ClaimMatches(l.claims[claim].binding, j)
    ensures Advance(l, ControlledProof, j, Claiming, NoFault, c) == (l, NotingReplay(false))
    ensures BySettlement(l, SettlementOf(BindingOf(j))) == Some(l.claims[claim])
    ensures l.settlements[SettlementOf(BindingOf(j))] == claim
  {
    hide Inserted, ClaimIdOf, Strip;
    assert RowIndexed(l, claim);
  }

  lemma ResumesRow(l: Ledger, j: Job, c: Choice, claim: StableId)
    requires claim in l.claims && ClaimMatches(l.claims[claim].binding, j) &&
             SettlementOf(BindingOf(j)) in l.settlements
    requires l.settlements[SettlementOf(BindingOf(j))] == claim
    ensures Advance(l, ControlledProof, j, Resuming, NoFault, c) ==
            (l, if l.claims[claim].delivery.Undelivered? then Refused("delivery_reconciliation_required")
                else Rendering(Capability(claim, l.claims[claim].binding.receipt), false))
  {
    hide Strip;
  }

  lemma ReplayIsNoted(l: Ledger, j: Job, c: Choice, conflict: bool)
    ensures Cleared(j) ==> ReplayRecorded(Advance(l, ControlledProof, j, NotingReplay(conflict), NoFault, c).0, j,
                                          if conflict then "payment_replay_conflict" else "payment_already_consumed")
  {
    hide AllowsAccess, Strip;
    RequestIdIsClean(j.prepared);
  }

  lemma DriveThroughReplay(l: Ledger, j: Job, c: Choice, claim: StableId)
    requires Indexed(l) && claim in l.claims && ClaimMatches(l.claims[claim].binding, j)
    ensures var next := Drive(l, ControlledProof, j, Claiming, c, 3);
            next.0.claims == l.claims &&
            next.1 == (if l.claims[claim].delivery.Undelivered? then Refused("delivery_reconciliation_required")
                       else Rendering(Capability(claim, l.claims[claim].binding.receipt), false))
    ensures Cleared(j) ==> ReplayRecorded(Drive(l, ControlledProof, j, Claiming, c, 3).0, j, "payment_already_consumed")
  {
    hide Noted, ClaimMatches, BindingOf, ReplayEvent, Indexed, ClaimStep, Resume;
    var mode := ControlledProof;
    ClaimingIsRefused(l, j, c, claim);
    DriveFurther(l, mode, j, Claiming, c, 1, 2);
    DriveOne(l, mode, j, Claiming, c);
    DriveFurther(l, mode, j, NotingReplay(false), c, 1, 1);
    DriveOne(l, mode, j, NotingReplay(false), c);
    var m := Drive(l, mode, j, NotingReplay(false), c, 1).0;
    ReplayIsNoted(l, j, c, false);
    ResumesRow(m, j, c, claim);
    DriveOne(m, mode, j, Resuming, c);
  }

  /**
   * A retry with the same settlement and request finishes an interrupted delivery, repeats a completed one exactly
   * when it renders the stored content, and otherwise is refused with the reason its claim row gives; a differing body
   * is reported, and no other row changes.
   */
  lemma RetryDelivery(l: Ledger, j: Job, c: Choice, body: Bytes, claim: StableId)
    requires Cleared(j) && Renders(j, c, body)
    requires Indexed(l) && claim in l.claims && BindsPurchase(l.claims[claim].binding, j)
    ensures Drive(l, ControlledProof, j, Starting, c, 9).1 ==
            (match l.claims[claim].delivery
             case Pending => Returned(Capability(claim, l.claims[claim].binding.receipt),
                 Resource(body, Sha256(body), |body|, true))
             case Undelivered(_, _, _) => Refused("delivery_reconciliation_required")
             case Delivered(_, digest, bytes, _) =>
               if digest == Sha256(body) && bytes == |body|
               then Returned(Capability(claim, l.claims[claim].binding.receipt),
                 Resource(body, Sha256(body), |body|, false))
               else Refused("response_digest_mismatch"))
    ensures var r := Drive(l, ControlledProof, j, Starting, c, 9);
            ReplayRecorded(r.0, j, "payment_already_consumed") &&
            (r.1 == Refused("response_digest_mismatch") ==>
               Incident(j.at, DeliveryFailureIncident, Some(j.prepared.RequestId()), Some(j.prepared.resourceType),
                 Some(j.outcome.receipt.id), "response_digest_mismatch", NoDetails) in r.0.incidents) &&
            r.0.claims ==
              if l.claims[claim].delivery.Pending? then
                l.claims[claim := l.claims[claim].(delivery := Delivered(j.at, Sha256(body), |body|, c.elapsed))]
              else l.claims
  {
    hide Strip, Drive, Renders, Indexed, BindingOf, AllowsAccess, Advance, BindsPurchase;
    var mode := ControlledProof;
    MatchesIffBinds(l.claims[claim].binding, j);
    DriveFurther(l, mode, j, Starting, c, 3, 6);
    DriveToClaiming(l, j, c);
    DriveFurther(l, mode, j, Claiming, c, 3, 3);
    DriveThroughReplay(l, j, c, claim);
    var mid := Drive(l, mode, j, Claiming, c, 3);
    DriveKeepsAudit(mid.0, mode, j, mid.1, c, 3);
    if l.claims[claim].delivery.Undelivered? {
      DriveFurther(mid.0, mode, j, mid.1, c, 1, 2);
      DriveFurther(mid.0, mode, j, mid.1, c, 1, 1);
      DriveFinished(mid.0, mode, j, mid.1, c);
    } else {
      DriveToEnd(mid.0, j, mid.1.cap, false, c, body);
    }
  }

  lemma ClaimingMeetsOther(l: Ledger, j: Job, c: Choice, claim: StableId)
    requires Indexed(l) && claim in l.claims && SettlementOf(l.claims[claim].binding) == SettlementOf(BindingOf(j))
    ensures Advance(l, ControlledProof, j, Claiming, NoFault, c) ==
            (l, NotingReplay(!SamePurchase(l.claims[claim].binding, BindingOf(j))))
    ensures BySettlement(l, SettlementOf(BindingOf(j))) == Some(l.claims[claim])
  {
    hide Inserted, ClaimIdOf, Strip, SamePurchase;
    assert RowIndexed(l, claim);
  }

  lemma NotingLeavesRows(l: Ledger, j: Job, c: Choice, conflict: bool)
    ensures var r := Advance(l, ControlledProof, j, NotingReplay(conflict), NoFault, c);
            r.0.claims == l.claims && r.0.settlements == l.settlements && r.0.incidents == l.incidents &&
            r.1 == (if conflict then ReportingConflict else Resuming)
  {
    hide Noted, ReplayEvent;
  }

  lemma ResumeMeetsOther(l: Ledger, j: Job, c: Choice, row: Claim)
    requires BySettlement(l, SettlementOf(BindingOf(j))) == Some(row) && !ClaimMatches(row.binding, j)
    ensures Advance(l, ControlledProof, j, Resuming, NoFault, c) == (l, Refused(CONFLICT))
    ensures Advance(l, ControlledProof, j, ReportingConflict, NoFault, c).1 == Refused(CONFLICT)
  {
    hide Strip, ClaimMatches;
  }

  lemma ConflictIsReported(l: Ledger, j: Job, c: Choice)
    ensures var r := Advance(l, ControlledProof, j, ReportingConflict, NoFault, c);
            r.0.claims == l.claims && r.0.events == l.events && (Cleared(j) ==> ConflictRecorded(r.0, j))
  {
    hide AllowsAccess, Strip;
    RequestIdIsClean(j.prepared);
  }

  lemma DriveStays(l: Ledger, mode: Mode, j: Job, pc: Pc, c: Choice)
    requires Finished(pc)
    ensures Drive(l, mode, j, pc, c, 3) == (l, pc)
  {
    hide Advance;
    DriveFurther(l, mode, j, pc, c, 1, 2);
    DriveFurther(l, mode, j, pc, c, 1, 1);
    DriveFinished(l, mode, j, pc, c);
  }

  /**
   * A settlement already claimed for anything else, another request included, buys nothing more; a different purchase
   * is an incident, the same purchase presented for another request only an event.
   */
  lemma ConflictingRetry(l: Ledger, j: Job, c: Choice, claim: StableId)
    requires Cleared(j)
    requires Indexed(l) && claim in l.claims && SettledBy(l.claims[claim].binding, j)
    requires !BindsPurchase(l.claims[claim].binding, j)
    ensures var r := Drive(l, ControlledProof, j, Starting, c, 9);
            r.1 == Refused("payment_replay_conflict") && r.0.claims == l.claims &&
            (if Purchases(l.claims[claim].binding, j)
             then ReplayRecorded(r.0, j, "payment_already_consumed") && r.0.incidents == l.incidents
             else ReplayRecorded(r.0, j, "payment_replay_conflict") && ConflictRecorded(r.0, j))
  {
    hide Strip, Drive, Indexed, BindingOf, AllowsAccess, Advance, ClaimMatches, SettlementOf, SamePurchase,
      ConflictRecorded, BindsPurchase, Purchases, SettledBy;
    var mode := ControlledProof;
    MatchesIffBinds(l.claims[claim].binding, j);
    DriveFurther(l, mode, j, Starting, c, 3, 6);
    DriveToClaiming(l, j, c);
    DriveFurther(l, mode, j, Claiming, c, 3, 3);
    DriveFurther(l, mode, j, Claiming, c, 1, 2);
    DriveOne(l, mode, j, Claiming, c);
    ClaimingMeetsOther(l, j, c, claim);
    var conflict := !SamePurchase(l.claims[claim].binding, BindingOf(j));
    DriveFurther(l, mode, j, NotingReplay(conflict), c, 1, 1);
    DriveOne(l, mode, j, NotingReplay(conflict), c);
    NotingLeavesRows(l, j, c, conflict);
    ReplayIsNoted(l, j, c, conflict);
    var m := Advance(l, mode, j, NotingReplay(conflict), NoFault, c);
    ResumeMeetsOther(m.0, j, c, l.claims[claim]);
    if conflict { ConflictIsReported(m.0, j, c); }
    DriveOne(m.0, mode, j, m.1, c);
    DriveStays(Drive(l, mode, j, Claiming, c, 3).0, mode, j, Refused(CONFLICT), c);
  }
}
