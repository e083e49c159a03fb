/** What holds of every run of the delivery protocol, over all interleavings, faults and crashes. */
module DeliveryRuns {
  import opened Wrappers
  import opened RetailPayment
  import opened RetailLedger
  import opened DeliveryProtocol

  lemma RunNext(t: seq<System>, n: nat)
    requires IsRun(t) && n + 1 < |t|
    ensures Follows(t[n], t[n + 1])
  {
    hide Step, Start;
    assert Moment(t, n) == t[n];
  }

  lemma FollowsKeeps(s: System, u: System)
    requires Inv(s) && Follows(s, u)
    ensures Inv(u) && Grows(s.ledger, u.ledger)
  {
    hide Inv, Grows, Step;
    if u == s {
      GrowsReflexive(s.ledger);
    } else {
      var a :| u == Step(s, a);
      StepKeeps(s, a);
    }
  }

  lemma RunStarts(t: seq<System>)
    requires IsRun(t)
    ensures Inv(t[0])
  {
    hide Inv, Step;
    var mode :| t[0] == Start(mode);
    StartInv(mode);
  }

  /** Every state of every run satisfies the invariant. */
  lemma {:induction false} RunKeeps(t: seq<System>, n: nat)
    requires IsRun(t) && n < |t|
    ensures Inv(t[n])
  {
    hide Inv, Grows, Follows, IsRun;
    if n == 0 {
      RunStarts(t);
    } else {
      RunKeeps(t, n - 1);
      RunNext(t, n - 1);
      FollowsKeeps(t[n - 1], t[n]);
    }
  }

  /** Between two moments of a run the ledger only grows. */
  lemma {:induction false} RunGrows(t: seq<System>, m: nat, n: nat)
    requires IsRun(t) && m <= n < |t|
    ensures Grows(t[m].ledger, t[n].ledger)
    decreases n - m
  {
    hide Inv, Grows, Follows, IsRun;
    if m == n {
      GrowsReflexive(t[m].ledger);
    } else {
      RunGrows(t, m, n - 1);
      RunKeeps(t, n - 1);
      RunNext(t, n - 1);
      FollowsKeeps(t[n - 1], t[n]);
      GrowsTransitive(t[m].ledger, t[n - 1].ledger, t[n].ledger);
    }
  }

  /** What was returned stays returned. */
  lemma StepKeepsReturned(s: System, a: Action, i: nat)
    requires i in s.workers && s.workers[i].pc.Returned?
    ensures i in Step(s, a).workers && Step(s, a).workers[i] == s.workers[i]
  {
    hide Advance, OutcomeOf, NoteStep, ReportStep;
    if a.Run? && a.id == i {
      FirstFromPending(s.ledger, s.mode, s.workers[i].job, s.workers[i].pc, a.fault, a.choice);
    }
  }

  lemma FollowsKeepsReturned(s: System, u: System, i: nat)
    requires i in s.workers && s.workers[i].pc.Returned? && Follows(s, u)
    ensures i in u.workers && u.workers[i] == s.workers[i]
  {
    hide Step;
    if u != s {
      var a :| u == Step(s, a);
      StepKeepsReturned(s, a, i);
    }
  }

  lemma {:induction false} RunKeepsReturned(t: seq<System>, m: nat, n: nat, i: nat)
    requires IsRun(t) && m <= n < |t| && i in t[m].workers && t[m].workers[i].pc.Returned?
    ensures i in t[n].workers && t[n].workers[i] == t[m].workers[i]
    decreases n - m
  {
    hide IsRun, Follows;
    if m == n {
    } else {
      RunKeepsReturned(t, m, n - 1, i);
      RunNext(t, n - 1);
      FollowsKeepsReturned(t[n - 1], t[n], i);
    }
  }

  ghost predicate ReturnedFor(s: System, i: nat, claim: StableId) {
    i in s.workers && s.workers[i].pc.Returned? && s.workers[i].pc.cap.claimId == claim
  }

  /** Every resource ever returned carries the digest and length stored in its claim row, whatever was rendered. */
  lemma ReturnedMatchesRow(t: seq<System>, n: nat, i: nat, claim: StableId)
    requires IsRun(t) && n < |t| && ReturnedFor(t[n], i, claim)
    ensures var s := t[n];
            var r := s.workers[i].pc.resource;
            claim in s.ledger.claims &&
            s.ledger.claims[claim].delivery.Delivered? &&
            s.ledger.claims[claim].delivery.digest == r.digest == Sha256(r.body) &&
            s.ledger.claims[claim].delivery.bytes == r.bytes == |r.body| <= s.workers[i].job.maxBytes
  {
    hide Sound, AllowsAccess, OutcomeOf, SoleFirst, IsRun;
    RunKeeps(t, n);
  }

  /** Two resources ever returned on one claim have the same body, and only one of them is a first delivery. */
  lemma OneBodyOneFirst(t: seq<System>, n: nat, i: nat, k: nat, claim: StableId)
    requires IsRun(t) && n < |t| && ReturnedFor(t[n], i, claim) && ReturnedFor(t[n], k, claim)
    ensures var w := t[n].workers;
            w[i].pc.resource.body == w[k].pc.resource.body &&
            (w[i].pc.resource.initial && w[k].pc.resource.initial ==> i == k)
  {
    hide Sound, WorkerOk, IsRun;
    ReturnedMatchesRow(t, n, i, claim);
    ReturnedMatchesRow(t, n, k, claim);
    RunKeeps(t, n);
    assert DeliversFirst(t[n].workers[i].pc, claim) <==> t[n].workers[i].pc.resource.initial;
    assert DeliversFirst(t[n].workers[k].pc, claim) <==> t[n].workers[k].pc.resource.initial;
  }

  /** A claim that is failed at any moment of a run yields no resource at any moment of it, before or after. */
  lemma FailedClaimYieldsNothing(t: seq<System>, m: nat, n: nat, i: nat, claim: StableId)
    requires IsRun(t) && m < |t| && n < |t|
    requires claim in t[m].ledger.claims && t[m].ledger.claims[claim].delivery.Undelivered?
    ensures !ReturnedFor(t[n], i, claim)
  {
    hide IsRun, RowGrows;
    var last := |t| - 1;
    RunGrows(t, m, last);
    FailureIsFinal(t[m].ledger, t[last].ledger, claim);
    if ReturnedFor(t[n], i, claim) {
      RunKeepsReturned(t, n, last, i);
      ReturnedMatchesRow(t, last, i, claim);
    }
  }

  lemma FailureIsFinal(l: Ledger, m: Ledger, claim: StableId)
    requires Grows(l, m) && claim in l.claims && l.claims[claim].delivery.Undelivered?
    ensures claim in m.claims && m.claims[claim].delivery.Undelivered?
  {
    assert RowGrows(l.claims[claim], m.claims[claim]);
  }

  /** The binding of a claim never changes after its insertion, and neither does a terminal status. */
  lemma BindingNeverChanges(t: seq<System>, m: nat, n: nat, claim: StableId)
    requires IsRun(t) && m <= n < |t| && claim in t[m].ledger.claims
    ensures claim in t[n].ledger.claims && RowGrows(t[m].ledger.claims[claim], t[n].ledger.claims[claim])
  {
    hide IsRun, RowGrows;
    RunGrows(t, m, n);
  }

  lemma ReturnedServes(t: seq<System>, n: nat, i: nat, claim: StableId)
    requires IsRun(t) && n < |t| && ReturnedFor(t[n], i, claim)
    ensures var s := t[n];
            Sound(s.ledger) && Serves(s.ledger, s.workers[i].job, s.workers[i].pc.cap) &&
            OutcomeOf(s.workers[i].job.payment) == Some(s.workers[i].job.outcome)
  {
    hide Sound, Serves, OutcomeOf, SoleFirst, IsRun;
    RunKeeps(t, n);
  }

  /** The claim a resource was returned on was paid for by this worker's own settlement, at the catalog price. */
  lemma ReturnedRowIsOwnSettlement(l: Ledger, j: Job, cap: Capability)
    requires Sound(l) && Serves(l, j, cap)
    ensures var b, t := l.claims[cap.claimId].binding, j.outcome.receipt;
            b.receipt == t.id && b.requirement == t.requirement &&
            SettlementOf(b) == SettlementKey(t.network, TransactionOf(j)) &&
            b.payer == t.payer && b.amount == t.amount && CatalogPrice(t.resourceType) == Some(b.amount)
  {
    hide Valid, AllowsAccess;
    ReceiptOfAccess(j);
    assert RowBacked(cap.claimId, l.claims[cap.claimId]);
  }

  /** One settlement buys one resource: same settlement, same request down to its whole digest, same body. */
  lemma OneSettlementOneResource(t: seq<System>, n: nat, i: nat, k: nat)
    requires IsRun(t) && n < |t|
    requires var w := t[n].workers;
             i in w && k in w && w[i].pc.Returned? && w[k].pc.Returned? &&
             w[i].job.outcome.receipt.network == w[k].job.outcome.receipt.network &&
             TransactionOf(w[i].job) == TransactionOf(w[k].job)
    ensures var w := t[n].workers;
            w[i].pc.cap == w[k].pc.cap && w[i].job.prepared.RequestId() == w[k].job.prepared.RequestId() &&
            w[i].job.prepared.ResourceUri() == w[k].job.prepared.ResourceUri() &&
            w[i].job.prepared.digest == w[k].job.prepared.digest &&
            w[i].pc.resource.body == w[k].pc.resource.body
  {
    hide Indexed, Audited, AllowsAccess, OutcomeOf, IsRun, RowBacked;
    var s := t[n];
    var ci, ck := s.workers[i].pc.cap.claimId, s.workers[k].pc.cap.claimId;
    ReturnedServes(t, n, i, ci);
    ReturnedServes(t, n, k, ck);
    ReturnedRowIsOwnSettlement(s.ledger, s.workers[i].job, s.workers[i].pc.cap);
    ReturnedRowIsOwnSettlement(s.ledger, s.workers[k].job, s.workers[k].pc.cap);
    SettlementUnique(s.ledger, ci, ck);
    UriNamesRequest(s.workers[i].job.prepared, s.workers[k].job.prepared);
    OneBodyOneFirst(t, n, i, k, ci);
  }

  /** A returned resource rests on a payment that was verified and settled in full at the catalog price. */
  lemma ReturnedWasPaidFor(t: seq<System>, n: nat, i: nat, claim: StableId)
    requires IsRun(t) && n < |t| && ReturnedFor(t[n], i, claim)
    ensures var s := t[n];
            var p := s.workers[i].job.payment;
            p.Purchase? && PaidFor(p.requirement, p.payload, p.verify, p.settle) && claim in s.ledger.claims &&
            var b := s.ledger.claims[claim].binding;
            p.settle.network == Some(b.network) && p.settle.amount == Some(b.amount) &&
            CatalogPrice(s.workers[i].job.prepared.resourceType) == Some(b.amount) &&
            p.requirement.terms.resourceUri == b.resourceUri == s.workers[i].job.prepared.ResourceUri()
  {
    hide Valid, AllowsAccess, IsRun, RowBacked, Process, PaidFor;
    var s := t[n];
    var j := s.workers[i].job;
    ReturnedServes(t, n, i, claim);
    ReturnedRowIsOwnSettlement(s.ledger, j, s.workers[i].pc.cap);
    match j.payment {
      case Rebuilt(r) => NoCapability(r);
      case Purchase(r, p, v, x) =>
        AccessIffPaid(r, p, v, x);
        PaidReceipt(r, p, v, x);
    }
  }

  lemma PaidReceipt(r: Requirement, p: Payload, v: VerifyReply, s: SettleReply)
    requires PaidFor(r, p, v, s)
    ensures Process(r, p, v, s).Ok?
    ensures var t := Process(r, p, v, s).value.receipt;
            s.network == Some(t.network) && s.amount == Some(t.amount) && t.resourceUri == r.terms.resourceUri &&
            t.resourceType == r.terms.resourceType
  {
    hide Strip, Blank, CatalogPrice, PayloadMatches;
    StripIsCore(s.transaction.value);
  }

  /**
   * In every reachable state the audit holds exactly one event for each stage a claim has reached, with the columns of
   * its row, none for the others, and the incident of each failure.
   */
  lemma AuditIsComplete(t: seq<System>, n: nat, claim: StableId, kind: EventKind)
    requires IsRun(t) && n < |t| && claim in t[n].ledger.claims && Lifecycle(kind)
    ensures var l := t[n].ledger; var c := l.claims[claim]; var b, d := c.binding, c.delivery;
            EventsAbout(l, b.receipt, kind) ==
              (if kind.PaymentClaimed? then
                 {Event(c.claimedAt, PaymentClaimed, b.requestId, Some(b.resourceType), None, Some(b.receipt),
                        Some(b.requirement), Some(b.transaction), None, None, None)}
               else if kind.DeliveryCompleted? && d.Delivered? then
                 {Event(d.at, DeliveryCompleted, b.requestId, Some(b.resourceType), None, Some(b.receipt),
                        Some(b.requirement), None, Some(d.duration), Some(d.bytes), None)}
               else if kind.DeliveryFailed? && d.Undelivered? then
                 {Event(d.at, DeliveryFailed, b.requestId, Some(b.resourceType), None, Some(b.receipt),
                        Some(b.requirement), None, d.elapsed, None, Some(d.reason))}
               else {})
    ensures var l := t[n].ledger; var c := l.claims[claim]; var b, d := c.binding, c.delivery;
            d.Undelivered? ==>
              Incident(d.at, DeliveryFailureIncident, Some(b.requestId), Some(b.resourceType), Some(b.receipt),
                d.reason,
                       NoDetails) in l.incidents
  {
    hide Indexed, WorkerOk, RowBacked, IsRun, EventsAbout;
    RunKeeps(t, n);
    OneEventPerStage(t[n].ledger, claim, kind);
    assert RowAudited(t[n].ledger, t[n].ledger.claims[claim]);
  }
}
