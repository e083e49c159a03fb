/** What a delivery_failure incident says about the claim it names, in every run of the delivery protocol. */
module DeliveryIncidents {
  import opened Wrappers
  import opened RetailPayment
  import opened RetailLedger
  import opened DeliveryProtocol
  import opened DeliveryRuns
  import opened SoloWorker

  const MISMATCH := "response_digest_mismatch"

  /** The incident is the failure of this row. */
  ghost predicate FailsAs(row: Claim, i: Incident) {
    row.delivery.Undelivered? && i == FailureIncident(row.binding, row.delivery.at, row.delivery.reason)
  }

  ghost predicate OwnFailure(l: Ledger, i: Incident) { exists id :: id in l.claims && FailsAs(l.claims[id], i) }

  /** The worker is about to compare its body with a delivered row that stores another one. */
  ghost predicate ReadsDifferent(s: System, k: nat, claim: StableId) {
    k in s.workers && s.workers[k].pc.Reading? && s.workers[k].pc.cap.claimId == claim && claim in s.ledger.claims &&
    s.ledger.claims[claim].delivery.Delivered? && !SameContent(s.ledger.claims[claim].delivery, s.workers[k].pc.body)
  }

  /** The incident is the report of that comparison. */
  ghost predicate Mismatches(s: System, k: nat, claim: StableId, i: Incident) {
    ReadsDifferent(s, k, claim) &&
    var j := s.workers[k].job;
    i == Incident(j.at, DeliveryFailureIncident, Some(j.prepared.RequestId()), Some(j.prepared.resourceType),
                  Some(j.outcome.receipt.id), "response_digest_mismatch", NoDetails)
  }

  ghost predicate WasMismatch(t: seq<System>, n: nat, claim: StableId, i: Incident)
    requires n < |t|
  {
    exists m: nat, k: nat :: m < n && Mismatches(t[m], k, claim, i)
  }

  // ---- one step ----

  lemma RowStays(l: Ledger, m: Ledger, id: StableId)
    requires Grows(l, m) && id in l.claims && !l.claims[id].delivery.Pending?
    ensures id in m.claims && m.claims[id].binding == l.claims[id].binding &&
            m.claims[id].delivery == l.claims[id].delivery
  {
    assert RowGrows(l.claims[id], m.claims[id]);
  }

  lemma OwnFailureStays(l: Ledger, m: Ledger, i: Incident)
    requires Grows(l, m) && OwnFailure(l, i)
    ensures OwnFailure(m, i)
  {
    hide Grows;
    var id :| id in l.claims && FailsAs(l.claims[id], i);
    RowStays(l, m, id);
  }

  lemma MarkAdds(l: Ledger, id: StableId, d: Delivery, f: Fault)
    ensures var m := MarkStep(l, id, d, f).0;
            m.incidents == l.incidents ||
            (id in l.claims && d.Undelivered? && id in m.claims && m.claims[id] == l.claims[id].(delivery := d) &&
             m.incidents == l.incidents + {FailureIncident(l.claims[id].binding, d.at, d.reason)})
  {
    hide Noted, ValidReason, TerminalEvent;
  }

  /** Every other step leaves the incidents as they are. */
  lemma QuietStep(l: Ledger, mode: Mode, j: Job, pc: Pc, f: Fault, c: Choice)
    requires !pc.ReportingConflict? && !pc.ReportingMismatch? && !pc.ReportingMark? && !pc.Marking? &&
             !pc.MarkingFailure? && !pc.MarkingByOutcome?
    ensures Advance(l, mode, j, pc, f, c).0.incidents == l.incidents
  {
    hide Noted, Begin, Resume, Render, Read, Reread, ReadForFailure, BindingOf, ClaimIdOf, ReplayEvent, ClaimedEvent,
      TerminalEvent, Taken, Refusal;
  }

  /** The steps that may write an incident, as the transactions they are. */
  lemma LoudSteps(l: Ledger, mode: Mode, j: Job, pc: Pc, f: Fault, c: Choice)
    ensures var m := Advance(l, mode, j, pc, f, c).0;
      match pc
      case ReportingConflict => m == ReportStep(l, ConflictIncident(j), f).0
      case ReportingMismatch => m == ReportStep(l, MismatchIncident(j), f).0
      case ReportingMark(_, mark) =>
          mark.Undelivered? ==> m == ReportStep(l, FailureIncident(BindingOf(j), mark.at, mark.reason), f).0
      case Marking(cap, body, elapsed) => m == MarkStep(l, cap.claimId, Complete(j, body, elapsed), f).0
      case MarkingFailure(cap, reason, elapsed) =>
          m == MarkStep(l, cap.claimId, Undelivered(j.at, reason, Some(elapsed)), f).0
      case MarkingByOutcome(cap, mark) => m == MarkStep(l, cap.claimId, mark, f).0
      case _ => true
  {
    hide MarkStep, ReportStep, BindingOf, FailureIncident, ConflictIncident, MismatchIncident;
  }

  lemma MarkAddsOwn(l: Ledger, id: StableId, d: Delivery, f: Fault, i: Incident)
    requires i in MarkStep(l, id, d, f).0.incidents && i !in l.incidents
    ensures OwnFailure(MarkStep(l, id, d, f).0, i)
  {
    hide MarkStep, FailureIncident;
    MarkAdds(l, id, d, f);
    assert FailsAs(MarkStep(l, id, d, f).0.claims[id], i);
  }

  lemma ReportAdds(l: Ledger, i: Incident, f: Fault)
    ensures ReportStep(l, i, f).0.incidents <= l.incidents + {i} && ReportStep(l, i, f).0.claims == l.claims
  {
  }

  lemma ReportedMark(l: Ledger, j: Job, pc: Pc, f: Fault)
    requires WorkerOk(l, j, pc) && pc.ReportingMark?
    ensures pc.mark.Undelivered?
    ensures OwnFailure(l, FailureIncident(BindingOf(j), pc.mark.at, pc.mark.reason))
  {
    hide AllowsAccess, OutcomeOf, BindingOf;
    assert FailsAs(l.claims[pc.cap.claimId], FailureIncident(BindingOf(j), pc.mark.at, pc.mark.reason));
  }

  lemma ConflictIsOther(j: Job)
    ensures !ConflictIncident(j).kind.DeliveryFailureIncident?
  {
  }

  /** A step that adds a delivery_failure incident fails a row, or reports a mismatch. */
  lemma AdvanceAdds(l: Ledger, mode: Mode, j: Job, pc: Pc, f: Fault, c: Choice, i: Incident)
    requires WorkerOk(l, j, pc) && i.kind.DeliveryFailureIncident?
    requires i in Advance(l, mode, j, pc, f, c).0.incidents && i !in l.incidents
    ensures OwnFailure(Advance(l, mode, j, pc, f, c).0, i) || (pc.ReportingMismatch? && i == MismatchIncident(j))
  {
    hide WorkerOk, MarkStep, ReportStep, BindingOf, FailureIncident, ConflictIncident, MismatchIncident, Advance;
    LoudSteps(l, mode, j, pc, f, c);
    if pc.ReportingConflict? {
      ReportAdds(l, ConflictIncident(j), f);
      ConflictIsOther(j);
    } else if pc.ReportingMismatch? {
      ReportAdds(l, MismatchIncident(j), f);
    } else if pc.ReportingMark? {
      ReportedMark(l, j, pc, f);
      ReportAdds(l, FailureIncident(BindingOf(j), pc.mark.at, pc.mark.reason), f);
    } else if pc.Marking? {
      MarkAddsOwn(l, pc.cap.claimId, Complete(j, pc.body, pc.elapsed), f, i);
    } else if pc.MarkingFailure? {
      MarkAddsOwn(l, pc.cap.claimId, Undelivered(j.at, pc.reason, Some(pc.elapsed)), f, i);
    } else if pc.MarkingByOutcome? {
      MarkAddsOwn(l, pc.cap.claimId, pc.mark, f, i);
    } else {
      QuietStep(l, mode, j, pc, f, c);
    }
  }

  ghost predicate Reports(s: System, k: nat, i: Incident) {
    k in s.workers && s.workers[k].pc.ReportingMismatch? && i == MismatchIncident(s.workers[k].job)
  }

  lemma StepAdds(s: System, a: Action, i: Incident)
    requires Inv(s) && i.kind.DeliveryFailureIncident? && i in Step(s, a).ledger.incidents && i !in s.ledger.incidents
    ensures OwnFailure(Step(s, a).ledger, i) || exists k :: Reports(s, k, i)
  {
    hide Sound, WorkerOk, SoleFirst, Advance, OutcomeOf, Noted, MismatchIncident;
    if a.Run? && a.id in s.workers {
      var w := s.workers[a.id];
      AdvanceAdds(s.ledger, s.mode, w.job, w.pc, a.fault, a.choice, i);
      assert w.pc.ReportingMismatch? && i == MismatchIncident(w.job) ==> Reports(s, a.id, i);
    }
  }

  lemma OnlyReadingReports(l: Ledger, mode: Mode, j: Job, pc: Pc, f: Fault, c: Choice)
    ensures Advance(l, mode, j, pc, f, c).1.ReportingMismatch? && !pc.ReportingMismatch? ==>
              pc.Reading? && pc.cap.claimId in l.claims && l.claims[pc.cap.claimId].delivery.Delivered? &&
              !SameContent(l.claims[pc.cap.claimId].delivery, pc.body)
  {
    hide MarkStep, ClaimStep, NoteStep, ReportStep, AllowsAccess, ClaimMatches, BySettlement, ValidReason, Strip;
  }

  /** A worker reaches the report only by reading a delivered row that stores another body. */
  lemma StepReads(s: System, a: Action, k: nat)
    requires k in Step(s, a).workers && Step(s, a).workers[k].pc.ReportingMismatch?
    ensures k in s.workers && s.workers[k].job == Step(s, a).workers[k].job
    ensures s.workers[k].pc.ReportingMismatch? ||
            (s.workers[k].pc.Reading? && ReadsDifferent(s, k, s.workers[k].pc.cap.claimId))
  {
    hide Advance, OutcomeOf, NoteStep, ReportStep, SameContent;
    if a.Run? && a.id == k {
      OnlyReadingReports(s.ledger, s.mode, s.workers[k].job, s.workers[k].pc, a.fault, a.choice);
    }
  }

  // ---- whole runs ----

  lemma StartIsEmpty(t: seq<System>)
    requires IsRun(t)
    ensures t[0].workers == map[] && t[0].ledger.incidents == {}
  {
    hide Step;
  }

  lemma {:induction false} ReportWasRead(t: seq<System>, n: nat, k: nat) returns (m: nat)
    requires IsRun(t) && n < |t| && k in t[n].workers && t[n].workers[k].pc.ReportingMismatch?
    ensures m < n && k in t[m].workers && t[m].workers[k].pc.Reading? && t[m].workers[k].job == t[n].workers[k].job
    ensures ReadsDifferent(t[m], k, t[m].workers[k].pc.cap.claimId)
    decreases n
  {
    hide IsRun, Step, ReadsDifferent;
    StartIsEmpty(t);
    RunNext(t, n - 1);
    if t[n] == t[n - 1] {
      m := ReportWasRead(t, n - 1, k);
    } else {
      var a :| t[n] == Step(t[n - 1], a);
      StepReads(t[n - 1], a, k);
      if t[n - 1].workers[k].pc.ReportingMismatch? { m := ReportWasRead(t, n - 1, k); } else { m := n - 1; }
    }
  }

  ghost predicate Originates(t: seq<System>, n: nat, i: Incident)
    requires n < |t|
  {
    OwnFailure(t[n].ledger, i) || exists claim :: WasMismatch(t, n, claim, i)
  }

  lemma ReportOriginates(t: seq<System>, n: nat, k: nat, i: Incident)
    requires IsRun(t) && n + 1 < |t| && Reports(t[n], k, i)
    ensures Originates(t, n + 1, i)
  {
    hide IsRun, ReadsDifferent;
    var m := ReportWasRead(t, n, k);
    var claim := t[m].workers[k].pc.cap.claimId;
    assert Mismatches(t[m], k, claim, i);
    assert WasMismatch(t, n + 1, claim, i);
  }

  lemma OriginStays(t: seq<System>, n: nat, i: Incident)
    requires IsRun(t) && n + 1 < |t| && Originates(t, n, i)
    ensures Originates(t, n + 1, i)
  {
    hide IsRun, Mismatches, Grows;
    if OwnFailure(t[n].ledger, i) {
      RunGrows(t, n, n + 1);
      OwnFailureStays(t[n].ledger, t[n + 1].ledger, i);
    } else {
      var claim :| WasMismatch(t, n, claim, i);
      var m: nat, k: nat :| m < n && Mismatches(t[m], k, claim, i);
      assert WasMismatch(t, n + 1, claim, i);
    }
  }

  /** Every delivery_failure incident was written by the failure of its claim, or reports a mismatched body. */
  lemma {:induction false} IncidentOriginates(t: seq<System>, n: nat, i: Incident)
    requires IsRun(t) && n < |t| && i in t[n].ledger.incidents && i.kind.DeliveryFailureIncident?
    ensures Originates(t, n, i)
    decreases n
  {
    hide IsRun, Step, Inv, OwnFailure, WasMismatch, Originates, Reports;
    StartIsEmpty(t);
    RunNext(t, n - 1);
    if i in t[n - 1].ledger.incidents {
      IncidentOriginates(t, n - 1, i);
      OriginStays(t, n - 1, i);
    } else {
      var a :| t[n] == Step(t[n - 1], a);
      RunKeeps(t, n - 1);
      StepAdds(t[n - 1], a, i);
      if OwnFailure(t[n].ledger, i) {
        OwnOriginates(t, n, i);
      } else {
        var k :| Reports(t[n - 1], k, i);
        ReportOriginates(t, n - 1, k, i);
      }
    }
  }

  lemma OwnOriginates(t: seq<System>, n: nat, i: Incident)
    requires n < |t| && OwnFailure(t[n].ledger, i)
    ensures Originates(t, n, i)
  {
  }

  /** A mismatch is about a row of the reporting worker's receipt, which is delivered for good. */
  lemma MismatchIsAbout(t: seq<System>, m: nat, n: nat, k: nat, claim: StableId, i: Incident)
    requires IsRun(t) && m <= n < |t| && Mismatches(t[m], k, claim, i)
    ensures claim in t[n].ledger.claims && t[n].ledger.claims[claim].delivery.Delivered?
    ensures i.receipt == Some(t[n].ledger.claims[claim].binding.receipt) && i.reason == MISMATCH
  {
    hide IsRun, Sound, SoleFirst, AllowsAccess, OutcomeOf, Grows, BindingOf, SameContent;
    RunKeeps(t, m);
    RunGrows(t, m, n);
    assert WorkerOk(t[m].ledger, t[m].workers[k].job, t[m].workers[k].pc);
    RowStays(t[m].ledger, t[n].ledger, claim);
  }

  /** The incident is the failure of this row, or this row was delivered and then met with a body of other content. */
  ghost predicate Tells(t: seq<System>, n: nat, claim: StableId, i: Incident)
    requires n < |t| && claim in t[n].ledger.claims
  {
    i.receipt == Some(t[n].ledger.claims[claim].binding.receipt) &&
    (FailsAs(t[n].ledger.claims[claim], i) ||
     (t[n].ledger.claims[claim].delivery.Delivered? && i.reason == MISMATCH && WasMismatch(t, n, claim, i)))
  }

  lemma IncidentTells(t: seq<System>, n: nat, i: Incident) returns (claim: StableId)
    requires IsRun(t) && n < |t| && i in t[n].ledger.incidents && i.kind.DeliveryFailureIncident?
    ensures claim in t[n].ledger.claims && Tells(t, n, claim, i)
  {
    hide IsRun, Mismatches;
    IncidentOriginates(t, n, i);
    if OwnFailure(t[n].ledger, i) {
      claim :| claim in t[n].ledger.claims && FailsAs(t[n].ledger.claims[claim], i);
    } else {
      claim :| WasMismatch(t, n, claim, i);
      var m: nat, k: nat :| m < n && Mismatches(t[m], k, claim, i);
      MismatchIsAbout(t, m, n, k, claim, i);
    }
  }

  lemma InvIndexed(s: System)
    requires Inv(s)
    ensures Indexed(s.ledger)
  {
  }

  /** The delivery_failure incidents about one receipt. */
  ghost function FailuresAbout(l: Ledger, receipt: StableId): set<Incident> {
    set i | i in l.incidents && i.kind.DeliveryFailureIncident? && i.receipt == Some(receipt)
  }

  /**
   * What delivery_failure incidents say, in every reachable state. A failed claim has exactly one, its own; a pending
   * claim has none; a delivered claim has only reports of workers that read it with a body of other content.
   */
  lemma FailuresAreExplained(t: seq<System>, n: nat, claim: StableId)
    requires IsRun(t) && n < |t| && claim in t[n].ledger.claims
    ensures var l := t[n].ledger; var row := l.claims[claim];
            match row.delivery
            case Pending => FailuresAbout(l, row.binding.receipt) == {}
            case Undelivered(at, reason, _) =>
                FailuresAbout(l, row.binding.receipt) == {FailureIncident(row.binding, at, reason)}
            case Delivered(_, _, _, _) =>
                forall i :: i in FailuresAbout(l, row.binding.receipt) ==>
                  i.reason == MISMATCH && WasMismatch(t, n, claim, i)
  {
    hide IsRun, Inv, FailureIncident, Indexed, WasMismatch;
    var l := t[n].ledger;
    var row := l.claims[claim];
    RunKeeps(t, n);
    InvIndexed(t[n]);
    forall i | i in FailuresAbout(l, row.binding.receipt) ensures Tells(t, n, claim, i) {
      var id := IncidentTells(t, n, i);
      SettlementUnique(l, id, claim);
    }
    if row.delivery.Undelivered? {
      OwnIncident(t, n, claim);
      var own := FailureIncident(row.binding, row.delivery.at, row.delivery.reason);
      assert own in FailuresAbout(l, row.binding.receipt);
    }
  }

  lemma OwnIncident(t: seq<System>, n: nat, claim: StableId)
    requires IsRun(t) && n < |t| && claim in t[n].ledger.claims && t[n].ledger.claims[claim].delivery.Undelivered?
    ensures var row := t[n].ledger.claims[claim];
            var i := FailureIncident(row.binding, row.delivery.at, row.delivery.reason);
            i in t[n].ledger.incidents && i.kind.DeliveryFailureIncident? && i.receipt == Some(row.binding.receipt)
  {
    hide IsRun, EventsAbout, Expected;
    AuditIsComplete(t, n, claim, PaymentClaimed);
  }

  /**
   * Every delivery_failure incident names one claim. It is that claim's failure, unless the claim was delivered and
   * some worker read its row with a body of other content; a reason other than the mismatch excludes the latter.
   */
  lemma FailureIncidentIffFailed(t: seq<System>, n: nat, i: Incident)
    requires IsRun(t) && n < |t| && i in t[n].ledger.incidents && i.kind.DeliveryFailureIncident?
    ensures exists id :: id in t[n].ledger.claims && Tells(t, n, id, i)
    ensures forall id :: id in t[n].ledger.claims && i.receipt == Some(t[n].ledger.claims[id].binding.receipt) ==>
              Tells(t, n, id, i) && (FailsAs(t[n].ledger.claims[id], i) <==> !WasMismatch(t, n, id, i))
    ensures i.reason != MISMATCH ==>
              exists id :: id in t[n].ledger.claims && FailsAs(t[n].ledger.claims[id], i)
  {
    hide IsRun, Inv, FailureIncident, Indexed, WasMismatch;
    RunKeeps(t, n);
    InvIndexed(t[n]);
    var id := IncidentTells(t, n, i);
    forall k | k in t[n].ledger.claims && i.receipt == Some(t[n].ledger.claims[k].binding.receipt)
      ensures Tells(t, n, k, i) && (FailsAs(t[n].ledger.claims[k], i) <==> !WasMismatch(t, n, k, i))
    {
      SettlementUnique(t[n].ledger, id, k);
      MismatchedIsDelivered(t, n, k, i);
    }
  }

  lemma MismatchedIsDelivered(t: seq<System>, n: nat, claim: StableId, i: Incident)
    requires IsRun(t) && n < |t| && claim in t[n].ledger.claims
    ensures WasMismatch(t, n, claim, i) ==> t[n].ledger.claims[claim].delivery.Delivered?
  {
    hide IsRun, Mismatches;
    if WasMismatch(t, n, claim, i) {
      var m: nat, k: nat :| m < n && Mismatches(t[m], k, claim, i);
      MismatchIsAbout(t, m, n, k, claim, i);
    }
  }

  // ---- a delivered claim with a delivery_failure incident ----

  type Trace = t: seq<System> | t != [] witness [Start(Disabled)]

  function Last(t: Trace): System { t[|t| - 1] }

  lemma Extend(t: Trace, a: Action) returns (u: Trace)
    requires IsRun(t)
    ensures IsRun(u) && Last(u) == Step(Last(t), a)
  {
    hide Step, Start;
    u := t + [Step(Last(t), a)];
    forall i | 0 <= i < |u| - 1 ensures Follows(Moment(u, i), u[i + 1]) {
      if i < |t| - 1 { RunNext(t, i); }
    }
  }

  ghost function With(s: System, l: Ledger, id: nat, j: Job, pc: Pc): System {
    System(l, s.mode, s.workers[id := Worker(j, pc)])
  }

  /** A worker that is driven alone is a run. */
  lemma {:induction false} DriveRuns(t: Trace, id: nat, c: Choice, n: nat) returns (u: Trace)
    requires IsRun(t) && id in Last(t).workers
    ensures IsRun(u)
    ensures var s := Last(t); var w := s.workers[id];
            var r := Drive(s.ledger, s.mode, w.job, w.pc, c, n);
            Last(u) == With(s, r.0, id, w.job, r.1)
  {
    hide IsRun, Advance;
    if n == 0 {
      u := t;
    } else {
      u := DriveRuns(t, id, c, n - 1);
      u := Extend(u, Run(id, NoFault, c));
    }
  }

  function AskedTerms(p: Prepared): Terms
    requires CatalogPrice(p.resourceType).Some?
  {
    Terms(X402_VERSION, PAYMENT_SCHEME, PAYMENT_NETWORK, PAYMENT_ASSET, CatalogPrice(p.resourceType).value, "wallet",
          MAX_TIMEOUT_SECONDS, p.resourceType, p.ResourceUri(), PRICING_MODEL, AUTHORITY_EFFECT, ACCESS_EFFECT)
  }

  /** A request for a priced resource that is paid as asked. */
  lemma PaidPurchase(p: Prepared) returns (pay: Payment)
    requires CatalogPrice(p.resourceType).Some?
    ensures OutcomeOf(pay).Some?
    ensures forall at, maxBytes :: Cleared(Job(pay, OutcomeOf(pay).value, p, at, maxBytes))
  {
    hide AllowsAccess, Process;
    var r := Requirement(RequirementId(AskedTerms(p)), AskedTerms(p));
    var payload := Payload(None, true, OfferOf(r), Some(r.terms.resourceUri), Some(OfferOf(r).nova));
    var v, x := VerifyReply(true, None),
      SettleReply(true, None, Some("t"), Some(r.terms.network), Some(r.terms.amount));
    pay := Purchase(r, payload, v, x);
    assert !Blank("t") by { assert !IsSpace("t"[0]); }
    assert PaidFor(r, payload, v, x);
    AccessIffPaid(r, payload, v, x);
    PaidReceipt(r, payload, v, x);
  }

  lemma StartRun() returns (t: Trace)
    ensures IsRun(t) && Last(t) == Start(ControlledProof)
  {
    hide Step;
    t := [Start(ControlledProof)];
  }

  /** Two workers of one paid request render different bodies: the first is delivered, the second is reported. */
  lemma MismatchedRedelivery(p: Prepared, first: Bytes, second: Bytes) returns (t: Trace, claim: StableId)
    requires CatalogPrice(p.resourceType).Some? && first != second
    ensures IsRun(t) && claim in Last(t).ledger.claims && Last(t).ledger.claims[claim].delivery.Delivered?
    ensures FailuresAbout(Last(t).ledger, Last(t).ledger.claims[claim].binding.receipt) != {}
  {
    hide IsRun, Advance, Cleared, OutcomeOf, BindingOf, ClaimIdOf, Drive;
    var pay := PaidPurchase(p);
    var j := Job(pay, OutcomeOf(pay).value, p, 0, |first| + |second|);
    t := FirstDelivery(pay, j, first);
    claim := ClaimIdOf(j);
    var l := Last(t).ledger;
    t := Extend(t, Spawn(1, pay, p, 0, |first| + |second|));
    t := SecondDelivery(t, j, claim, first, second);
    assert MismatchIncident(j) in FailuresAbout(Last(t).ledger, Last(t).ledger.claims[claim].binding.receipt) by {
      MismatchNames(j);
    }
  }

  lemma MismatchNames(j: Job)
    ensures MismatchIncident(j).kind.DeliveryFailureIncident? &&
            MismatchIncident(j).receipt == Some(BindingOf(j).receipt)
  {
  }

  lemma FirstDelivery(pay: Payment, j: Job, body: Bytes) returns (t: Trace)
    requires OutcomeOf(pay).Some? && j == Job(pay, OutcomeOf(pay).value, j.prepared, 0, j.maxBytes) && Cleared(j) &&
             |body| <= j.maxBytes
    ensures IsRun(t) && Last(t).mode.ControlledProof? && 0 in Last(t).workers && 1 !in Last(t).workers
    ensures Last(t).ledger.claims == map[ClaimIdOf(j) := Claim(BindingOf(j), 0, Complete(j, body, 0))]
  {
    hide IsRun, Advance, Cleared, OutcomeOf, BindingOf, ClaimIdOf, Drive;
    t := StartRun();
    t := Extend(t, Spawn(0, pay, j.prepared, 0, j.maxBytes));
    var c := Choice(Some(body), 0, None);
    SoloDelivery(EMPTY, j, c, body);
    t := DriveRuns(t, 0, c, 8);
  }

  lemma SecondDelivery(t: Trace, j: Job, claim: StableId, first: Bytes, second: Bytes) returns (u: Trace)
    requires IsRun(t) && Last(t).mode.ControlledProof? && 1 in Last(t).workers &&
             Last(t).workers[1] == Worker(j, Starting)
    requires Cleared(j) && |second| <= j.maxBytes && first != second && claim == ClaimIdOf(j)
    requires Last(t).ledger.claims == map[claim := Claim(BindingOf(j), 0, Complete(j, first, 0))]
    ensures IsRun(u) && Last(u).ledger.claims == Last(t).ledger.claims &&
            MismatchIncident(j) in Last(u).ledger.incidents
  {
    hide IsRun, Advance, Cleared, BindingOf, ClaimIdOf, Drive, Inv;
    var c := Choice(Some(second), 0, None);
    var l := Last(t).ledger;
    RunKeeps(t, |t| - 1);
    InvIndexed(Last(t));
    BindingBinds(j);
    RetryDelivery(l, j, c, second, claim);
    u := DriveRuns(t, 1, c, 9);
  }
}
