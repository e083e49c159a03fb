/** What becomes of a delivery worker, alone and without faults, that is not let in, cannot render, marks, or races. */
module SoloOutcomes {
  import opened Wrappers
  import opened RetailPayment
  import opened RetailLedger
  import opened DeliveryProtocol
  import opened SoloWorker

  // ---- rendering that fails ----

  /** The render raises, or its body is too long. */
  ghost predicate FailsToRender(j: Job, c: Choice, reason: string) {
    c.mark.None? &&
    ((c.rendered.None? && reason == "resource_render_failed") ||
     (c.rendered.Some? && |c.rendered.value| > j.maxBytes && reason == "response_size_exceeded"))
  }

  /** The audit holds the failure of a claim: its event and its incident. */
  ghost predicate FailureRecorded(l: Ledger, b: Binding, at: nat, reason: string) {
    EventKey(at, DeliveryFailed, b.requestId, Some(b.resourceType), Some(b.receipt), Some(reason)) in l.events &&
    Incident(at, DeliveryFailureIncident, Some(b.requestId), Some(b.resourceType), Some(b.receipt), reason, NoDetails)
      in l.incidents
  }

  /** A failure marks a pending row failed, in full, and leaves every other ledger as it is. */
  ghost predicate FailsRow(l: Ledger, m: Ledger, claim: StableId, at: nat, reason: string, elapsed: nat)
    requires claim in l.claims
  {
    if l.claims[claim].delivery.Pending? then
      m.claims == l.claims[claim := l.claims[claim].(delivery := Undelivered(at, reason, Some(elapsed)))] &&
      FailureRecorded(m, l.claims[claim].binding, at, reason)
    else m == l
  }

  lemma RenderReasonsAreValid()
    ensures ValidReason("resource_render_failed") && ValidReason("response_size_exceeded")
  {
  }

  lemma MarkFails(l: Ledger, claim: StableId, at: nat, reason: string, elapsed: nat)
    requires claim in l.claims && l.claims[claim].delivery.Pending? && ValidReason(reason)
    ensures var r := MarkStep(l, claim, Undelivered(at, reason, Some(elapsed)), NoFault);
            r.1.Ok? && FailsRow(l, r.0, claim, at, reason, elapsed)
  {
    hide ValidReason, Noted;
    NotedExtends(l.events, TerminalEvent(l.claims[claim].binding, Undelivered(at, reason, Some(elapsed))));
  }

  lemma FailureSteps(l: Ledger, j: Job, cap: Capability, owned: bool, c: Choice, reason: string)
    requires cap.claimId in l.claims && FailsToRender(j, c, reason)
    ensures var mode := ControlledProof;
            Advance(l, mode, j, Rendering(cap, owned), NoFault, c) == (l, ReadingForFailure(cap, reason, c.elapsed)) &&
            Advance(l, mode, j, ReadingForFailure(cap, reason, c.elapsed), NoFault, c) ==
              (l, if l.claims[cap.claimId].delivery.Pending? then MarkingFailure(cap, reason, c.elapsed)
                else Refused(reason))
  {
    hide ValidReason;
  }

  lemma FailureMarks(l: Ledger, j: Job, cap: Capability, c: Choice, reason: string)
    requires cap.claimId in l.claims && l.claims[cap.claimId].delivery.Pending? && ValidReason(reason)
    ensures var r := Advance(l, ControlledProof, j, MarkingFailure(cap, reason, c.elapsed), NoFault, c);
            r.1 == Refused(reason) && FailsRow(l, r.0, cap.claimId, j.at, reason, c.elapsed)
  {
    hide MarkStep, FailsRow, ValidReason;
    MarkFails(l, cap.claimId, j.at, reason, c.elapsed);
  }

  lemma DriveFailure(l: Ledger, j: Job, cap: Capability, owned: bool, c: Choice, reason: string)
    requires cap.claimId in l.claims && FailsToRender(j, c, reason)
    ensures var r := Drive(l, ControlledProof, j, Rendering(cap, owned), c, 3);
            r.1 == Refused(reason) && FailsRow(l, r.0, cap.claimId, j.at, reason, c.elapsed)
  {
    hide Drive, Advance, FailureRecorded, ValidReason;
    var mode := ControlledProof;
    RenderReasonsAreValid();
    FailureSteps(l, j, cap, owned, c, reason);
    DriveFurther(l, mode, j, Rendering(cap, owned), c, 1, 2);
    DriveOne(l, mode, j, Rendering(cap, owned), c);
    var reading := ReadingForFailure(cap, reason, c.elapsed);
    DriveFurther(l, mode, j, reading, c, 1, 1);
    DriveOne(l, mode, j, reading, c);
    if l.claims[cap.claimId].delivery.Pending? {
      FailureMarks(l, j, cap, c, reason);
      DriveOne(l, mode, j, MarkingFailure(cap, reason, c.elapsed), c);
    } else {
      DriveFinished(l, mode, j, Refused(reason), c);
    }
  }

  /**
   * A paid worker on an unclaimed settlement whose render fails or is too long is refused with that reason; its claim
   * is failed with it, so that no retry delivers, and the audit holds the failure.
   */
  lemma SoloFailure(l: Ledger, j: Job, c: Choice, reason: string)
    requires Cleared(j) && FailsToRender(j, c, reason) && !Taken(l, ClaimIdOf(j), BindingOf(j))
    ensures var r := Drive(l, ControlledProof, j, Starting, c, 8);
            r.1 == Refused(reason) && FailureRecorded(r.0, BindingOf(j), j.at, reason) &&
            r.0.claims == l.claims[ClaimIdOf(j) := Claim(BindingOf(j), j.at,
              Undelivered(j.at, reason, Some(c.elapsed)))]
  {
    hide AllowsAccess, Strip, Drive, FailsToRender, FailureRecorded, Noted, Taken;
    var m := Inserted(l, ClaimIdOf(j), BindingOf(j), j.at);
    DriveFurther(l, ControlledProof, j, Starting, c, 3, 5);
    DriveToClaiming(l, j, c);
    DriveFurther(l, ControlledProof, j, Claiming, c, 2, 3);
    DriveThroughClaim(l, j, c);
    DriveFailure(m, j, Cap(j), true, c, reason);
  }

  /**
   * On a retry a failing render fails the claim if it is still pending, leaves a delivered one as it is, and is not
   * even tried on a failed one.
   */
  lemma RetryFailure(l: Ledger, j: Job, c: Choice, reason: string, claim: StableId)
    requires Cleared(j) && FailsToRender(j, c, reason)
    requires Indexed(l) && claim in l.claims && BindsPurchase(l.claims[claim].binding, j)
    ensures var r := Drive(l, ControlledProof, j, Starting, c, 9);
            match l.claims[claim].delivery
            case Pending =>
              r.1 == Refused(reason) && FailureRecorded(r.0, l.claims[claim].binding, j.at, reason) &&
              r.0.claims == l.claims[claim := l.claims[claim].(delivery := Undelivered(j.at, reason, Some(c.elapsed)))]
            case Delivered(_, _, _, _) => r.1 == Refused(reason) && r.0.claims == l.claims
            case Undelivered(_, _, _) => r.1 == Refused("delivery_reconciliation_required") && r.0.claims == l.claims
  {
    hide Strip, Drive, FailsToRender, FailureRecorded, Indexed, BindingOf, AllowsAccess, Advance, BindsPurchase,
      ClaimMatches;
    var mode := ControlledProof;
    MatchesIffBinds(l.claims[claim].binding, j);
    DriveFurther(l, mode, j, Starting, c, 3, 6);
    DriveToClaiming(l, j, c);
    DriveFurther(l, mode, j, Claiming, c, 3, 3);
    DriveThroughReplay(l, j, c, claim);
    var mid := Drive(l, mode, j, Claiming, c, 3);
    if l.claims[claim].delivery.Undelivered? {
      DriveStays(mid.0, mode, j, mid.1, c);
    } else {
      DriveFailure(mid.0, j, mid.1.cap, false, c, reason);
    }
  }

  // ---- not let in ----

  /** A worker whose outcome opens nothing, or another request, is refused before the ledger is touched. */
  lemma NotCleared(l: Ledger, mode: Mode, j: Job, c: Choice)
    requires !Cleared(j)
    ensures Drive(l, mode, j, Starting, c, 1) ==
            (l, Refused(if AllowsAccess(j.outcome) then "payment_replay_conflict" else "invalid_payment_outcome"))
  {
    hide AllowsAccess, Drive;
    DriveOne(l, mode, j, Starting, c);
  }

  /** While the kill switch is thrown nothing is claimed. */
  lemma DisabledClaimsNothing(l: Ledger, j: Job, c: Choice)
    requires Cleared(j)
    ensures Drive(l, Disabled, j, Starting, c, 3) == (l, Refused("service_disabled"))
  {
    hide AllowsAccess, Drive, Strip;
    DriveFurther(l, Disabled, j, Starting, c, 1, 2);
    DriveFurther(l, Disabled, j, CheckingHealth, c, 1, 1);
    DriveOne(l, Disabled, j, Starting, c);
    DriveOne(l, Disabled, j, CheckingHealth, c);
    DriveOne(l, Disabled, j, CheckingMode, c);
  }

  // ---- marking through the outcome ----

  /** A mark that the outcome can make: a delivery, or a failure with a proper reason. */
  ghost predicate Proper(mark: Delivery) { mark.Delivered? || (mark.Undelivered? && IsReason(mark.reason)) }

  ghost predicate Markable(mark: Delivery) { mark.Delivered? || (mark.Undelivered? && ValidReason(mark.reason)) }

  /** A lower-case letter, then at most 63 lower-case letters, digits and underscores. */
  ghost predicate IsReason(s: string) {
    1 <= |s| <= 64 && 'a' <= s[0] <= 'z' &&
    forall i :: 0 <= i < |s| ==> 'a' <= s[i] <= 'z' || '0' <= s[i] <= '9' || s[i] == '_'
  }

  lemma ReasonIs(s: string)
    ensures ValidReason(s) <==> IsReason(s)
  {
  }

  /** The steps of a mark: the mark itself, its event once more, and for a failure its incident once more. */
  lemma MarkSteps(l: Ledger, j: Job, cap: Capability, c: Choice, mark: Delivery)
    requires c.mark == Some(mark) && Markable(mark)
    ensures Advance(l, ControlledProof, j, Rendering(cap, true), NoFault, c) == (l, MarkingByOutcome(cap, mark))
    ensures cap.claimId in l.claims && l.claims[cap.claimId].delivery.Pending? ==>
              var r := Advance(l, ControlledProof, j, MarkingByOutcome(cap, mark), NoFault, c);
              r.1 == NotingMark(cap, mark) &&
              r.0.claims == l.claims[cap.claimId := l.claims[cap.claimId].(delivery := mark)]
    ensures var r := Advance(l, ControlledProof, j, NotingMark(cap, mark), NoFault, c);
            r.0.claims == l.claims && r.1 == (if mark.Undelivered? then ReportingMark(cap, mark) else Recorded(cap))
    ensures mark.Undelivered? ==>
              var r := Advance(l, ControlledProof, j, ReportingMark(cap, mark), NoFault, c);
              r.0.claims == l.claims && r.1 == Recorded(cap)
  {
    hide MarkStep, NoteStep, ReportStep, TerminalEvent, FailureIncident, BindingOf, ValidReason, AdvanceDelivery;
    assert Advance(l, ControlledProof, j, Rendering(cap, true), NoFault, c) == (l, MarkingByOutcome(cap, mark)) by {
      RenderMarks(l, j, cap, c, mark);
    }
    if cap.claimId in l.claims && l.claims[cap.claimId].delivery.Pending? { MarkIsMade(l, cap.claimId, mark); }
    NotesLeaveRows(l, TerminalEvent(BindingOf(j), mark));
    if mark.Undelivered? { ReportsLeaveRows(l, FailureIncident(BindingOf(j), mark.at, mark.reason)); }
  }

  lemma RenderMarks(l: Ledger, j: Job, cap: Capability, c: Choice, mark: Delivery)
    requires c.mark == Some(mark) && Markable(mark)
    ensures Advance(l, ControlledProof, j, Rendering(cap, true), NoFault, c) == (l, MarkingByOutcome(cap, mark))
  {
    hide ValidReason;
  }

  lemma DriveMark(l: Ledger, j: Job, cap: Capability, c: Choice, mark: Delivery)
    requires cap.claimId in l.claims && l.claims[cap.claimId].delivery.Pending? && c.mark == Some(mark) &&
             Markable(mark)
    ensures var r := Drive(l, ControlledProof, j, Rendering(cap, true), c, 4);
            r.1 == Recorded(cap) && r.0.claims == l.claims[cap.claimId := l.claims[cap.claimId].(delivery := mark)]
  {
    hide Drive, Advance, Markable;
    var mode := ControlledProof;
    MarkSteps(l, j, cap, c, mark);
    DriveFurther(l, mode, j, Rendering(cap, true), c, 1, 3);
    DriveOne(l, mode, j, Rendering(cap, true), c);
    DriveFurther(l, mode, j, MarkingByOutcome(cap, mark), c, 1, 2);
    DriveOne(l, mode, j, MarkingByOutcome(cap, mark), c);
    var m := Advance(l, mode, j, MarkingByOutcome(cap, mark), NoFault, c).0;
    MarkSteps(m, j, cap, c, mark);
    DriveFurther(m, mode, j, NotingMark(cap, mark), c, 1, 1);
    DriveOne(m, mode, j, NotingMark(cap, mark), c);
    var n := Advance(m, mode, j, NotingMark(cap, mark), NoFault, c);
    MarkSteps(n.0, j, cap, c, mark);
    if mark.Undelivered? { DriveOne(n.0, mode, j, n.1, c); } else { DriveFinished(n.0, mode, j, n.1, c); }
  }

  lemma MarkIsMade(l: Ledger, claim: StableId, mark: Delivery)
    requires claim in l.claims && l.claims[claim].delivery.Pending? && Markable(mark)
    ensures var r := MarkStep(l, claim, mark, NoFault);
            r.1.Ok? && r.0.claims == l.claims[claim := l.claims[claim].(delivery := mark)]
  {
    hide ValidReason, Noted, TerminalEvent;
  }

  lemma NotesLeaveRows(l: Ledger, e: Event)
    ensures NoteStep(l, e, NoFault).0.claims == l.claims && !NoteStep(l, e, NoFault).1
  {
    hide Noted;
  }

  lemma ReportsLeaveRows(l: Ledger, i: Incident)
    ensures ReportStep(l, i, NoFault).0.claims == l.claims && !ReportStep(l, i, NoFault).1
  {
  }

  /** The owner of a fresh claim makes its mark, or is refused for an improper one and leaves the claim pending. */
  lemma SoloMark(l: Ledger, j: Job, c: Choice, mark: Delivery)
    requires Cleared(j) && !Taken(l, ClaimIdOf(j), BindingOf(j)) && c.mark == Some(mark)
    ensures var r := Drive(l, ControlledProof, j, Starting, c, 9);
            r.1 == (if Proper(mark) then Recorded(Cap(j))
                    else Refused(if mark.Pending? then "invalid_delivery_status" else "invalid_delivery_failure")) &&
            r.0.claims == l.claims[ClaimIdOf(j) := Claim(BindingOf(j), j.at, if Proper(mark) then mark else Pending)]
  {
    hide AllowsAccess, Strip, Drive, Noted, Taken, ValidReason, IsReason;
    var mode := ControlledProof;
    if mark.Undelivered? { ReasonIs(mark.reason); }
    var m := Inserted(l, ClaimIdOf(j), BindingOf(j), j.at);
    DriveFurther(l, mode, j, Starting, c, 3, 6);
    DriveToClaiming(l, j, c);
    DriveFurther(l, mode, j, Claiming, c, 2, 4);
    DriveThroughClaim(l, j, c);
    if Markable(mark) {
      DriveMark(m, j, Cap(j), c, mark);
    } else {
      DriveFurther(m, mode, j, Rendering(Cap(j), true), c, 1, 3);
      DriveOne(m, mode, j, Rendering(Cap(j), true), c);
      DriveStays(m, mode, j, if mark.Pending? then Refused("invalid_delivery_status")
        else Refused("invalid_delivery_failure"), c);
    }
  }

  // ---- racing deliveries ----

  lemma LostMark(l: Ledger, j: Job, cap: Capability, c: Choice, body: Bytes, elapsed: nat)
    requires cap.claimId in l.claims && !l.claims[cap.claimId].delivery.Pending?
    ensures Advance(l, ControlledProof, j, Marking(cap, body, elapsed), NoFault, c) == (l, Rereading(cap, body))
  {
    hide Noted, TerminalEvent;
  }

  /**
   * A worker that finds its row already terminal when it marks: it repeats the delivery exactly when it rendered the
   * stored content, and writes nothing.
   */
  lemma LostRace(l: Ledger, j: Job, cap: Capability, c: Choice, body: Bytes, elapsed: nat)
    requires cap.claimId in l.claims && !l.claims[cap.claimId].delivery.Pending?
    ensures Drive(l, ControlledProof, j, Marking(cap, body, elapsed), c, 2) ==
            (l, match l.claims[cap.claimId].delivery
                case Delivered(_, digest, bytes, _) =>
                  if digest == Sha256(body) && bytes == |body| then
                    Returned(cap, Resource(body, Sha256(body), |body|, false))
                  else Refused("response_digest_mismatch")
                case _ => Refused("invalid_delivery_state"))
  {
    hide Drive, MarkStep;
    DriveFurther(l, ControlledProof, j, Marking(cap, body, elapsed), c, 1, 1);
    DriveOne(l, ControlledProof, j, Marking(cap, body, elapsed), c);
    LostMark(l, j, cap, c, body, elapsed);
    DriveOne(l, ControlledProof, j, Rereading(cap, body), c);
  }

  /** Two workers of one claim that both read it pending with one body: both deliver it, the first to commit first. */
  lemma RacingDeliveries(s: System, i: nat, k: nat, cap: Capability, body: Bytes, e: nat, f: nat, c: Choice)
    requires i in s.workers && k in s.workers && i != k && s.mode.ControlledProof?
    requires s.workers[i].pc == Marking(cap, body, e) && s.workers[k].pc == Marking(cap, body, f)
    requires cap.claimId in s.ledger.claims && s.ledger.claims[cap.claimId].delivery.Pending?
    ensures var t := Step(Step(Step(s, Run(i, NoFault, c)), Run(k, NoFault, c)), Run(k, NoFault, c));
            i in t.workers && k in t.workers &&
            t.workers[i].pc == Returned(cap, Resource(body, Sha256(body), |body|, true)) &&
            t.workers[k].pc == Returned(cap, Resource(body, Sha256(body), |body|, false))
  {
    hide Drive, Advance, Uninterrupted;
    var w, v := s.workers[i], s.workers[k];
    WonMark(s.ledger, w.job, cap, c, body, e);
    var l := Advance(s.ledger, s.mode, w.job, w.pc, NoFault, c).0;
    LostMark(l, v.job, cap, c, body, f);
    WonReread(l, v.job, cap, c, body);
  }

  lemma WonMark(l: Ledger, j: Job, cap: Capability, c: Choice, body: Bytes, elapsed: nat)
    requires cap.claimId in l.claims && l.claims[cap.claimId].delivery.Pending?
    ensures var r := Advance(l, ControlledProof, j, Marking(cap, body, elapsed), NoFault, c);
            r.1 == Returned(cap, Resource(body, Sha256(body), |body|, true)) && cap.claimId in r.0.claims &&
            r.0.claims[cap.claimId].delivery == Complete(j, body, elapsed)
  {
    hide Noted, TerminalEvent;
  }

  lemma WonReread(l: Ledger, j: Job, cap: Capability, c: Choice, body: Bytes)
    requires cap.claimId in l.claims && SameContent(l.claims[cap.claimId].delivery, body)
    ensures Advance(l, ControlledProof, j, Rereading(cap, body), NoFault, c) == (l, Redelivered(cap, body))
  {
  }

  // ---- faults ----

  /** What a failed call makes of a worker: life-cycle notes are swallowed, everything else is refused. */
  lemma FaultOutcome(l: Ledger, mode: Mode, j: Job, pc: Pc, f: Fault, c: Choice)
    requires !f.NoFault? && !Finished(pc) && !pc.Starting? && !pc.Rendering?
    ensures var next := Advance(l, mode, j, pc, f, c).1;
            match pc
            case NotingClaim => next == Rendering(Cap(j), true)
            case ReportingMismatch => next == Refused("response_digest_mismatch")
            case MarkingByOutcome(_, _) => next == Refused("invalid_delivery_state")
            case NotingMark(cap, mark) =>
              next == (if mark.Pending? then pc else if mark.Undelivered? then ReportingMark(cap, mark)
                else Recorded(cap))
            case ReportingMark(cap, mark) => next == if mark.Undelivered? then Recorded(cap) else pc
            case _ => next == Refused("control_store_unavailable")
  {
    hide Noted, KeyOf, Inserted, Marked, BindingOf, Taken, SameContent, AllowsAccess, ClaimIdOf, Strip;
  }

  /** A resource is only returned by a worker none of whose calls failed, but for the note of its own claim. */
  lemma FaultReturnsNothing(l: Ledger, mode: Mode, j: Job, c: Choice, fault: nat -> Fault, i: nat, n: nat)
    requires i < n && !fault(i).NoFault?
    requires var pc := Uninterrupted(l, mode, j, Starting, c, fault, i).1;
             !Finished(pc) && !pc.Starting? && !pc.Rendering? && !pc.NotingClaim?
    ensures !Uninterrupted(l, mode, j, Starting, c, fault, n).1.Returned?
  {
    hide Advance;
    var s := Uninterrupted(l, mode, j, Starting, c, fault, i);
    FaultOutcome(s.0, mode, j, s.1, fault(i), c);
    ClosedStays(l, mode, j, c, fault, i + 1, n);
  }

  /** Refused, recorded or on the way to a recorded mark: no resource comes out of here. */
  predicate Closed(pc: Pc) { pc.Refused? || pc.Recorded? || pc.NotingMark? || pc.ReportingMark? }

  lemma {:induction false} ClosedStays(l: Ledger, mode: Mode, j: Job, c: Choice, fault: nat -> Fault, m: nat, n: nat)
    requires m <= n && Closed(Uninterrupted(l, mode, j, Starting, c, fault, m).1)
    ensures Closed(Uninterrupted(l, mode, j, Starting, c, fault, n).1)
    decreases n
  {
    hide Uninterrupted;
    if m < n {
      ClosedStays(l, mode, j, c, fault, m, n - 1);
      OneMore(l, mode, j, c, fault, n - 1);
    }
  }

  lemma OneMore(l: Ledger, mode: Mode, j: Job, c: Choice, fault: nat -> Fault, n: nat)
    ensures var s := Uninterrupted(l, mode, j, Starting, c, fault, n);
            Uninterrupted(l, mode, j, Starting, c, fault, n + 1) == Advance(s.0, mode, j, s.1, fault(n), c)
  {
    hide Advance;
  }
}
