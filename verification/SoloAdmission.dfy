/** What one admission does when it runs alone and meets no fault: whom it admits, denies or refuses, and the tables. */
module SoloAdmission {
  import opened Wrappers
  import opened RetailPayment
  import opened RetailLedger
  import opened AdmissionTables
  import opened AdmissionProtocol
  import opened RuntimeAdmission

  const CALM: nat -> Fault := i => NoFault

  ghost function Reaches(cfg: Config, t: Tables, mode: Mode, j: Job, n: nat): (Tables, Pc) {
    Alone(cfg, t, mode, j, CALM, n)
  }

  lemma OneStep(cfg: Config, t: Tables, mode: Mode, j: Job, n: nat)
    ensures var s := Reaches(cfg, t, mode, j, n);
            var next := Advance(cfg, s.0, mode, j, s.1, NoFault);
            Reaches(cfg, t, mode, j, n + 1) == (next.0, next.1)
  {
    hide Advance;
    Next(cfg, t, mode, j, CALM, n);
  }

  /** The reads come first: the request table, the health of the store, the mode. */
  lemma ThreeReads(cfg: Config, t: Tables, mode: Mode, j: Job)
    requires Strip(j.prepared.subject) != ""
    ensures var id := j.prepared.RequestId();
            Reaches(cfg, t, mode, j, 3) ==
              (t, AfterMode(cfg, mode, j, if id in t.requests then Some(t.requests[id]) else None, NoFault))
  {
    hide AfterMode, Reaches, Strip;
    assert Reaches(cfg, t, mode, j, 0) == (t, Looking) by { StartsLooking(cfg, t, mode, j); }
    OneStep(cfg, t, mode, j, 0);
    OneStep(cfg, t, mode, j, 1);
    OneStep(cfg, t, mode, j, 2);
  }

  lemma StartsLooking(cfg: Config, t: Tables, mode: Mode, j: Job)
    ensures Reaches(cfg, t, mode, j, 0) == (t, Looking)
  {
  }

  /** The most requests of a subject for a resource in a window. */
  ghost predicate HasLimit(cfg: Config, resourceType: string, limit: int) {
    (resourceType == "state_ping" && limit == cfg.statePing) ||
    (resourceType == "context_delta" && limit == cfg.contextDelta)
  }

  ghost function Window(cfg: Config, j: Job): int { j.at - j.at % cfg.windowSeconds }

  ghost function KeyFor(cfg: Config, j: Job): RateKey {
    RateKey(j.prepared.subject, j.prepared.resourceType, Window(cfg, j))
  }

  /** An event of the gate about a job. */
  ghost function Reported(j: Job, kind: EventKind, resourceType: Option<string>, reason: Option<string>): Event {
    Event(j.at, kind, j.prepared.RequestId(), resourceType, Some(j.prepared.subject), None, None, None, None, None,
      reason)
  }

  /** No record has the id, the digest or the URI of the request, and no guard row its id. */
  ghost predicate Unknown(t: Tables, j: Job) {
    j.prepared.RequestId() !in t.requests && j.prepared.digest !in t.digests &&
    j.prepared.ResourceUri() !in t.uris && j.prepared.RequestId() !in t.guards
  }

  // ---- refused and denied ----

  /** Without a subject nothing happens. */
  lemma BlankSubject(cfg: Config, t: Tables, mode: Mode, j: Job)
    requires Strip(j.prepared.subject) == ""
    ensures Reaches(cfg, t, mode, j, 1) == (t, Refused("control_store_unavailable"))
  {
    hide Strip;
    StartsLooking(cfg, t, mode, j);
    OneStep(cfg, t, mode, j, 0);
  }

  /** Blank resource: refused. Service off or unsupported resource: denied, with its notice. No other table changes. */
  lemma DeniedOutright(cfg: Config, t: Tables, mode: Mode, j: Job)
    requires Strip(j.prepared.subject) != "" && j.prepared.RequestId() !in t.requests
    ensures var kind := j.prepared.resourceType;
            kind == "" ==> Reaches(cfg, t, mode, j, 3) == (t, Refused("control_store_unavailable"))
    ensures var kind := j.prepared.resourceType;
            kind != "" && mode.Disabled? ==>
              Reaches(cfg, t, mode, j, 5) ==
                (t.(events := Noted(t.events, Reported(j, ServiceDisabled, Some(kind), Some("service_disabled"))),
                    incidents := t.incidents
                      + {Incident(j.at, KillSwitchActive, Some(j.prepared.RequestId()), Some(kind),
                      None, "service_disabled", NoDetails)}), Denied(KillSwitch))
    ensures var kind := j.prepared.resourceType;
            kind != "" && !mode.Disabled? && kind != "state_ping" && kind != "context_delta" ==>
              Reaches(cfg, t, mode, j, 4) ==
                (t.(events := Noted(t.events, Reported(j, PrePaymentDenied, None, Some("unsupported_resource")))),
                    Denied(Unsupported))
  {
    hide Strip, Reaches, Noted;
    ThreeReads(cfg, t, mode, j);
    OneStep(cfg, t, mode, j, 3);
    OneStep(cfg, t, mode, j, 4);
  }

  lemma NoSlotLeft(cfg: Config, t: Tables, j: Job, limit: int)
    requires Strip(j.prepared.subject) != "" && j.prepared.RequestId() !in t.requests
    requires HasLimit(cfg, j.prepared.resourceType, limit) && RateCount(t.rates, KeyFor(cfg, j)) >= limit
    ensures Reaches(cfg, t, ControlledProof, j, 4) ==
              (t, NotingDenial(OverRate(RateCount(t.rates, KeyFor(cfg, j)), limit)))
  {
    hide Strip, Reaches;
    ThreeReads(cfg, t, ControlledProof, j);
    OneStep(cfg, t, ControlledProof, j, 3);
  }

  /** At the limit of the window a new request is denied and charged nothing. */
  lemma OverLimit(cfg: Config, t: Tables, j: Job, limit: int)
    requires Strip(j.prepared.subject) != "" && j.prepared.RequestId() !in t.requests
    requires HasLimit(cfg, j.prepared.resourceType, limit) && RateCount(t.rates, KeyFor(cfg, j)) >= limit
    ensures var count, kind := RateCount(t.rates, KeyFor(cfg, j)), j.prepared.resourceType;
            Reaches(cfg, t, ControlledProof, j, 6) ==
              (t.(events := Noted(t.events, Reported(j, RateLimitDenied, Some(kind), Some("rate_limit_exceeded"))),
                  incidents := t.incidents
                    + {Incident(j.at, RatePressure, Some(j.prepared.RequestId()), Some(kind), None,
                    "rate_limit_exceeded", RateDetails(count, limit))}), Denied(OverRate(count, limit)))
  {
    hide Strip, Reaches, Noted, KeyFor;
    NoSlotLeft(cfg, t, j, limit);
    OneStep(cfg, t, ControlledProof, j, 4);
    OneStep(cfg, t, ControlledProof, j, 5);
  }

  // ---- admitted ----

  lemma SlotTaken(cfg: Config, t: Tables, j: Job, limit: int)
    requires Strip(j.prepared.subject) != "" && j.prepared.RequestId() !in t.requests
    requires HasLimit(cfg, j.prepared.resourceType, limit) && RateCount(t.rates, KeyFor(cfg, j)) < limit
    ensures var count := RateCount(t.rates, KeyFor(cfg, j)) + 1;
            Reaches(cfg, t, ControlledProof, j, 4) ==
              (t.(rates := t.rates[KeyFor(cfg, j) := count]), NotingAdmission(RateSlot(KeyFor(cfg, j), count, j.at)))
  {
    hide Strip, Reaches;
    ThreeReads(cfg, t, ControlledProof, j);
    OneStep(cfg, t, ControlledProof, j, 3);
  }

  lemma SlotCharged(cfg: Config, t: Tables, j: Job, limit: int)
    requires Strip(j.prepared.subject) != "" && j.prepared.RequestId() !in t.requests
    requires HasLimit(cfg, j.prepared.resourceType, limit) && RateCount(t.rates, KeyFor(cfg, j)) < limit
    ensures var count := RateCount(t.rates, KeyFor(cfg, j)) + 1;
            Reaches(cfg, t, ControlledProof, j, 5) ==
              (t.(rates := t.rates[KeyFor(cfg, j) := count],
                  events := Noted(t.events, Reported(j, PrePaymentAdmitted, Some(j.prepared.resourceType), None))),
               RecordingRequest(RateSlot(KeyFor(cfg, j), count, j.at)))
  {
    hide Strip, Reaches, Noted, KeyFor;
    SlotTaken(cfg, t, j, limit);
    OneStep(cfg, t, ControlledProof, j, 4);
  }

  /** Below the limit a new request is admitted: one more in its window, its record, its guard row and the event. */
  lemma NewRequest(cfg: Config, t: Tables, j: Job, limit: int)
    requires Strip(j.prepared.subject) != "" && Unknown(t, j)
    requires HasLimit(cfg, j.prepared.resourceType, limit) && RateCount(t.rates, KeyFor(cfg, j)) < limit
    ensures var id, count := j.prepared.RequestId(), RateCount(t.rates, KeyFor(cfg, j)) + 1;
            var r := Reaches(cfg, t, ControlledProof, j, 7);
            r.1 == Passed(RateSlot(KeyFor(cfg, j), count, j.at)) &&
            r.0.rates == t.rates[KeyFor(cfg, j) := count] &&
            r.0.events == Noted(t.events, Reported(j, PrePaymentAdmitted, Some(j.prepared.resourceType), None)) &&
            r.0.requests == t.requests[id := RuntimeRequest(id, j.prepared.digest, j.prepared.subject,
              j.prepared.resourceType, j.prepared.ResourceUri(), j.at)] &&
            r.0.digests == t.digests[j.prepared.digest := id] &&
            r.0.uris == t.uris[j.prepared.ResourceUri() := id] &&
            r.0.guards == t.guards[id := Guard(j.prepared.source, j.paid, None, 0)] && r.0.incidents == t.incidents
  {
    hide Strip, Reaches, Noted, KeyFor, WindowStart, Reported;
    SlotCharged(cfg, t, j, limit);
    OneStep(cfg, t, ControlledProof, j, 5);
    OneStep(cfg, t, ControlledProof, j, 6);
  }

  // ---- a known request ----

  /** The record is of this very request. */
  ghost predicate Matches(e: RuntimeRequest, j: Job) {
    e.digest == j.prepared.digest && e.subject == j.prepared.subject && e.resourceType == j.prepared.resourceType
  }

  /** A known request meets a switched off service or another record: it is refused and the tables stay. */
  lemma KnownRefused(cfg: Config, t: Tables, mode: Mode, j: Job)
    requires Strip(j.prepared.subject) != "" && j.prepared.RequestId() in t.requests
    ensures var e := t.requests[j.prepared.RequestId()];
            var r := Reaches(cfg, t, mode, j, 3);
            r.0 == t &&
            (mode.Disabled? ==> r.1 == Refused("service_disabled")) &&
            (!mode.Disabled? && !Matches(e, j) ==> r.1 == Refused("request_reconciliation_failed")) &&
            (!mode.Disabled? && Matches(e, j) && e.resourceUri != j.prepared.ResourceUri() ==>
               r.1 == Refused(if j.prepared.resourceType == "state_ping" then "source_binding_reconciliation_failed"
                 else "request_reconciliation_failed")) &&
            (!mode.Disabled? && Matches(e, j) && e.resourceUri == j.prepared.ResourceUri() ==> r.1 == LookingForGuard)
  {
    hide Strip, Reaches;
    ThreeReads(cfg, t, mode, j);
  }

  ghost predicate Known(t: Tables, j: Job) {
    j.prepared.RequestId() in t.requests && Matches(t.requests[j.prepared.RequestId()], j) &&
    t.requests[j.prepared.RequestId()].resourceUri == j.prepared.ResourceUri()
  }

  /** What one attempt makes of a guard row of the same source: the continuation, a retry of its window, or nothing. */
  ghost predicate Attempted(cfg: Config, j: Job, g: Guard, h: Guard, pc: Pc) {
    var id, window := j.prepared.RequestId(), Window(cfg, j);
    var used := if g.window == Some(window) then g.count else 0;
    if j.paid && !g.continuationUsed then pc == Passed(Exemption(id)) && h == g.(continuationUsed := true)
    else if used < cfg.retries then
      pc == Passed(RetrySlot(id, window, used + 1)) && h == g.(window := Some(window), count := used + 1)
    else pc == Refused("rate_limit_exceeded") && h == g
  }

  /** A known request with its guard row is attempted on it, or refused for another source. */
  lemma KnownAttempt(cfg: Config, t: Tables, j: Job)
    requires Strip(j.prepared.subject) != "" && Known(t, j) && j.prepared.RequestId() in t.guards
    ensures var id := j.prepared.RequestId();
            var r := Reaches(cfg, t, ControlledProof, j, 5);
            (t.guards[id].source != j.prepared.source ==>
               r == (t, Refused("source_binding_reconciliation_failed"))) &&
            (t.guards[id].source == j.prepared.source ==>
               exists h :: Attempted(cfg, j, t.guards[id], h, r.1) && r.0 == t.(guards := t.guards[id := h]))
  {
    hide Strip, Reaches;
    var id := j.prepared.RequestId();
    KnownRefused(cfg, t, ControlledProof, j);
    OneStep(cfg, t, ControlledProof, j, 3);
    OneStep(cfg, t, ControlledProof, j, 4);
    if t.guards[id].source == j.prepared.source {
      var h := Attempt(t.guards[id], j.paid, Window(cfg, j), cfg.retries).0;
      assert Attempted(cfg, j, t.guards[id], h, Reaches(cfg, t, ControlledProof, j, 5).1);
    } else {
      assert t.guards[id := t.guards[id]] == t.guards;
    }
  }

  /** A known request without a guard row gets one first; a payment uses up its continuation there. */
  lemma KnownWithoutGuard(cfg: Config, t: Tables, j: Job)
    requires Strip(j.prepared.subject) != "" && Known(t, j) && j.prepared.RequestId() !in t.guards
    ensures var id := j.prepared.RequestId();
            var r := Reaches(cfg, t, ControlledProof, j, 6);
            r.1 == Passed(RetrySlot(id, Window(cfg, j), 1)) &&
            r.0 == t.(guards := t.guards[id := Guard(j.prepared.source, j.paid, Some(Window(cfg, j)), 1)])
  {
    hide Strip, Reaches;
    KnownRefused(cfg, t, ControlledProof, j);
    OneStep(cfg, t, ControlledProof, j, 3);
    OneStep(cfg, t, ControlledProof, j, 4);
    OneStep(cfg, t, ControlledProof, j, 5);
  }

  // ---- faults ----

  /** A failed call of an unfinished admission refuses it, whether or not the store took the call. */
  lemma FaultRefuses(cfg: Config, t: Tables, mode: Mode, j: Job, pc: Pc, f: Fault)
    requires !Finished(pc) && !pc.Crashed? && pc != ReportingDenial(Unsupported) && !f.NoFault?
    ensures Advance(cfg, t, mode, j, pc, f).1 == Refused("control_store_unavailable")
  {
    hide WindowStart, RateKeyOf, DenialEvent, AdmittedEvent, Noted, RequestOf, Strip, DenialIncident, RequestTaken;
    NoticesCount(j);
  }

  lemma NoticesCount(j: Job)
    ensures forall d :: !Lifecycle(DenialEvent(j, d).kind)
    ensures !Lifecycle(AdmittedEvent(j).kind)
    ensures forall d :: DenialIncident(j, d).None? <==> d == Unsupported
    ensures forall d :: DenialIncident(j, d).Some? ==> !DenialIncident(j, d).value.kind.DeliveryFailureIncident?
  {
  }

  lemma {:induction false} NeverReportsUnsupported(cfg: Config, t: Tables, mode: Mode, j: Job, fault: nat -> Fault,
      n: nat)
    ensures var pc := Alone(cfg, t, mode, j, fault, n).1;
            pc != ReportingDenial(Unsupported) && !pc.Crashed?
    decreases n
  {
    if n == 0 {
    } else {
      hide Alone, WindowStart, RateKeyOf, DenialEvent, AdmittedEvent, Noted, RequestOf, Strip, ConsumeRate, LimitFor,
        InitializeGuard, AdmissionTables.ConsumeAttempt, RecordRequest, NoteEvent, ReportIncident;
      NeverReportsUnsupported(cfg, t, mode, j, fault, n - 1);
      Next(cfg, t, mode, j, fault, n - 1);
    }
  }

  lemma {:induction false} FinishedStays(cfg: Config, t: Tables, mode: Mode, j: Job, fault: nat -> Fault, m: nat,
      n: nat)
    requires m <= n && Finished(Alone(cfg, t, mode, j, fault, m).1)
    ensures Alone(cfg, t, mode, j, fault, n) == Alone(cfg, t, mode, j, fault, m)
    decreases n
  {
    hide Alone;
    if m < n {
      FinishedStays(cfg, t, mode, j, fault, m, n - 1);
      Next(cfg, t, mode, j, fault, n - 1);
    }
  }

  /** Admission fails closed: it passes or denies a request only when every call before its end succeeded. */
  lemma FailsClosed(cfg: Config, t: Tables, mode: Mode, j: Job, fault: nat -> Fault, i: nat, n: nat)
    requires i < n && !Finished(Alone(cfg, t, mode, j, fault, i).1) && !fault(i).NoFault?
    ensures Alone(cfg, t, mode, j, fault, n).1 == Refused("control_store_unavailable")
  {
    hide Alone, Advance;
    NeverReportsUnsupported(cfg, t, mode, j, fault, i);
    var s := Alone(cfg, t, mode, j, fault, i);
    FaultRefuses(cfg, s.0, mode, j, s.1, fault(i));
    Next(cfg, t, mode, j, fault, i);
    FinishedStays(cfg, t, mode, j, fault, i + 1, n);
  }
}
