/**
 * The admission steps of retail_context/service.py and production_controls.py, statement by statement against the
 * store. Each procedure is proved to take exactly the steps of the admission program, whatever fault each call meets.
 */
module RuntimeAdmission {
  import opened Wrappers
  import opened RetailPayment
  import opened RetailLedger
  import opened AdmissionTables
  import opened AdmissionProtocol
  import opened ControlStore

  /** The first n steps of an admission that nothing interrupts; step number i meets fault(i). */
  ghost function Alone(cfg: Config, t: Tables, mode: Mode, j: Job, fault: nat -> Fault, n: nat): (Tables, Pc)
    decreases n
  {
    if n == 0 then (t, Looking)
    else
      var s := Alone(cfg, t, mode, j, fault, n - 1);
      var next := Advance(cfg, s.0, mode, j, s.1, fault(n - 1));
      (next.0, next.1)
  }

  lemma Next(cfg: Config, t: Tables, mode: Mode, j: Job, fault: nat -> Fault, n: nat)
    ensures var s := Alone(cfg, t, mode, j, fault, n);
            var next := Advance(cfg, s.0, mode, j, s.1, fault(n));
            Alone(cfg, t, mode, j, fault, n + 1) == (next.0, next.1)
  {
  }

  /** Charge one repeated attempt of a known request, initializing its guard row first when a crash left none. */
  method ConsumeAttempt(cfg: Config, store: RetailControlStore, j: Job, fault: nat -> Fault, ghost t: Tables, k: nat)
    returns (pc: Pc, n: nat)
    requires Alone(cfg, t, store.mode, j, fault, k) == (store.Counters(), LookingForGuard)
    modifies store`guards
    ensures Alone(cfg, t, store.mode, j, fault, n) == (store.Counters(), pc)
    ensures pc.Refused? || pc.Passed?
  {
    hide Alone, InitializeGuard, AdmissionTables.ConsumeAttempt, AttemptCharge, BindingCharge, WindowStart;
    ghost var mode := store.mode;
    var id := j.prepared.RequestId();
    Next(cfg, t, mode, j, fault, k);
    n := k + 1;
    if !fault(k).NoFault? { return Refused(UNAVAILABLE), n; }
    if id !in store.guards {
      Next(cfg, t, mode, j, fault, n);
      var bound := store.InitializeRequest(id, j.prepared.source, j.paid, fault(n));
      n := n + 1;
      if bound.Err? {
        pc := if bound.error.GuardUnavailable? then Refused(UNAVAILABLE) else Refused(REBOUND);
        return pc, n;
      }
    }
    Next(cfg, t, mode, j, fault, n);
    var charge := AttemptCharge(cfg, store.Counters(), j, fault(n));
    var retry := store.ConsumeExistingAttempt(id, j.prepared.source, j.paid, j.at, cfg.windowSeconds, cfg.retries,
      fault(n));
    pc := AfterAttempt(retry, charge);
    n := n + 1;
  }

  /** Note a denial in the audit and, when it is one, as an incident. */
  method RecordDenial(cfg: Config, store: RetailControlStore, j: Job, d: Denial, fault: nat -> Fault, ghost t: Tables,
      k: nat)
    returns (pc: Pc, n: nat)
    requires Alone(cfg, t, store.mode, j, fault, k) == (store.Counters(), NotingDenial(d))
    modifies store`events, store`incidents
    ensures Alone(cfg, t, store.mode, j, fault, n) == (store.Counters(), pc)
    ensures pc.Refused? || pc == Denied(d)
  {
    hide Alone, Noted, DenialEvent, GateIncident;
    ghost var mode := store.mode;
    Next(cfg, t, mode, j, fault, k);
    DenialIsNoLifecycle(j, d);
    var raised := store.RecordTelemetry(DenialEvent(j, d), fault(k));
    n := k + 1;
    if raised { return Refused(UNAVAILABLE), n; }
    var incident := DenialIncident(j, d);
    if incident.None? { return Denied(d), n; }
    Next(cfg, t, mode, j, fault, n);
    raised := store.RecordIncident(incident.value, fault(n));
    pc := if raised then Refused(UNAVAILABLE) else Denied(d);
    n := n + 1;
  }

  lemma DenialIsNoLifecycle(j: Job, d: Denial)
    ensures !Lifecycle(DenialEvent(j, d).kind)
  {
  }

  /** Fail closed before payment: kill switch, resource, subject rate limit, and the telemetry of the decision. */
  method EvaluatePrePaymentAdmission(cfg: Config, store: RetailControlStore, j: Job, fault: nat -> Fault,
      ghost t: Tables)
    returns (pc: Pc, n: nat)
    requires Alone(cfg, t, store.mode, j, fault, 1) == (store.Counters(), CheckingHealth(None))
    modifies store`rates, store`events, store`incidents
    ensures Alone(cfg, t, store.mode, j, fault, n) == (store.Counters(), pc)
    ensures pc.Refused? || pc.Denied? || (pc.RecordingRequest? && pc.charge.RateSlot?)
  {
    hide Alone, ConsumeRate, RateKeyOf, CompareExisting, DenialEvent, DenialIncident, AdmittedEvent, Noted;
    ghost var mode := store.mode;
    Next(cfg, t, mode, j, fault, 1);
    if !fault(1).NoFault? { return Refused(UNAVAILABLE), 2; }
    Next(cfg, t, mode, j, fault, 2);
    if !fault(2).NoFault? || j.prepared.resourceType == "" { return Refused(UNAVAILABLE), 3; }
    if store.mode.Disabled? {
      pc, n := RecordDenial(cfg, store, j, KillSwitch, fault, t, 3);
      return;
    }
    var limit := LimitFor(cfg, j.prepared.resourceType);
    if limit.None? {
      pc, n := RecordDenial(cfg, store, j, Unsupported, fault, t, 3);
      return;
    }
    Next(cfg, t, mode, j, fault, 3);
    var charge := RateCharge(cfg, store.Counters(), j, fault(3));
    var decision := store.ConsumeRateLimit(RateKeyOf(cfg, j), limit.value, fault(3));
    if decision.Err? { return Refused(UNAVAILABLE), 4; }
    if !decision.value.permitted || charge.None? {
      pc, n := RecordDenial(cfg, store, j, OverRate(decision.value.count, limit.value), fault, t, 4);
      return;
    }
    Next(cfg, t, mode, j, fault, 4);
    var raised := store.RecordTelemetry(AdmittedEvent(j), fault(4));
    pc := if raised then Refused(UNAVAILABLE) else RecordingRequest(charge.value);
    n := 5;
  }

  /** Record a newly admitted request and bind it to its source. */
  method RecordAdmission(cfg: Config, store: RetailControlStore, j: Job, charge: Charge, fault: nat -> Fault,
      ghost t: Tables, k: nat)
    returns (pc: Pc, n: nat)
    requires Alone(cfg, t, store.mode, j, fault, k) == (store.Counters(), RecordingRequest(charge))
    modifies store`requests, store`digests, store`uris, store`guards
    ensures Alone(cfg, t, store.mode, j, fault, n) == (store.Counters(), pc)
    ensures pc.Refused? || pc == Passed(charge)
  {
    hide Alone, RecordRequest, InitializeGuard, BindingCharge;
    ghost var mode := store.mode;
    Next(cfg, t, mode, j, fault, k);
    var recorded := store.RecordRuntimeRequest(RequestOf(j), fault(k));
    n := k + 1;
    if recorded.Err? { return Refused(UNAVAILABLE), n; }
    if !recorded.value { return Refused(UNRECONCILED), n; }
    Next(cfg, t, mode, j, fault, n);
    var bound := store.InitializeRequest(j.prepared.RequestId(), j.prepared.source, j.paid, fault(n));
    n := n + 1;
    if bound.Err? {
      pc := if bound.error.GuardUnavailable? then Refused(UNAVAILABLE) else Refused(REBOUND);
      return pc, n;
    }
    return Passed(charge), n;
  }

  /** Admit a request or say why not: a known one through its retry guard, a new one through the rate limit. */
  method EnsureRuntimeAdmission(cfg: Config, store: RetailControlStore, j: Job, fault: nat -> Fault) returns (pc: Pc,
      ghost n: nat)
    modifies store`rates, store`requests, store`digests, store`uris, store`guards, store`events, store`incidents
    ensures Alone(cfg, old(store.Counters()), store.mode, j, fault, n) == (store.Counters(), pc)
    ensures pc.Refused? || pc.Denied? || pc.Passed?
  {
    hide Strip, Advance;
    ghost var t := store.Counters();
    ghost var mode := store.mode;
    assert Alone(cfg, t, mode, j, fault, 0) == (t, Looking);
    LookFirst(cfg, t, mode, j, fault);
    if Strip(j.prepared.subject) == "" || !fault(0).NoFault? { return Refused(UNAVAILABLE), 1; }
    if j.prepared.RequestId() in store.requests {
      var found := store.requests[j.prepared.RequestId()];
      ThenCheck(cfg, t, mode, j, fault, found);
      if !fault(1).NoFault? { return Refused(UNAVAILABLE), 2; }
      if !fault(2).NoFault? { return Refused(UNAVAILABLE), 3; }
      if store.mode.Disabled? { return Refused("service_disabled"), 3; }
      pc := CompareExisting(found, j.prepared);
      n := 3;
      if pc.LookingForGuard? {
        var m: nat;
        pc, m := ConsumeAttempt(cfg, store, j, fault, t, 3);
        n := m;
      }
      return;
    }
    var k: nat;
    pc, k := EvaluatePrePaymentAdmission(cfg, store, j, fault, t);
    n := k;
    if pc.RecordingRequest? {
      pc, k := RecordAdmission(cfg, store, j, pc.charge, fault, t, k);
      n := k;
    }
  }

  lemma LookFirst(cfg: Config, t: Tables, mode: Mode, j: Job, fault: nat -> Fault)
    ensures Alone(cfg, t, mode, j, fault, 1) == (t, Look(t, j, fault(0)))
  {
    hide Look;
    assert Alone(cfg, t, mode, j, fault, 0) == (t, Looking);
    Next(cfg, t, mode, j, fault, 0);
  }

  lemma ThenCheck(cfg: Config, t: Tables, mode: Mode, j: Job, fault: nat -> Fault, found: RuntimeRequest)
    requires Alone(cfg, t, mode, j, fault, 1) == (t, CheckingHealth(Some(found)))
    ensures !fault(1).NoFault? ==> Alone(cfg, t, mode, j, fault, 2) == (t, Refused(UNAVAILABLE))
    ensures fault(1).NoFault? ==>
              Alone(cfg, t, mode, j, fault, 3) == (t, AfterMode(cfg, mode, j, Some(found), fault(2)))
  {
    hide Alone, AfterMode;
    Next(cfg, t, mode, j, fault, 1);
    Next(cfg, t, mode, j, fault, 2);
  }
}
