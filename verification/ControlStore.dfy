/**
 * The durable store of retail_context/control_store.py: every method is one transaction that commits whole or
 * not at all.
 */
module ControlStore {
  import opened Wrappers
  import opened RetailPayment
  import opened RetailLedger
  import opened AdmissionTables

  class RetailControlStore {
    var mode: Mode
    var claims: map<StableId, Claim>
    var settlements: map<SettlementKey, StableId>
    var receipts: map<StableId, StableId>
    var events: map<EventKey, Event>
    var incidents: set<Incident>
    var rates: map<RateKey, nat>
    var requests: map<string, RuntimeRequest>
    var digests: map<string, string>
    var uris: map<string, string>
    var guards: map<string, Guard>

    constructor ()
      ensures Rows() == EMPTY && mode == Disabled
      ensures Counters() == Tables(map[], map[], map[], map[], map[], map[], {})
    {
      mode := Disabled;
      claims, settlements, receipts, events, incidents := map[], map[], map[], map[], {};
      rates, requests, digests, uris, guards := map[], map[], map[], map[], map[];
    }

    function Rows(): Ledger
      reads this
    {
      Ledger(claims, settlements, receipts, events, incidents)
    }

    function Counters(): Tables
      reads this
    {
      Tables(rates, requests, digests, uris, guards, events, incidents)
    }

    method InsertTelemetry(e: Event)
      modifies this`events
      ensures events == Noted(old(events), e)
    {
      if KeyOf(e) !in events {
        events := events[KeyOf(e) := e];
      }
    }

    /** Insert the claim row and its event, or explain the conflict; a fault at any point undoes all of it. */
    method ClaimPayment(id: StableId, b: Binding, at: nat, fault: Fault) returns (r: Result<ClaimDecision, StoreError>)
      modifies this`claims, this`settlements, this`receipts, this`events
      ensures (Rows(), r) == ClaimStep(old(Rows()), id, b, at, fault)
    {
      if fault == Lost(0) { return Err(Unavailable); }
      if id in claims || SettlementOf(b) in settlements || b.receipt in receipts {
        if !fault.NoFault? { return Err(Unavailable); }
        var settled := BySettlement(Rows(), SettlementOf(b));
        var existing := if settled.Some? then settled else ByReceipt(Rows(), b.receipt);
        if settled.Some? && SamePurchase(settled.value.binding, b) {
          return Ok(AlreadyConsumed(settled.value));
        }
        return Ok(ReplayConflict(existing));
      }
      var claims0, settlements0, receipts0, events0 := claims, settlements, receipts, events;
      claims := claims[id := Claim(b, at, Pending)];
      settlements := settlements[SettlementOf(b) := id];
      receipts := receipts[b.receipt := id];
      if fault == Lost(1) {
        claims, settlements, receipts := claims0, settlements0, receipts0;
        return Err(Unavailable);
      }
      InsertTelemetry(ClaimedEvent(b, at));
      var row := claims[id];
      if fault.Lost? {
        claims, settlements, receipts, events := claims0, settlements0, receipts0, events0;
        return Err(Unavailable);
      }
      if fault.Unacknowledged? { return Err(Unavailable); }
      return Ok(Claimed(row));
    }

    /** Move a pending row to its terminal status together with its event and, on failure, its incident. */
    method MarkDelivery(id: StableId, d: Delivery, fault: Fault) returns (r: Result<Claim, StoreError>)
      modifies this`claims, this`events, this`incidents
      ensures (Rows(), r) == MarkStep(old(Rows()), id, d, fault)
    {
      if d.Pending? { return Err(Rejected); }
      if fault == Lost(0) { return Err(Unavailable); }
      if id !in claims || !claims[id].delivery.Pending? {
        if !fault.NoFault? { return Err(Unavailable); }
        return Err(Rejected);
      }
      var claims0, events0, incidents0 := claims, events, incidents;
      claims := claims[id := claims[id].(delivery := d)];
      var row := claims[id];
      if d.Undelivered? && !ValidReason(d.reason) {
        claims := claims0;
        return if fault.NoFault? then Err(Rejected) else Err(Unavailable);
      }
      if fault == Lost(1) {
        claims := claims0;
        return Err(Unavailable);
      }
      InsertTelemetry(TerminalEvent(row.binding, d));
      if d.Undelivered? {
        if fault == Lost(2) {
          claims, events := claims0, events0;
          return Err(Unavailable);
        }
        incidents := incidents + {FailureIncident(row.binding, d.at, d.reason)};
      }
      if fault.Lost? {
        claims, events, incidents := claims0, events0, incidents0;
        return Err(Unavailable);
      }
      if fault.Unacknowledged? { return Err(Unavailable); }
      return Ok(row);
    }

    method RecordTelemetry(e: Event, fault: Fault) returns (raised: bool)
      modifies this`events
      ensures (Rows(), raised) == NoteStep(old(Rows()), e, fault)
    {
      if !fault.Lost? { InsertTelemetry(e); }
      raised := !fault.NoFault? && !Lifecycle(e.kind);
    }

    method RecordIncident(i: Incident, fault: Fault) returns (raised: bool)
      modifies this`incidents
      ensures (Rows(), raised) == ReportStep(old(Rows()), i, fault)
    {
      if !fault.Lost? { incidents := incidents + {i}; }
      raised := !fault.NoFault? && !i.kind.DeliveryFailureIncident?;
    }

    method SetServiceMode(m: Mode, fault: Fault) returns (raised: bool)
      modifies this`mode
      ensures mode == (if fault.Lost? then old(mode) else m) && raised == !fault.NoFault?
    {
      if fault.Lost? { return true; }
      mode := m;
      raised := fault.Unacknowledged?;
    }

    method ConsumeRateLimit(key: RateKey, limit: int, fault: Fault) returns (r: Result<RateDecision, StoreError>)
      modifies this`rates
      ensures (rates, r) == ConsumeRate(old(rates), key, limit, fault)
    {
      if !SupportedResource(key.resourceType) || limit <= 0 { return Err(Rejected); }
      if fault.Lost? { return Err(Unavailable); }
      var count := if key in rates then rates[key] else 0;
      if count >= limit {
        return if fault.NoFault? then Ok(RateDecision(false, count)) else Err(Unavailable);
      }
      rates := rates[key := count + 1];
      return if fault.NoFault? then Ok(RateDecision(true, count + 1)) else Err(Unavailable);
    }

    method RecordRuntimeRequest(q: RuntimeRequest, fault: Fault) returns (r: Result<bool, StoreError>)
      modifies this`requests, this`digests, this`uris
      ensures (Counters(), r) == RecordRequest(old(Counters()), q, fault)
    {
      if fault == Lost(0) { return Err(Unavailable); }
      if q.requestId in requests || q.digest in digests || q.resourceUri in uris {
        if !fault.NoFault? { return Err(Unavailable); }
        return Ok(q.requestId in requests && requests[q.requestId] == q);
      }
      var requests0, digests0, uris0 := requests, digests, uris;
      requests, digests, uris := requests[q.requestId := q], digests[q.digest := q.requestId],
        uris[q.resourceUri := q.requestId];
      if fault.Lost? {
        requests, digests, uris := requests0, digests0, uris0;
        return Err(Unavailable);
      }
      return if fault.NoFault? then Ok(true) else Err(Unavailable);
    }

    /** Bind a request to its source once; a payment already present uses up the continuation. */
    method InitializeRequest(id: string, source: string, paid: bool, fault: Fault) returns (r: Result<bool, GuardError>)
      modifies this`guards
      ensures (guards, r) == InitializeGuard(old(guards), id, source, paid, fault)
    {
      if fault.Lost? { return Err(GuardUnavailable); }
      if id !in guards {
        guards := guards[id := Guard(source, paid, None, 0)];
      } else if guards[id].source != source {
        return Err(if fault.NoFault? then SourceMismatch else GuardUnavailable);
      } else if paid && !guards[id].continuationUsed {
        guards := guards[id := guards[id].(continuationUsed := true)];
      } else {
        assert guards == guards[id := guards[id]];
      }
      return if fault.NoFault? then Ok(true) else Err(GuardUnavailable);
    }

    /** Charge one repeated attempt to the continuation exemption or to a retry slot of its window. */
    method ConsumeExistingAttempt(id: string, source: string, paid: bool, at: nat, seconds: int, limit: int,
        fault: Fault)
      returns (r: Result<RetryDecision, GuardError>)
      modifies this`guards
      ensures (guards, r) == ConsumeAttempt(old(guards), id, source, paid, at, seconds, limit, fault)
    {
      if seconds <= 0 || limit <= 0 { return Err(InvalidRetryLimit); }
      if fault.Lost? || id !in guards { return Err(GuardUnavailable); }
      var row := guards[id];
      if row.source != source { return Err(if fault.NoFault? then SourceMismatch else GuardUnavailable); }
      var window := WindowStart(at, seconds);
      var decision: RetryDecision;
      if paid && !row.continuationUsed {
        guards := guards[id := row.(continuationUsed := true)];
        decision := RetryDecision(true, row.count, true);
      } else {
        var count := if row.window == Some(window) then row.count else 0;
        if count >= limit {
          assert guards == guards[id := row];
          decision := RetryDecision(false, count, false);
        } else {
          guards := guards[id := row.(window := Some(window), count := count + 1)];
          decision := RetryDecision(true, count + 1, false);
        }
      }
      return if fault.NoFault? then Ok(decision) else Err(GuardUnavailable);
    }
  }
}
