/** The rate, runtime-request and guard tables as values, one function per transaction. */
module AdmissionTables {
  import opened Wrappers
  import opened RetailLedger

  /** A hashed subject is taken as injective, so the subject key itself stands for it. */
  datatype RateKey = RateKey(subject: string, resourceType: string, window: int)

  datatype RuntimeRequest = RuntimeRequest(
    requestId: string, digest: string, subject: string, resourceType: string, resourceUri: string, admittedAt: nat)

  datatype Guard = Guard(source: string, continuationUsed: bool, window: Option<int>, count: nat)

  /** The tables, with the UNIQUE indexes of the request table, and the audit the gate writes to. */
  datatype Tables = Tables(
    rates: map<RateKey, nat>, requests: map<string, RuntimeRequest>, digests: map<string, string>,
    uris: map<string, string>, guards: map<string, Guard>, events: map<EventKey, Event>, incidents: set<Incident>)

  datatype RateDecision = RateDecision(permitted: bool, count: nat)

  datatype RetryDecision = RetryDecision(permitted: bool, count: nat, exempt: bool)

  datatype GuardError = InvalidRetryLimit | SourceMismatch | GuardUnavailable

  predicate SupportedResource(resourceType: string) { resourceType == "state_ping" || resourceType == "context_delta" }

  function WindowStart(at: nat, seconds: int): int
    requires seconds > 0
  {
    at - at % seconds
  }

  function RateCount(rates: map<RateKey, nat>, key: RateKey): nat { if key in rates then rates[key] else 0 }

  function ConsumeRate(rates: map<RateKey, nat>, key: RateKey, limit: int, f: Fault)
    : (map<RateKey, nat>, Result<RateDecision, StoreError>)
  {
    var count := RateCount(rates, key);
    if !SupportedResource(key.resourceType) || limit <= 0 then (rates, Err(Rejected))
    else if f.Lost? then (rates, Err(Unavailable))
    else if count >= limit then (rates, if f.NoFault? then Ok(RateDecision(false, count)) else Err(Unavailable))
    else (rates[key := count + 1], if f.NoFault? then Ok(RateDecision(true, count + 1)) else Err(Unavailable))
  }

  /** An event of the gate; the second component says whether the call raises. */
  function NoteEvent(t: Tables, e: Event, f: Fault): (Tables, bool) {
    (if f.Lost? then t else t.(events := Noted(t.events, e)), !f.NoFault? && !Lifecycle(e.kind))
  }

  function ReportIncident(t: Tables, i: Incident, f: Fault): (Tables, bool) {
    (if f.Lost? then t else t.(incidents := t.incidents + {i}), !f.NoFault? && !i.kind.DeliveryFailureIncident?)
  }

  predicate RequestTaken(t: Tables, r: RuntimeRequest) {
    r.requestId in t.requests || r.digest in t.digests || r.resourceUri in t.uris
  }

  function RecordRequest(t: Tables, r: RuntimeRequest, f: Fault): (Tables, Result<bool, StoreError>) {
    if f.Lost? then (t, Err(Unavailable))
    else
      var taken := RequestTaken(t, r);
      var after := if taken then t
                   else t.(requests := t.requests[r.requestId := r], digests := t.digests[r.digest := r.requestId],
                           uris := t.uris[r.resourceUri := r.requestId]);
      var recorded := !taken || (r.requestId in t.requests && t.requests[r.requestId] == r);
      (after, if f.NoFault? then Ok(recorded) else Err(Unavailable))
  }

  /** The guard row after an initialization that finds `row`, or nothing when the source binding differs. */
  function Initialized(row: Option<Guard>, source: string, paid: bool): Option<Guard> {
    if row.None? then Some(Guard(source, paid, None, 0))
    else if row.value.source != source then None
    else Some(row.value.(continuationUsed := row.value.continuationUsed || paid))
  }

  function GuardRow(guards: map<string, Guard>, id: string): Option<Guard> {
    if id in guards then Some(guards[id]) else None
  }

  function InitializeGuard(guards: map<string, Guard>, id: string, source: string, paid: bool, f: Fault)
    : (map<string, Guard>, Result<bool, GuardError>)
  {
    var next := Initialized(GuardRow(guards, id), source, paid);
    if f.Lost? then (guards, Err(GuardUnavailable))
    else if next.None? then (guards, Err(if f.NoFault? then SourceMismatch else GuardUnavailable))
    else (guards[id := next.value], if f.NoFault? then Ok(true) else Err(GuardUnavailable))
  }

  /** The retry count that is current in a window: a stored count of another window does not carry over. */
  function CurrentRetries(g: Guard, window: int): nat { if g.window == Some(window) then g.count else 0 }

  function Attempt(g: Guard, paid: bool, window: int, limit: int): (Guard, RetryDecision) {
    var count := CurrentRetries(g, window);
    if paid && !g.continuationUsed then (g.(continuationUsed := true), RetryDecision(true, g.count, true))
    else if count >= limit then (g, RetryDecision(false, count, false))
    else (g.(window := Some(window), count := count + 1), RetryDecision(true, count + 1, false))
  }

  function ConsumeAttempt(guards: map<string, Guard>, id: string, source: string, paid: bool, at: nat, seconds: int,
      limit: int, f: Fault)
    : (map<string, Guard>, Result<RetryDecision, GuardError>)
  {
    if seconds <= 0 || limit <= 0 then (guards, Err(InvalidRetryLimit))
    else if f.Lost? || id !in guards then (guards, Err(GuardUnavailable))
    else if guards[id].source != source then (guards, Err(if f.NoFault? then SourceMismatch else GuardUnavailable))
    else
      var next := Attempt(guards[id], paid, WindowStart(at, seconds), limit);
      (guards[id := next.0], if f.NoFault? then Ok(next.1) else Err(GuardUnavailable))
  }
}
