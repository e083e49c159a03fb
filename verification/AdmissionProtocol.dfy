/**
 * Runtime admission of a paid request: health, kill switch, subject rate limit, request record, retry guard.
 * Workers interleave; each step makes at most one store call. The log remembers every charge the tables committed.
 */
module AdmissionProtocol {
  import opened Wrappers
  import opened RetailPayment
  import opened RetailLedger
  import opened AdmissionTables
  import opened RetryWindows

  datatype Config = Config(windowSeconds: pos, statePing: pos, contextDelta: pos, retries: pos)

  datatype Charge =
    | RateSlot(key: RateKey, number: nat, at: nat)
    | Exemption(request: string)
    | RetrySlot(request: string, window: int, count: nat)
    | RetryDenied(request: string, window: int)
    | Prepaid(request: string)

  /** Why the gate denies a new request. */
  datatype Denial = KillSwitch | Unsupported | OverRate(count: nat, limit: int)

  datatype Entry = Entry(worker: nat, charge: Charge)

  datatype Job = Job(prepared: Prepared, at: nat, paid: bool)

  datatype Pc =
    | Looking
    | CheckingHealth(existing: Option<RuntimeRequest>)
    | CheckingMode(existing: Option<RuntimeRequest>)
    | LookingForGuard
    | Rebinding
    | Attempting
    | Consuming
    | NotingDenial(denial: Denial)
    | ReportingDenial(denial: Denial)
    | Denied(denial: Denial)
    | NotingAdmission(charge: Charge)
    | RecordingRequest(charge: Charge)
    | BindingSource(charge: Charge)
    | Passed(charge: Charge)
    | Refused(reason: string)
    | Crashed

  datatype Worker = Worker(job: Job, pc: Pc)

  datatype System = System(tables: Tables, mode: Mode, workers: map<nat, Worker>, log: seq<Entry>)

  datatype Action =
    | Spawn(id: nat, prepared: Prepared, at: nat, paid: bool)
    | Run(id: nat, fault: Fault)
    | Crash(id: nat)
    | SetMode(mode: Mode)

  const UNAVAILABLE := "control_store_unavailable"
  const UNRECONCILED := "request_reconciliation_failed"
  const REBOUND := "source_binding_reconciliation_failed"

  // ---- the worker's program ----

  function LimitFor(cfg: Config, resourceType: string): Option<int> {
    if resourceType == "state_ping" then Some(cfg.statePing)
    else if resourceType == "context_delta" then Some(cfg.contextDelta)
    else None
  }

  function RateKeyOf(cfg: Config, j: Job): RateKey {
    RateKey(j.prepared.subject, j.prepared.resourceType, WindowStart(j.at, cfg.windowSeconds))
  }

  function RequestOf(j: Job): RuntimeRequest {
    RuntimeRequest(j.prepared.RequestId(), j.prepared.digest, j.prepared.subject, j.prepared.resourceType,
                   j.prepared.ResourceUri(), j.at)
  }

  function CompareExisting(e: RuntimeRequest, p: Prepared): Pc {
    if !(e.digest == p.digest && e.subject == p.subject && e.resourceType == p.resourceType) then Refused(UNRECONCILED)
    else if e.resourceUri != p.ResourceUri() then
        Refused(if p.resourceType == "state_ping" then REBOUND else UNRECONCILED)
    else LookingForGuard
  }

  /** The subject is hashed before the request is looked up, so a blank one is refused whether or not it is known. */
  function Look(t: Tables, j: Job, f: Fault): Pc {
    if Strip(j.prepared.subject) == "" || !f.NoFault? then Refused(UNAVAILABLE)
    else if j.prepared.RequestId() in t.requests then CheckingHealth(Some(t.requests[j.prepared.RequestId()]))
    else CheckingHealth(None)
  }

  function GateEvent(j: Job, kind: EventKind, resourceType: Option<string>, reason: Option<string>): Event {
    Event(j.at, kind, j.prepared.RequestId(), resourceType, Some(j.prepared.subject), None, None, None, None, None,
      reason)
  }

  function AdmittedEvent(j: Job): Event { GateEvent(j, PrePaymentAdmitted, Some(j.prepared.resourceType), None) }

  function DenialEvent(j: Job, d: Denial): Event {
    match d
    case KillSwitch => GateEvent(j, ServiceDisabled, Some(j.prepared.resourceType), Some("service_disabled"))
    case Unsupported => GateEvent(j, PrePaymentDenied, None, Some("unsupported_resource"))
    case OverRate(_, _) => GateEvent(j, RateLimitDenied, Some(j.prepared.resourceType), Some("rate_limit_exceeded"))
  }

  function GateIncident(j: Job, kind: IncidentKind, reason: string, details: Details): Incident {
    Incident(j.at, kind, Some(j.prepared.RequestId()), Some(j.prepared.resourceType), None, reason, details)
  }

  /** An unsupported resource is noted but is no incident. */
  function DenialIncident(j: Job, d: Denial): Option<Incident> {
    match d
    case KillSwitch => Some(GateIncident(j, KillSwitchActive, "service_disabled", NoDetails))
    case Unsupported => None
    case OverRate(count, limit) => Some(GateIncident(j, RatePressure, "rate_limit_exceeded", RateDetails(count, limit)))
  }

  function AfterMode(cfg: Config, mode: Mode, j: Job, existing: Option<RuntimeRequest>, f: Fault): Pc {
    if !f.NoFault? then Refused(UNAVAILABLE)
    else if existing.Some? then
        (if mode.Disabled? then Refused("service_disabled") else CompareExisting(existing.value, j.prepared))
    else if j.prepared.resourceType == "" then Refused(UNAVAILABLE)
    else if mode.Disabled? then NotingDenial(KillSwitch)
    else if LimitFor(cfg, j.prepared.resourceType).None? then NotingDenial(Unsupported)
    else Consuming
  }

  function AfterBinding(r: Result<bool, GuardError>, next: Pc): Pc {
    match r
    case Ok(_) => next
    case Err(GuardUnavailable) => Refused(UNAVAILABLE)
    case Err(_) => Refused(REBOUND)
  }

  function AfterAttempt(r: Result<RetryDecision, GuardError>, charge: Option<Charge>): Pc {
    match r
    case Ok(d) => if d.permitted && charge.Some? then Passed(charge.value) else Refused("rate_limit_exceeded")
    case Err(GuardUnavailable) => Refused(UNAVAILABLE)
    case Err(SourceMismatch) => Refused(REBOUND)
    case Err(InvalidRetryLimit) => Refused(UNRECONCILED)
  }

  /** What an attempt is charged, read off its decision; a denied retry is logged as one. */
  function AttemptCharge(cfg: Config, t: Tables, j: Job, f: Fault): Option<Charge> {
    var id := j.prepared.RequestId();
    if f.Lost? || id !in t.guards || t.guards[id].source != j.prepared.source then None
    else
      var window := WindowStart(j.at, cfg.windowSeconds);
      var d := Attempt(t.guards[id], j.paid, window, cfg.retries).1;
      if !d.permitted then Some(RetryDenied(id, window)) else if d.exempt then Some(Exemption(id))
        else Some(RetrySlot(id, window, d.count))
  }

  /** A binding that uses up the continuation, because payment came with it. */
  function BindingCharge(t: Tables, j: Job, f: Fault): Option<Charge> {
    var id := j.prepared.RequestId();
    if f.Lost? || !j.paid then None
    else if id in t.guards && (t.guards[id].source != j.prepared.source || t.guards[id].continuationUsed) then None
    else Some(Prepaid(id))
  }

  function RateCharge(cfg: Config, t: Tables, j: Job, f: Fault): Option<Charge> {
    var key := RateKeyOf(cfg, j);
    var limit := LimitFor(cfg, j.prepared.resourceType);
    if f.Lost? || limit.None? || RateCount(t.rates, key) >= limit.value then None
    else Some(RateSlot(key, RateCount(t.rates, key) + 1, j.at))
  }

  function AfterRate(r: Result<RateDecision, StoreError>, limit: int, charge: Option<Charge>): Pc {
    match r
    case Ok(d) => if d.permitted && charge.Some? then NotingAdmission(charge.value)
        else NotingDenial(OverRate(d.count, limit))
    case Err(_) => Refused(UNAVAILABLE)
  }

  /** One step: the tables, the next pc and the charge committed, if any. */
  function Advance(cfg: Config, t: Tables, mode: Mode, j: Job, pc: Pc, f: Fault): (Tables, Pc, Option<Charge>) {
    var id := j.prepared.RequestId();
    match pc
    case Looking => (t, Look(t, j, f), None)
    case CheckingHealth(existing) => (t, if f.NoFault? then CheckingMode(existing) else Refused(UNAVAILABLE), None)
    case CheckingMode(existing) => (t, AfterMode(cfg, mode, j, existing, f), None)
    case LookingForGuard =>
      (t, if !f.NoFault? then Refused(UNAVAILABLE) else if id in t.guards then Attempting else Rebinding, None)
    case Rebinding =>
      var r := InitializeGuard(t.guards, id, j.prepared.source, j.paid, f);
      (t.(guards := r.0), AfterBinding(r.1, Attempting), BindingCharge(t, j, f))
    case Attempting =>
      var r := ConsumeAttempt(t.guards, id, j.prepared.source, j.paid, j.at, cfg.windowSeconds, cfg.retries, f);
      var charge := AttemptCharge(cfg, t, j, f);
      (t.(guards := r.0), AfterAttempt(r.1, charge), charge)
    case Consuming =>
      var limit := LimitFor(cfg, j.prepared.resourceType);
      var r := ConsumeRate(t.rates, RateKeyOf(cfg, j), if limit.Some? then limit.value else 0, f);
      var charge := RateCharge(cfg, t, j, f);
      (t.(rates := r.0), AfterRate(r.1, if limit.Some? then limit.value else 0, charge), charge)
    case NotingDenial(d) =>
      var r := NoteEvent(t, DenialEvent(j, d), f);
      (r.0, if r.1 then Refused(UNAVAILABLE) else if DenialIncident(j, d).Some? then ReportingDenial(d)
        else Denied(d), None)
    case ReportingDenial(d) =>
      var i := DenialIncident(j, d);
      if i.None? then (t, Denied(d), None)
      else
        var r := ReportIncident(t, i.value, f);
        (r.0, if r.1 then Refused(UNAVAILABLE) else Denied(d), None)
    case NotingAdmission(charge) =>
      var r := NoteEvent(t, AdmittedEvent(j), f);
      (r.0, if r.1 then Refused(UNAVAILABLE) else RecordingRequest(charge), None)
    case RecordingRequest(charge) =>
      var r := RecordRequest(t, RequestOf(j), f);
      (r.0, if r.1.Err? then Refused(UNAVAILABLE) else if r.1.value then BindingSource(charge)
        else Refused(UNRECONCILED), None)
    case BindingSource(charge) =>
      var r := InitializeGuard(t.guards, id, j.prepared.source, j.paid, f);
      (t.(guards := r.0), AfterBinding(r.1, Passed(charge)), BindingCharge(t, j, f))
    case _ => (t, pc, None)
  }

  function Logged(log: seq<Entry>, id: nat, charge: Option<Charge>): seq<Entry> {
    if charge.Some? then log + [Entry(id, charge.value)] else log
  }

  predicate Finished(pc: Pc) { pc.Passed? || pc.Denied? || pc.Refused? }

  function Step(cfg: Config, s: System, a: Action): System {
    match a
    case Spawn(id, prepared, at, paid) =>
      if id in s.workers then s else s.(workers := s.workers[id := Worker(Job(prepared, at, paid), Looking)])
    case Run(id, fault) =>
      if id !in s.workers then s
      else
        var next := Advance(cfg, s.tables, s.mode, s.workers[id].job, s.workers[id].pc, fault);
        System(next.0, s.mode, s.workers[id := s.workers[id].(pc := next.1)], Logged(s.log, id, next.2))
    case Crash(id) =>
      if id !in s.workers || Finished(s.workers[id].pc) then s
      else s.(workers := s.workers[id := s.workers[id].(pc := Crashed)])
    case SetMode(mode) => s.(mode := mode)
  }

  function Start(mode: Mode): System { System(Tables(map[], map[], map[], map[], map[], map[], {}), mode, map[], []) }

  /** The state of a run after its first i steps. */
  ghost function Moment(t: seq<System>, i: int): System
    requires 0 <= i < |t|
  {
    t[i]
  }

  ghost predicate Follows(cfg: Config, s: System, u: System) { u == s || exists a :: u == Step(cfg, s, a) }

  /** The states of any interleaving, from empty tables on. */
  ghost predicate IsRun(cfg: Config, t: seq<System>) {
    t != [] && (exists mode :: t[0] == Start(mode)) &&
    forall i {:trigger Moment(t, i)} :: 0 <= i < |t| - 1 ==> Follows(cfg, Moment(t, i), t[i + 1])
  }

  // ---- counting charges ----

  ghost function CountOf(log: seq<Entry>, f: Entry -> bool): nat {
    if log == [] then 0 else CountOf(log[..|log| - 1], f) + (if f(log[|log| - 1]) then 1 else 0)
  }

  ghost function TakesRate(key: RateKey): Entry -> bool { (e: Entry) => e.charge.RateSlot? && e.charge.key == key }

  ghost function UsesContinuation(request: string): Entry -> bool {
    (e: Entry) => (e.charge.Exemption? || e.charge.Prepaid?) && e.charge.request == request
  }

  ghost function TakesRetry(request: string, window: int): Entry -> bool {
    (e: Entry) => e.charge.RetrySlot? && e.charge.request == request && e.charge.window == window
  }

  ghost function ChargesTo(worker: nat): Entry -> bool {
    (e: Entry) => e.worker == worker && !e.charge.Prepaid? && !e.charge.RetryDenied?
  }

  ghost function TakesInSpan(subject: string, resourceType: string, from: int, to: int): Entry -> bool {
    (e: Entry) => e.charge.RateSlot? && e.charge.key.subject == subject && e.charge.key.resourceType == resourceType &&
                  from <= e.charge.at <= to
  }

  /** The windows a request's retries asked for, in order, granted or not. */
  ghost function Asked(log: seq<Entry>, request: string): seq<int> {
    if log == [] then [] else Asked(log[..|log| - 1], request) + AskedBy(log[|log| - 1].charge, request)
  }

  ghost function AskedBy(c: Charge, request: string): seq<int> {
    if (c.RetrySlot? || c.RetryDenied?) && c.request == request then [c.window] else []
  }

  lemma CountAppend(log: seq<Entry>, e: Entry, f: Entry -> bool)
    ensures CountOf(log + [e], f) == CountOf(log, f) + (if f(e) then 1 else 0)
  {
    assert (log + [e])[..|log|] == log;
  }

  lemma AskedAppend(log: seq<Entry>, e: Entry, request: string)
    ensures Asked(log + [e], request) == Asked(log, request) + AskedBy(e.charge, request)
  {
    assert (log + [e])[..|log|] == log;
  }

  // ---- the invariant ----

  function Ceiling(cfg: Config, resourceType: string): nat {
    var limit := LimitFor(cfg, resourceType);
    if limit.Some? && limit.value > 0 then limit.value else 0
  }

  /** A stored rate count is the number of slots charged to its key, and never exceeds the limit. */
  ghost predicate RateOk(cfg: Config, rates: map<RateKey, nat>, log: seq<Entry>, key: RateKey) {
    CountOf(log, TakesRate(key)) == RateCount(rates, key) <= Ceiling(cfg, key.resourceType)
  }

  ghost predicate RatesOk(cfg: Config, rates: map<RateKey, nat>, log: seq<Entry>) {
    forall key :: RateOk(cfg, rates, log, key)
  }

  /** A guard row that has counted nothing yet. */
  const UNCOUNTED := Guard("", true, None, 0)

  /** The row's window and count are those the asked windows lead to. */
  ghost predicate Tracks(limit: pos, g: Guard, asked: seq<int>) {
    var after := After(UNCOUNTED, asked, limit);
    g.window == after.window && g.count == after.count
  }

  /** A request's retry charges in a window are those its asked windows are granted. */
  ghost predicate RetriesOk(limit: pos, log: seq<Entry>, request: string, window: int) {
    CountOf(log, TakesRetry(request, window)) == Granted(UNCOUNTED, Asked(log, request), limit, window)
  }

  ghost predicate GuardOk(limit: pos, row: Option<Guard>, log: seq<Entry>, request: string) {
    CountOf(log, UsesContinuation(request)) == (if row.Some? && row.value.continuationUsed then 1 else 0) &&
    (row.None? ==> Asked(log, request) == []) &&
    (row.Some? ==> row.value.count <= limit && Tracks(limit, row.value, Asked(log, request))) &&
    forall w :: RetriesOk(limit, log, request, w)
  }

  ghost predicate GuardsOk(cfg: Config, guards: map<string, Guard>, log: seq<Entry>) {
    forall request :: GuardOk(cfg.retries, GuardRow(guards, request), log, request)
  }

  /** The n-th slot charged to a key carries the number n, and was taken in the window of its own time. */
  ghost predicate SlotOk(cfg: Config, log: seq<Entry>, i: nat)
    requires i < |log|
  {
    var c := log[i].charge;
    c.RateSlot? ==>
      c.number == CountOf(log[..i], TakesRate(c.key)) + 1 && c.key.window == WindowStart(c.at, cfg.windowSeconds)
  }

  ghost predicate SlotsOk(cfg: Config, log: seq<Entry>) { forall i :: 0 <= i < |log| ==> SlotOk(cfg, log, i) }

  /** A charge belongs to the job that pays it. */
  ghost predicate Fits(cfg: Config, j: Job, c: Charge) {
    match c
    case RateSlot(key, number, at) =>
        key == RateKeyOf(cfg, j) && at == j.at && 1 <= number <= Ceiling(cfg, j.prepared.resourceType)
    case Exemption(request) => request == j.prepared.RequestId() && j.paid
    case RetrySlot(request, window, count) =>
      request == j.prepared.RequestId() && window == WindowStart(j.at, cfg.windowSeconds) && 1 <= count <= cfg.retries
    case RetryDenied(_, _) => false
    case Prepaid(_) => false
  }

  predicate Carries(pc: Pc) { pc.NotingAdmission? || pc.RecordingRequest? || pc.BindingSource? || pc.Passed? }

  ghost predicate WorkerOk(cfg: Config, log: seq<Entry>, id: nat, j: Job, pc: Pc) {
    if Carries(pc) then
      CountOf(log, ChargesTo(id)) == 1 && Entry(id, pc.charge) in log && Fits(cfg, j, pc.charge) &&
      (pc.Passed? || pc.charge.RateSlot?)
    else if pc.Refused? || pc.Crashed? then CountOf(log, ChargesTo(id)) <= 1
    else CountOf(log, ChargesTo(id)) == 0
  }

  ghost predicate WorkersOk(cfg: Config, workers: map<nat, Worker>, log: seq<Entry>) {
    (forall id :: id in workers ==> WorkerOk(cfg, log, id, workers[id].job, workers[id].pc)) &&
    (forall id :: id !in workers ==> CountOf(log, ChargesTo(id)) == 0)
  }

  ghost predicate Inv(cfg: Config, s: System) {
    RatesOk(cfg, s.tables.rates, s.log) && GuardsOk(cfg, s.tables.guards, s.log) && SlotsOk(cfg, s.log) &&
    WorkersOk(cfg, s.workers, s.log)
  }

  // ---- rates ----

  lemma CeilingIsLimit(cfg: Config, resourceType: string)
    ensures var limit := LimitFor(cfg, resourceType);
            (limit.Some? <==> SupportedResource(resourceType)) &&
            (limit.Some? ==> limit.value == Ceiling(cfg, resourceType) > 0) &&
            (limit.None? ==> Ceiling(cfg, resourceType) == 0)
  {
  }

  /** The rate table changes exactly when a slot is charged. */
  lemma ConsumeIsCharged(cfg: Config, t: Tables, j: Job, f: Fault)
    ensures var r := Advance(cfg, t, Disabled, j, Consuming, f);
            var key := RateKeyOf(cfg, j);
            r.0.guards == t.guards &&
            (r.2.None? ==> r.0.rates == t.rates) &&
            (r.2.Some? ==> r.2.value == RateSlot(key, RateCount(t.rates, key) + 1, j.at) &&
                           RateCount(t.rates, key) < Ceiling(cfg, key.resourceType) &&
                           r.0.rates == t.rates[key := RateCount(t.rates, key) + 1])
  {
    CeilingIsLimit(cfg, j.prepared.resourceType);
  }

  lemma SlotKeepsRates(cfg: Config, rates: map<RateKey, nat>, log: seq<Entry>, id: nat, key: RateKey, at: nat)
    requires RatesOk(cfg, rates, log) && RateCount(rates, key) < Ceiling(cfg, key.resourceType)
    ensures RatesOk(cfg, rates[key := RateCount(rates, key) + 1],
              log + [Entry(id, RateSlot(key, RateCount(rates, key) + 1, at))])
  {
    hide Ceiling, CountOf;
    var e := Entry(id, RateSlot(key, RateCount(rates, key) + 1, at));
    var after := rates[key := RateCount(rates, key) + 1];
    forall k ensures RateOk(cfg, after, log + [e], k) {
      assert RateOk(cfg, rates, log, k);
      CountAppend(log, e, TakesRate(k));
    }
  }

  lemma OtherKeepsRates(cfg: Config, rates: map<RateKey, nat>, log: seq<Entry>, e: Entry)
    requires RatesOk(cfg, rates, log) && !e.charge.RateSlot?
    ensures RatesOk(cfg, rates, log + [e])
  {
    hide Ceiling, CountOf;
    forall k ensures RateOk(cfg, rates, log + [e], k) {
      assert RateOk(cfg, rates, log, k);
      CountAppend(log, e, TakesRate(k));
    }
  }

  lemma SlotsAppend(cfg: Config, log: seq<Entry>, e: Entry)
    requires SlotsOk(cfg, log)
    requires e.charge.RateSlot? ==> e.charge.number == CountOf(log, TakesRate(e.charge.key)) + 1 &&
                                    e.charge.key.window == WindowStart(e.charge.at, cfg.windowSeconds)
    ensures SlotsOk(cfg, log + [e])
  {
    hide CountOf, WindowStart;
    forall i | 0 <= i < |log + [e]| ensures SlotOk(cfg, log + [e], i) {
      assert (log + [e])[..i] == log[..i];
      if i < |log| { assert SlotOk(cfg, log, i); } else { assert log[..i] == log; }
    }
  }

  // ---- guards ----

  lemma OtherKeepsGuard(limit: pos, row: Option<Guard>, log: seq<Entry>, e: Entry, request: string)
    requires GuardOk(limit, row, log, request) && (e.charge.RateSlot? || e.charge.request != request)
    ensures GuardOk(limit, row, log + [e], request)
  {
    hide CountOf, Asked, Granted, Tracks;
    CountAppend(log, e, UsesContinuation(request));
    AskedAppend(log, e, request);
    assert Asked(log, request) + [] == Asked(log, request);
    forall w ensures RetriesOk(limit, log + [e], request, w) {
      assert RetriesOk(limit, log, request, w);
      CountAppend(log, e, TakesRetry(request, w));
    }
  }

  /** Using up the continuation leaves the retry counts alone. */
  lemma ContinuationKeepsGuard(limit: pos, row: Option<Guard>, log: seq<Entry>, e: Entry, request: string,
      source: string)
    requires GuardOk(limit, row, log, request) && (e.charge.Exemption? || e.charge.Prepaid?) &&
             e.charge.request == request
    requires row.Some? ==> !row.value.continuationUsed
    ensures GuardOk(limit,
              Some(if row.Some? then row.value.(continuationUsed := true) else Guard(source, true, None, 0)), log + [e],
                request)
  {
    hide CountOf, Asked, Granted;
    CountAppend(log, e, UsesContinuation(request));
    AskedAppend(log, e, request);
    assert Asked(log, request) + [] == Asked(log, request);
    forall w ensures RetriesOk(limit, log + [e], request, w) {
      assert RetriesOk(limit, log, request, w);
      CountAppend(log, e, TakesRetry(request, w));
    }
  }

  lemma NewGuardOk(limit: pos, log: seq<Entry>, request: string, source: string)
    requires GuardOk(limit, None, log, request)
    ensures GuardOk(limit, Some(Guard(source, false, None, 0)), log, request)
  {
    hide CountOf, Asked, RetriesOk;
  }

  lemma AskOnce(asked: seq<int>, window: int, limit: pos, w: int)
    ensures After(UNCOUNTED, asked + [window], limit) == Attempt(After(UNCOUNTED, asked, limit), false, window, limit).0
    ensures Granted(UNCOUNTED, asked + [window], limit, w) == Granted(UNCOUNTED, asked, limit, w) +
              (if window == w && CurrentRetries(After(UNCOUNTED, asked, limit), w) < limit then 1 else 0)
  {
    assert (asked + [window])[..|asked|] == asked;
  }

  /**
   * What a retry is charged: a slot while the current count is below the limit, otherwise only a note of the
   * denial.
   */
  function RetryCharge(g: Guard, request: string, window: int, limit: int): Charge {
    var n := CurrentRetries(g, window);
    if n < limit then RetrySlot(request, window, n + 1) else RetryDenied(request, window)
  }

  /** A retry, granted or denied, keeps counts and charges in step with what was asked for. */
  lemma RetryKeepsGuard(limit: pos, g: Guard, log: seq<Entry>, id: nat, request: string, window: int)
    requires GuardOk(limit, Some(g), log, request)
    ensures GuardOk(limit, Some(Attempt(g, false, window, limit).0),
                    log + [Entry(id, RetryCharge(g, request, window, limit))], request)
  {
    hide CountOf, Asked, Granted, After;
    var e := Entry(id, RetryCharge(g, request, window, limit));
    CountAppend(log, e, UsesContinuation(request));
    AskedAppend(log, e, request);
    forall w ensures RetriesOk(limit, log + [e], request, w) {
      assert RetriesOk(limit, log, request, w);
      CountAppend(log, e, TakesRetry(request, w));
      AskOnce(Asked(log, request), window, limit, w);
    }
    AskOnce(Asked(log, request), window, limit, window);
  }

  /** What a binding does to a request's guard row and to the log. */
  lemma BindKeepsGuard(cfg: Config, t: Tables, log: seq<Entry>, id: nat, j: Job, f: Fault)
    requires GuardsOk(cfg, t.guards, log)
    ensures var r := InitializeGuard(t.guards, j.prepared.RequestId(), j.prepared.source, j.paid, f);
            GuardsOk(cfg, r.0, Logged(log, id, BindingCharge(t, j, f)))
  {
    hide GuardOk;
    var request := j.prepared.RequestId();
    var r := InitializeGuard(t.guards, request, j.prepared.source, j.paid, f);
    var charge := BindingCharge(t, j, f);
    var row := GuardRow(t.guards, request);
    assert GuardOk(cfg.retries, row, log, request);
    forall q ensures GuardOk(cfg.retries, GuardRow(r.0, q), Logged(log, id, charge), q) {
      assert GuardOk(cfg.retries, GuardRow(t.guards, q), log, q);
      if q != request {
        if charge.Some? { OtherKeepsGuard(cfg.retries, GuardRow(t.guards, q), log, Entry(id, charge.value), q); }
      } else if charge.Some? {
        ContinuationKeepsGuard(cfg.retries, row, log, Entry(id, charge.value), q, j.prepared.source);
      } else if row.None? {
        NewGuardOk(cfg.retries, log, q, j.prepared.source);
      }
    }
  }

  lemma AttemptKeepsGuard(cfg: Config, t: Tables, log: seq<Entry>, id: nat, j: Job, f: Fault)
    requires GuardsOk(cfg, t.guards, log)
    ensures var r := ConsumeAttempt(t.guards, j.prepared.RequestId(), j.prepared.source, j.paid, j.at,
              cfg.windowSeconds, cfg.retries, f);
            GuardsOk(cfg, r.0, Logged(log, id, AttemptCharge(cfg, t, j, f)))
  {
    hide GuardOk, WindowStart;
    var request := j.prepared.RequestId();
    var r := ConsumeAttempt(t.guards, request, j.prepared.source, j.paid, j.at, cfg.windowSeconds, cfg.retries, f);
    var charge := AttemptCharge(cfg, t, j, f);
    var row := GuardRow(t.guards, request);
    assert GuardOk(cfg.retries, row, log, request);
    forall q ensures GuardOk(cfg.retries, GuardRow(r.0, q), Logged(log, id, charge), q) {
      assert GuardOk(cfg.retries, GuardRow(t.guards, q), log, q);
      if charge.Some? {
        if q != request { OtherKeepsGuard(cfg.retries, GuardRow(t.guards, q), log, Entry(id, charge.value), q); }
        else if charge.value.Exemption? {
          ContinuationKeepsGuard(cfg.retries, row, log, Entry(id, charge.value), q, j.prepared.source);
        }
        else { RetryKeepsGuard(cfg.retries, row.value, log, id, q, WindowStart(j.at, cfg.windowSeconds)); }
      }
    }
  }

  // ---- one step ----

  lemma StepKeepsRates(cfg: Config, t: Tables, mode: Mode, log: seq<Entry>, id: nat, j: Job, pc: Pc, f: Fault)
    requires RatesOk(cfg, t.rates, log) && SlotsOk(cfg, log)
    ensures var r := Advance(cfg, t, mode, j, pc, f);
            RatesOk(cfg, r.0.rates, Logged(log, id, r.2)) && SlotsOk(cfg, Logged(log, id, r.2))
  {
    hide RateOk, SlotOk, CountOf, WindowStart, Ceiling, LimitFor, Look, AfterMode, AfterAttempt, AfterRate,
      AfterBinding, ConsumeRate;
    var r := Advance(cfg, t, mode, j, pc, f);
    if pc.Consuming? {
      ConsumeIsCharged(cfg, t, j, f);
      var key := RateKeyOf(cfg, j);
      assert RateOk(cfg, t.rates, log, key);
      if r.2.Some? { ConsumptionKeeps(cfg, t.rates, log, id, key, j.at); }
    } else if r.2.Some? {
      OtherKeepsRates(cfg, t.rates, log, Entry(id, r.2.value));
      SlotsAppend(cfg, log, Entry(id, r.2.value));
    }
  }

  lemma ConsumptionKeeps(cfg: Config, rates: map<RateKey, nat>, log: seq<Entry>, id: nat, key: RateKey, at: nat)
    requires RatesOk(cfg, rates, log) && SlotsOk(cfg, log) && RateCount(rates, key) < Ceiling(cfg, key.resourceType)
    requires key.window == WindowStart(at, cfg.windowSeconds)
    ensures var e := Entry(id, RateSlot(key, RateCount(rates, key) + 1, at));
            RatesOk(cfg, rates[key := RateCount(rates, key) + 1], log + [e]) && SlotsOk(cfg, log + [e])
  {
    hide SlotOk, CountOf, WindowStart, Ceiling;
    assert RateOk(cfg, rates, log, key);
    SlotKeepsRates(cfg, rates, log, id, key, at);
    SlotsAppend(cfg, log, Entry(id, RateSlot(key, RateCount(rates, key) + 1, at)));
  }

  lemma LogKeepsGuards(cfg: Config, guards: map<string, Guard>, log: seq<Entry>, e: Entry)
    requires GuardsOk(cfg, guards, log) && e.charge.RateSlot?
    ensures GuardsOk(cfg, guards, log + [e])
  {
    hide GuardOk;
    forall q ensures GuardOk(cfg.retries, GuardRow(guards, q), log + [e], q) {
      assert GuardOk(cfg.retries, GuardRow(guards, q), log, q);
      OtherKeepsGuard(cfg.retries, GuardRow(guards, q), log, e, q);
    }
  }

  lemma StepKeepsGuards(cfg: Config, t: Tables, mode: Mode, log: seq<Entry>, id: nat, j: Job, pc: Pc, f: Fault)
    requires GuardsOk(cfg, t.guards, log)
    ensures var r := Advance(cfg, t, mode, j, pc, f);
            GuardsOk(cfg, r.0.guards, Logged(log, id, r.2))
  {
    hide GuardsOk, WindowStart, LimitFor, Look, AfterMode, AfterAttempt, AfterRate, AfterBinding, ConsumeRate,
      ConsumeAttempt, InitializeGuard, BindingCharge, AttemptCharge, RateCharge;
    var r := Advance(cfg, t, mode, j, pc, f);
    if pc.Consuming? {
      ConsumeIsCharged(cfg, t, j, f);
      if r.2.Some? { LogKeepsGuards(cfg, t.guards, log, Entry(id, r.2.value)); }
    } else if pc.Attempting? {
      AttemptKeepsGuard(cfg, t, log, id, j, f);
    } else if pc.Rebinding? || pc.BindingSource? {
      BindKeepsGuard(cfg, t, log, id, j, f);
    }
  }

  lemma LoggedFacts(log: seq<Entry>, id: nat, charge: Option<Charge>, worker: nat)
    ensures CountOf(Logged(log, id, charge), ChargesTo(worker)) ==
            CountOf(log, ChargesTo(worker)) + (if Charged(charge) && worker == id then 1 else 0)
    ensures forall e :: e in log ==> e in Logged(log, id, charge)
    ensures charge.Some? ==> Entry(id, charge.value) in Logged(log, id, charge)
  {
    hide CountOf;
    if charge.Some? {
      CountAppend(log, Entry(id, charge.value), ChargesTo(worker));
      assert (log + [Entry(id, charge.value)])[|log|] == Entry(id, charge.value);
    }
  }

  ghost predicate Charged(c: Option<Charge>) { c.Some? && !c.value.Prepaid? && !c.value.RetryDenied? }

  ghost predicate Uncharged(pc: Pc) { !Carries(pc) && !pc.Refused? && !pc.Crashed? }

  /** The charge of a step fits its job, and a step never charges a worker that has been charged. */
  lemma ChargeFits(cfg: Config, t: Tables, mode: Mode, j: Job, pc: Pc, f: Fault)
    requires forall key :: RateCount(t.rates, key) <= Ceiling(cfg, key.resourceType)
    requires forall q :: q in t.guards ==> t.guards[q].count <= cfg.retries
    ensures var r := Advance(cfg, t, mode, j, pc, f); Charged(r.2) ==> Fits(cfg, j, r.2.value)
    ensures var r := Advance(cfg, t, mode, j, pc, f); Charged(r.2) ==> Uncharged(pc)
    ensures var r := Advance(cfg, t, mode, j, pc, f);
            Charged(r.2) ==> r.1.Refused? || (Carries(r.1) && r.1.charge == r.2.value)
    ensures var r := Advance(cfg, t, mode, j, pc, f);
            Carries(r.1) && Uncharged(pc) ==> Charged(r.2) && r.2 == Some(r.1.charge)
    ensures var r := Advance(cfg, t, mode, j, pc, f);
            Carries(r.1) && !r.1.Passed? && Uncharged(pc) ==> r.1.charge.RateSlot?
    ensures var r := Advance(cfg, t, mode, j, pc, f);
            Carries(pc) ==> r.1.Refused? || (Carries(r.1) && r.1.charge == pc.charge && (pc.Passed? ==> r.1.Passed?))
    ensures var r := Advance(cfg, t, mode, j, pc, f); pc.Refused? || pc.Crashed? ==> r.1 == pc
  {
    hide WindowStart, Look, AfterMode, RecordRequest;
    LookKeepsOff(t, cfg, mode, j, f);
  }

  lemma LookKeepsOff(t: Tables, cfg: Config, mode: Mode, j: Job, f: Fault)
    ensures !Carries(Look(t, j, f)) && forall e :: !Carries(AfterMode(cfg, mode, j, e, f))
  {
  }

  lemma TablesWithinLimits(cfg: Config, t: Tables, log: seq<Entry>)
    requires RatesOk(cfg, t.rates, log) && GuardsOk(cfg, t.guards, log)
    ensures forall key :: RateCount(t.rates, key) <= Ceiling(cfg, key.resourceType)
    ensures forall q :: q in t.guards ==> t.guards[q].count <= cfg.retries
  {
    hide Ceiling, CountOf, Asked, RetriesOk, Tracks;
    forall key ensures RateCount(t.rates, key) <= Ceiling(cfg, key.resourceType) {
      assert RateOk(cfg, t.rates, log, key);
    }
    forall q | q in t.guards ensures t.guards[q].count <= cfg.retries {
      assert GuardOk(cfg.retries, GuardRow(t.guards, q), log, q);
    }
  }

  lemma StepKeepsWorker(cfg: Config, t: Tables, mode: Mode, log: seq<Entry>, id: nat, j: Job, pc: Pc, f: Fault)
    requires RatesOk(cfg, t.rates, log) && GuardsOk(cfg, t.guards, log) && WorkerOk(cfg, log, id, j, pc)
    ensures var r := Advance(cfg, t, mode, j, pc, f);
            WorkerOk(cfg, Logged(log, id, r.2), id, j, r.1)
  {
    hide RatesOk, GuardsOk, Advance, CountOf, Fits, Logged;
    var r := Advance(cfg, t, mode, j, pc, f);
    TablesWithinLimits(cfg, t, log);
    ChargeFits(cfg, t, mode, j, pc, f);
    LoggedFacts(log, id, r.2, id);
  }

  lemma OthersStay(cfg: Config, log: seq<Entry>, id: nat, charge: Option<Charge>, other: nat, j: Job, pc: Pc)
    requires other != id
    ensures WorkerOk(cfg, log, other, j, pc) ==> WorkerOk(cfg, Logged(log, id, charge), other, j, pc)
    ensures CountOf(Logged(log, id, charge), ChargesTo(other)) == CountOf(log, ChargesTo(other))
  {
    hide CountOf, Fits, Logged;
    LoggedFacts(log, id, charge, other);
  }

  lemma StepKeepsWorkers(cfg: Config, s: System, id: nat, f: Fault)
    requires Inv(cfg, s) && id in s.workers
    ensures var t := Step(cfg, s, Run(id, f)); WorkersOk(cfg, t.workers, t.log)
  {
    hide RatesOk, GuardsOk, SlotsOk, WorkerOk, Advance, CountOf, Logged;
    var w := s.workers[id];
    var r := Advance(cfg, s.tables, s.mode, w.job, w.pc, f);
    StepKeepsWorker(cfg, s.tables, s.mode, s.log, id, w.job, w.pc, f);
    var t := Step(cfg, s, Run(id, f));
    forall k | k in t.workers ensures WorkerOk(cfg, t.log, k, t.workers[k].job, t.workers[k].pc) {
      if k != id { OthersStay(cfg, s.log, id, r.2, k, s.workers[k].job, s.workers[k].pc); }
    }
    forall k | k !in t.workers ensures CountOf(t.log, ChargesTo(k)) == 0 {
      OthersStay(cfg, s.log, id, r.2, k, w.job, w.pc);
    }
  }

  lemma IdleKeeps(cfg: Config, s: System, id: nat, w: Worker)
    requires Inv(cfg, s) && WorkerOk(cfg, s.log, id, w.job, w.pc)
    ensures Inv(cfg, s.(workers := s.workers[id := w]))
  {
    hide RatesOk, GuardsOk, SlotsOk, WorkerOk, CountOf;
  }

  lemma CrashedOk(cfg: Config, log: seq<Entry>, id: nat, j: Job, pc: Pc)
    requires WorkerOk(cfg, log, id, j, pc)
    ensures WorkerOk(cfg, log, id, j, Crashed)
  {
    hide CountOf;
  }

  lemma StepKeeps(cfg: Config, s: System, a: Action)
    requires Inv(cfg, s)
    ensures Inv(cfg, Step(cfg, s, a))
  {
    hide RatesOk, GuardsOk, SlotsOk, WorkersOk, WorkerOk, Advance, Logged;
    match a {
      case Spawn(id, prepared, at, paid) =>
        if id !in s.workers {
          SpawnedOk(cfg, s, id, Job(prepared, at, paid));
          IdleKeeps(cfg, s, id, Worker(Job(prepared, at, paid), Looking));
        }
      case Run(id, f) =>
        if id in s.workers {
          var w := s.workers[id];
          StepKeepsRates(cfg, s.tables, s.mode, s.log, id, w.job, w.pc, f);
          StepKeepsGuards(cfg, s.tables, s.mode, s.log, id, w.job, w.pc, f);
          StepKeepsWorkers(cfg, s, id, f);
        }
      case Crash(id) =>
        if id in s.workers { CrashKeeps(cfg, s, id); }
      case SetMode(mode) =>
    }
  }

  lemma SpawnedOk(cfg: Config, s: System, id: nat, j: Job)
    requires Inv(cfg, s) && id !in s.workers
    ensures WorkerOk(cfg, s.log, id, j, Looking)
  {
    hide RatesOk, GuardsOk, SlotsOk, CountOf;
  }

  lemma CrashKeeps(cfg: Config, s: System, id: nat)
    requires Inv(cfg, s) && id in s.workers
    ensures Inv(cfg, s.(workers := s.workers[id := s.workers[id].(pc := Crashed)]))
  {
    hide RatesOk, GuardsOk, SlotsOk, WorkerOk, CountOf;
    CrashedOk(cfg, s.log, id, s.workers[id].job, s.workers[id].pc);
    IdleKeeps(cfg, s, id, Worker(s.workers[id].job, Crashed));
  }

  lemma StartInv(cfg: Config, mode: Mode)
    ensures Inv(cfg, Start(mode))
  {
  }

  // ---- the request and its source ----

  /** Request records and source bindings never change, a used continuation stays used, and the audit only grows. */
  ghost predicate Keeps(t: Tables, u: Tables) {
    t.events.Keys <= u.events.Keys && t.incidents <= u.incidents &&
    (forall q :: q in t.requests ==> q in u.requests && u.requests[q] == t.requests[q]) &&
    (forall q :: q in t.guards ==> q in u.guards && u.guards[q].source == t.guards[q].source &&
                                   (t.guards[q].continuationUsed ==> u.guards[q].continuationUsed))
  }

  ghost predicate Registered(t: Tables, j: Job) {
    j.prepared.RequestId() in t.requests &&
    var e := t.requests[j.prepared.RequestId()];
    e.digest == j.prepared.digest && e.subject == j.prepared.subject && e.resourceType == j.prepared.resourceType &&
    e.resourceUri == j.prepared.ResourceUri()
  }

  ghost predicate SourceBound(t: Tables, j: Job) {
    j.prepared.RequestId() in t.guards && t.guards[j.prepared.RequestId()].source == j.prepared.source &&
    (j.paid ==> t.guards[j.prepared.RequestId()].continuationUsed)
  }

  ghost predicate EventNoted(t: Tables, e: Event) { KeyOf(e) in t.events }

  /** A rate slot is behind an admission the audit knows. */
  ghost predicate AdmissionNoted(t: Tables, j: Job, c: Charge) { c.RateSlot? ==> EventNoted(t, AdmittedEvent(j)) }

  ghost predicate DenialReported(t: Tables, j: Job, d: Denial) {
    EventNoted(t, DenialEvent(j, d)) && (DenialIncident(j, d).Some? ==> DenialIncident(j, d).value in t.incidents)
  }

  ghost predicate Saw(t: Tables, j: Job, existing: Option<RuntimeRequest>) {
    existing.Some? ==> j.prepared.RequestId() in t.requests && t.requests[j.prepared.RequestId()] == existing.value
  }

  ghost predicate Bound(t: Tables, j: Job, pc: Pc) {
    match pc
    case CheckingHealth(existing) => Saw(t, j, existing)
    case CheckingMode(existing) => Saw(t, j, existing)
    case LookingForGuard | Rebinding | Attempting => Registered(t, j)
    case RecordingRequest(c) => AdmissionNoted(t, j, c)
    case BindingSource(c) => Registered(t, j) && AdmissionNoted(t, j, c)
    case Passed(c) => Registered(t, j) && SourceBound(t, j) && AdmissionNoted(t, j, c)
    case ReportingDenial(d) => EventNoted(t, DenialEvent(j, d))
    case Denied(d) => DenialReported(t, j, d)
    case _ => true
  }

  ghost predicate AllBound(s: System) {
    forall id :: id in s.workers ==> Bound(s.tables, s.workers[id].job, s.workers[id].pc)
  }

  lemma BoundStays(t: Tables, u: Tables, j: Job, pc: Pc)
    requires Bound(t, j, pc) && Keeps(t, u)
    ensures Bound(u, j, pc)
  {
    hide AdmittedEvent, DenialEvent, DenialIncident, KeyOf;
  }

  lemma InitializeKeeps(t: Tables, j: Job, f: Fault)
    ensures var r := InitializeGuard(t.guards, j.prepared.RequestId(), j.prepared.source, j.paid, f);
            Keeps(t, t.(guards := r.0)) && (r.1.Ok? ==> SourceBound(t.(guards := r.0), j))
  {
  }

  lemma AttemptKeeps(cfg: Config, t: Tables, j: Job, f: Fault)
    ensures var r := ConsumeAttempt(t.guards, j.prepared.RequestId(), j.prepared.source, j.paid, j.at,
              cfg.windowSeconds, cfg.retries, f);
            Keeps(t, t.(guards := r.0)) && (r.1.Ok? && r.1.value.permitted ==> SourceBound(t.(guards := r.0), j))
  {
    hide WindowStart;
  }

  lemma RecordKeeps(t: Tables, j: Job, f: Fault)
    ensures var r := RecordRequest(t, RequestOf(j), f);
            Keeps(t, r.0) && (r.1.Ok? && r.1.value ==> Registered(r.0, j))
  {
  }

  lemma LookBinds(cfg: Config, t: Tables, mode: Mode, j: Job, f: Fault)
    ensures Bound(t, j, Look(t, j, f))
    ensures forall e :: Saw(t, j, e) ==> Bound(t, j, AfterMode(cfg, mode, j, e, f))
  {
    hide Strip, LimitFor;
  }

  /** Whether a retry passes is settled by a charge that is no rate slot. */
  lemma AttemptPasses(cfg: Config, t: Tables, j: Job, f: Fault)
    ensures var r := ConsumeAttempt(t.guards, j.prepared.RequestId(), j.prepared.source, j.paid, j.at,
              cfg.windowSeconds, cfg.retries, f);
            var next := AfterAttempt(r.1, AttemptCharge(cfg, t, j, f));
            next.Refused? || (next.Passed? && !next.charge.RateSlot? && r.1.Ok? && r.1.value.permitted)
  {
    hide WindowStart;
  }

  lemma NoteKeeps(t: Tables, e: Event, f: Fault)
    ensures var r := NoteEvent(t, e, f); Keeps(t, r.0) && (!r.1 && !Lifecycle(e.kind) ==> EventNoted(r.0, e))
  {
    hide KeyOf;
  }

  lemma ReportKeeps(t: Tables, i: Incident, f: Fault)
    ensures var r := ReportIncident(t, i, f);
            Keeps(t, r.0) && (!r.1 && !i.kind.DeliveryFailureIncident? ==> i in r.0.incidents) && r.0.events == t.events
  {
  }

  lemma NoticeBinds(cfg: Config, t: Tables, mode: Mode, j: Job, pc: Pc, f: Fault)
    requires Bound(t, j, pc) && (pc.NotingDenial? || pc.ReportingDenial? || pc.NotingAdmission?)
    ensures var r := Advance(cfg, t, mode, j, pc, f); Keeps(t, r.0) && Bound(r.0, j, r.1)
  {
    hide Keeps, NoteEvent, ReportIncident, KeyOf;
    RatesAside(t, t);
    match pc {
      case NotingDenial(d) => NoteKeeps(t, DenialEvent(j, d), f);
      case ReportingDenial(d) => if DenialIncident(j, d).Some? { ReportKeeps(t, DenialIncident(j, d).value, f); }
      case NotingAdmission(c) => NoteKeeps(t, AdmittedEvent(j), f);
    }
  }

  lemma AdvanceBinds(cfg: Config, t: Tables, mode: Mode, j: Job, pc: Pc, f: Fault)
    requires Bound(t, j, pc)
    ensures var r := Advance(cfg, t, mode, j, pc, f); Keeps(t, r.0) && Bound(r.0, j, r.1)
  {
    hide Keeps, Registered, SourceBound, AdmissionNoted, DenialReported, EventNoted, Look, AfterMode, AfterAttempt,
      ConsumeRate, ConsumeAttempt, InitializeGuard, RecordRequest, RateCharge, AttemptCharge, BindingCharge, RateKeyOf,
      RequestOf, LimitFor, NoteEvent, ReportIncident, DenialIncident;
    if pc.NotingDenial? || pc.ReportingDenial? || pc.NotingAdmission? {
      NoticeBinds(cfg, t, mode, j, pc, f);
    } else if pc.Rebinding? || pc.Attempting? || pc.BindingSource? {
      GuardStepBinds(cfg, t, mode, j, pc, f);
    } else if pc.RecordingRequest? {
      RecordBinds(cfg, t, mode, j, pc, f);
    } else {
      LookBinds(cfg, t, mode, j, f);
      var r := Advance(cfg, t, mode, j, pc, f);
      RatesAside(t, r.0);
    }
  }

  lemma RecordBinds(cfg: Config, t: Tables, mode: Mode, j: Job, pc: Pc, f: Fault)
    requires Bound(t, j, pc) && pc.RecordingRequest?
    ensures var r := Advance(cfg, t, mode, j, pc, f); Keeps(t, r.0) && Bound(r.0, j, r.1)
  {
    hide Keeps, Registered, AdmissionNoted, RecordRequest;
    var r := Advance(cfg, t, mode, j, pc, f);
    RecordKeeps(t, j, f);
    FactsStay(t, r.0, j, pc.charge);
  }

  lemma GuardStepBinds(cfg: Config, t: Tables, mode: Mode, j: Job, pc: Pc, f: Fault)
    requires Bound(t, j, pc) && (pc.Rebinding? || pc.Attempting? || pc.BindingSource?)
    ensures var r := Advance(cfg, t, mode, j, pc, f); Keeps(t, r.0) && Bound(r.0, j, r.1)
  {
    hide Keeps, Registered, SourceBound, EventNoted, AfterAttempt, ConsumeAttempt, InitializeGuard, AttemptCharge,
      BindingCharge;
    var r := Advance(cfg, t, mode, j, pc, f);
    InitializeKeeps(t, j, f);
    AttemptKeeps(cfg, t, j, f);
    AttemptPasses(cfg, t, j, f);
    FactsStay(t, r.0, j, if pc.BindingSource? then pc.charge else Prepaid(""));
  }

  lemma FactsStay(t: Tables, u: Tables, j: Job, c: Charge)
    ensures Keeps(t, u) && Registered(t, j) ==> Registered(u, j)
    ensures Keeps(t, u) && AdmissionNoted(t, j, c) ==> AdmissionNoted(u, j, c)
  {
    hide KeyOf, AdmittedEvent;
  }

  lemma RatesAside(t: Tables, u: Tables)
    requires u.requests == t.requests && u.guards == t.guards && u.events == t.events && u.incidents == t.incidents
    ensures Keeps(t, u)
  {
  }

  lemma StepBinds(cfg: Config, s: System, a: Action)
    requires AllBound(s)
    ensures AllBound(Step(cfg, s, a)) && Keeps(s.tables, Step(cfg, s, a).tables)
  {
    hide Bound, Keeps, Advance, Logged;
    var t := Step(cfg, s, a);
    RatesAside(s.tables, s.tables);
    IdleBound(s.tables);
    if a.Run? && a.id in s.workers {
      var w := s.workers[a.id];
      AdvanceBinds(cfg, s.tables, s.mode, w.job, w.pc, a.fault);
      forall id | id in t.workers ensures Bound(t.tables, t.workers[id].job, t.workers[id].pc) {
        if id != a.id { BoundStays(s.tables, t.tables, s.workers[id].job, s.workers[id].pc); }
      }
    }
  }

  lemma IdleBound(t: Tables)
    ensures forall j :: Bound(t, j, Looking) && Bound(t, j, Crashed)
  {
  }

  lemma KeepsTransitive(t: Tables, u: Tables, v: Tables)
    requires Keeps(t, u) && Keeps(u, v)
    ensures Keeps(t, v)
  {
  }

  // ---- the audit of admissions ----

  /** A charge that pays for the admission an event tells of. */
  ghost predicate PaysFor(cfg: Config, c: Charge, e: Event) {
    c.RateSlot? && c.at == e.at && e.subject == Some(c.key.subject) && e.resourceType == Some(c.key.resourceType) &&
    c.key.window == WindowStart(e.at, cfg.windowSeconds)
  }

  ghost predicate Backed(cfg: Config, log: seq<Entry>, e: Event) {
    e.kind.PrePaymentAdmitted? ==> exists entry :: entry in log && PaysFor(cfg, entry.charge, e)
  }

  /** No admission is noted without a rate slot that was charged for it. */
  ghost predicate NoticesOk(cfg: Config, t: Tables, log: seq<Entry>) {
    forall k :: k in t.events ==> Backed(cfg, log, t.events[k])
  }

  lemma LogKeepsNotices(cfg: Config, t: Tables, log: seq<Entry>, id: nat, charge: Option<Charge>)
    requires NoticesOk(cfg, t, log)
    ensures NoticesOk(cfg, t, Logged(log, id, charge))
  {
    hide PaysFor, Logged;
    LoggedFacts(log, id, charge, id);
  }

  lemma EventsOnlyNoted(cfg: Config, t: Tables, mode: Mode, j: Job, pc: Pc, f: Fault)
    ensures var r := Advance(cfg, t, mode, j, pc, f);
            r.0.events == t.events || (pc.NotingAdmission? && r.0.events == Noted(t.events, AdmittedEvent(j))) ||
            (pc.NotingDenial? && r.0.events == Noted(t.events, DenialEvent(j, pc.denial)))
  {
    hide Noted, ConsumeRate, ConsumeAttempt, InitializeGuard, AdmittedEvent, DenialEvent, AttemptCharge,
      BindingCharge, RateCharge, AfterAttempt, AfterRate, AfterBinding, Look, AfterMode, DenialIncident;
  }

  lemma AdmissionIsBacked(cfg: Config, log: seq<Entry>, id: nat, j: Job, c: Charge)
    requires WorkerOk(cfg, log, id, j, NotingAdmission(c))
    ensures Backed(cfg, log, AdmittedEvent(j))
  {
    hide CountOf, WindowStart, Ceiling;
    assert PaysFor(cfg, Entry(id, c).charge, AdmittedEvent(j));
  }

  lemma NotedBacked(cfg: Config, log: seq<Entry>, t: Tables, e: Event)
    requires NoticesOk(cfg, t, log) && Backed(cfg, log, e)
    ensures NoticesOk(cfg, t.(events := Noted(t.events, e)), log)
  {
    hide Backed, KeyOf;
  }

  lemma AdvanceKeepsNotices(cfg: Config, t: Tables, mode: Mode, log: seq<Entry>, id: nat, j: Job, pc: Pc, f: Fault)
    requires NoticesOk(cfg, t, log) && WorkerOk(cfg, log, id, j, pc)
    ensures var r := Advance(cfg, t, mode, j, pc, f); NoticesOk(cfg, r.0, Logged(log, id, r.2))
  {
    hide Advance, Noted, Backed, Logged, WorkerOk;
    var r := Advance(cfg, t, mode, j, pc, f);
    EventsOnlyNoted(cfg, t, mode, j, pc, f);
    if pc.NotingAdmission? {
      AdmissionIsBacked(cfg, log, id, j, pc.charge);
      NotedBacked(cfg, log, t, AdmittedEvent(j));
    } else if pc.NotingDenial? {
      DenialIsBacked(cfg, log, j, pc.denial);
      NotedBacked(cfg, log, t, DenialEvent(j, pc.denial));
    }
    LogKeepsNotices(cfg, r.0, log, id, r.2);
  }

  lemma DenialIsBacked(cfg: Config, log: seq<Entry>, j: Job, d: Denial)
    ensures Backed(cfg, log, DenialEvent(j, d))
  {
  }

  lemma StepKeepsNotices(cfg: Config, s: System, a: Action)
    requires Inv(cfg, s) && NoticesOk(cfg, s.tables, s.log)
    ensures NoticesOk(cfg, Step(cfg, s, a).tables, Step(cfg, s, a).log)
  {
    hide RatesOk, GuardsOk, SlotsOk, WorkerOk, Advance, Logged, NoticesOk;
    if a.Run? && a.id in s.workers {
      var w := s.workers[a.id];
      AdvanceKeepsNotices(cfg, s.tables, s.mode, s.log, a.id, w.job, w.pc, a.fault);
    }
  }
}
