/**
 * Workers delivering paid resources over one ledger: claim or resume, render, mark, re-read after a lost race.
 * A worker is a program counter; every step makes at most one store call, which may fail before or after its commit.
 */
module DeliveryProtocol {
  import opened Wrappers
  import opened RetailPayment
  import opened RetailLedger

  /** A payment made through the payment loop, or a receipt rebuilt from its record. */
  datatype Payment =
    | Purchase(requirement: Requirement, payload: Payload, verify: VerifyReply, settle: SettleReply)
    | Rebuilt(receipt: Receipt)

  datatype Resource = Resource(body: Bytes, digest: Digest, bytes: nat, initial: bool)

  datatype Capability = Capability(claimId: StableId, receipt: StableId)

  datatype Pc =
    | Starting
    | CheckingHealth
    | CheckingMode
    | Claiming
    | NotingClaim
    | NotingReplay(conflict: bool)
    | ReportingConflict
    | Resuming
    | Rendering(cap: Capability, owned: bool)
    | ReadingForFailure(cap: Capability, reason: string, elapsed: nat)
    | MarkingFailure(cap: Capability, reason: string, elapsed: nat)
    | Reading(cap: Capability, body: Bytes, elapsed: nat)
    | ReportingMismatch
    | Marking(cap: Capability, body: Bytes, elapsed: nat)
    | Rereading(cap: Capability, body: Bytes)
    | MarkingByOutcome(cap: Capability, mark: Delivery)
    | NotingMark(cap: Capability, mark: Delivery)
    | ReportingMark(cap: Capability, mark: Delivery)
    | Recorded(cap: Capability)
    | Returned(cap: Capability, resource: Resource)
    | Refused(reason: string)
    | Crashed

  /** What a worker was started with; it never changes. */
  datatype Job = Job(payment: Payment, outcome: Outcome, prepared: Prepared, at: nat, maxBytes: nat)

  datatype Worker = Worker(job: Job, pc: Pc)

  /** What the environment decides in a step: the rendered body, the time taken, a mark made through the outcome. */
  datatype Choice = Choice(rendered: Option<Bytes>, elapsed: nat, mark: Option<Delivery>)

  datatype System = System(ledger: Ledger, mode: Mode, workers: map<nat, Worker>)

  datatype Action =
    | Spawn(id: nat, payment: Payment, prepared: Prepared, at: nat, maxBytes: nat)
    | Run(id: nat, fault: Fault, choice: Choice)
    | Crash(id: nat)
    | SetMode(mode: Mode)
    | Note(event: Event, fault: Fault)
    | Report(incident: Incident, fault: Fault)

  const UNAVAILABLE := "control_store_unavailable"
  const CONFLICT := "payment_replay_conflict"

  // ---- the worker's program ----

  function OutcomeOf(p: Payment): Option<Outcome> {
    match p
    case Purchase(r, payload, v, s) =>
      var o := Process(r, payload, v, s);
      if o.Ok? then Some(o.value) else None
    case Rebuilt(t) => Some(Outcome(t, false))
  }

  function TransactionOf(j: Job): string {
    if j.outcome.receipt.transaction.Some? then j.outcome.receipt.transaction.value else ""
  }

  function BindingOf(j: Job): Binding {
    var t := j.outcome.receipt;
    Binding(Strip(j.prepared.RequestId()), t.id, t.requirement, t.network, TransactionOf(j), t.payer, t.resourceType,
            t.resourceUri, t.amount, t.wallet)
  }

  function ClaimIdOf(j: Job): StableId {
    ClaimId(j.outcome.receipt.id, j.outcome.receipt.network, TransactionOf(j))
  }

  function Cap(j: Job): Capability { Capability(ClaimIdOf(j), j.outcome.receipt.id) }

  function Begin(j: Job): Pc {
    if !AllowsAccess(j.outcome) then Refused("invalid_payment_outcome")
    else if j.outcome.receipt.resourceType != j.prepared.resourceType then Refused(CONFLICT)
    else if j.outcome.receipt.resourceUri != j.prepared.ResourceUri() then Refused(CONFLICT)
    else CheckingHealth
  }

  function AfterClaim(r: Result<ClaimDecision, StoreError>): Pc {
    match r
    case Err(_) => Refused(UNAVAILABLE)
    case Ok(Claimed(_)) => NotingClaim
    case Ok(AlreadyConsumed(_)) => NotingReplay(false)
    case Ok(ReplayConflict(_)) => NotingReplay(true)
  }

  function ReplayEvent(j: Job, reason: string): Event {
    Event(j.at, PaymentReplayDenied, Strip(j.prepared.RequestId()), Some(j.outcome.receipt.resourceType), None,
          Some(j.outcome.receipt.id), Some(j.outcome.receipt.requirement), Some(TransactionOf(j)), None, None,
            Some(reason))
  }

  function ConflictIncident(j: Job): Incident {
    Incident(j.at, ReplayConflictIncident, Some(Strip(j.prepared.RequestId())), Some(j.outcome.receipt.resourceType),
             Some(j.outcome.receipt.id), CONFLICT, ConflictScope("settlement_reconciliation"))
  }

  function MismatchIncident(j: Job): Incident {
    Incident(j.at, DeliveryFailureIncident, Some(j.prepared.RequestId()), Some(j.prepared.resourceType),
             Some(j.outcome.receipt.id), "response_digest_mismatch", NoDetails)
  }

  predicate ClaimMatches(b: Binding, j: Job) {
    b.requestId == j.prepared.RequestId() && b.resourceUri == j.prepared.ResourceUri() && SamePurchase(b, BindingOf(j))
  }

  function Resume(l: Ledger, j: Job, f: Fault): Pc {
    var key := SettlementKey(j.outcome.receipt.network, TransactionOf(j));
    var row := BySettlement(l, key);
    if !f.NoFault? then Refused(UNAVAILABLE)
    else if row.None? || !ClaimMatches(row.value.binding, j) then Refused(CONFLICT)
    else if row.value.delivery.Undelivered? then Refused("delivery_reconciliation_required")
    else if key in l.settlements then Rendering(Capability(l.settlements[key], row.value.binding.receipt), false)
    else Refused(CONFLICT)
  }

  function Render(j: Job, cap: Capability, owned: bool, c: Choice): Pc {
    if owned && c.mark.Some? then
      (if c.mark.value.Pending? then Refused("invalid_delivery_status")
       else if c.mark.value.Undelivered? && !ValidReason(c.mark.value.reason) then Refused("invalid_delivery_failure")
       else MarkingByOutcome(cap, c.mark.value))
    else if c.rendered.None? then ReadingForFailure(cap, "resource_render_failed", c.elapsed)
    else if |c.rendered.value| > j.maxBytes then ReadingForFailure(cap, "response_size_exceeded", c.elapsed)
    else Reading(cap, c.rendered.value, c.elapsed)
  }

  function ReadForFailure(l: Ledger, cap: Capability, reason: string, elapsed: nat, f: Fault): Pc {
    var row := ReadStep(l, cap.claimId, f);
    if row.Err? then Refused(UNAVAILABLE)
    else if row.value.Some? && row.value.value.delivery.Pending? then MarkingFailure(cap, reason, elapsed)
    else Refused(reason)
  }

  predicate SameContent(d: Delivery, body: Bytes) { d.Delivered? && d.digest == Sha256(body) && d.bytes == |body| }

  function Redelivered(cap: Capability, body: Bytes): Pc { Returned(cap, Resource(body, Sha256(body), |body|, false)) }

  function Read(l: Ledger, j: Job, cap: Capability, body: Bytes, elapsed: nat, f: Fault): Pc {
    var row := ReadStep(l, cap.claimId, f);
    if row.Err? then Refused(UNAVAILABLE)
    else if row.value.None? then Refused(CONFLICT)
    else
      var c := row.value.value;
      if c.binding.requestId != j.prepared.RequestId() || c.binding.resourceUri != j.prepared.ResourceUri() ||
         c.binding.receipt != cap.receipt then Refused(CONFLICT)
      else if c.delivery.Undelivered? then Refused("delivery_reconciliation_required")
      else if c.delivery.Delivered? then
          (if SameContent(c.delivery, body) then Redelivered(cap, body) else ReportingMismatch)
      else Marking(cap, body, elapsed)
  }

  function Reread(l: Ledger, cap: Capability, body: Bytes, f: Fault): Pc {
    var row := ReadStep(l, cap.claimId, f);
    if row.Err? then Refused(UNAVAILABLE)
    else if row.value.None? || !row.value.value.delivery.Delivered? then Refused("invalid_delivery_state")
    else if !SameContent(row.value.value.delivery, body) then Refused("response_digest_mismatch")
    else Redelivered(cap, body)
  }

  function Complete(j: Job, body: Bytes, elapsed: nat): Delivery { Delivered(j.at, Sha256(body), |body|, elapsed) }

  function AfterMark(r: Result<Claim, StoreError>, cap: Capability, body: Bytes): Pc {
    match r
    case Ok(_) => Returned(cap, Resource(body, Sha256(body), |body|, true))
    case Err(Rejected) => Rereading(cap, body)
    case Err(Unavailable) => Refused(UNAVAILABLE)
  }

  function AdvanceClaim(l: Ledger, mode: Mode, j: Job, pc: Pc, f: Fault): (Ledger, Pc) {
    match pc
    case Starting => (l, Begin(j))
    case CheckingHealth => (l, if f.NoFault? then CheckingMode else Refused(UNAVAILABLE))
    case CheckingMode =>
      (l, if !f.NoFault? then Refused(UNAVAILABLE) else if mode.Disabled? then Refused("service_disabled")
        else Claiming)
    case Claiming =>
      var r := ClaimStep(l, ClaimIdOf(j), BindingOf(j), j.at, f);
      (r.0, AfterClaim(r.1))
    case NotingClaim =>
      var r := NoteStep(l, ClaimedEvent(BindingOf(j), j.at), f);
      (r.0, if r.1 then Refused(UNAVAILABLE) else Rendering(Cap(j), true))
    case NotingReplay(conflict) =>
      var r := NoteStep(l, ReplayEvent(j, if conflict then CONFLICT else "payment_already_consumed"), f);
      (r.0, if r.1 then Refused(UNAVAILABLE) else if conflict then ReportingConflict else Resuming)
    case ReportingConflict =>
      var r := ReportStep(l, ConflictIncident(j), f);
      (r.0, if r.1 then Refused(UNAVAILABLE) else Refused(CONFLICT))
    case Resuming => (l, Resume(l, j, f))
    case _ => (l, pc)
  }

  function AdvanceDelivery(l: Ledger, j: Job, pc: Pc, f: Fault, c: Choice): (Ledger, Pc) {
    match pc
    case Rendering(cap, owned) => (l, Render(j, cap, owned, c))
    case ReadingForFailure(cap, reason, elapsed) => (l, ReadForFailure(l, cap, reason, elapsed, f))
    case MarkingFailure(cap, reason, elapsed) =>
      var r := MarkStep(l, cap.claimId, Undelivered(j.at, reason, Some(elapsed)), f);
      (r.0, if r.1.Ok? then Refused(reason) else Refused(UNAVAILABLE))
    case Reading(cap, body, elapsed) => (l, Read(l, j, cap, body, elapsed, f))
    case ReportingMismatch =>
      var r := ReportStep(l, MismatchIncident(j), f);
      (r.0, if r.1 then Refused(UNAVAILABLE) else Refused("response_digest_mismatch"))
    case Marking(cap, body, elapsed) =>
      var r := MarkStep(l, cap.claimId, Complete(j, body, elapsed), f);
      (r.0, AfterMark(r.1, cap, body))
    case Rereading(cap, body) => (l, Reread(l, cap, body, f))
    case _ => (l, pc)
  }

  /** Marking through the delivery outcome: the mark, its event once more, and on failure its incident once more. */
  function AdvanceMark(l: Ledger, j: Job, pc: Pc, f: Fault): (Ledger, Pc) {
    match pc
    case MarkingByOutcome(cap, mark) =>
      var r := MarkStep(l, cap.claimId, mark, f);
      (r.0, if r.1.Ok? then NotingMark(cap, mark) else Refused("invalid_delivery_state"))
    case NotingMark(cap, mark) =>
      if mark.Pending? then (l, pc)
      else
        var r := NoteStep(l, TerminalEvent(BindingOf(j), mark), f);
        (r.0, if r.1 then Refused(UNAVAILABLE) else if mark.Undelivered? then ReportingMark(cap, mark)
          else Recorded(cap))
    case ReportingMark(cap, mark) =>
      if !mark.Undelivered? then (l, pc)
      else
        var r := ReportStep(l, FailureIncident(BindingOf(j), mark.at, mark.reason), f);
        (r.0, if r.1 then Refused(UNAVAILABLE) else Recorded(cap))
    case _ => (l, pc)
  }

  predicate InClaim(pc: Pc) {
    pc.Starting? || pc.CheckingHealth? || pc.CheckingMode? || pc.Claiming? || pc.NotingClaim? || pc.NotingReplay? ||
    pc.ReportingConflict? || pc.Resuming?
  }

  predicate InMark(pc: Pc) { pc.MarkingByOutcome? || pc.NotingMark? || pc.ReportingMark? }

  function Advance(l: Ledger, mode: Mode, j: Job, pc: Pc, f: Fault, c: Choice): (Ledger, Pc) {
    if InClaim(pc) then AdvanceClaim(l, mode, j, pc, f)
    else if InMark(pc) then AdvanceMark(l, j, pc, f)
    else AdvanceDelivery(l, j, pc, f, c)
  }

  /** The first n steps of a worker that nothing interrupts, from a given pc; step number i meets fault(i). */
  ghost function Uninterrupted(l: Ledger, mode: Mode, j: Job, pc: Pc, c: Choice, fault: nat -> Fault, n: nat)
    : (Ledger, Pc)
    decreases n
  {
    if n == 0 then (l, pc)
    else
      var s := Uninterrupted(l, mode, j, pc, c, fault, n - 1);
      Advance(s.0, mode, j, s.1, fault(n - 1), c)
  }

  predicate Finished(pc: Pc) { pc.Returned? || pc.Refused? || pc.Crashed? || pc.Recorded? }

  /** Notes and reports come from elsewhere in the service, which writes no life-cycle event and no delivery failure. */
  function Step(s: System, a: Action): System {
    match a
    case Spawn(id, payment, prepared, at, maxBytes) =>
      if id in s.workers || OutcomeOf(payment).None? then s
      else s.(workers := s.workers[id := Worker(Job(payment, OutcomeOf(payment).value, prepared, at, maxBytes),
          Starting)])
    case Run(id, fault, choice) =>
      if id !in s.workers then s
      else
        var next := Advance(s.ledger, s.mode, s.workers[id].job, s.workers[id].pc, fault, choice);
        s.(ledger := next.0, workers := s.workers[id := s.workers[id].(pc := next.1)])
    case Crash(id) =>
      if id !in s.workers || Finished(s.workers[id].pc) then s
      else s.(workers := s.workers[id := s.workers[id].(pc := Crashed)])
    case SetMode(mode) => s.(mode := mode)
    case Note(event, fault) => if Lifecycle(event.kind) then s else s.(ledger := NoteStep(s.ledger, event, fault).0)
    case Report(incident, fault) =>
      if incident.kind.DeliveryFailureIncident? then s else s.(ledger := ReportStep(s.ledger, incident, fault).0)
  }

  function Start(mode: Mode): System { System(EMPTY, mode, map[]) }

  /** The state of a run after its first i steps. */
  ghost function Moment(t: seq<System>, i: int): System
    requires 0 <= i < |t|
  {
    t[i]
  }

  ghost predicate Follows(s: System, u: System) { u == s || exists a :: u == Step(s, a) }

  /** The states of any interleaving, from an empty ledger on. */
  ghost predicate IsRun(t: seq<System>) {
    t != [] && (exists mode :: t[0] == Start(mode)) &&
    forall i {:trigger Moment(t, i)} :: 0 <= i < |t| - 1 ==> Follows(Moment(t, i), t[i + 1])
  }

  // ---- the invariant ----

  ghost predicate RowBacked(id: StableId, c: Claim) {
    var b := c.binding;
    id == ClaimId(b.receipt, b.network, b.transaction) &&
    b.receipt == ReceiptId(b.requirement, b.transaction, b.payer, b.network, b.amount)
  }

  ghost predicate Sound(l: Ledger) {
    Valid(l) && forall id :: id in l.claims ==> RowBacked(id, l.claims[id])
  }

  /** The worker got past the entry checks. */
  ghost predicate Cleared(j: Job) {
    AllowsAccess(j.outcome) && j.outcome.receipt.resourceType == j.prepared.resourceType &&
    j.outcome.receipt.resourceUri == j.prepared.ResourceUri()
  }

  ghost predicate Holds(l: Ledger, j: Job, cap: Capability) {
    Cleared(j) && cap.receipt == j.outcome.receipt.id &&
    cap.claimId in l.claims && l.claims[cap.claimId].binding.receipt == cap.receipt
  }

  ghost predicate Owns(l: Ledger, j: Job, cap: Capability) {
    Holds(l, j, cap) && l.claims[cap.claimId].binding == BindingOf(j)
  }

  ghost predicate Serves(l: Ledger, j: Job, cap: Capability) {
    Holds(l, j, cap) && l.claims[cap.claimId].binding.requestId == j.prepared.RequestId() &&
    l.claims[cap.claimId].binding.resourceUri == j.prepared.ResourceUri()
  }

  ghost predicate Backs(l: Ledger, j: Job, cap: Capability, r: Resource) {
    Serves(l, j, cap) && SameContent(l.claims[cap.claimId].delivery, r.body) && r.digest == Sha256(r.body) &&
    r.bytes == |r.body| &&
    |r.body| <= j.maxBytes
  }

  ghost predicate AtPc(l: Ledger, j: Job, pc: Pc) {
    match pc
    case Starting | Refused(_) | Crashed => true
    case CheckingHealth | CheckingMode | Claiming => Cleared(j)
    case NotingReplay(_) | ReportingConflict | Resuming | ReportingMismatch => Cleared(j)
    case NotingClaim => Owns(l, j, Cap(j)) && KeyOf(ClaimedEvent(BindingOf(j), j.at)) in l.events
    case Rendering(cap, owned) => Holds(l, j, cap) && (owned ==> Owns(l, j, cap))
    case ReadingForFailure(cap, _, _) => Holds(l, j, cap)
    case MarkingFailure(cap, _, _) => Holds(l, j, cap)
    case Reading(cap, body, _) => Holds(l, j, cap) && |body| <= j.maxBytes
    case Marking(cap, body, _) => Serves(l, j, cap) && |body| <= j.maxBytes
    case Rereading(cap, body) => Serves(l, j, cap) && |body| <= j.maxBytes
    case MarkingByOutcome(cap, mark) => Owns(l, j, cap) && !mark.Pending?
    case NotingMark(cap, mark) => Owns(l, j, cap) && !mark.Pending? && l.claims[cap.claimId].delivery == mark
    case ReportingMark(cap, mark) => Owns(l, j, cap) && mark.Undelivered? && l.claims[cap.claimId].delivery == mark
    case Recorded(cap) => Owns(l, j, cap)
    case Returned(cap, r) => Backs(l, j, cap, r)
  }

  ghost predicate WorkerOk(l: Ledger, j: Job, pc: Pc) {
    OutcomeOf(j.payment) == Some(j.outcome) && AtPc(l, j, pc)
  }

  ghost predicate DeliversFirst(pc: Pc, claimId: StableId) {
    pc.Returned? && pc.resource.initial && pc.cap.claimId == claimId
  }

  ghost predicate SoleFirst(s: System) {
    forall i, j, c :: i in s.workers && j in s.workers ==>
      (DeliversFirst(s.workers[i].pc, c) && DeliversFirst(s.workers[j].pc, c) ==> i == j)
  }

  ghost predicate Inv(s: System) {
    Sound(s.ledger) && SoleFirst(s) && forall i :: i in s.workers ==>
      WorkerOk(s.ledger, s.workers[i].job, s.workers[i].pc)
  }

  // ---- what the other workers' steps cannot undo ----

  lemma CapabilityStays(l: Ledger, m: Ledger, j: Job, cap: Capability)
    requires Holds(l, j, cap) && Grows(l, m)
    ensures Holds(m, j, cap) && m.claims[cap.claimId].binding == l.claims[cap.claimId].binding
    ensures !l.claims[cap.claimId].delivery.Pending? ==>
              m.claims[cap.claimId].delivery == l.claims[cap.claimId].delivery
  {
    hide AllowsAccess;
    assert RowGrows(l.claims[cap.claimId], m.claims[cap.claimId]);
  }

  ghost predicate CarriesCap(pc: Pc) {
    !InClaim(pc) && !pc.Refused? && !pc.Crashed? && !pc.ReportingMismatch?
  }

  lemma WorkerStays(l: Ledger, m: Ledger, j: Job, pc: Pc)
    requires WorkerOk(l, j, pc) && Grows(l, m)
    ensures WorkerOk(m, j, pc)
  {
    hide AllowsAccess, OutcomeOf, BindingOf, ClaimIdOf, KeyOf, ClaimedEvent, Grows, Cleared;
    if pc.NotingClaim? {
      CapabilityStays(l, m, j, Cap(j));
      EventStays(l, m, KeyOf(ClaimedEvent(BindingOf(j), j.at)));
    } else if CarriesCap(pc) {
      CapabilityStays(l, m, j, pc.cap);
    }
  }

  lemma EventStays(l: Ledger, m: Ledger, k: EventKey)
    requires Grows(l, m)
    ensures k in l.events ==> k in m.events
  {
  }

  // ---- one step of one worker ----

  /** What a step of one worker establishes: a sound, larger ledger and the worker's own facts. */
  ghost predicate Advances(l: Ledger, j: Job, next: (Ledger, Pc)) {
    Sound(next.0) && Grows(l, next.0) && WorkerOk(next.0, j, next.1)
  }

  lemma ReceiptOfAccess(j: Job)
    requires AllowsAccess(j.outcome)
    ensures var t := j.outcome.receipt;
            t.id == ReceiptId(t.requirement, TransactionOf(j), t.payer, t.network, t.amount) &&
            CatalogPrice(t.resourceType) == Some(t.amount)
  {
  }

  /** Growth without new rows keeps every row backed. */
  lemma SoundStays(l: Ledger, m: Ledger)
    requires Sound(l) && Grows(l, m) && Valid(m) && m.claims.Keys == l.claims.Keys
    ensures Sound(m)
  {
    hide Valid;
    forall id | id in m.claims ensures RowBacked(id, m.claims[id]) {
      assert id in l.claims && RowGrows(l.claims[id], m.claims[id]);
    }
  }

  /** A pc that carries no capability needs only a cleared job, or nothing at all. */
  lemma PlainPc(l: Ledger, j: Job, pc: Pc)
    ensures pc.Refused? || pc.Crashed? ==> AtPc(l, j, pc)
    ensures Cleared(j) && (pc.CheckingHealth? || pc.CheckingMode? || pc.Claiming?) ==> AtPc(l, j, pc)
    ensures Cleared(j) && (pc.NotingReplay? || pc.ReportingConflict? || pc.Resuming? || pc.ReportingMismatch?) ==>
              AtPc(l, j, pc)
  {
    hide Cleared;
  }

  lemma IsCleared(l: Ledger, j: Job, pc: Pc)
    requires AtPc(l, j, pc)
    ensures pc.Starting? || pc.Refused? || pc.Crashed? || Cleared(j)
  {
    hide AllowsAccess;
  }

  /** A step that changes no row, such as one that only notes or reports. */
  lemma StillSound(l: Ledger, m: Ledger)
    requires Sound(l) && Valid(m) && Grows(l, m) && m.claims == l.claims
    ensures Sound(m)
  {
    hide Valid, Grows, RowBacked;
  }

  lemma BeginOk(l: Ledger, j: Job)
    requires OutcomeOf(j.payment) == Some(j.outcome)
    ensures WorkerOk(l, j, Begin(j))
  {
    hide AllowsAccess, OutcomeOf, Strip;
  }

  lemma ClaimingOk(l: Ledger, j: Job, f: Fault)
    requires Sound(l) && Cleared(j) && OutcomeOf(j.payment) == Some(j.outcome)
    ensures var r := ClaimStep(l, ClaimIdOf(j), BindingOf(j), j.at, f);
            Advances(l, j, (r.0, AfterClaim(r.1)))
  {
    hide AllowsAccess, OutcomeOf, Strip, Valid, Grows, Noted;
    ReceiptOfAccess(j);
    ClaimKeeps(l, ClaimIdOf(j), BindingOf(j), j.at, f);
    NotedExtends(l.events, ClaimedEvent(BindingOf(j), j.at));
  }

  lemma NotingClaimOk(l: Ledger, mode: Mode, j: Job, f: Fault)
    requires Sound(l) && WorkerOk(l, j, NotingClaim)
    ensures Advances(l, j, AdvanceClaim(l, mode, j, NotingClaim, f))
  {
    hide AllowsAccess, OutcomeOf, Valid, Grows, BindingOf, ClaimIdOf, KeyOf;
    NoteKeeps(l, ClaimedEvent(BindingOf(j), j.at), f);
  }

  lemma NotingReplayOk(l: Ledger, mode: Mode, j: Job, conflict: bool, f: Fault)
    requires Sound(l) && WorkerOk(l, j, NotingReplay(conflict))
    ensures Advances(l, j, AdvanceClaim(l, mode, j, NotingReplay(conflict), f))
  {
    hide Valid, Grows, OutcomeOf, Cleared, BindingOf, Noted, RowBacked;
    NoteKeeps(l, ReplayEvent(j, if conflict then CONFLICT else "payment_already_consumed"), f);
    StillSound(l, AdvanceClaim(l, mode, j, NotingReplay(conflict), f).0);
  }

  lemma ReportingConflictOk(l: Ledger, mode: Mode, j: Job, f: Fault)
    requires Sound(l) && WorkerOk(l, j, ReportingConflict)
    ensures Advances(l, j, AdvanceClaim(l, mode, j, ReportingConflict, f))
  {
    hide Valid, Grows, OutcomeOf, Cleared, BindingOf, RowBacked;
    ReportKeeps(l, ConflictIncident(j), f);
    StillSound(l, ReportStep(l, ConflictIncident(j), f).0);
  }

  lemma ResumingOk(l: Ledger, j: Job, f: Fault)
    requires Cleared(j) && OutcomeOf(j.payment) == Some(j.outcome)
    ensures WorkerOk(l, j, Resume(l, j, f))
  {
    hide AllowsAccess, OutcomeOf, Strip;
  }

  lemma ClaimStageOk(l: Ledger, mode: Mode, j: Job, pc: Pc, f: Fault)
    requires Sound(l) && WorkerOk(l, j, pc) && InClaim(pc)
    ensures Advances(l, j, AdvanceClaim(l, mode, j, pc, f))
  {
    hide Sound, OutcomeOf, Cleared, Grows, ClaimStep, NoteStep, ReportStep, Begin, Resume, BindingOf, ClaimIdOf,
      AtPc, AfterClaim;
    GrowsReflexive(l);
    IsCleared(l, j, pc);
    if pc.Starting? { BeginOk(l, j); }
    else if pc.Claiming? { ClaimingOk(l, j, f); }
    else if pc.NotingClaim? { NotingClaimOk(l, mode, j, f); }
    else if pc.NotingReplay? { NotingReplayOk(l, mode, j, pc.conflict, f); }
    else if pc.ReportingConflict? { ReportingConflictOk(l, mode, j, f); }
    else if pc.Resuming? { ResumingOk(l, j, f); }
    else { PlainPc(l, j, AdvanceClaim(l, mode, j, pc, f).1); }
  }

  // ---- rendering, reading, marking ----

  lemma RenderOk(l: Ledger, j: Job, pc: Pc, c: Choice)
    requires WorkerOk(l, j, pc) && pc.Rendering?
    ensures WorkerOk(l, j, Render(j, pc.cap, pc.owned, c))
  {
    hide AllowsAccess, OutcomeOf, ValidReason, BindingOf;
  }

  lemma ReadOk(l: Ledger, j: Job, pc: Pc, f: Fault)
    requires WorkerOk(l, j, pc)
    ensures pc.ReadingForFailure? ==> WorkerOk(l, j, ReadForFailure(l, pc.cap, pc.reason, pc.elapsed, f))
    ensures pc.Reading? ==> WorkerOk(l, j, Read(l, j, pc.cap, pc.body, pc.elapsed, f))
    ensures pc.Rereading? ==> WorkerOk(l, j, Reread(l, pc.cap, pc.body, f))
  {
    hide AllowsAccess, OutcomeOf, BindingOf;
  }

  lemma MarkSound(l: Ledger, id: StableId, d: Delivery, f: Fault)
    requires Sound(l)
    ensures Sound(MarkStep(l, id, d, f).0) && Grows(l, MarkStep(l, id, d, f).0)
  {
    hide Valid, Grows, Noted, ValidReason, TerminalEvent;
    MarkKeeps(l, id, d, f);
    assert MarkStep(l, id, d, f).0.claims.Keys == l.claims.Keys;
    SoundStays(l, MarkStep(l, id, d, f).0);
  }

  lemma MarkSucceeds(l: Ledger, id: StableId, d: Delivery, f: Fault)
    ensures MarkStep(l, id, d, f).1.Ok? ==>
      id in l.claims && l.claims[id].delivery.Pending? && id in MarkStep(l, id, d, f).0.claims &&
      MarkStep(l, id, d, f).0.claims[id].delivery == d && !d.Pending?
  {
    hide Noted, ValidReason;
  }

  lemma MarkingOk(l: Ledger, j: Job, pc: Pc, f: Fault, c: Choice)
    requires Sound(l) && WorkerOk(l, j, pc) && pc.Marking?
    ensures Advances(l, j, AdvanceDelivery(l, j, pc, f, c))
  {
    hide Sound, Grows, AllowsAccess, OutcomeOf, MarkStep, BindingOf;
    var d := Complete(j, pc.body, pc.elapsed);
    MarkSound(l, pc.cap.claimId, d, f);
    MarkSucceeds(l, pc.cap.claimId, d, f);
    WorkerStays(l, MarkStep(l, pc.cap.claimId, d, f).0, j, pc);
  }

  lemma MarkingFailureOk(l: Ledger, j: Job, pc: Pc, f: Fault, c: Choice)
    requires Sound(l) && WorkerOk(l, j, pc) && pc.MarkingFailure?
    ensures Advances(l, j, AdvanceDelivery(l, j, pc, f, c))
  {
    hide Sound, Grows, AllowsAccess, OutcomeOf, MarkStep, BindingOf;
    MarkSound(l, pc.cap.claimId, Undelivered(j.at, pc.reason, Some(pc.elapsed)), f);
  }

  lemma MismatchOk(l: Ledger, j: Job, f: Fault, c: Choice)
    requires Sound(l) && WorkerOk(l, j, ReportingMismatch)
    ensures Advances(l, j, AdvanceDelivery(l, j, ReportingMismatch, f, c))
  {
    hide Valid, Grows, OutcomeOf, Cleared, RowBacked;
    ReportKeeps(l, MismatchIncident(j), f);
    StillSound(l, ReportStep(l, MismatchIncident(j), f).0);
  }

  lemma DeliveryStageOk(l: Ledger, j: Job, pc: Pc, f: Fault, c: Choice)
    requires Sound(l) && WorkerOk(l, j, pc) && !InClaim(pc) && !InMark(pc)
    ensures Advances(l, j, AdvanceDelivery(l, j, pc, f, c))
  {
    hide Sound, WorkerOk, Grows, MarkStep, ReportStep, Render, Read, Reread, ReadForFailure;
    GrowsReflexive(l);
    if pc.Rendering? { RenderOk(l, j, pc, c); }
    else if pc.ReadingForFailure? || pc.Reading? || pc.Rereading? { ReadOk(l, j, pc, f); }
    else if pc.MarkingFailure? { MarkingFailureOk(l, j, pc, f, c); }
    else if pc.ReportingMismatch? { MismatchOk(l, j, f, c); }
    else if pc.Marking? { MarkingOk(l, j, pc, f, c); }
  }

  lemma MarkingByOutcomeOk(l: Ledger, j: Job, pc: Pc, f: Fault)
    requires Sound(l) && WorkerOk(l, j, pc) && pc.MarkingByOutcome?
    ensures Advances(l, j, AdvanceMark(l, j, pc, f))
  {
    hide Sound, Grows, AllowsAccess, OutcomeOf, MarkStep, BindingOf;
    MarkSound(l, pc.cap.claimId, pc.mark, f);
    MarkSucceeds(l, pc.cap.claimId, pc.mark, f);
    WorkerStays(l, MarkStep(l, pc.cap.claimId, pc.mark, f).0, j, pc);
  }

  /** The store has already written the event a mark's caller notes once more. */
  lemma MarkWasNoted(l: Ledger, id: StableId)
    requires Valid(l) && id in l.claims && !l.claims[id].delivery.Pending?
    ensures KeyOf(TerminalEvent(l.claims[id].binding, l.claims[id].delivery)) in l.events
  {
    hide Indexed;
    assert RowAudited(l, l.claims[id]);
  }

  lemma NotingMarkOk(l: Ledger, j: Job, pc: Pc, f: Fault)
    requires Sound(l) && WorkerOk(l, j, pc) && pc.NotingMark?
    ensures Advances(l, j, AdvanceMark(l, j, pc, f))
  {
    hide Valid, Grows, AllowsAccess, OutcomeOf, BindingOf, KeyOf;
    MarkWasNoted(l, pc.cap.claimId);
    NoteKeeps(l, TerminalEvent(BindingOf(j), pc.mark), f);
  }

  lemma ReportingMarkOk(l: Ledger, j: Job, pc: Pc, f: Fault)
    requires Sound(l) && WorkerOk(l, j, pc) && pc.ReportingMark?
    ensures Advances(l, j, AdvanceMark(l, j, pc, f))
  {
    hide Valid, Grows, AllowsAccess, OutcomeOf, BindingOf, RowBacked;
    var i := FailureIncident(BindingOf(j), pc.mark.at, pc.mark.reason);
    ReportKeeps(l, i, f);
    StillSound(l, ReportStep(l, i, f).0);
    WorkerStays(l, ReportStep(l, i, f).0, j, pc);
  }

  lemma AdvanceOk(l: Ledger, mode: Mode, j: Job, pc: Pc, f: Fault, c: Choice)
    requires Sound(l) && WorkerOk(l, j, pc)
    ensures Advances(l, j, Advance(l, mode, j, pc, f, c))
  {
    hide Sound, WorkerOk, Advances, AdvanceClaim, AdvanceDelivery, AdvanceMark;
    if InClaim(pc) { ClaimStageOk(l, mode, j, pc, f); }
    else if pc.MarkingByOutcome? { MarkingByOutcomeOk(l, j, pc, f); }
    else if pc.NotingMark? { NotingMarkOk(l, j, pc, f); }
    else if pc.ReportingMark? { ReportingMarkOk(l, j, pc, f); }
    else { DeliveryStageOk(l, j, pc, f, c); }
  }

  // ---- one step of the system ----

  /** A first delivery is only reached from a row that was still pending; a finished worker stays as it is. */
  lemma FirstFromPending(l: Ledger, mode: Mode, j: Job, pc: Pc, f: Fault, c: Choice)
    ensures var next := Advance(l, mode, j, pc, f, c).1;
            next.Returned? && next.resource.initial && !pc.Returned? ==>
              next.cap.claimId in l.claims && l.claims[next.cap.claimId].delivery.Pending?
    ensures Finished(pc) ==> Advance(l, mode, j, pc, f, c) == (l, pc)
  {
    hide MarkStep, ClaimStep, NoteStep, ReportStep, AllowsAccess, ClaimMatches, BySettlement, ValidReason, Strip;
    if pc.Marking? { MarkSucceeds(l, pc.cap.claimId, Complete(j, pc.body, pc.elapsed), f); }
  }

  lemma ReturnedIsDelivered(l: Ledger, j: Job, pc: Pc)
    requires WorkerOk(l, j, pc) && pc.Returned?
    ensures pc.cap.claimId in l.claims && SameContent(l.claims[pc.cap.claimId].delivery, pc.resource.body)
  {
    hide AllowsAccess, OutcomeOf;
  }

  lemma RunKeepsSoleFirst(s: System, id: nat, f: Fault, c: Choice)
    requires Inv(s) && id in s.workers
    ensures SoleFirst(Step(s, Run(id, f, c)))
  {
    hide Sound, WorkerOk, Advance;
    var t := Step(s, Run(id, f, c));
    var w := s.workers[id];
    FirstFromPending(s.ledger, s.mode, w.job, w.pc, f, c);
    forall i, k, claim | i in t.workers && k in t.workers && DeliversFirst(t.workers[i].pc, claim) &&
                         DeliversFirst(t.workers[k].pc, claim)
      ensures i == k
    {
      OtherFirstIsDelivered(s, i, claim);
      OtherFirstIsDelivered(s, k, claim);
    }
  }

  lemma OtherFirstIsDelivered(s: System, i: nat, claim: StableId)
    requires Inv(s)
    ensures i in s.workers && DeliversFirst(s.workers[i].pc, claim) ==>
              claim in s.ledger.claims && s.ledger.claims[claim].delivery.Delivered?
  {
    hide Sound, WorkerOk;
    if i in s.workers && DeliversFirst(s.workers[i].pc, claim) {
      ReturnedIsDelivered(s.ledger, s.workers[i].job, s.workers[i].pc);
    }
  }

  lemma OthersStay(s: System, m: Ledger)
    requires Inv(s) && Grows(s.ledger, m)
    ensures forall i :: i in s.workers ==> WorkerOk(m, s.workers[i].job, s.workers[i].pc)
  {
    hide Sound, WorkerOk, Grows, SoleFirst;
    forall i | i in s.workers ensures WorkerOk(m, s.workers[i].job, s.workers[i].pc) {
      WorkerStays(s.ledger, m, s.workers[i].job, s.workers[i].pc);
    }
  }

  lemma WorkerStepKeeps(s: System, id: nat, f: Fault, c: Choice)
    requires Inv(s) && id in s.workers
    ensures Inv(Step(s, Run(id, f, c))) && Grows(s.ledger, Step(s, Run(id, f, c)).ledger)
  {
    hide Sound, WorkerOk, Grows, SoleFirst, Advance;
    var w := s.workers[id];
    AdvanceOk(s.ledger, s.mode, w.job, w.pc, f, c);
    RunKeepsSoleFirst(s, id, f, c);
    OthersStay(s, Advance(s.ledger, s.mode, w.job, w.pc, f, c).0);
  }

  lemma LedgerStepKeeps(s: System, m: Ledger)
    requires Inv(s) && Valid(m) && Grows(s.ledger, m) && m.claims == s.ledger.claims
    ensures Inv(s.(ledger := m))
  {
    hide Valid, Grows, WorkerOk, RowBacked;
    StillSound(s.ledger, m);
    OthersStay(s, m);
  }

  /** A new or crashed worker carries nothing, so it needs no fact about the ledger. */
  lemma IdleKeeps(s: System, id: nat, j: Job, pc: Pc)
    requires Inv(s) && (pc.Starting? || pc.Crashed?) && OutcomeOf(j.payment) == Some(j.outcome)
    ensures Inv(s.(workers := s.workers[id := Worker(j, pc)]))
  {
    hide Sound, OutcomeOf;
  }

  /** Every step of every worker, fault and administrator keeps the invariant, and the ledger only grows. */
  lemma StepKeeps(s: System, a: Action)
    requires Inv(s)
    ensures Inv(Step(s, a)) && Grows(s.ledger, Step(s, a).ledger)
  {
    hide Inv, Grows, Advance, OutcomeOf, Valid, NoteStep, ReportStep;
    GrowsReflexive(s.ledger);
    match a {
      case Spawn(id, payment, prepared, at, maxBytes) =>
        if id !in s.workers && OutcomeOf(payment).Some? {
          IdleKeeps(s, id, Job(payment, OutcomeOf(payment).value, prepared, at, maxBytes), Starting);
        }
      case Run(id, f, c) => if id in s.workers { WorkerStepKeeps(s, id, f, c); }
      case Crash(id) => if id in s.workers { JobOk(s, id); IdleKeeps(s, id, s.workers[id].job, Crashed); }
      case SetMode(mode) => ModeKeeps(s, mode);
      case Note(e, f) => NoticeKeeps(s, a);
      case Report(i, f) => NoticeKeeps(s, a);
    }
  }

  lemma JobOk(s: System, id: nat)
    requires Inv(s) && id in s.workers
    ensures OutcomeOf(s.workers[id].job.payment) == Some(s.workers[id].job.outcome)
  {
    hide Sound, OutcomeOf, AtPc;
  }

  lemma ModeKeeps(s: System, mode: Mode)
    requires Inv(s)
    ensures Inv(s.(mode := mode))
  {
    hide Sound, WorkerOk;
  }

  lemma NoticeKeeps(s: System, a: Action)
    requires Inv(s) && (a.Note? || a.Report?)
    ensures Inv(Step(s, a)) && Grows(s.ledger, Step(s, a).ledger)
  {
    hide Valid, Grows, WorkerOk, RowBacked, SoleFirst, Noted, Lifecycle;
    GrowsReflexive(s.ledger);
    if a.Note? && !Lifecycle(a.event.kind) {
      NoteKeeps(s.ledger, a.event, a.fault);
      LedgerStepKeeps(s, NoteStep(s.ledger, a.event, a.fault).0);
    }
    if a.Report? && !a.incident.kind.DeliveryFailureIncident? {
      ReportKeeps(s.ledger, a.incident, a.fault);
      LedgerStepKeeps(s, ReportStep(s.ledger, a.incident, a.fault).0);
    }
  }

  lemma StartInv(mode: Mode)
    ensures Inv(Start(mode))
  {
    EmptyValid();
  }
}
