/**
 * The claim, telemetry and incident tables of retail_context/control_store.py as values, one function per
 * transaction.
 */
module RetailLedger {
  import opened Wrappers
  import opened RetailPayment

  datatype Mode = Disabled | ControlledProof

  predicate IsHex(c: char) { '0' <= c <= '9' || 'a' <= c <= 'f' }

  /** The hexadecimal text of a SHA-256. */
  type HexDigest = s: string | |s| == 64 && forall i :: 0 <= i < 64 ==> IsHex(s[i]) witness seq(64, _ => '0')

  const REQUEST_PREFIX := "retail-request-"

  /** A validated request; its identifiers are read off the digest of its content. */
  datatype Prepared = Prepared(digest: HexDigest, resourceType: string, subject: string, source: string)
  {
    function RequestId(): string { REQUEST_PREFIX + digest[..24] }

    function ResourceUri(): string {
      if resourceType == "state_ping" then STATE_PING_PATH + digest + (BINDING_QUERY + source)
      else CONTEXT_DELTA_PATH + digest
    }
  }

  const STATE_PING_PATH := "/retail/v1/context/state-ping/"
  const CONTEXT_DELTA_PATH := "/retail/v1/context/context-delta/"
  const BINDING_QUERY := "?source_binding="

  /**
   * A request id, the prefix and 24 digits of the digest, has no outer white space, so the store keeps it as it is; in
   * particular it is never blank.
   */
  lemma RequestIdIsClean(p: Prepared)
    ensures Strip(p.RequestId()) == p.RequestId() == "retail-request-" + p.digest[..24]
    ensures p.RequestId() != ""
  {
    var id := p.RequestId();
    assert id[0] == 'r' && id[|id| - 1] == p.digest[23] && IsHex(p.digest[23]);
  }

  /** A resource URI names its request: its kind, the whole digest, and for a state ping the source binding. */
  lemma UriNamesRequest(p: Prepared, q: Prepared)
    requires p.ResourceUri() == q.ResourceUri()
    ensures p.digest == q.digest && (p.resourceType == "state_ping" <==> q.resourceType == "state_ping")
    ensures p.resourceType == "state_ping" ==> p.source == q.source
    ensures p.ResourceUri() == if p.resourceType == "state_ping"
      then "/retail/v1/context/state-ping/" + p.digest + "?source_binding=" + p.source
      else "/retail/v1/context/context-delta/" + p.digest
  {
    var u := p.ResourceUri();
    assert p.resourceType == "state_ping" <==> u[19] == 's';
    assert q.resourceType == "state_ping" <==> u[19] == 's';
    if p.resourceType == "state_ping" {
      assert u[30..94] == p.digest && u[110..] == p.source;
      assert u[30..94] == q.digest && u[110..] == q.source;
    } else {
      assert u[33..] == p.digest && u[33..] == q.digest;
    }
  }

  type Bytes = seq<bv8>

  /** SHA-256 of a body, taken as injective. */
  datatype Digest = Sha256(body: Bytes)

  /** The columns of a payment claim that its insertion fixes. */
  datatype Binding = Binding(
    requestId: string, receipt: StableId, requirement: StableId, network: string, transaction: string,
    payer: Option<string>, resourceType: string, resourceUri: string, amount: string, wallet: string)

  datatype Delivery =
    | Pending
    | Delivered(at: nat, digest: Digest, bytes: nat, duration: nat)
    | Undelivered(at: nat, reason: string, elapsed: Option<nat>)

  datatype Claim = Claim(binding: Binding, claimedAt: nat, delivery: Delivery)

  datatype EventKind =
    | PrePaymentAdmitted | PrePaymentDenied | RateLimitDenied | PaymentClaimed | PaymentReplayDenied
    | DeliveryCompleted | DeliveryFailed | ServiceDisabled | ControlStoreFailure | LatencyObserved

  datatype Event = Event(
    at: nat, kind: EventKind, requestId: string, resourceType: Option<string>, subject: Option<string>,
    receipt: Option<StableId>, requirement: Option<StableId>, transaction: Option<string>,
    duration: Option<nat>, bytes: Option<nat>, reason: Option<string>)

  /** The parts an event id is derived from. */
  datatype EventKey = EventKey(
    at: nat, kind: EventKind, requestId: string, resourceType: Option<string>, receipt: Option<StableId>,
      reason: Option<string>)

  datatype IncidentKind =
    | ReplayConflictIncident | StoreUnavailableIncident | DeliveryFailureIncident | RatePressure | KillSwitchActive

  datatype Details = NoDetails | RateDetails(count: nat, limit: int) | ConflictScope(scope: string)

  /** An incident id is derived from every one of these columns, so the table is a set of incidents. */
  datatype Incident = Incident(
    at: nat, kind: IncidentKind, requestId: Option<string>, resourceType: Option<string>,
    receipt: Option<StableId>, reason: string, details: Details)

  datatype SettlementKey = SettlementKey(network: string, transaction: string)

  /** The delivery tables, with the two UNIQUE indexes of the claim table. */
  datatype Ledger = Ledger(
    claims: map<StableId, Claim>, settlements: map<SettlementKey, StableId>, receipts: map<StableId, StableId>,
    events: map<EventKey, Event>, incidents: set<Incident>)

  /** What the store does to one call: nothing; a failure before the commit; a failure raised after it. */
  datatype Fault = NoFault | Lost(point: nat) | Unacknowledged

  datatype StoreError = Rejected | Unavailable

  datatype ClaimDecision = Claimed(row: Claim) | AlreadyConsumed(row: Claim) | ReplayConflict(existing: Option<Claim>)

  // ---- rows and events ----

  function SettlementOf(b: Binding): SettlementKey { SettlementKey(b.network, b.transaction) }

  function KeyOf(e: Event): EventKey { EventKey(e.at, e.kind, e.requestId, e.resourceType, e.receipt, e.reason) }

  predicate Lifecycle(kind: EventKind) { kind.PaymentClaimed? || kind.DeliveryCompleted? || kind.DeliveryFailed? }

  function ClaimedEvent(b: Binding, at: nat): Event {
    Event(at, PaymentClaimed, b.requestId, Some(b.resourceType), None, Some(b.receipt), Some(b.requirement),
          Some(b.transaction), None, None, None)
  }

  function CompletedEvent(b: Binding, at: nat, bytes: nat, duration: nat): Event {
    Event(at, DeliveryCompleted, b.requestId, Some(b.resourceType), None, Some(b.receipt), Some(b.requirement),
          None, Some(duration), Some(bytes), None)
  }

  function FailedEvent(b: Binding, at: nat, reason: string, duration: Option<nat>): Event {
    Event(at, DeliveryFailed, b.requestId, Some(b.resourceType), None, Some(b.receipt), Some(b.requirement),
          None, duration, None, Some(reason))
  }

  function FailureIncident(b: Binding, at: nat, reason: string): Incident {
    Incident(at, DeliveryFailureIncident, Some(b.requestId), Some(b.resourceType), Some(b.receipt), reason, NoDetails)
  }

  /** The event of one life-cycle kind a claim row accounts for, if it has reached that stage. */
  function Expected(c: Claim, kind: EventKind): Option<Event> {
    match kind
    case PaymentClaimed => Some(ClaimedEvent(c.binding, c.claimedAt))
    case DeliveryCompleted =>
      if c.delivery.Delivered? then
        Some(CompletedEvent(c.binding, c.delivery.at, c.delivery.bytes, c.delivery.duration)) else None
    case DeliveryFailed =>
      if c.delivery.Undelivered? then
        Some(FailedEvent(c.binding, c.delivery.at, c.delivery.reason, c.delivery.elapsed)) else None
    case _ => None
  }

  predicate LowerOrDigit(c: char) { 'a' <= c <= 'z' || '0' <= c <= '9' || c == '_' }

  predicate ValidReason(s: string) {
    1 <= |s| <= 64 && 'a' <= s[0] <= 'z' && forall i :: 0 <= i < |s| ==> LowerOrDigit(s[i])
  }

  /** INSERT OR IGNORE. */
  function Noted(events: map<EventKey, Event>, e: Event): map<EventKey, Event> {
    if KeyOf(e) in events then events else events[KeyOf(e) := e]
  }

  // ---- transactions ----

  predicate Taken(l: Ledger, id: StableId, b: Binding) {
    id in l.claims || SettlementOf(b) in l.settlements || b.receipt in l.receipts
  }

  predicate SamePurchase(a: Binding, b: Binding) { a.(requestId := b.requestId) == b }

  function Lookup(claims: map<StableId, Claim>, id: StableId): Option<Claim> {
    if id in claims then Some(claims[id]) else None
  }

  function BySettlement(l: Ledger, k: SettlementKey): Option<Claim> {
    if k in l.settlements then Lookup(l.claims, l.settlements[k]) else None
  }

  function ByReceipt(l: Ledger, receipt: StableId): Option<Claim> {
    if receipt in l.receipts then Lookup(l.claims, l.receipts[receipt]) else None
  }

  function Refusal(l: Ledger, b: Binding): ClaimDecision {
    var row := BySettlement(l, SettlementOf(b));
    if row.Some? && SamePurchase(row.value.binding, b) then AlreadyConsumed(row.value)
    else ReplayConflict(if row.Some? then row else ByReceipt(l, b.receipt))
  }

  function Inserted(l: Ledger, id: StableId, b: Binding, at: nat): Ledger {
    l.(claims := l.claims[id := Claim(b, at, Pending)], settlements := l.settlements[SettlementOf(b) := id],
       receipts := l.receipts[b.receipt := id], events := Noted(l.events, ClaimedEvent(b, at)))
  }

  function ClaimStep(l: Ledger, id: StableId, b: Binding, at: nat, f: Fault): (Ledger, Result<ClaimDecision,
      StoreError>) {
    if f.Lost? then (l, Err(Unavailable))
    else
      var after := if Taken(l, id, b) then l else Inserted(l, id, b, at);
      var decision := if Taken(l, id, b) then Refusal(l, b) else Claimed(Claim(b, at, Pending));
      (after, if f.NoFault? then Ok(decision) else Err(Unavailable))
  }

  function TerminalEvent(b: Binding, d: Delivery): Event
    requires !d.Pending?
  {
    if d.Delivered? then CompletedEvent(b, d.at, d.bytes, d.duration) else FailedEvent(b, d.at, d.reason, d.elapsed)
  }

  predicate Markable(l: Ledger, id: StableId, d: Delivery) {
    !d.Pending? && id in l.claims && l.claims[id].delivery.Pending? && (d.Undelivered? ==> ValidReason(d.reason))
  }

  function Marked(l: Ledger, id: StableId, d: Delivery): Ledger
    requires id in l.claims && !d.Pending?
  {
    var row := l.claims[id].(delivery := d);
    var b := row.binding;
    l.(claims := l.claims[id := row],
       events := Noted(l.events, TerminalEvent(b, d)),
       incidents := if d.Undelivered? then l.incidents + {FailureIncident(b, d.at, d.reason)} else l.incidents)
  }

  function MarkStep(l: Ledger, id: StableId, d: Delivery, f: Fault): (Ledger, Result<Claim, StoreError>) {
    if d.Pending? then (l, Err(Rejected))
    else if f.Lost? then (l, Err(Unavailable))
    else if !Markable(l, id, d) then (l, Err(if f.NoFault? then Rejected else Unavailable))
    else (Marked(l, id, d), if f.NoFault? then Ok(l.claims[id].(delivery := d)) else Err(Unavailable))
  }

  /** The second component says whether the call raises: faults while noting a committed fact are swallowed. */
  function NoteStep(l: Ledger, e: Event, f: Fault): (Ledger, bool) {
    (if f.Lost? then l else l.(events := Noted(l.events, e)), !f.NoFault? && !Lifecycle(e.kind))
  }

  function ReportStep(l: Ledger, i: Incident, f: Fault): (Ledger, bool) {
    (if f.Lost? then l else l.(incidents := l.incidents + {i}), !f.NoFault? && !i.kind.DeliveryFailureIncident?)
  }

  function ReadStep(l: Ledger, id: StableId, f: Fault): Result<Option<Claim>, StoreError> {
    if f.NoFault? then Ok(Lookup(l.claims, id)) else Err(Unavailable)
  }

  // ---- what every transaction keeps ----

  ghost predicate RowIndexed(l: Ledger, id: StableId)
    requires id in l.claims
  {
    var b := l.claims[id].binding;
    SettlementOf(b) in l.settlements && l.settlements[SettlementOf(b)] == id &&
    b.receipt in l.receipts && l.receipts[b.receipt] == id
  }

  /** The indexes list exactly the rows, so a settlement and a receipt each belong to at most one claim. */
  ghost predicate Indexed(l: Ledger) {
    (forall id :: id in l.claims ==> RowIndexed(l, id)) &&
    (forall k :: k in l.settlements ==>
      l.settlements[k] in l.claims && SettlementOf(l.claims[l.settlements[k]].binding) == k) &&
    (forall r :: r in l.receipts ==> l.receipts[r] in l.claims && l.claims[l.receipts[r]].binding.receipt == r)
  }

  ghost predicate Accounted(l: Ledger, e: Event) {
    Lifecycle(e.kind) ==>
      e.receipt.Some? && e.receipt.value in l.receipts && l.receipts[e.receipt.value] in l.claims &&
      Expected(l.claims[l.receipts[e.receipt.value]], e.kind) == Some(e)
  }

  ghost predicate StageNoted(l: Ledger, c: Claim, kind: EventKind) {
    Expected(c, kind).Some? ==> KeyOf(Expected(c, kind).value) in l.events
  }

  ghost predicate RowAudited(l: Ledger, c: Claim) {
    StageNoted(l, c, PaymentClaimed) && StageNoted(l, c, DeliveryCompleted) && StageNoted(l, c, DeliveryFailed) &&
    (c.delivery.Undelivered? ==> FailureIncident(c.binding, c.delivery.at, c.delivery.reason) in l.incidents)
  }

  /** Every life-cycle event belongs to a row, and every row has the events of the stages it has reached. */
  ghost predicate Audited(l: Ledger) {
    (forall k :: k in l.events ==> KeyOf(l.events[k]) == k && Accounted(l, l.events[k])) &&
    (forall id :: id in l.claims ==> RowAudited(l, l.claims[id]))
  }

  ghost predicate Valid(l: Ledger) { Indexed(l) && Audited(l) }

  ghost predicate RowGrows(c: Claim, d: Claim) {
    d.binding == c.binding && d.claimedAt == c.claimedAt && (c.delivery.Pending? || d.delivery == c.delivery)
  }

  /** Rows are never removed, their binding never changes, and a terminal status is final; the audit only grows. */
  ghost predicate Grows(l: Ledger, m: Ledger) {
    (forall id :: id in l.claims ==> id in m.claims && RowGrows(l.claims[id], m.claims[id])) &&
    (forall k :: k in l.events ==> k in m.events && m.events[k] == l.events[k]) &&
    l.incidents <= m.incidents
  }

  const EMPTY := Ledger(map[], map[], map[], map[], {})

  lemma EmptyValid()
    ensures Valid(EMPTY)
  {
  }

  lemma GrowsReflexive(l: Ledger)
    ensures Grows(l, l)
  {
  }

  lemma GrowsTransitive(l: Ledger, m: Ledger, n: Ledger)
    requires Grows(l, m) && Grows(m, n)
    ensures Grows(l, n)
  {
    forall id | id in l.claims ensures id in n.claims && RowGrows(l.claims[id], n.claims[id]) {
      assert id in m.claims && RowGrows(l.claims[id], m.claims[id]);
      assert id in n.claims && RowGrows(m.claims[id], n.claims[id]);
    }
  }

  // A settlement or receipt names one row.

  lemma SettlementUnique(l: Ledger, i: StableId, j: StableId)
    requires Indexed(l) && i in l.claims && j in l.claims
    requires SettlementOf(l.claims[i].binding) == SettlementOf(l.claims[j].binding) ||
             l.claims[i].binding.receipt == l.claims[j].binding.receipt
    ensures i == j
  {
    assert RowIndexed(l, i) && RowIndexed(l, j);
  }

  lemma InsertionIndexesRow(l: Ledger, id: StableId, b: Binding, at: nat, i: StableId)
    requires Indexed(l) && !Taken(l, id, b) && i in Inserted(l, id, b, at).claims
    ensures RowIndexed(Inserted(l, id, b, at), i)
  {
    hide Noted, ClaimedEvent, SettlementOf;
    if i != id { assert RowIndexed(l, i); }
  }

  lemma InsertedIndexed(l: Ledger, id: StableId, b: Binding, at: nat)
    requires Indexed(l) && !Taken(l, id, b)
    ensures Indexed(Inserted(l, id, b, at))
  {
    hide Noted, ClaimedEvent, SettlementOf, RowIndexed;
    var m := Inserted(l, id, b, at);
    forall i | i in m.claims ensures RowIndexed(m, i) {
      InsertionIndexesRow(l, id, b, at, i);
    }
  }

  /** The events after a step are those before it and at most one more. */
  ghost predicate Extends(before: map<EventKey, Event>, after: map<EventKey, Event>, e: Event) {
    KeyOf(e) in after &&
    (forall k :: k in before ==> k in after && after[k] == before[k]) &&
    (forall k :: k in after ==> (k in before && after[k] == before[k]) || (k == KeyOf(e) && after[k] == e))
  }

  lemma NotedExtends(events: map<EventKey, Event>, e: Event)
    ensures Extends(events, Noted(events, e), e)
  {
  }

  lemma InsertedAudited(l: Ledger, id: StableId, b: Binding, at: nat)
    requires Valid(l) && !Taken(l, id, b)
    ensures Audited(Inserted(l, id, b, at))
  {
    hide Noted, Accounted, RowAudited, Indexed, ClaimedEvent, KeyOf;
    var m := Inserted(l, id, b, at);
    NotedExtends(l.events, ClaimedEvent(b, at));
    forall k | k in m.events ensures KeyOf(m.events[k]) == k && Accounted(m, m.events[k]) {
      if k in l.events && m.events[k] == l.events[k] { AccountedStays(l, m, l.events[k]); }
      else { InsertionAccounted(l, id, b, at); }
    }
    forall i | i in m.claims ensures RowAudited(m, m.claims[i]) {
      if i != id { AuditedStays(l, m, l.claims[i]); } else { InsertionAudited(l, id, b, at); }
    }
  }

  lemma InsertionAccounted(l: Ledger, id: StableId, b: Binding, at: nat)
    ensures Accounted(Inserted(l, id, b, at), ClaimedEvent(b, at))
  {
    hide Noted;
  }

  lemma InsertionAudited(l: Ledger, id: StableId, b: Binding, at: nat)
    ensures RowAudited(Inserted(l, id, b, at), Claim(b, at, Pending))
  {
    hide Noted;
    NotedExtends(l.events, ClaimedEvent(b, at));
  }

  lemma AccountedStays(l: Ledger, m: Ledger, e: Event)
    requires Accounted(l, e)
    requires forall r :: r in l.receipts ==> r in m.receipts && m.receipts[r] == l.receipts[r]
    requires forall i :: i in l.claims ==> i in m.claims && RowGrows(l.claims[i], m.claims[i])
    ensures Accounted(m, e)
  {
    if Lifecycle(e.kind) {
      assert RowGrows(l.claims[l.receipts[e.receipt.value]], m.claims[l.receipts[e.receipt.value]]);
    }
  }

  lemma AuditedStays(l: Ledger, m: Ledger, c: Claim)
    requires RowAudited(l, c)
    requires forall k :: k in l.events ==> k in m.events
    requires l.incidents <= m.incidents
    ensures RowAudited(m, c)
  {
  }

  lemma ClaimKeeps(l: Ledger, id: StableId, b: Binding, at: nat, f: Fault)
    requires Valid(l)
    ensures Valid(ClaimStep(l, id, b, at, f).0) && Grows(l, ClaimStep(l, id, b, at, f).0)
  {
    hide Indexed, Audited, Noted;
    if !Taken(l, id, b) {
      InsertedIndexed(l, id, b, at);
      InsertedAudited(l, id, b, at);
      NotedExtends(l.events, ClaimedEvent(b, at));
    }
  }

  lemma SameBindingIndexed(l: Ledger, m: Ledger, i: StableId)
    requires i in l.claims && i in m.claims && m.claims[i].binding == l.claims[i].binding && RowIndexed(l, i)
    requires m.settlements == l.settlements && m.receipts == l.receipts
    ensures RowIndexed(m, i)
  {
  }

  lemma MarkedIndexed(l: Ledger, id: StableId, d: Delivery)
    requires Indexed(l) && Markable(l, id, d)
    ensures Indexed(Marked(l, id, d))
  {
    hide Noted, TerminalEvent, FailureIncident, ValidReason, SettlementOf, RowIndexed;
    var m := Marked(l, id, d);
    forall i | i in m.claims ensures RowIndexed(m, i) {
      SameBindingIndexed(l, m, i);
    }
  }

  lemma MarkedGrows(l: Ledger, id: StableId, d: Delivery)
    requires Markable(l, id, d)
    ensures Grows(l, Marked(l, id, d))
    ensures Extends(l.events, Marked(l, id, d).events, TerminalEvent(l.claims[id].binding, d))
  {
    hide Noted, ValidReason;
    NotedExtends(l.events, TerminalEvent(l.claims[id].binding, d));
  }

  lemma MarkedAudited(l: Ledger, id: StableId, d: Delivery)
    requires Valid(l) && Markable(l, id, d)
    ensures Audited(Marked(l, id, d))
  {
    hide Noted, ValidReason, Accounted, RowAudited;
    var m := Marked(l, id, d);
    MarkedGrows(l, id, d);
    assert RowIndexed(l, id);
    forall k | k in m.events ensures KeyOf(m.events[k]) == k && Accounted(m, m.events[k]) {
      if k in l.events && m.events[k] == l.events[k] { AccountedStays(l, m, l.events[k]); }
      else { TerminalAccounted(l, id, d); }
    }
    forall i | i in m.claims ensures RowAudited(m, m.claims[i]) {
      if i != id { AuditedStays(l, m, l.claims[i]); } else { TerminalAudited(l, id, d); }
    }
  }

  lemma TerminalAccounted(l: Ledger, id: StableId, d: Delivery)
    requires Markable(l, id, d) && RowIndexed(l, id)
    ensures Accounted(Marked(l, id, d), TerminalEvent(l.claims[id].binding, d))
  {
    hide Noted, ValidReason;
  }

  lemma TerminalAudited(l: Ledger, id: StableId, d: Delivery)
    requires Markable(l, id, d) && RowAudited(l, l.claims[id])
    ensures RowAudited(Marked(l, id, d), Marked(l, id, d).claims[id])
  {
    hide Noted, ValidReason;
    MarkedGrows(l, id, d);
    assert StageNoted(l, l.claims[id], PaymentClaimed);
  }

  lemma MarkKeeps(l: Ledger, id: StableId, d: Delivery, f: Fault)
    requires Valid(l)
    ensures Valid(MarkStep(l, id, d, f).0) && Grows(l, MarkStep(l, id, d, f).0)
  {
    hide Indexed, Audited, Marked, Markable, Grows;
    GrowsReflexive(l);
    if Markable(l, id, d) {
      MarkedIndexed(l, id, d);
      MarkedAudited(l, id, d);
      MarkedGrows(l, id, d);
    }
  }

  /** Noting an event keeps the audit exact when a life-cycle event is one the store has already written. */
  lemma NoteKeeps(l: Ledger, e: Event, f: Fault)
    requires Valid(l) && (Lifecycle(e.kind) ==> KeyOf(e) in l.events)
    ensures Valid(NoteStep(l, e, f).0) && Grows(l, NoteStep(l, e, f).0)
    ensures Lifecycle(e.kind) ==> NoteStep(l, e, f) == (l, false)
  {
    hide Noted, Valid, Grows;
    GrowsReflexive(l);
    if !f.Lost? {
      NotedExtends(l.events, e);
      AppendKeeps(l, l.(events := Noted(l.events, e)), e);
      NoteAgain(l, e);
    }
  }

  /** A step that leaves the rows alone and appends at most one event keeps the ledger valid. */
  lemma AppendKeeps(l: Ledger, m: Ledger, e: Event)
    requires Valid(l) && Extends(l.events, m.events, e) && (Lifecycle(e.kind) ==> KeyOf(e) in l.events)
    requires m.claims == l.claims && m.settlements == l.settlements && m.receipts == l.receipts &&
             l.incidents <= m.incidents
    ensures Valid(m) && Grows(l, m)
  {
    hide Accounted, RowAudited, Indexed, KeyOf;
    SameIndexes(l, m);
    forall k | k in m.events ensures KeyOf(m.events[k]) == k && Accounted(m, m.events[k]) {
      if k in l.events { AccountedStays(l, m, l.events[k]); } else { OthersAccounted(m, e); }
    }
    forall i | i in m.claims ensures RowAudited(m, m.claims[i]) { AuditedStays(l, m, l.claims[i]); }
  }

  lemma OthersAccounted(l: Ledger, e: Event)
    ensures !Lifecycle(e.kind) ==> Accounted(l, e)
  {
  }

  lemma SameIndexes(l: Ledger, m: Ledger)
    requires Indexed(l) && m.claims == l.claims && m.settlements == l.settlements && m.receipts == l.receipts
    ensures Indexed(m)
  {
    forall i | i in m.claims ensures RowIndexed(m, i) { assert RowIndexed(l, i); }
  }

  lemma NoteAgain(l: Ledger, e: Event)
    ensures KeyOf(e) in l.events ==> Noted(l.events, e) == l.events
  {
  }

  lemma ReportKeeps(l: Ledger, i: Incident, f: Fault)
    requires Valid(l)
    ensures Valid(ReportStep(l, i, f).0) && Grows(l, ReportStep(l, i, f).0)
  {
    hide Accounted, RowAudited, Indexed, KeyOf;
    var m := ReportStep(l, i, f).0;
    SameIndexes(l, m);
    forall k | k in m.events ensures KeyOf(m.events[k]) == k && Accounted(m, m.events[k]) {
      AccountedStays(l, m, l.events[k]);
    }
    forall j | j in m.claims ensures RowAudited(m, m.claims[j]) { AuditedStays(l, m, l.claims[j]); }
  }

  /** The events of one kind the audit holds about one receipt. */
  ghost function EventsAbout(l: Ledger, receipt: StableId, kind: EventKind): set<Event> {
    set k | k in l.events && l.events[k].kind == kind && l.events[k].receipt == Some(receipt) :: l.events[k]
  }

  /** Exactly one event per stage a claim has reached, and none for a stage it has not. */
  lemma OneEventPerStage(l: Ledger, id: StableId, kind: EventKind)
    requires Valid(l) && id in l.claims && Lifecycle(kind)
    ensures EventsAbout(l, l.claims[id].binding.receipt, kind) ==
            (if Expected(l.claims[id], kind).Some? then {Expected(l.claims[id], kind).value} else {})
  {
    hide Expected;
    var c := l.claims[id];
    assert RowIndexed(l, id) && RowAudited(l, c);
    ExpectedIsAbout(c, kind);
    forall e | e in EventsAbout(l, c.binding.receipt, kind) ensures Expected(c, kind) == Some(e) {
      var k :| k in l.events && l.events[k] == e;
      assert Accounted(l, e);
    }
    if Expected(c, kind).Some? {
      var e := Expected(c, kind).value;
      var k := KeyOf(e);
      assert StageNoted(l, c, kind);
      assert KeyOf(l.events[k]) == k && Accounted(l, l.events[k]);
      assert l.events[k] in EventsAbout(l, c.binding.receipt, kind);
    }
  }

  lemma ExpectedIsAbout(c: Claim, kind: EventKind)
    ensures Expected(c, kind).Some? ==>
              Expected(c, kind).value.kind == kind && Expected(c, kind).value.receipt == Some(c.binding.receipt)
  {
  }
}
