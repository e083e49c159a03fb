/** The evidence accumulation of retail_context/state_ping.py. */
module StatePing {
  import opened Wrappers
  import opened Orders
  import opened Keyed

  datatype SourceStatus = Observed | Stale | Unavailable | Rejected | Unknown

  datatype Verification = Verified | Unverified | VerificationFailed | NotApplicable

  datatype ClaimStatus = ClaimObserved | ClaimUnresolved | ClaimRejected

  datatype Impact = NoneKnown | LimitedScope | Material | Indeterminate

  datatype Claim = Claim(id: string, statement: string, status: ClaimStatus)

  datatype Limitation = Limitation(id: string, description: string, impact: Impact)

  /** A limitation of the result; its id is the key it is stored under. */
  datatype Remark = Remark(description: string, impact: Impact)

  datatype Observation = Observation(
    id: string, source: string, subject: string, observedAt: string, status: SourceStatus, verification: Verification,
    age: nat, mode: string, claims: seq<Claim>, limitations: seq<Limitation>)

  /**
   * A source entry; its id is None when it is not a nonempty string, usable is its configuration eligibility, and
   * record stands for everything else it holds.
   */
  datatype SourceEntry = SourceEntry(source: Option<string>, usable: bool, record: string)

  // ---- keys: derived ids are injective digests of these parts ----

  datatype EvidenceKey = EvidenceKey(observation: string, source: string, claim: string, statement: string)

  datatype ContradictionKey = ContradictionKey(claim: string, evidence: set<EvidenceKey>, statements: set<string>)

  datatype GapKey = Parts(parts: seq<string>) | OfContradiction(contradiction: ContradictionKey) | NoPositive

  datatype GapStatus = GapUnresolved | GapUnavailable | GapMissing

  datatype Gap = Gap(status: GapStatus, scope: string, reason: string, sources: set<string>)

  datatype Evidence = Evidence(key: EvidenceKey, status: EvidenceStatus)

  datatype EvidenceStatus = EvidenceObserved | EvidenceUnresolved | EvidenceContradicted

  /** What is remembered of a claim beside its evidence. */
  datatype Metadata = Metadata(claim: string, status: ClaimStatus, statement: string, evidence: EvidenceKey,
      source: string, observation: string)

  datatype Reconciliation = ContradictedClaims | UnresolvedClaims | NotAssessed

  datatype Provenance = Provenance(source: string, mode: string, observedAt: string, verification: Verification,
      reconciliation: Reconciliation, scope: set<string>)

  datatype ContextStatus = Resolved | PartiallyResolved | UnresolvedContext | InsufficientEvidence

  datatype Level = Medium | Low | NoLevel

  datatype Freshness = Freshness(observedAt: Option<string>, age: Option<nat>, stale: bool)

  datatype Ping = Ping(
    status: ContextStatus, level: Level, freshness: Freshness, provenance: seq<Provenance>, evidence: seq<Evidence>,
    contradictions: seq<ContradictionKey>, gaps: map<GapKey, Gap>, limitations: map<GapKey, Remark>)

  /** The material a resource id is the digest of: the normalized inputs in their canonical order. */
  datatype ResourceId = ResourceId(
    subject: string, observations: seq<Observation>, entries: seq<SourceEntry>, generatedAt: string)

  datatype Resource = Resource(id: ResourceId, subject: string, generatedAt: string, context: Ping)

  // ---- input checks ----

  predicate Positive(o: Observation) { o.status.Observed? || o.status.Stale? }

  /** What the observation schema guarantees and the accumulation relies on: evidence comes with claims. */
  predicate WellFormed(o: Observation) { Positive(o) <==> o.claims != [] }

  predicate Accepts(subject: string, observations: seq<Observation>) {
    observations != [] &&
    (forall i :: 0 <= i < |observations| ==> WellFormed(observations[i]) && observations[i].subject == subject) &&
    (forall i, j :: 0 <= i < j < |observations| ==> observations[i].id != observations[j].id)
  }

  method CheckObservations(subject: string, observations: seq<Observation>) returns (ok: bool)
    ensures ok == Accepts(subject, observations)
  {
    if observations == [] { return false; }
    var seen: set<string> := {};
    for i := 0 to |observations|
      invariant forall k :: 0 <= k < i ==> WellFormed(observations[k]) && observations[k].subject == subject
      invariant forall k, m :: 0 <= k < m < i ==> observations[k].id != observations[m].id
      invariant forall k :: 0 <= k < i ==> observations[k].id in seen
      invariant forall x :: x in seen ==> exists k :: 0 <= k < i && observations[k].id == x
    {
      if !WellFormed(observations[i]) || observations[i].subject != subject || observations[i].id in seen {
        return false;
      }
      seen := seen + {observations[i].id};
    }
    return true;
  }

  /** Entries without a usable id are skipped. */
  function Named(entries: seq<SourceEntry>): seq<SourceEntry> {
    if entries == [] then []
    else
      var last := entries[|entries| - 1];
      Named(entries[..|entries| - 1]) + (if last.source.Some? then [last] else [])
  }

  function EntryId(): SourceEntry -> string { (e: SourceEntry) => if e.source.Some? then e.source.value else "" }

  /** The named entries by source id; None when two of them name the same source. */
  function EntriesById(entries: seq<SourceEntry>): Option<map<string, SourceEntry>> { Index(Named(entries), EntryId()) }

  /** Skip an unnamed entry, stop at a repeated name, otherwise file the entry under its name and list it. */
  method IndexEntries(entries: seq<SourceEntry>)
    returns (r: Option<map<string, SourceEntry>>, named: seq<SourceEntry>)
    ensures r == EntriesById(entries)
    ensures r.Some? ==> named == Named(entries)
  {
    hide EntriesById, Named;
    var indexed: map<string, SourceEntry> := map[];
    named := [];
    NothingById(entries);
    for i := 0 to |entries|
      invariant EntriesById(entries[..i]) == Some(indexed) && named == Named(entries[..i])
    {
      OneMoreEntry(entries, i, indexed);
      NamedNext(entries, i);
      if entries[i].source.Some? {
        if entries[i].source.value in indexed { return None, named; }
        indexed := indexed[entries[i].source.value := entries[i]];
        named := named + [entries[i]];
      }
    }
    assert entries[..|entries|] == entries;
    return Some(indexed), named;
  }

  lemma NothingById(entries: seq<SourceEntry>)
    ensures EntriesById(entries[..0]) == Some(map[]) && Named(entries[..0]) == []
  {
  }

  lemma NamedNext(entries: seq<SourceEntry>, i: nat)
    requires i < |entries|
    ensures entries[i].source.Some? ==> Named(entries[..i + 1]) == Named(entries[..i]) + [entries[i]]
    ensures entries[i].source.None? ==> Named(entries[..i + 1]) == Named(entries[..i])
  {
    assert entries[..i + 1][..i] == entries[..i];
  }

  lemma IndexNext(s: seq<SourceEntry>, e: SourceEntry, m: map<string, SourceEntry>)
    requires Index(s, EntryId()) == Some(m)
    ensures Index(s + [e], EntryId()) == if EntryId()(e) in m then None else Some(m[EntryId()(e) := e])
  {
    assert (s + [e])[..|s|] == s;
  }

  lemma OneMoreEntry(entries: seq<SourceEntry>, i: nat, m: map<string, SourceEntry>)
    requires i < |entries| && EntriesById(entries[..i]) == Some(m)
    ensures entries[i].source.None? ==> EntriesById(entries[..i + 1]) == Some(m)
    ensures entries[i].source.Some? && entries[i].source.value in m ==> EntriesById(entries).None?
    ensures entries[i].source.Some? && entries[i].source.value !in m ==>
              EntriesById(entries[..i + 1]) == Some(m[entries[i].source.value := entries[i]])
  {
    hide Named, Index;
    NamedNext(entries, i);
    IndexNext(Named(entries[..i]), entries[i], m);
    if entries[i].source.Some? && entries[i].source.value in m {
      NamedPrefix(entries, i + 1);
      NoIndexOfMore(Named(entries), EntryId(), |Named(entries[..i + 1])|);
    }
  }

  lemma {:induction false} NamedPrefix(entries: seq<SourceEntry>, n: nat)
    requires n <= |entries|
    ensures |Named(entries[..n])| <= |Named(entries)| && Named(entries)[..|Named(entries[..n])|] == Named(entries[..n])
    decreases |entries|
  {
    if n == |entries| {
      assert entries[..n] == entries;
    } else {
      assert entries[..|entries| - 1][..n] == entries[..n];
      NamedPrefix(entries[..|entries| - 1], n);
    }
  }

  function EntriesInOrder(named: seq<SourceEntry>): seq<SourceEntry> { SortBy(EntryId(), TextLe(), named) }

  function ObservationKey(): Observation -> seq<string> { (o: Observation) => [o.source, o.id] }

  function ClaimKey(): Claim -> seq<string> { (c: Claim) => [c.id, c.statement] }

  function InOrder(observations: seq<Observation>): seq<Observation> {
    SortBy(ObservationKey(), Lex(TextLe()), observations)
  }

  function ClaimsInOrder(o: Observation): seq<Claim> { SortBy(ClaimKey(), Lex(TextLe()), o.claims) }

  predicate Eligible(entries: map<string, SourceEntry>,
      o: Observation) { Positive(o) && o.source in entries && entries[o.source].usable }

  function Select(s: seq<Observation>, p: Observation -> bool): seq<Observation> {
    if s == [] then [] else Select(s[..|s| - 1], p) + (if p(s[|s| - 1]) then [s[|s| - 1]] else [])
  }

  lemma {:induction false} SelectIs(s: seq<Observation>, p: Observation -> bool)
    ensures forall o :: o in Select(s, p) <==> o in s && p(o)
  {
    if s == [] {
    } else {
      SelectIs(s[..|s| - 1], p);
      assert s == s[..|s| - 1] + [s[|s| - 1]];
    }
  }

  // ---- what each observation adds ----

  datatype Put<V> = Put(key: GapKey, value: V)

  function PutAll<V>(m: map<GapKey, V>, puts: seq<Put<V>>): map<GapKey, V> {
    if puts == [] then m else PutAll(m, puts[..|puts| - 1])[puts[|puts| - 1].key := puts[|puts| - 1].value]
  }

  function Each<X, Y>(s: seq<X>, f: X -> seq<Y>): seq<Y> {
    if s == [] then [] else Each(s[..|s| - 1], f) + f(s[|s| - 1])
  }

  predicate Weighty(i: Impact) { i.Material? || i.Indeterminate? }

  function VerificationText(v: Verification): string {
    match v
    case Verified => "verified"
    case Unverified => "unverified"
    case VerificationFailed => "verification_failed"
    case NotApplicable => "not_applicable"
  }

  function StatusText(s: SourceStatus): string {
    match s
    case Observed => "observed"
    case Stale => "stale"
    case Unavailable => "unavailable"
    case Rejected => "rejected"
    case Unknown => "unknown"
  }

  function LimitGaps(o: Observation): seq<Put<Gap>> {
    Each(o.limitations, (l: Limitation) =>
      if Weighty(l.impact)
      then [Put(Parts(["input-limitation", o.id, l.id]),
        Gap(GapUnresolved, "source limitation", l.description, {o.source}))]
      else [])
  }

  function LimitPuts(o: Observation): seq<Put<Remark>> {
    Each(o.limitations, (l: Limitation) => [Put(Parts([o.source, o.id, l.id]), Remark(l.description, l.impact))])
  }

  function ExcludedReason(o: Observation): string {
    "Source " + o.source + " was excluded from positive evidence because its status is " + StatusText(o.status) + "."
  }

  function ExcludedGaps(o: Observation): seq<Put<Gap>> {
    [Put(Parts(["excluded-source", o.id]),
         Gap(if o.status.Unavailable? then GapUnavailable
           else GapUnresolved, "current subject context", ExcludedReason(o), {o.source}))]
  }

  function MaterialNote(what: string, o: Observation, description: string): seq<Put<Remark>> {
    [Put(Parts([what, o.id]), Remark(description, Material))]
  }

  function ExcludedNotes(o: Observation): seq<Put<Remark>> { MaterialNote("excluded-source", o, ExcludedReason(o)) }

  function IneligibleReason(entries: map<string, SourceEntry>, o: Observation): string {
    "Source " + o.source + " was excluded from positive evidence because " +
    (if o.source !in entries then "no matching RP3 source entry was supplied"
     else "the matching RP3 source entry is not configuration-eligible") + "."
  }

  function IneligibleGaps(entries: map<string, SourceEntry>): Observation -> seq<Put<Gap>> {
    (o: Observation) =>
      [Put(Parts(["ineligible-source", o.id]),
        Gap(GapUnresolved, "source eligibility", IneligibleReason(entries, o), {o.source}))]
  }

  function IneligibleNotes(entries: map<string, SourceEntry>): Observation -> seq<Put<Remark>> {
    (o: Observation) => MaterialNote("ineligible-source", o, IneligibleReason(entries, o))
  }

  function KeyOf(o: Observation, c: Claim): EvidenceKey { EvidenceKey(o.id, o.source, c.id, c.statement) }

  /** The evidence of a claim before contradictions are known. */
  function RawEvidence(o: Observation, c: Claim): Evidence {
    Evidence(KeyOf(o, c), if c.status.ClaimObserved? then EvidenceObserved else EvidenceUnresolved)
  }

  function MetaOf(o: Observation, c: Claim): Metadata {
    Metadata(c.id, c.status, c.statement, KeyOf(o, c), o.source, o.id)
  }

  function EvidenceOf(o: Observation): seq<Evidence> {
    Each(ClaimsInOrder(o), (c: Claim) => [RawEvidence(o, c)])
  }

  function MetadataOf(o: Observation): seq<Metadata> {
    Each(ClaimsInOrder(o), (c: Claim) => [MetaOf(o, c)])
  }

  function ClaimStatusText(s: ClaimStatus): string {
    match s
    case ClaimObserved => "observed"
    case ClaimUnresolved => "unresolved"
    case ClaimRejected => "rejected"
  }

  function ClaimGaps(o: Observation): seq<Put<Gap>> {
    Each(ClaimsInOrder(o), (c: Claim) =>
      if c.status.ClaimObserved? then []
      else [Put(Parts(["claim-status", o.id, c.id]),
                Gap(GapUnresolved, c.id, "The normalized claim status is " + ClaimStatusText(c.status) + ".",
                  {o.source}))])
  }

  function StaleReason(o: Observation): string {
    "Contributing source " + o.source + " explicitly reports stale status."
  }

  function StaleGaps(o: Observation): seq<Put<Gap>> {
    if o.status.Stale? then [Put(Parts(["stale-source", o.id]),
      Gap(GapUnresolved, "current source observation", StaleReason(o), {o.source}))]
    else []
  }

  function VerificationReason(o: Observation): string {
    "Contributing source " + o.source + " retains verification status " + VerificationText(o.verification) + "."
  }

  function VerificationGaps(o: Observation): seq<Put<Gap>> {
    if o.verification.Verified? then []
    else [Put(Parts(["verification", o.id, VerificationText(o.verification)]),
              Gap(GapUnresolved, "source verification", VerificationReason(o), {o.source}))]
  }

  function PositiveGaps(o: Observation): seq<Put<Gap>> { ClaimGaps(o) + StaleGaps(o) + VerificationGaps(o) }

  function PositiveNotes(o: Observation): seq<Put<Remark>> {
    (if o.status.Stale? then MaterialNote("stale-source", o, StaleReason(o)) else []) +
    (if o.verification.Verified? then []
     else [Put(Parts(["verification", o.id, VerificationText(o.verification)]),
         Remark(VerificationReason(o), Material))])
  }

  // ---- contradictions ----

  function Statements(metadata: seq<Metadata>,
      claim: string): set<string> { set m | m in metadata && m.claim == claim :: m.statement }

  function SourceIds(metadata: seq<Metadata>,
      claim: string): set<string> { set m | m in metadata && m.claim == claim :: m.source }

  function EvidenceIds(metadata: seq<Metadata>,
      claim: string): set<EvidenceKey> { set m | m in metadata && m.claim == claim :: m.evidence }

  /** A claim scope with at least two statements and at least two sources. */
  predicate Conflicting(metadata: seq<Metadata>, claim: string) {
    |Statements(metadata, claim)| >= 2 && |SourceIds(metadata, claim)| >= 2
  }

  function ContradictionOf(metadata: seq<Metadata>, claim: string): ContradictionKey {
    ContradictionKey(claim, EvidenceIds(metadata, claim), Statements(metadata, claim))
  }

  function Dedupe(s: seq<string>): seq<string> {
    if s == [] then []
    else
      var before := Dedupe(s[..|s| - 1]);
      if s[|s| - 1] in before then before else before + [s[|s| - 1]]
  }

  function ClaimScopes(metadata: seq<Metadata>): seq<string> {
    SortBy(Itself(), TextLe(), Dedupe(seq(|metadata|, i requires 0 <= i < |metadata| => metadata[i].claim)))
  }

  function Contradictions(metadata: seq<Metadata>): seq<ContradictionKey> {
    Each(ClaimScopes(metadata), (claim: string) => if Conflicting(metadata, claim) then
      [ContradictionOf(metadata, claim)] else [])
  }

  function ContradictionGap(metadata: seq<Metadata>, claim: string): Put<Gap> {
    Put(OfContradiction(ContradictionOf(metadata, claim)),
        Gap(GapUnresolved, claim, "The cross-source contradiction remains unresolved.", SourceIds(metadata, claim)))
  }

  function ContradictionGaps(metadata: seq<Metadata>): seq<Put<Gap>> {
    Each(ClaimScopes(metadata), (claim: string) => if Conflicting(metadata, claim) then
      [ContradictionGap(metadata, claim)] else [])
  }

  function Marked(evidence: seq<Evidence>, contradicted: set<EvidenceKey>): seq<Evidence> {
    seq(|evidence|, i requires 0 <= i < |evidence| =>
      if evidence[i].key in contradicted then evidence[i].(status := EvidenceContradicted) else evidence[i])
  }

  function Contradicted(metadata: seq<Metadata>): set<EvidenceKey> {
    set m | m in metadata && Conflicting(metadata, m.claim) :: m.evidence
  }

  // ---- provenance, freshness, status ----

  function Reconciled(metadata: seq<Metadata>, o: Observation, contradicted: set<EvidenceKey>): Reconciliation {
    if exists m :: m in metadata && m.observation == o.id && m.evidence in contradicted then ContradictedClaims
    else if exists m :: m in metadata && m.observation == o.id && !m.status.ClaimObserved? then UnresolvedClaims
    else NotAssessed
  }

  function ProvenanceOf(metadata: seq<Metadata>, contradicted: set<EvidenceKey>): Observation -> seq<Provenance> {
    (o: Observation) =>
      [Provenance(o.source, o.mode, o.observedAt, o.verification, Reconciled(metadata, o, contradicted),
                  set m | m in metadata && m.observation == o.id :: m.claim)]
  }

  function ProvenanceKey(): Provenance -> string { (p: Provenance) => p.source }

  /** The later of two observations by age, then source, then id. */
  predicate OlderThan(a: Observation, b: Observation) {
    b.age < a.age || (b.age == a.age && a != b && Lex(TextLe())([b.source, b.id], [a.source, a.id]))
  }

  function Oldest(s: seq<Observation>): Observation
    requires s != []
  {
    if |s| == 1 then s[0]
    else
      var before := Oldest(s[..|s| - 1]);
      if OlderThan(s[|s| - 1], before) then s[|s| - 1] else before
  }

  function FreshnessOf(positive: seq<Observation>): Freshness {
    if positive == [] then Freshness(None, None, false)
    else Freshness(Some(Oldest(positive).observedAt), Some(Oldest(positive).age), exists o ::
        o in positive && o.status.Stale?)
  }

  function StatusOf(positive: seq<Observation>, contradictions: seq<ContradictionKey>, gaps: map<GapKey,
      Gap>): ContextStatus {
    if positive == [] then InsufficientEvidence
    else if contradictions != [] then UnresolvedContext
    else if gaps != map[] then PartiallyResolved
    else Resolved
  }

  function LevelOf(status: ContextStatus, positive: seq<Observation>): Level {
    match status
    case InsufficientEvidence => NoLevel
    case UnresolvedContext => Low
    case PartiallyResolved =>
        if forall o :: o in positive ==> o.verification.Verified? && o.status.Observed? then Medium else Low
    case Resolved => Medium
  }

  // ---- the whole resource ----

  function EligibleOnes(entries: map<string,
      SourceEntry>): Observation -> bool { (o: Observation) => Eligible(entries, o) }

  function IneligibleOnes(entries: map<string,
      SourceEntry>): Observation -> bool { (o: Observation) => Positive(o) && !Eligible(entries, o) }

  function ExcludedOnes(): Observation -> bool { (o: Observation) => !Positive(o) }

  function Gaps(all: seq<Observation>, entries: map<string, SourceEntry>): seq<Put<Gap>> {
    var positive := Select(all, EligibleOnes(entries));
    Each(all, LimitGaps) + Each(Select(all, ExcludedOnes()), ExcludedGaps) +
    Each(Select(all, IneligibleOnes(entries)), IneligibleGaps(entries)) + Each(positive, PositiveGaps) +
    ContradictionGaps(Each(positive, MetadataOf))
  }

  function Notes(all: seq<Observation>, entries: map<string, SourceEntry>): seq<Put<Remark>> {
    Each(all, LimitPuts) + Each(Select(all, ExcludedOnes()), ExcludedNotes) +
    Each(Select(all, IneligibleOnes(entries)), IneligibleNotes(entries))
      + Each(Select(all, EligibleOnes(entries)), PositiveNotes)
  }

  const NO_POSITIVE_GAP := Gap(GapMissing, "current subject context",
    "No eligible positive retail source observation was available.", {})

  /** The resource as a function of the ordered observations and the indexed source entries. */
  function Accumulated(le: (EvidenceKey, EvidenceKey) -> bool, all: seq<Observation>, entries: map<string,
      SourceEntry>): Ping {
    var positive := Select(all, EligibleOnes(entries));
    var metadata := Each(positive, MetadataOf);
    var gaps := PutAll(map[], Gaps(all, entries));
    var contradicted := Contradicted(metadata);
    var status := StatusOf(positive, Contradictions(metadata), gaps);
    Ping(status, LevelOf(status, positive), FreshnessOf(positive),
         SortBy(ProvenanceKey(), TextLe(), Each(positive, ProvenanceOf(metadata, contradicted))),
         SortBy(EvidenceId(), le, Marked(Each(positive, EvidenceOf), contradicted)),
         Contradictions(metadata), if positive == [] then gaps[NoPositive := NO_POSITIVE_GAP] else gaps,
         PutAll(map[], Notes(all, entries)))
  }

  function EvidenceId(): Evidence -> EvidenceKey { (e: Evidence) => e.key }

  /** None when an observation is malformed, repeated or about another subject, or two entries name one source. */
  function StatePing(le: (EvidenceKey, EvidenceKey) -> bool, subject: string, observations: seq<Observation>,
      entries: seq<SourceEntry>): Option<Ping> {
    if !Accepts(subject, observations) || EntriesById(entries).None? then None
    else Some(Accumulated(le, InOrder(observations), EntriesById(entries).value))
  }

  function Identity(subject: string, observations: seq<Observation>, entries: seq<SourceEntry>, generatedAt: string)
    : ResourceId
  {
    ResourceId(subject, InOrder(observations), EntriesInOrder(Named(entries)), generatedAt)
  }

  /** The whole resource: its context, and the id that binds it to its inputs. */
  function Resourced(le: (EvidenceKey, EvidenceKey) -> bool, subject: string, observations: seq<Observation>,
      entries: seq<SourceEntry>, generatedAt: string): Option<Resource> {
    var ping := StatePing(le, subject, observations, entries);
    if ping.None? then None
    else Some(Resource(Identity(subject, observations, entries, generatedAt), subject, generatedAt, ping.value))
  }

  lemma {:induction false} PutAllAppend<V>(m: map<GapKey, V>, a: seq<Put<V>>, b: seq<Put<V>>)
    ensures PutAll(m, a + b) == PutAll(PutAll(m, a), b)
    decreases |b|
  {
    if b == [] {
      assert a + b == a;
    } else {
      assert (a + b)[..|a + b| - 1] == a + b[..|b| - 1];
      PutAllAppend(m, a, b[..|b| - 1]);
    }
  }

  /** The dictionary after one more pass over a list: later entries overwrite earlier ones with the same key. */
  method PutEach<X, V>(m: map<GapKey, V>, s: seq<X>, f: X -> seq<Put<V>>) returns (r: map<GapKey, V>)
    ensures r == PutAll(m, Each(s, f))
  {
    r := m;
    for i := 0 to |s|
      invariant r == PutAll(m, Each(s[..i], f))
    {
      assert s[..i + 1][..i] == s[..i];
      PutAllAppend(m, Each(s[..i], f), f(s[i]));
      r := PutEvery(r, f(s[i]));
    }
    assert s[..|s|] == s;
  }

  method PutEvery<V>(m: map<GapKey, V>, puts: seq<Put<V>>) returns (r: map<GapKey, V>)
    ensures r == PutAll(m, puts)
  {
    r := m;
    for i := 0 to |puts|
      invariant r == PutAll(m, puts[..i])
    {
      assert puts[..i + 1][..i] == puts[..i];
      r := r[puts[i].key := puts[i].value];
    }
    assert puts[..|puts|] == puts;
  }

  method EachOf<X, Y>(s: seq<X>, f: X -> seq<Y>) returns (r: seq<Y>)
    ensures r == Each(s, f)
  {
    r := [];
    for i := 0 to |s|
      invariant r == Each(s[..i], f)
    {
      assert s[..i + 1][..i] == s[..i];
      r := r + f(s[i]);
    }
    assert s[..|s|] == s;
  }

  /** Sort the positive observations into those with a usable source and the rest. */
  method SplitPositive(all: seq<Observation>, entries: map<string, SourceEntry>) returns (positive: seq<Observation>,
      ineligible: seq<Observation>)
    ensures positive == Select(all, EligibleOnes(entries)) && ineligible == Select(all, IneligibleOnes(entries))
  {
    positive, ineligible := [], [];
    for i := 0 to |all|
      invariant positive == Select(all[..i], EligibleOnes(entries))
      invariant ineligible == Select(all[..i], IneligibleOnes(entries))
    {
      assert all[..i + 1][..i] == all[..i];
      var o := all[i];
      if Positive(o) {
        if o.source in entries && entries[o.source].usable {
          positive := positive + [o];
        } else {
          ineligible := ineligible + [o];
        }
      }
    }
    assert all[..|all|] == all;
  }

  lemma {:induction false} DedupeIs(s: seq<string>)
    ensures forall x :: x in Dedupe(s) <==> x in s
  {
    if s == [] {
    } else {
      DedupeIs(s[..|s| - 1]);
      assert s == s[..|s| - 1] + [s[|s| - 1]];
    }
  }

  lemma ScopesAre(metadata: seq<Metadata>)
    ensures forall claim :: claim in ClaimScopes(metadata) <==> exists m :: m in metadata && m.claim == claim
  {
    hide TotalOrder, SortedBy, SortBy, Dedupe;
    var ids := seq(|metadata|, i requires 0 <= i < |metadata| => metadata[i].claim);
    DedupeIs(ids);
    TextTotal();
    SortByPermutes(Itself(), TextLe(), Dedupe(ids));
    SameMembers(Dedupe(ids), ClaimScopes(metadata));
    forall claim ensures claim in ids <==> exists m :: m in metadata && m.claim == claim {
      if claim in ids { var i :| 0 <= i < |ids| && ids[i] == claim; assert metadata[i] in metadata; }
      if m :| m in metadata && m.claim == claim {
        var i :| 0 <= i < |metadata| && metadata[i] == m;
        assert ids[i] == claim;
      }
    }
  }

  ghost function ContradictedIn(metadata: seq<Metadata>, scopes: seq<string>): set<EvidenceKey> {
    set m | m in metadata && m.claim in scopes && Conflicting(metadata, m.claim) :: m.evidence
  }

  /** Compare the statements and sources of every claim scope in turn. */
  method FindContradictions(metadata: seq<Metadata>)
    returns (found: seq<ContradictionKey>, contradicted: set<EvidenceKey>, puts: seq<Put<Gap>>)
    ensures found == Contradictions(metadata) && contradicted == Contradicted(metadata) &&
            puts == ContradictionGaps(metadata)
  {
    hide ClaimScopes, Statements, SourceIds, EvidenceIds, ContradictedIn, Contradicted;
    found, contradicted, puts := [], {}, [];
    NoScope(metadata);
    var scopes := ClaimScopes(metadata);
    for i := 0 to |scopes|
      invariant found == Each(scopes[..i], (claim: string) => if Conflicting(metadata, claim) then
                  [ContradictionOf(metadata, claim)] else [])
      invariant puts == Each(scopes[..i], (claim: string) => if Conflicting(metadata, claim) then
                  [ContradictionGap(metadata, claim)] else [])
      invariant contradicted == ContradictedIn(metadata, scopes[..i])
    {
      assert scopes[..i + 1][..i] == scopes[..i];
      var claim := scopes[i];
      var statements, sources := Statements(metadata, claim), SourceIds(metadata, claim);
      OneMoreScope(metadata, scopes, i);
      if |statements| >= 2 && |sources| >= 2 {
        found := found + [ContradictionOf(metadata, claim)];
        contradicted := contradicted + EvidenceIds(metadata, claim);
        puts := puts + [ContradictionGap(metadata, claim)];
      }
    }
    assert scopes[..|scopes|] == scopes;
    AllScopes(metadata);
  }

  lemma NoScope(metadata: seq<Metadata>)
    ensures ContradictedIn(metadata, []) == {}
  {
    hide Conflicting;
  }

  lemma AllScopes(metadata: seq<Metadata>)
    ensures ContradictedIn(metadata, ClaimScopes(metadata)) == Contradicted(metadata)
  {
    hide Conflicting, ClaimScopes;
    ScopesAre(metadata);
  }

  lemma OneMoreScope(metadata: seq<Metadata>, scopes: seq<string>, i: nat)
    requires i < |scopes|
    ensures ContradictedIn(metadata, scopes[..i + 1]) ==
            ContradictedIn(metadata, scopes[..i])
              + (if Conflicting(metadata, scopes[i]) then EvidenceIds(metadata, scopes[i]) else {})
  {
    hide Conflicting;
    assert forall x :: x in scopes[..i + 1] <==> x in scopes[..i] || x == scopes[i];
  }

  /** Rewrite the status of every contradicted piece of evidence where it stands. */
  method MarkInPlace(a: array<Evidence>, contradicted: set<EvidenceKey>)
    modifies a
    ensures a[..] == Marked(old(a[..]), contradicted)
  {
    for i := 0 to a.Length
      invariant forall k :: 0 <= k < i ==> a[k] == Marked(old(a[..]), contradicted)[k]
      invariant forall k :: i <= k < a.Length ==> a[k] == old(a[k])
    {
      if a[i].key in contradicted {
        a[i] := a[i].(status := EvidenceContradicted);
      }
    }
  }

  method BuildStatePing(le: (EvidenceKey, EvidenceKey) -> bool, subject: string, observations: seq<Observation>,
      entries: seq<SourceEntry>, generatedAt: string)
    returns (r: Option<Resource>)
    ensures r == Resourced(le, subject, observations, entries, generatedAt)
  {
    hide Accepts, Named, Index, SortBy, Each, Select, PutAll, Contradictions, ContradictionGaps, Contradicted,
      Marked, StatusOf, LevelOf, FreshnessOf, LimitGaps, LimitPuts, ExcludedGaps, ExcludedNotes, IneligibleGaps,
      IneligibleNotes, PositiveGaps, PositiveNotes, MetadataOf, EvidenceOf;
    var ok := CheckObservations(subject, observations);
    if !ok { return None; }
    var indexed, named := IndexEntries(entries);
    if indexed.None? { return None; }
    var usable := indexed.value;
    var all := InOrder(observations);
    var positive, ineligible := SplitPositive(all, usable);
    var excluded := Select(all, ExcludedOnes());
    var evidence := EachOf(positive, EvidenceOf);
    var metadata := EachOf(positive, MetadataOf);
    var contradictions, contradicted, scopeGaps := FindContradictions(metadata);
    var gaps := Gather(all, excluded, ineligible, positive, usable, scopeGaps);
    var notes := GatherNotes(all, excluded, ineligible, positive, usable);
    var a := new Evidence[|evidence|](i requires 0 <= i < |evidence| => evidence[i]);
    assert a[..] == evidence;
    MarkInPlace(a, contradicted);
    var status := StatusOf(positive, contradictions, gaps);
    var provenance := EachOf(positive, ProvenanceOf(metadata, contradicted));
    var ping := Ping(status, LevelOf(status, positive), FreshnessOf(positive),
                     SortBy(ProvenanceKey(), TextLe(), provenance), SortBy(EvidenceId(), le, a[..]), contradictions,
                     if positive == [] then gaps[NoPositive := NO_POSITIVE_GAP] else gaps, notes);
    r := Some(Resource(ResourceId(subject, all, EntriesInOrder(named), generatedAt), subject, generatedAt, ping));
  }

  method Gather(all: seq<Observation>, excluded: seq<Observation>, ineligible: seq<Observation>,
      positive: seq<Observation>,
                entries: map<string, SourceEntry>, scopeGaps: seq<Put<Gap>>) returns (gaps: map<GapKey, Gap>)
    ensures gaps == PutAll(map[],
              Each(all, LimitGaps) + Each(excluded, ExcludedGaps) + Each(ineligible, IneligibleGaps(entries)) +
                                  Each(positive, PositiveGaps) + scopeGaps)
  {
    hide LimitGaps, ExcludedGaps, IneligibleGaps, PositiveGaps, Each, PutAll;
    gaps := PutEach(map[], all, LimitGaps);
    gaps := PutEach(gaps, excluded, ExcludedGaps);
    gaps := PutEach(gaps, ineligible, IneligibleGaps(entries));
    gaps := PutEach(gaps, positive, PositiveGaps);
    gaps := PutEvery(gaps, scopeGaps);
    PutAllAppend(map[], Each(all, LimitGaps), Each(excluded, ExcludedGaps));
    PutAllAppend(map[], Each(all, LimitGaps) + Each(excluded, ExcludedGaps), Each(ineligible, IneligibleGaps(entries)));
    PutAllAppend(map[], Each(all, LimitGaps) + Each(excluded, ExcludedGaps) + Each(ineligible, IneligibleGaps(entries)),
      Each(positive, PositiveGaps));
    PutAllAppend(map[], Each(all, LimitGaps) + Each(excluded, ExcludedGaps)
      + Each(ineligible, IneligibleGaps(entries)) + Each(positive, PositiveGaps), scopeGaps);
  }

  method GatherNotes(all: seq<Observation>, excluded: seq<Observation>, ineligible: seq<Observation>,
      positive: seq<Observation>,
                     entries: map<string, SourceEntry>) returns (notes: map<GapKey, Remark>)
    ensures notes == PutAll(map[],
              Each(all, LimitPuts) + Each(excluded, ExcludedNotes) + Each(ineligible, IneligibleNotes(entries)) +
                                   Each(positive, PositiveNotes))
  {
    hide LimitPuts, ExcludedNotes, IneligibleNotes, PositiveNotes, Each, PutAll;
    notes := PutEach(map[], all, LimitPuts);
    notes := PutEach(notes, excluded, ExcludedNotes);
    notes := PutEach(notes, ineligible, IneligibleNotes(entries));
    notes := PutEach(notes, positive, PositiveNotes);
    PutAllAppend(map[], Each(all, LimitPuts), Each(excluded, ExcludedNotes));
    PutAllAppend(map[], Each(all, LimitPuts) + Each(excluded, ExcludedNotes),
      Each(ineligible, IneligibleNotes(entries)));
    PutAllAppend(map[], Each(all, LimitPuts) + Each(excluded, ExcludedNotes)
      + Each(ineligible, IneligibleNotes(entries)), Each(positive, PositiveNotes));
  }

  // ---- the order of the inputs ----

  lemma {:induction false} NamedPermutes(a: seq<SourceEntry>, b: seq<SourceEntry>)
    ensures forall e :: multiset(Named(a))[e] == if e.source.Some? then multiset(a)[e] else 0
  {
    if a == [] {
    } else {
      NamedPermutes(a[..|a| - 1], b);
      assert a == a[..|a| - 1] + [a[|a| - 1]];
    }
  }

  lemma AcceptsIgnoresOrder(subject: string, a: seq<Observation>, b: seq<Observation>)
    requires multiset(a) == multiset(b) && Accepts(subject, a)
    ensures Accepts(subject, b)
  {
    SameMembers(a, b);
    forall i | 0 <= i < |b| ensures WellFormed(b[i]) && b[i].subject == subject { assert b[i] in a; }
    forall i, j | 0 <= i < j < |b| ensures b[i].id != b[j].id { IdsStayApart(subject, a, b, i, j); }
  }

  lemma IdsStayApart(subject: string, a: seq<Observation>, b: seq<Observation>, i: nat, j: nat)
    requires multiset(a) == multiset(b) && Accepts(subject, a) && i < j < |b|
    ensures b[i].id != b[j].id
  {
    hide WellFormed;
    SameMembers(a, b);
    assert b[i] in a && b[j] in a;
    var k :| 0 <= k < |a| && a[k] == b[i];
    var m :| 0 <= m < |a| && a[m] == b[j];
    RepeatCount(b, i, j);
    DistinctCount(a, b[j]);
  }

  lemma KeyTotal()
    ensures TotalOrder(Lex(TextLe()))
  {
    TextTotal();
    LexTotal(TextLe());
  }

  lemma IdsIdentify(subject: string, a: seq<Observation>)
    requires Accepts(subject, a)
    ensures KeyIdentifies(ObservationKey(), a)
  {
    hide WellFormed;
    forall x, y | x in a && y in a && ObservationKey()(x) == ObservationKey()(y) ensures x == y {
      assert [x.source, x.id][1] == [y.source, y.id][1];
      var k :| 0 <= k < |a| && a[k] == x;
      var m :| 0 <= m < |a| && a[m] == y;
    }
  }

  lemma OrderIgnoresOrder(subject: string, a: seq<Observation>, b: seq<Observation>)
    requires multiset(a) == multiset(b) && Accepts(subject, a)
    ensures InOrder(a) == InOrder(b)
  {
    hide TotalOrder, SortedBy, SortBy, Accepts, KeyIdentifies;
    KeyTotal();
    SortByIsSort(ObservationKey(), Lex(TextLe()), a);
    SortByIsSort(ObservationKey(), Lex(TextLe()), b);
    AcceptsIgnoresOrder(subject, a, InOrder(a));
    IdsIdentify(subject, InOrder(a));
    SortedUnique(ObservationKey(), Lex(TextLe()), InOrder(a), InOrder(b));
  }

  lemma ContextIgnoresOrder(le: (EvidenceKey, EvidenceKey) -> bool, subject: string, a: seq<Observation>,
      b: seq<Observation>, x: seq<SourceEntry>, y: seq<SourceEntry>)
    requires multiset(a) == multiset(b) && multiset(Named(x)) == multiset(Named(y))
    ensures StatePing(le, subject, a, x) == StatePing(le, subject, b, y)
    ensures StatePing(le, subject, a, x).Some? ==> InOrder(a) == InOrder(b)
  {
    hide Accepts, InOrder, Index, Named, Accumulated;
    IndexIgnoresOrder(Named(x), Named(y), EntryId());
    if Accepts(subject, a) {
      AcceptsIgnoresOrder(subject, a, b);
      OrderIgnoresOrder(subject, a, b);
    } else if Accepts(subject, b) {
      AcceptsIgnoresOrder(subject, b, a);
    }
  }

  lemma EntryOrderIgnoresOrder(x: seq<SourceEntry>, y: seq<SourceEntry>)
    requires multiset(x) == multiset(y) && Index(x, EntryId()).Some?
    ensures EntriesInOrder(x) == EntriesInOrder(y)
  {
    hide TotalOrder, SortedBy, SortBy, Index, EntryId;
    TextTotal();
    SortByIsSort(EntryId(), TextLe(), x);
    SortByIsSort(EntryId(), TextLe(), y);
    IndexIs(x, EntryId());
    SameMembers(EntriesInOrder(x), x);
    SortedUnique(EntryId(), TextLe(), EntriesInOrder(x), EntriesInOrder(y));
  }

  lemma OrdersKeepAll(a: seq<Observation>, x: seq<SourceEntry>)
    ensures multiset(InOrder(a)) == multiset(a) && multiset(EntriesInOrder(x)) == multiset(x)
  {
    hide TotalOrder, SortedBy, SortBy;
    KeyTotal();
    TextTotal();
    SortByIsSort(ObservationKey(), Lex(TextLe()), a);
    SortByIsSort(EntryId(), TextLe(), x);
  }

  lemma ContextHasIndex(le: (EvidenceKey, EvidenceKey) -> bool, subject: string, a: seq<Observation>,
      x: seq<SourceEntry>)
    ensures StatePing(le, subject, a, x).Some? ==> Index(Named(x), EntryId()).Some?
  {
    hide Accepts, InOrder, Index, Named, Accumulated;
  }

  /** The resource, its id included, does not depend on the order of the observations or of the source entries. */
  lemma PingIgnoresOrder(le: (EvidenceKey, EvidenceKey) -> bool, subject: string, a: seq<Observation>,
      b: seq<Observation>, x: seq<SourceEntry>, y: seq<SourceEntry>, generatedAt: string)
    requires multiset(a) == multiset(b) && multiset(x) == multiset(y)
    ensures Resourced(le, subject, a, x, generatedAt) == Resourced(le, subject, b, y, generatedAt)
  {
    hide StatePing, Named, InOrder, EntriesInOrder, Index;
    NamedPermutes(x, y);
    NamedPermutes(y, x);
    assert multiset(Named(x)) == multiset(Named(y));
    ContextIgnoresOrder(le, subject, a, b, x, y);
    ContextHasIndex(le, subject, a, x);
    if StatePing(le, subject, a, x).Some? { EntryOrderIgnoresOrder(Named(x), Named(y)); }
  }

  /**
   * Resources have one id exactly when they were built for one subject and time from the same observations and the same
   * named source entries, in any order; and then they are the same resource.
   */
  lemma IdBindsInputs(le: (EvidenceKey, EvidenceKey) -> bool, subject: string, a: seq<Observation>,
      x: seq<SourceEntry>, at: string, other: string, b: seq<Observation>, y: seq<SourceEntry>, later: string)
    requires Resourced(le, subject, a, x, at).Some? && Resourced(le, other, b, y, later).Some?
    ensures var r, s := Resourced(le, subject, a, x, at).value, Resourced(le, other, b, y, later).value;
            (r.id == s.id <==>
              subject == other && at == later && multiset(a) == multiset(b) &&
              multiset(Named(x)) == multiset(Named(y))) &&
            (r.id == s.id ==> r == s)
  {
    hide StatePing, Named, InOrder, EntriesInOrder, Index;
    OrdersKeepAll(a, Named(x));
    OrdersKeepAll(b, Named(y));
    if subject == other && multiset(a) == multiset(b) && multiset(Named(x)) == multiset(Named(y)) {
      ContextIgnoresOrder(le, subject, a, b, x, y);
      ContextHasIndex(le, subject, a, x);
      EntryOrderIgnoresOrder(Named(x), Named(y));
    }
  }

  // ---- the status, in closed form ----

  /** An observation that leaves no gap. */
  predicate Clear(entries: map<string, SourceEntry>, o: Observation) {
    Eligible(entries, o) && o.status.Observed? && o.verification.Verified? &&
    (forall c :: c in o.claims ==> c.status.ClaimObserved?) && (forall l :: l in o.limitations ==> !Weighty(l.impact))
  }

  /** Two eligible observations make claims under one id. */
  ghost predicate Shares(entries: map<string, SourceEntry>, all: seq<Observation>, o: Observation, c: Claim,
      p: Observation, d: Claim, claim: string) {
    o in all && p in all && Eligible(entries, o) && Eligible(entries, p) && c in o.claims && d in p.claims &&
    c.id == claim == d.id
  }

  /** A claim id carries two statements and comes from two sources. */
  ghost predicate Contested(entries: map<string, SourceEntry>, all: seq<Observation>, claim: string) {
    (exists o, c, p, d :: Shares(entries, all, o, c, p, d, claim) && c.statement != d.statement) &&
    (exists o, c, p, d :: Shares(entries, all, o, c, p, d, claim) && o.source != p.source)
  }

  lemma {:induction false} EachIs<X, Y>(s: seq<X>, f: X -> seq<Y>, y: Y)
    ensures y in Each(s, f) <==> exists i :: 0 <= i < |s| && y in f(s[i])
  {
    if s == [] {
    } else {
      EachIs(s[..|s| - 1], f, y);
      if y in Each(s[..|s| - 1], f) {
        var i :| 0 <= i < |s| - 1 && y in f(s[..|s| - 1][i]);
        assert y in f(s[i]);
      }
      if i :| 0 <= i < |s| && y in f(s[i]) {
        assert i < |s| - 1 ==> s[..|s| - 1][i] == s[i];
      }
    }
  }

  lemma {:induction false} EachNothing<X, Y>(s: seq<X>, f: X -> seq<Y>)
    ensures Each(s, f) == [] <==> forall i :: 0 <= i < |s| ==> f(s[i]) == []
  {
    if s == [] {
    } else {
      EachNothing(s[..|s| - 1], f);
      assert forall i :: 0 <= i < |s| - 1 ==> s[..|s| - 1][i] == s[i];
    }
  }

  lemma EachSomething<X(!new), Y>(s: seq<X>, f: X -> seq<Y>)
    requires forall x :: f(x) != []
    ensures Each(s, f) == [] <==> s == []
  {
    if s != [] { assert f(s[|s| - 1]) != []; }
  }

  lemma PutAllNothing<V>(puts: seq<Put<V>>)
    ensures PutAll(map[], puts) == map[] <==> puts == []
  {
    if puts != [] { assert puts[|puts| - 1].key in PutAll(map[], puts); }
  }

  lemma ClaimsMembers(o: Observation)
    ensures forall c :: c in ClaimsInOrder(o) <==> c in o.claims
  {
    hide TotalOrder, SortedBy, SortBy;
    KeyTotal();
    SortByPermutes(ClaimKey(), Lex(TextLe()), o.claims);
    SameMembers(o.claims, ClaimsInOrder(o));
  }

  lemma LimitGapsNothing(o: Observation)
    ensures LimitGaps(o) == [] <==> forall l :: l in o.limitations ==> !Weighty(l.impact)
  {
    hide Weighty;
    EachNothing(o.limitations, (l: Limitation) =>
      if Weighty(l.impact)
      then [Put(Parts(["input-limitation", o.id, l.id]),
        Gap(GapUnresolved, "source limitation", l.description, {o.source}))]
      else []);
  }

  lemma ClaimGapsNothing(o: Observation)
    ensures ClaimGaps(o) == [] <==> forall c :: c in o.claims ==> c.status.ClaimObserved?
  {
    hide ClaimStatusText, ClaimsInOrder;
    ClaimsMembers(o);
    EachNothing(ClaimsInOrder(o), (c: Claim) =>
      if c.status.ClaimObserved? then []
      else [Put(Parts(["claim-status", o.id, c.id]),
                Gap(GapUnresolved, c.id, "The normalized claim status is " + ClaimStatusText(c.status) + ".",
                  {o.source}))]);
  }

  lemma MetadataIs(positive: seq<Observation>, m: Metadata)
    ensures m in Each(positive, MetadataOf) <==>
            exists o, c :: o in positive && c in o.claims && m == MetaOf(o, c)
  {
    hide ClaimsInOrder;
    EachIs(positive, MetadataOf, m);
    forall o: Observation ensures m in MetadataOf(o) <==> exists c :: c in o.claims && m == MetaOf(o, c) {
      OwnMetadata(o, m);
    }
    if m in Each(positive, MetadataOf) {
      var i :| 0 <= i < |positive| && m in MetadataOf(positive[i]);
      assert positive[i] in positive;
    }
    if o, c :| o in positive && c in o.claims && m == MetaOf(o, c) {
      var i :| 0 <= i < |positive| && positive[i] == o;
      assert m in MetadataOf(positive[i]);
    }
  }

  lemma OwnMetadata(o: Observation, m: Metadata)
    ensures m in MetadataOf(o) <==> exists c :: c in o.claims && m == MetaOf(o, c)
  {
    hide ClaimsInOrder;
    ClaimsMembers(o);
    EachIs(ClaimsInOrder(o), (c: Claim) => [MetaOf(o, c)], m);
  }

  lemma TwoMembers(s: set<string>)
    ensures |s| >= 2 <==> exists x, y :: x in s && y in s && x != y
  {
    if x, y :| x in s && y in s && x != y {
      assert s == {x, y} + (s - {x, y});
      assert |{x, y}| == 2;
    }
    if |s| >= 2 {
      var x :| x in s;
      assert |s - {x}| >= 1;
      var y :| y in s - {x};
    }
  }

  ghost predicate Apart(metadata: seq<Metadata>, claim: string) {
    (exists m, n :: m in metadata && n in metadata && m.claim == claim == n.claim && m.statement != n.statement) &&
    (exists m, n :: m in metadata && n in metadata && m.claim == claim == n.claim && m.source != n.source)
  }

  lemma ConflictingIsApart(metadata: seq<Metadata>, claim: string)
    ensures Conflicting(metadata, claim) <==> Apart(metadata, claim)
  {
    TwoMembers(Statements(metadata, claim));
    TwoMembers(SourceIds(metadata, claim));
    if Conflicting(metadata, claim) {
      var x, y :| x in Statements(metadata, claim) && y in Statements(metadata, claim) && x != y;
      var m :| m in metadata && m.claim == claim && m.statement == x;
      var n :| n in metadata && n.claim == claim && n.statement == y;
      var u, v :| u in SourceIds(metadata, claim) && v in SourceIds(metadata, claim) && u != v;
      var p :| p in metadata && p.claim == claim && p.source == u;
      var q :| q in metadata && q.claim == claim && q.source == v;
    }
    if Apart(metadata, claim) {
      var m, n :| m in metadata && n in metadata && m.claim == claim == n.claim && m.statement != n.statement;
      assert m.statement in Statements(metadata, claim) && n.statement in Statements(metadata, claim);
      var p, q :| p in metadata && q in metadata && p.claim == claim == q.claim && p.source != q.source;
      assert p.source in SourceIds(metadata, claim) && q.source in SourceIds(metadata, claim);
    }
  }

  ghost predicate Comes(entries: map<string, SourceEntry>, all: seq<Observation>, m: Metadata, o: Observation,
      c: Claim) {
    o in all && Eligible(entries, o) && c in o.claims && m == MetaOf(o, c)
  }

  lemma EligibleMetadata(entries: map<string, SourceEntry>, all: seq<Observation>, m: Metadata)
    ensures m in Each(Select(all, EligibleOnes(entries)), MetadataOf) <==> exists o, c :: Comes(entries, all, m, o, c)
  {
    hide Each, Select, MetadataOf;
    SelectIs(all, EligibleOnes(entries));
    MetadataIs(Select(all, EligibleOnes(entries)), m);
    if m in Each(Select(all, EligibleOnes(entries)), MetadataOf) {
      var o, c :| o in Select(all, EligibleOnes(entries)) && c in o.claims && m == MetaOf(o, c);
      assert Comes(entries, all, m, o, c);
    }
  }

  lemma ConflictIsContest(entries: map<string, SourceEntry>, all: seq<Observation>, claim: string)
    ensures Conflicting(Each(Select(all, EligibleOnes(entries)), MetadataOf), claim) <==> Contested(entries, all, claim)
  {
    hide Each, Select, MetadataOf, Conflicting, Eligible;
    var metadata := Each(Select(all, EligibleOnes(entries)), MetadataOf);
    ConflictingIsApart(metadata, claim);
    if Apart(metadata, claim) {
      var m, n :| m in metadata && n in metadata && m.claim == claim == n.claim && m.statement != n.statement;
      SharedOrigin(entries, all, m, n, claim);
      var p, q :| p in metadata && q in metadata && p.claim == claim == q.claim && p.source != q.source;
      SharedOrigin(entries, all, p, q, claim);
    }
    if Contested(entries, all, claim) {
      var o, c, p, d :| Shares(entries, all, o, c, p, d, claim) && c.statement != d.statement;
      SharedMetadata(entries, all, o, c, p, d, claim);
      var u, e, v, f :| Shares(entries, all, u, e, v, f, claim) && u.source != v.source;
      SharedMetadata(entries, all, u, e, v, f, claim);
    }
  }

  lemma SharedOrigin(entries: map<string, SourceEntry>, all: seq<Observation>, m: Metadata, n: Metadata, claim: string)
    requires m in Each(Select(all, EligibleOnes(entries)), MetadataOf) &&
             n in Each(Select(all, EligibleOnes(entries)), MetadataOf)
    requires m.claim == claim == n.claim
    ensures exists o, c, p, d ::
              Shares(entries, all, o, c, p, d, claim) && c.statement == m.statement && d.statement == n.statement &&
                                 o.source == m.source && p.source == n.source
  {
    hide Each, Select, MetadataOf, Eligible;
    EligibleMetadata(entries, all, m);
    EligibleMetadata(entries, all, n);
    var o, c :| Comes(entries, all, m, o, c);
    var p, d :| Comes(entries, all, n, p, d);
    assert Shares(entries, all, o, c, p, d, claim);
  }

  lemma SharedMetadata(entries: map<string, SourceEntry>, all: seq<Observation>, o: Observation, c: Claim,
      p: Observation, d: Claim, claim: string)
    requires Shares(entries, all, o, c, p, d, claim)
    ensures MetaOf(o, c) in Each(Select(all, EligibleOnes(entries)), MetadataOf) &&
            MetaOf(p, d) in Each(Select(all, EligibleOnes(entries)), MetadataOf)
  {
    hide Each, Select, MetadataOf, Eligible;
    assert Comes(entries, all, MetaOf(o, c), o, c) && Comes(entries, all, MetaOf(p, d), p, d);
    EligibleMetadata(entries, all, MetaOf(o, c));
    EligibleMetadata(entries, all, MetaOf(p, d));
  }

  lemma NoContradictions(metadata: seq<Metadata>)
    ensures Contradictions(metadata) == [] <==> forall claim :: !Conflicting(metadata, claim)
    ensures ContradictionGaps(metadata) == [] <==> Contradictions(metadata) == []
  {
    hide ClaimScopes, Statements, SourceIds, EvidenceIds;
    var scopes := ClaimScopes(metadata);
    EachNothing(scopes, (claim: string) => if Conflicting(metadata, claim) then [ContradictionOf(metadata, claim)]
      else []);
    EachNothing(scopes, (claim: string) => if Conflicting(metadata, claim) then [ContradictionGap(metadata, claim)]
      else []);
    forall claim | Conflicting(metadata, claim) ensures claim in scopes { ConflictIsScope(metadata, claim); }
  }

  lemma ConflictIsScope(metadata: seq<Metadata>, claim: string)
    requires Conflicting(metadata, claim)
    ensures claim in ClaimScopes(metadata)
  {
    hide ClaimScopes;
    ScopesAre(metadata);
    TwoMembers(Statements(metadata, claim));
    var x, y :| x in Statements(metadata, claim) && y in Statements(metadata, claim) && x != y;
  }

  /** No gap is recorded exactly when every observation is clear and no claim id is contested. */
  lemma GapsNothing(entries: map<string, SourceEntry>, all: seq<Observation>)
    ensures Gaps(all, entries) == [] <==>
            (forall o :: o in all ==> Clear(entries, o)) &&
            Contradictions(Each(Select(all, EligibleOnes(entries)), MetadataOf)) == []
  {
    hide LimitGaps, ExcludedGaps, IneligibleGaps, PositiveGaps, MetadataOf, Each, Select, Contradictions,
      ContradictionGaps, Clear;
    var positive := Select(all, EligibleOnes(entries));
    NoContradictions(Each(positive, MetadataOf));
    EachNothing(all, LimitGaps);
    EachNothing(Select(all, ExcludedOnes()), ExcludedGaps);
    EachNothing(Select(all, IneligibleOnes(entries)), IneligibleGaps(entries));
    EachNothing(positive, PositiveGaps);
    SelectIs(all, EligibleOnes(entries));
    SelectIs(all, ExcludedOnes());
    SelectIs(all, IneligibleOnes(entries));
    forall o ensures Leaves(entries, o) <==> Clear(entries, o) { LeavesNothing(entries, o); }
    GapListsNothing(entries, all);
  }

  /** What an observation needs for each of the four per-observation lists to stay empty. */
  ghost predicate Leaves(entries: map<string, SourceEntry>, o: Observation) {
    LimitGaps(o) == [] && Eligible(entries, o) && PositiveGaps(o) == []
  }

  lemma LeavesNothing(entries: map<string, SourceEntry>, o: Observation)
    ensures Leaves(entries, o) <==> Clear(entries, o)
  {
    hide LimitGaps, ClaimGaps;
    LimitGapsNothing(o);
    ClaimGapsNothing(o);
  }

  lemma GapListsNothing(entries: map<string, SourceEntry>, all: seq<Observation>)
    ensures (Each(all, LimitGaps) == [] && Each(Select(all, ExcludedOnes()), ExcludedGaps) == [] &&
             Each(Select(all, IneligibleOnes(entries)), IneligibleGaps(entries)) == [] &&
             Each(Select(all, EligibleOnes(entries)), PositiveGaps) == []) <==> forall o :: o in all ==>
               Leaves(entries, o)
  {
    hide LimitGaps, PositiveGaps, Each, Select, Eligible, IneligibleReason, ExcludedReason;
    EachNothing(all, LimitGaps);
    var excluded, ineligible, positive := Select(all, ExcludedOnes()), Select(all, IneligibleOnes(entries)),
      Select(all, EligibleOnes(entries));
    EachSomething(excluded, ExcludedGaps);
    EachSomething(ineligible, IneligibleGaps(entries));
    EachNothing(positive, PositiveGaps);
    SelectIs(all, EligibleOnes(entries));
    SelectIs(all, ExcludedOnes());
    SelectIs(all, IneligibleOnes(entries));
    EligibleIsPositive(entries);
    assert (forall i :: 0 <= i < |all| ==> LimitGaps(all[i]) == []) <==> forall o :: o in all ==> LimitGaps(o) == [];
    assert (forall i :: 0 <= i < |positive| ==> PositiveGaps(positive[i]) == []) <==> forall o :: o in positive ==>
      PositiveGaps(o) == [];
    assert excluded == [] <==> forall o :: o in all ==> Positive(o) by { EmptySelection(excluded); }
    assert ineligible == [] <==> forall o :: o in all ==> !IneligibleOnes(entries)(o) by { EmptySelection(ineligible); }
  }

  lemma EligibleIsPositive(entries: map<string, SourceEntry>)
    ensures forall o :: Eligible(entries, o) ==> Positive(o)
  {
  }

  lemma EmptySelection(s: seq<Observation>)
    ensures s == [] <==> forall o :: o !in s
  {
    if s != [] { assert s[0] in s; }
  }

  lemma OrderKeepsMembers(observations: seq<Observation>)
    ensures forall o :: o in InOrder(observations) <==> o in observations
  {
    hide TotalOrder, SortedBy, SortBy;
    KeyTotal();
    SortByIsSort(ObservationKey(), Lex(TextLe()), observations);
    SameMembers(observations, InOrder(observations));
  }

  lemma ContestIgnoresOrder(entries: map<string, SourceEntry>, observations: seq<Observation>, claim: string)
    ensures Contested(entries, InOrder(observations), claim) <==> Contested(entries, observations, claim)
  {
    hide InOrder, Eligible;
    OrderKeepsMembers(observations);
    forall o, c, p, d ensures Shares(entries, InOrder(observations), o, c, p, d, claim) <==>
      Shares(entries, observations, o, c, p, d, claim) {}
  }

  /** The status in closed form over the observations as they were given. */
  lemma StatusIs(le: (EvidenceKey, EvidenceKey) -> bool, subject: string, observations: seq<Observation>,
      entries: seq<SourceEntry>)
    requires StatePing(le, subject, observations, entries).Some?
    ensures var status := StatePing(le, subject, observations, entries).value.status;
            var byId := EntriesById(entries).value;
            (status == InsufficientEvidence <==> forall o :: o in observations ==> !Eligible(byId, o)) &&
            (status == UnresolvedContext <==> exists claim :: Contested(byId, observations, claim)) &&
            (status == Resolved <==>
              (forall o :: o in observations ==> Clear(byId, o)) && !exists claim ::
                Contested(byId, observations, claim))
  {
    hide InOrder, Each, Select, Gaps, Contradictions, Conflicting, Clear, Eligible, Contested, Marked, Notes,
      EntriesById, FreshnessOf, SortBy, Contradicted, LevelOf;
    var byId := EntriesById(entries).value;
    var all := InOrder(observations);
    var positive := Select(all, EligibleOnes(byId));
    OrderKeepsMembers(observations);
    SelectIs(all, EligibleOnes(byId));
    EmptySelection(positive);
    GapsNothing(byId, all);
    PutAllNothing(Gaps(all, byId));
    NoContradictions(Each(positive, MetadataOf));
    forall claim ensures Conflicting(Each(positive, MetadataOf), claim) <==> Contested(byId, observations, claim) {
      ConflictIsContest(byId, all, claim);
      ContestIgnoresOrder(byId, observations, claim);
    }
    ContestNeedsEvidence(byId, observations);
    ClearIsEligible(byId);
    SomeObservation(subject, observations);
  }

  lemma SomeObservation(subject: string, observations: seq<Observation>)
    requires Accepts(subject, observations)
    ensures exists o :: o in observations
  {
    assert observations[0] in observations;
  }

  lemma ContestNeedsEvidence(entries: map<string, SourceEntry>, all: seq<Observation>)
    ensures (exists claim :: Contested(entries, all, claim)) ==> exists o :: o in all && Eligible(entries, o)
  {
    hide Eligible;
    if claim :| Contested(entries, all, claim) {
      var o, c, p, d :| Shares(entries, all, o, c, p, d, claim) && c.statement != d.statement;
      assert o in all && Eligible(entries, o);
    }
  }

  lemma ClearIsEligible(entries: map<string, SourceEntry>)
    ensures forall o :: Clear(entries, o) ==> Eligible(entries, o)
  {
  }

  // ---- the evidence, in closed form ----

  lemma {:induction false} EvidenceIs(positive: seq<Observation>, e: Evidence)
    ensures e in Each(positive, EvidenceOf) <==>
            exists o, c :: o in positive && c in o.claims && e == RawEvidence(o, c)
  {
    hide EvidenceOf;
    EachIs(positive, EvidenceOf, e);
    forall o: Observation
      ensures e in EvidenceOf(o) <==> exists c :: c in o.claims && e == RawEvidence(o, c)
    {
      OwnEvidence(o, e);
    }
    if e in Each(positive, EvidenceOf) {
      var i :| 0 <= i < |positive| && e in EvidenceOf(positive[i]);
      assert positive[i] in positive;
    }
    if o, c :| o in positive && c in o.claims && e == RawEvidence(o, c) {
      var i :| 0 <= i < |positive| && positive[i] == o;
      assert e in EvidenceOf(positive[i]);
    }
  }

  lemma OwnEvidence(o: Observation, e: Evidence)
    ensures e in EvidenceOf(o) <==> exists c :: c in o.claims && e == RawEvidence(o, c)
  {
    hide ClaimsInOrder;
    ClaimsMembers(o);
    EachIs(ClaimsInOrder(o), (c: Claim) => [RawEvidence(o, c)], e);
  }

  lemma ContradictedIs(entries: map<string, SourceEntry>, all: seq<Observation>, o: Observation, c: Claim)
    requires o in all && Eligible(entries, o) && c in o.claims
    ensures KeyOf(o, c) in Contradicted(Each(Select(all, EligibleOnes(entries)), MetadataOf)) <==>
              Contested(entries, all, c.id)
  {
    hide Each, Select, MetadataOf, Eligible, Contested, Conflicting;
    var metadata := Each(Select(all, EligibleOnes(entries)), MetadataOf);
    ConflictIsContest(entries, all, c.id);
    assert Comes(entries, all, MetaOf(o, c), o, c);
    EligibleMetadata(entries, all, MetaOf(o, c));
    if KeyOf(o, c) in Contradicted(metadata) {
      var m :| m in metadata && Conflicting(metadata, m.claim) && m.evidence == KeyOf(o, c);
      EligibleMetadata(entries, all, m);
      var p, d :| Comes(entries, all, m, p, d);
      assert m.claim == c.id;
    }
  }

  lemma MarkedMembers(evidence: seq<Evidence>, contradicted: set<EvidenceKey>, e: Evidence)
    ensures e in Marked(evidence, contradicted) <==>
            exists x :: x in evidence && e == (if x.key in contradicted then x.(status := EvidenceContradicted) else x)
  {
    if x :| x in evidence && e == (if x.key in contradicted then x.(status := EvidenceContradicted) else x) {
      var i :| 0 <= i < |evidence| && evidence[i] == x;
      assert Marked(evidence, contradicted)[i] == e;
    }
  }

  ghost predicate Backs(entries: map<string, SourceEntry>, all: seq<Observation>, e: Evidence, o: Observation,
      c: Claim) {
    o in all && Eligible(entries, o) && c in o.claims && e.key == KeyOf(o, c) &&
    e.status == (if Contested(entries, all, c.id) then EvidenceContradicted
                 else if c.status.ClaimObserved? then EvidenceObserved else EvidenceUnresolved)
  }

  lemma MarkedEvidenceIs(entries: map<string, SourceEntry>, all: seq<Observation>, e: Evidence)
    ensures var positive := Select(all, EligibleOnes(entries));
            e in Marked(Each(positive, EvidenceOf), Contradicted(Each(positive, MetadataOf))) <==>
              exists o, c :: Backs(entries, all, e, o, c)
  {
    hide Each, Select, MetadataOf, EvidenceOf, Eligible, Contested, Contradicted, Marked;
    var positive := Select(all, EligibleOnes(entries));
    var evidence, contradicted := Each(positive, EvidenceOf), Contradicted(Each(positive, MetadataOf));
    SelectIs(all, EligibleOnes(entries));
    MarkedMembers(evidence, contradicted, e);
    if e in Marked(evidence, contradicted) {
      var x :| x in evidence && e == (if x.key in contradicted then x.(status := EvidenceContradicted) else x);
      EvidenceIs(positive, x);
      var o, c :| o in positive && c in o.claims && x == RawEvidence(o, c);
      ContradictedIs(entries, all, o, c);
      assert Backs(entries, all, e, o, c);
    }
    if o, c :| Backs(entries, all, e, o, c) {
      ContradictedIs(entries, all, o, c);
      var x := RawEvidence(o, c);
      EvidenceIs(positive, x);
      assert x in evidence;
    }
  }

  /**
   * The evidence is exactly one entry per claim of an eligible observation, contradicted exactly when its claim
   * id is contested.
   */
  lemma EvidenceOfPing(le: (EvidenceKey, EvidenceKey) -> bool, subject: string, observations: seq<Observation>,
      entries: seq<SourceEntry>, e: Evidence)
    requires StatePing(le, subject, observations, entries).Some?
    ensures e in StatePing(le, subject, observations, entries).value.evidence <==>
            exists o, c :: Backs(EntriesById(entries).value, observations, e, o, c)
  {
    hide TotalOrder, SortedBy, InOrder, Each, Select, Gaps, Contradictions, Eligible, Contested, Marked, Notes,
      EntriesById, FreshnessOf, SortBy, Contradicted, LevelOf, StatusOf;
    var byId, all := EntriesById(entries).value, InOrder(observations);
    var positive := Select(all, EligibleOnes(byId));
    var marked := Marked(Each(positive, EvidenceOf), Contradicted(Each(positive, MetadataOf)));
    SortByPermutes(EvidenceId(), le, marked);
    SameMembers(marked, SortBy(EvidenceId(), le, marked));
    MarkedEvidenceIs(byId, all, e);
    OrderKeepsMembers(observations);
    forall o: Observation, c: Claim ensures Backs(byId, all, e, o, c) <==> Backs(byId, observations, e, o, c) {
      ContestIgnoresOrder(byId, observations, c.id);
    }
  }

  // ---- the provenance, in closed form ----

  /** What the claims of one observation say about its reconciliation. */
  ghost predicate Reconciles(entries: map<string, SourceEntry>, all: seq<Observation>, o: Observation,
      r: Reconciliation) {
    (r == ContradictedClaims <==> exists c :: c in o.claims && Contested(entries, all, c.id)) &&
    (r == NotAssessed <==> forall c :: c in o.claims ==> c.status.ClaimObserved? && !Contested(entries, all, c.id))
  }

  lemma OwnClaims(entries: map<string, SourceEntry>, all: seq<Observation>, o: Observation, m: Metadata)
    requires (forall p, q :: p in all && q in all && p.id == q.id ==> p == q) && o in all && Eligible(entries, o)
    ensures m in Each(Select(all, EligibleOnes(entries)), MetadataOf) && m.observation == o.id <==>
              exists c :: c in o.claims && m == MetaOf(o, c)
  {
    hide Each, Select, MetadataOf, Eligible;
    EligibleMetadata(entries, all, m);
    if m in Each(Select(all, EligibleOnes(entries)), MetadataOf) && m.observation == o.id {
      var p, c :| Comes(entries, all, m, p, c);
      assert p == o && m == MetaOf(o, c);
    }
    if c :| c in o.claims && m == MetaOf(o, c) { assert Comes(entries, all, m, o, c); }
  }

  /** Every eligible observation is reconciled as its own claims fare: contradicted first, then unresolved. */
  lemma ReconciledIs(entries: map<string, SourceEntry>, all: seq<Observation>, o: Observation)
    requires (forall p, q :: p in all && q in all && p.id == q.id ==> p == q) && o in all && Eligible(entries, o)
    ensures var metadata := Each(Select(all, EligibleOnes(entries)), MetadataOf);
            Reconciles(entries, all, o, Reconciled(metadata, o, Contradicted(metadata)))
  {
    hide Each, Select, MetadataOf, Eligible, Contested, Contradicted;
    var metadata := Each(Select(all, EligibleOnes(entries)), MetadataOf);
    var contradicted := Contradicted(metadata);
    forall m ensures m in metadata && m.observation == o.id <==> exists c :: c in o.claims && m == MetaOf(o, c) {
      OwnClaims(entries, all, o, m);
    }
    forall c | c in o.claims
      ensures MetaOf(o, c) in metadata && (MetaOf(o, c).evidence in contradicted <==> Contested(entries, all, c.id)) {
      assert MetaOf(o, c) in metadata && MetaOf(o, c).observation == o.id;
      ContradictedIs(entries, all, o, c);
    }
    assert (exists m :: m in metadata && m.observation == o.id && m.evidence in contradicted) <==>
      exists c :: c in o.claims && Contested(entries, all, c.id);
  }

  // ---- freshness and confidence ----

  /** The reported age is the greatest of all positive observations. */
  lemma {:induction false} OldestIsOldest(s: seq<Observation>)
    requires s != []
    ensures Oldest(s) in s && forall o :: o in s ==> o.age <= Oldest(s).age
  {
    hide LexLe;
    if |s| == 1 {
    } else {
      OldestIsOldest(s[..|s| - 1]);
      assert s == s[..|s| - 1] + [s[|s| - 1]];
    }
  }

  /** Freshness and confidence in closed form: the greatest age, staleness of any, medium only without contradiction. */
  lemma FreshnessAndLevel(le: (EvidenceKey, EvidenceKey) -> bool, subject: string, observations: seq<Observation>,
      entries: seq<SourceEntry>)
    requires StatePing(le, subject, observations, entries).Some?
    ensures var ping := StatePing(le, subject, observations, entries).value;
            var byId := EntriesById(entries).value;
            (ping.freshness.age.None? <==> ping.status == InsufficientEvidence) &&
            (ping.freshness.age.Some? ==>
               (exists o :: o in observations && Eligible(byId, o) && Some(o.age) == ping.freshness.age &&
                 Some(o.observedAt) == ping.freshness.observedAt) &&
               (forall o :: o in observations && Eligible(byId, o) ==> o.age <= ping.freshness.age.value)) &&
            (ping.freshness.stale <==> exists o :: o in observations && Eligible(byId, o) && o.status.Stale?)
    ensures var ping := StatePing(le, subject, observations, entries).value;
            var byId := EntriesById(entries).value;
            ping.level == Medium <==>
              ping.status == Resolved ||
              (ping.status == PartiallyResolved &&
               forall o :: o in observations && Eligible(byId, o) ==> o.verification.Verified? && o.status.Observed?)
  {
    hide InOrder, Each, Select, Gaps, Contradictions, Eligible, Marked, Notes, EntriesById, SortBy, Contradicted,
      Oldest;
    var byId, all := EntriesById(entries).value, InOrder(observations);
    var positive := Select(all, EligibleOnes(byId));
    OrderKeepsMembers(observations);
    SelectIs(all, EligibleOnes(byId));
    if positive != [] { OldestIsOldest(positive); }
    EmptySelection(positive);
  }
}
