/** The structural comparison of two retail contexts in retail_context/context_delta.py. */
module ContextDelta {
  import opened Wrappers
  import opened Orders
  import opened Keyed

  datatype Evidence = Evidence(id: string, source: string, statement: string, status: string)

  /** resolutionBasis: None when the member is absent, Some(None) when it is null. */
  datatype Contradiction = Contradiction(
    id: string, evidenceIds: seq<string>, summary: string, status: string, resolutionBasis: Option<Option<string>>)

  datatype Unresolved = Unresolved(
    id: string, status: string, scope: string, reason: string, relatedSources: Option<seq<string>>)

  datatype Limitation = Limitation(id: string, description: string, impact: string)

  datatype Provenance = Provenance(
    source: string, sourceType: string, observedAt: Option<string>, sourceStatus: string,
    reconciliation: string, contributionScope: seq<string>)

  datatype Freshness = Freshness(status: string, observedAt: Option<string>, ageSeconds: Option<nat>)

  datatype Confidence = Confidence(level: string, basis: string)

  datatype Context = Context(
    resourceId: string, resourceType: string, schemaVersion: string, subject: string, status: string,
    evidence: seq<Evidence>, contradictions: seq<Contradiction>, unresolved: seq<Unresolved>,
    limitations: seq<Limitation>, provenance: seq<Provenance>, freshness: Freshness, confidence: Confidence)

  // ---- comparable items ----

  datatype Kind =
    | StatusKind | EvidenceKind | ContradictionKind | UnresolvedKind | LimitationKind | ProvenanceKind | FreshnessKind
    | ConfidenceKind

  /** What an item says apart from its id and state, with the order of its lists removed. */
  datatype Content =
    | EvidenceContent(source: string, statement: string)
    | ContradictionContent(evidenceIds: seq<string>, summary: string, resolutionBasis: Option<Option<string>>)
    | UnresolvedContent(scope: string, reason: string, relatedSources: Option<seq<string>>)
    | LimitationContent(description: string)

  datatype Item = Item(id: string, state: string, content: Content)

  datatype Value =
    | Missing
    | Null
    | Text(text: string)
    | Number(number: int)
    | Texts(texts: seq<string>)
    | Whole(content: Content)

  datatype ChangeType =
    | Added | Removed | StateChanged | ContentChanged | ScopeChanged | ValueChanged | FieldChanged(field: string)

  /** The parts a change id is derived from. */
  datatype ChangeKey = ChangeKey(kind: Kind, id: Option<string>, what: ChangeType, before: Value, after: Value)

  datatype Change = Change(
    key: ChangeKey, what: ChangeType, source: Option<string>, field: string, previous: Value, current: Value,
    treatment: Option<string>)

  /** A material change id is derived from every one of these members. */
  datatype Material = Material(kind: Kind, what: ChangeType, id: Option<string>, field: string, previous: Value,
      current: Value)

  datatype Delta = Delta(change: Change, material: Material)

  datatype DeltaStatus = Changed | Indeterminate | Unchanged

  datatype Report = Report(
    status: DeltaStatus, insufficientBasis: bool, material: seq<Material>, evidence: seq<Change>,
    contradictions: seq<Change>, unresolved: seq<Change>, freshness: seq<Change>, confidence: seq<Change>,
    provenance: seq<Change>, limitations: seq<Change>)

  // ---- sorted text ----

  function Sorted(s: seq<string>): seq<string> { SortBy(Itself(), TextLe(), s) }

  /** Sorting forgets the order and nothing else. */
  lemma SortedIffSameElements(a: seq<string>, b: seq<string>)
    ensures Sorted(a) == Sorted(b) <==> multiset(a) == multiset(b)
  {
    hide TotalOrder, SortedBy;
    TextTotal();
    SortByIsSort(Itself(), TextLe(), a);
    SortByIsSort(Itself(), TextLe(), b);
    if multiset(a) == multiset(b) {
      SortedUnique(Itself(), TextLe(), Sorted(a), Sorted(b));
    }
  }

  // ---- the items of a context ----

  function EvidenceItem(e: Evidence): Item { Item(e.id, e.status, EvidenceContent(e.source, e.statement)) }

  function ContradictionItem(c: Contradiction): Item {
    Item(c.id, c.status, ContradictionContent(Sorted(c.evidenceIds), c.summary, c.resolutionBasis))
  }

  function UnresolvedItem(u: Unresolved): Item {
    Item(u.id, u.status,
         UnresolvedContent(u.scope, u.reason, if u.relatedSources.Some? then Some(Sorted(u.relatedSources.value))
           else None))
  }

  function LimitationItem(l: Limitation): Item { Item(l.id, l.impact, LimitationContent(l.description)) }

  function Normalized(p: Provenance): Provenance { p.(contributionScope := Sorted(p.contributionScope)) }

  function EvidenceItems(c: Context): seq<Item> {
    seq(|c.evidence|, i requires 0 <= i < |c.evidence| => EvidenceItem(c.evidence[i]))
  }

  function ContradictionItems(c: Context): seq<Item> {
    seq(|c.contradictions|, i requires 0 <= i < |c.contradictions| => ContradictionItem(c.contradictions[i]))
  }

  function UnresolvedItems(c: Context): seq<Item> {
    seq(|c.unresolved|, i requires 0 <= i < |c.unresolved| => UnresolvedItem(c.unresolved[i]))
  }

  function LimitationItems(c: Context): seq<Item> {
    seq(|c.limitations|, i requires 0 <= i < |c.limitations| => LimitationItem(c.limitations[i]))
  }

  function Sources(c: Context): seq<Provenance> {
    seq(|c.provenance|, i requires 0 <= i < |c.provenance| => Normalized(c.provenance[i]))
  }

  function ItemId(): Item -> string { (x: Item) => x.id }

  function SourceId(): Provenance -> string { (p: Provenance) => p.source }

  // ---- the ids of both contexts ----

  function Ids<E>(items: seq<E>, idOf: E -> string): seq<string> {
    seq(|items|, i requires 0 <= i < |items| => idOf(items[i]))
  }

  function Without(s: seq<string>, t: seq<string>): seq<string> {
    if s == [] then [] else (if s[0] in t then [] else [s[0]]) + Without(s[1..], t)
  }

  function UnionIds(a: seq<string>, b: seq<string>): seq<string> { Sorted(a + Without(b, a)) }

  ghost predicate Distinct(s: seq<string>) { forall i, j :: 0 <= i < j < |s| ==> s[i] != s[j] }

  lemma {:induction false} WithoutIs(s: seq<string>, t: seq<string>)
    requires Distinct(s)
    ensures Distinct(Without(s, t))
    ensures forall x :: x in Without(s, t) <==> x in s && x !in t
  {
    if s == [] {
    } else {
      assert forall i :: 0 <= i < |s[1..]| ==> s[1..][i] == s[i + 1];
      assert s[0] !in s[1..];
      WithoutIs(s[1..], t);
      assert s == [s[0]] + s[1..];
    }
  }

  lemma UnionIdsIs(a: seq<string>, b: seq<string>)
    requires Distinct(a) && Distinct(b)
    ensures SortedBy(Itself(), TextLe(), UnionIds(a, b)) && Distinct(UnionIds(a, b))
    ensures forall x :: x in UnionIds(a, b) <==> x in a || x in b
  {
    hide TotalOrder, SortedBy, SortBy;
    WithoutIs(b, a);
    var s := a + Without(b, a);
    TextTotal();
    DistinctTogether(a, Without(b, a));
    SortByIsSort(Itself(), TextLe(), s);
    SameMembers(s, Sorted(s));
    DistinctSurvives(s, Sorted(s));
  }

  lemma DistinctTogether(a: seq<string>, b: seq<string>)
    requires Distinct(a) && Distinct(b) && forall x :: x in b ==> x !in a
    ensures Distinct(a + b)
  {
    forall i, j | 0 <= i < j < |a + b| ensures (a + b)[i] != (a + b)[j] {
      if i < |a| <= j { assert b[j - |a|] in b; }
    }
  }

  lemma DistinctSurvives(s: seq<string>, t: seq<string>)
    requires Distinct(s) && multiset(s) == multiset(t)
    ensures Distinct(t)
  {
    forall i, j | 0 <= i < j < |t| ensures t[i] != t[j] {
      DistinctCount(s, t[j]);
      RepeatCount(t, i, j);
    }
  }

  lemma UnionIdsUnique(a: seq<string>, b: seq<string>, c: seq<string>, d: seq<string>)
    requires Distinct(a) && Distinct(b) && Distinct(c) && Distinct(d)
    requires forall x :: (x in a || x in b) <==> (x in c || x in d)
    ensures UnionIds(a, b) == UnionIds(c, d)
  {
    hide TotalOrder, SortedBy, UnionIds;
    TextTotal();
    UnionIdsIs(a, b);
    UnionIdsIs(c, d);
    DistinctPermutation(UnionIds(a, b), UnionIds(c, d));
    SortedUnique(Itself(), TextLe(), UnionIds(a, b), UnionIds(c, d));
  }

  // ---- the changes of one item ----

  function OptText(s: Option<string>): Value { if s.Some? then Text(s.value) else Null }

  function StateOf(x: Option<Item>): Value { if x.Some? then Text(x.value.state) else Null }

  function SourceOf(x: Item): Option<string> { if x.content.EvidenceContent? then Some(x.content.source) else None }

  function Treatment(kind: Kind, what: ChangeType): Option<string> {
    if kind.EvidenceKind? then None
    else if what.Removed? then Some("removed_from_current_bounded_context")
    else Some("structural_change_only")
  }

  function ItemField(kind: Kind, what: ChangeType): string {
    match kind
    case EvidenceKind => if what.StateChanged? then "evidence_status" else if what.ContentChanged? then "content"
        else "evidence"
    case ContradictionKind => if what.StateChanged? then "status" else "contradiction"
    case UnresolvedKind => if what.StateChanged? then "status" else "unresolved_evidence"
    case LimitationKind => if what.StateChanged? then "impact" else "limitation"
    case _ => ""
  }

  function MaterialType(kind: Kind, what: ChangeType): ChangeType {
    if kind.LimitationKind? && what.StateChanged? then ValueChanged else what
  }

  function ItemDelta(kind: Kind, what: ChangeType, id: string, before: Option<Item>, after: Option<Item>,
      source: Option<string>, b: Value, a: Value): Delta {
    Delta(Change(ChangeKey(kind, Some(id), what, b, a), what, source, "", StateOf(before), StateOf(after),
      Treatment(kind, what)),
          Material(kind, MaterialType(kind, what), Some(id), ItemField(kind, what), b, a))
  }

  /** Nothing when both sides agree; otherwise an addition, a removal, or one change per differing part. */
  function ItemDeltas(kind: Kind): (string, Option<Item>, Option<Item>) -> seq<Delta> {
    (id: string, before: Option<Item>, after: Option<Item>) =>
      if before.None? then
        (if after.None? then []
          else [ItemDelta(kind, Added, id, before, after, SourceOf(after.value), Missing, Missing)])
      else if after.None? then [ItemDelta(kind, Removed, id, before, after, SourceOf(before.value), Missing, Missing)]
      else StateDelta(kind, id, before.value, after.value) + ContentDelta(kind, id, before.value, after.value)
  }

  function StateDelta(kind: Kind, id: string, b: Item, a: Item): seq<Delta> {
    if b.state == a.state then []
    else [ItemDelta(kind, StateChanged, id, Some(b), Some(a), SourceOf(a), Text(b.state), Text(a.state))]
  }

  function ContentDelta(kind: Kind, id: string, b: Item, a: Item): seq<Delta> {
    if b.content == a.content then []
    else [ItemDelta(kind, ContentChanged, id, Some(b), Some(a), SourceOf(a), Whole(b.content), Whole(a.content))]
  }

  function FieldDelta(kind: Kind, id: Option<string>, what: ChangeType, material: ChangeType, field: string,
      b: Value, a: Value): seq<Delta> {
    if b == a then []
    else [Delta(Change(ChangeKey(kind, id, FieldChanged(field), b, a), what, None, field, b, a, None),
                Material(kind, material, id, field, b, a))]
  }

  function SourceDelta(what: ChangeType, id: string, b: Value, a: Value): Delta {
    Delta(Change(ChangeKey(ProvenanceKind, Some(id), what, Missing, Missing), what, None, "source", b, a, None),
          Material(ProvenanceKind, what, Some(id), "source", Missing, Missing))
  }

  function SourceDeltas(): (string, Option<Provenance>, Option<Provenance>) -> seq<Delta> {
    (id: string, before: Option<Provenance>, after: Option<Provenance>) =>
      if before.None? then (if after.None? then [] else [SourceDelta(Added, id, Null, Text(id))])
      else if after.None? then [SourceDelta(Removed, id, Text(id), Null)]
      else FieldDeltas(id, before.value, after.value)
  }

  function FieldDeltas(id: string, b: Provenance, a: Provenance): seq<Delta> {
    FieldDelta(ProvenanceKind, Some(id), FieldChanged("source_status"), StateChanged, "source_status",
      Text(b.sourceStatus), Text(a.sourceStatus)) +
    FieldDelta(ProvenanceKind, Some(id), FieldChanged("claim_reconciliation_status"), StateChanged,
      "claim_reconciliation_status", Text(b.reconciliation), Text(a.reconciliation)) +
    FieldDelta(ProvenanceKind, Some(id), FieldChanged("contribution_scope"), ScopeChanged, "contribution_scope",
      Texts(b.contributionScope), Texts(a.contributionScope)) +
    FieldDelta(ProvenanceKind, Some(id), FieldChanged("source_type"), ContentChanged, "source_type", Text(b.sourceType),
      Text(a.sourceType)) +
    FieldDelta(ProvenanceKind, Some(id), FieldChanged("observed_at"), ValueChanged, "observed_at",
      OptText(b.observedAt), OptText(a.observedAt))
  }

  function FreshnessDeltas(b: Freshness, a: Freshness): seq<Delta> {
    FieldDelta(FreshnessKind, None, ValueChanged, ValueChanged, "freshness_status", Text(b.status), Text(a.status)) +
    FieldDelta(FreshnessKind, None, ValueChanged, ValueChanged, "observed_at", OptText(b.observedAt),
      OptText(a.observedAt)) +
    FieldDelta(FreshnessKind, None, ValueChanged, ValueChanged, "source_age_seconds", Age(b), Age(a))
  }

  function Age(f: Freshness): Value { if f.ageSeconds.Some? then Number(f.ageSeconds.value) else Null }

  function ConfidenceDeltas(b: Confidence, a: Confidence): seq<Delta> {
    FieldDelta(ConfidenceKind, None, ValueChanged, ValueChanged, "level", Text(b.level), Text(a.level)) +
    FieldDelta(ConfidenceKind, None, ValueChanged, ValueChanged, "basis", Text(b.basis), Text(a.basis))
  }

  function StatusMaterial(p: Context, c: Context): seq<Material> {
    if p.status == c.status then []
    else [Material(StatusKind, StateChanged, None, "context_status", Text(p.status), Text(c.status))]
  }

  // ---- the changes of one list ----

  function At<E>(m: map<string, E>, id: string): Option<E> { if id in m then Some(m[id]) else None }

  function Walk<E>(ids: seq<string>, previous: map<string, E>, current: map<string, E>,
                   deltas: (string, Option<E>, Option<E>) -> seq<Delta>): seq<Delta>
  {
    if ids == [] then []
    else Walk(ids[..|ids| - 1], previous, current, deltas) +
         deltas(ids[|ids| - 1], At(previous, ids[|ids| - 1]), At(current, ids[|ids| - 1]))
  }

  function ChangesOf(d: seq<Delta>): seq<Change> { seq(|d|, i requires 0 <= i < |d| => d[i].change) }

  function MaterialsOf(d: seq<Delta>): seq<Material> { seq(|d|, i requires 0 <= i < |d| => d[i].material) }

  /** The comparison loop: every id of either side in order, each change next to its material change. */
  method CompareLists<E>(ids: seq<string>, previous: map<string, E>, current: map<string, E>,
                         deltas: (string, Option<E>, Option<E>) -> seq<Delta>)
    returns (changes: seq<Change>, materials: seq<Material>)
    ensures changes == ChangesOf(Walk(ids, previous, current, deltas))
    ensures materials == MaterialsOf(Walk(ids, previous, current, deltas))
  {
    changes, materials := [], [];
    for i := 0 to |ids|
      invariant changes == ChangesOf(Walk(ids[..i], previous, current, deltas))
      invariant materials == MaterialsOf(Walk(ids[..i], previous, current, deltas))
    {
      assert ids[..i + 1][..i] == ids[..i];
      var found := deltas(ids[i], At(previous, ids[i]), At(current, ids[i]));
      changes := changes + ChangesOf(found);
      materials := materials + MaterialsOf(found);
    }
    assert ids[..|ids|] == ids;
  }

  function Compare<E>(p: seq<E>, c: seq<E>, idOf: E -> string, deltas: (string, Option<E>,
      Option<E>) -> seq<Delta>): Option<seq<Delta>> {
    var previous, current := Index(p, idOf), Index(c, idOf);
    if previous.None? || current.None? then None
    else Some(Walk(UnionIds(Ids(p, idOf), Ids(c, idOf)), previous.value, current.value, deltas))
  }

  function ChangeKeyOf(): Change -> ChangeKey { (c: Change) => c.key }

  function MaterialKeyOf(): Material -> Material { (m: Material) => m }

  /** How the derived ids compare as texts; nothing is assumed of it. */
  datatype IdOrder = IdOrder(change: (ChangeKey, ChangeKey) -> bool, material: (Material, Material) -> bool)

  function SortedChanges(o: IdOrder, d: seq<Delta>): seq<Change> { SortBy(ChangeKeyOf(), o.change, ChangesOf(d)) }

  /** The unsorted deltas of every part. */
  datatype Parts = Parts(
    evidence: seq<Delta>, contradictions: seq<Delta>, unresolved: seq<Delta>, freshness: seq<Delta>,
    confidence: seq<Delta>, provenance: seq<Delta>, limitations: seq<Delta>)

  function EvidenceParts(p: Context, c: Context): Option<seq<Delta>> {
    Compare(EvidenceItems(p), EvidenceItems(c), ItemId(), ItemDeltas(EvidenceKind))
  }

  function ContradictionParts(p: Context, c: Context): Option<seq<Delta>> {
    Compare(ContradictionItems(p), ContradictionItems(c), ItemId(), ItemDeltas(ContradictionKind))
  }

  function UnresolvedParts(p: Context, c: Context): Option<seq<Delta>> {
    Compare(UnresolvedItems(p), UnresolvedItems(c), ItemId(), ItemDeltas(UnresolvedKind))
  }

  function LimitationParts(p: Context, c: Context): Option<seq<Delta>> {
    Compare(LimitationItems(p), LimitationItems(c), ItemId(), ItemDeltas(LimitationKind))
  }

  function ProvenanceParts(p: Context, c: Context): Option<seq<Delta>> {
    Compare(Sources(p), Sources(c), SourceId(), SourceDeltas())
  }

  function PartsOf(p: Context, c: Context): Option<Parts> {
    var e, k, u, s, l := EvidenceParts(p, c), ContradictionParts(p, c), UnresolvedParts(p, c), ProvenanceParts(p, c),
      LimitationParts(p, c);
    if e.None? || k.None? || u.None? || s.None? || l.None? then None
    else Some(Parts(e.value, k.value, u.value, FreshnessDeltas(p.freshness, c.freshness),
                    ConfidenceDeltas(p.confidence, c.confidence), s.value, l.value))
  }

  function MaterialsOfParts(p: Context, c: Context, d: Parts): seq<Material> {
    StatusMaterial(p, c) + MaterialsOf(d.evidence) + MaterialsOf(d.contradictions) + MaterialsOf(d.unresolved) +
    MaterialsOf(d.freshness) + MaterialsOf(d.confidence) + MaterialsOf(d.provenance) + MaterialsOf(d.limitations)
  }

  predicate Insufficient(p: Context,
      c: Context) { p.status == "insufficient_evidence" || c.status == "insufficient_evidence" }

  predicate Comparable(p: Context, c: Context) {
    p.subject == c.subject && p.schemaVersion == c.schemaVersion && p.resourceType == c.resourceType
  }

  function Assembled(o: IdOrder, p: Context, c: Context, d: Parts): Report {
    var material := SortBy(MaterialKeyOf(), o.material, MaterialsOfParts(p, c, d));
    Report(if material != [] then Changed else if Insufficient(p, c) then Indeterminate else Unchanged,
           Insufficient(p, c), material, SortedChanges(o, d.evidence), SortedChanges(o, d.contradictions),
           SortedChanges(o, d.unresolved), SortedChanges(o, d.freshness), SortedChanges(o, d.confidence),
           SortedChanges(o, d.provenance), SortedChanges(o, d.limitations))
  }

  /** None when the contexts are not comparable or a list repeats an id. */
  function Build(o: IdOrder, p: Context, c: Context): Option<Report> {
    if !Comparable(p, c) || PartsOf(p, c).None? then None else Some(Assembled(o, p, c, PartsOf(p, c).value))
  }

  /** Index both lists of a category and compare them id by id. */
  method CompareCategory<E>(p: seq<E>, c: seq<E>, idOf: E -> string, deltas: (string, Option<E>,
      Option<E>) -> seq<Delta>)
    returns (ok: bool, changes: seq<Change>, materials: seq<Material>)
    ensures ok == Compare(p, c, idOf, deltas).Some?
    ensures ok ==>
              changes == ChangesOf(Compare(p, c, idOf, deltas).value) &&
              materials == MaterialsOf(Compare(p, c, idOf, deltas).value)
  {
    var previous := IndexById(p, idOf);
    var current := IndexById(c, idOf);
    if previous.None? || current.None? { return false, [], []; }
    changes, materials := CompareLists(UnionIds(Ids(p, idOf), Ids(c, idOf)), previous.value, current.value, deltas);
    ok := true;
  }

  method BuildContextDelta(o: IdOrder, p: Context, c: Context) returns (r: Option<Report>)
    ensures r == Build(o, p, c)
  {
    hide Compare, SortBy, ItemDeltas, SourceDeltas;
    if p.subject != c.subject || p.schemaVersion != c.schemaVersion || p.resourceType != c.resourceType { return None; }
    var material := StatusMaterial(p, c);
    var ok, evidence, found := CompareCategory(EvidenceItems(p), EvidenceItems(c), ItemId(), ItemDeltas(EvidenceKind));
    if !ok { return None; }
    material := material + found;
    var contradictions;
    ok, contradictions, found := CompareCategory(ContradictionItems(p), ContradictionItems(c), ItemId(),
      ItemDeltas(ContradictionKind));
    if !ok { return None; }
    material := material + found;
    var unresolved;
    ok, unresolved, found := CompareCategory(UnresolvedItems(p), UnresolvedItems(c), ItemId(),
      ItemDeltas(UnresolvedKind));
    if !ok { return None; }
    material := material + found;
    var fresher := FreshnessDeltas(p.freshness, c.freshness);
    var surer := ConfidenceDeltas(p.confidence, c.confidence);
    material := material + MaterialsOf(fresher) + MaterialsOf(surer);
    var provenance;
    ok, provenance, found := CompareCategory(Sources(p), Sources(c), SourceId(), SourceDeltas());
    if !ok { return None; }
    material := material + found;
    var limitations;
    ok, limitations, found := CompareCategory(LimitationItems(p), LimitationItems(c), ItemId(),
      ItemDeltas(LimitationKind));
    if !ok { return None; }
    material := SortBy(MaterialKeyOf(), o.material, material + found);
    var status := if material != [] then Changed else if Insufficient(p, c) then Indeterminate else Unchanged;
    r := Some(Report(status, Insufficient(p, c), material,
                     SortBy(ChangeKeyOf(), o.change, evidence), SortBy(ChangeKeyOf(), o.change, contradictions),
                     SortBy(ChangeKeyOf(), o.change, unresolved), SortBy(ChangeKeyOf(), o.change, ChangesOf(fresher)),
                     SortBy(ChangeKeyOf(), o.change, ChangesOf(surer)), SortBy(ChangeKeyOf(), o.change, provenance),
                     SortBy(ChangeKeyOf(), o.change, limitations)));
  }

  // ---- completeness ----

  ghost predicate SameItems<E>(a: seq<E>,
      b: seq<E>) { (forall x :: x in a ==> x in b) && (forall x :: x in b ==> x in a) }

  /** The contexts say the same, item by item, apart from the order of their lists. */
  ghost predicate Agree(p: Context, c: Context) {
    p.status == c.status && SameItems(EvidenceItems(p), EvidenceItems(c)) &&
    SameItems(ContradictionItems(p), ContradictionItems(c)) && SameItems(UnresolvedItems(p), UnresolvedItems(c)) &&
    p.freshness == c.freshness && p.confidence == c.confidence &&
    SameItems(Sources(p), Sources(c)) && SameItems(LimitationItems(p), LimitationItems(c))
  }

  ghost predicate Under<E>(idOf: E -> string, id: string, x: Option<E>) { x.Some? ==> idOf(x.value) == id }

  /** The deltas of an id are empty exactly when both sides hold the same. */
  ghost predicate Discerns<E(!new)>(idOf: E -> string, deltas: (string, Option<E>, Option<E>) -> seq<Delta>) {
    forall id, b, a :: Under(idOf, id, b) && Under(idOf, id, a) ==> (deltas(id, b, a) == [] <==> b == a)
  }

  lemma {:induction false} WalkNothing<E>(ids: seq<string>, m: map<string, E>, n: map<string, E>, deltas: (string,
      Option<E>, Option<E>) -> seq<Delta>)
    ensures Walk(ids, m, n, deltas) == [] <==> forall i :: 0 <= i < |ids| ==>
              deltas(ids[i], At(m, ids[i]), At(n, ids[i])) == []
    decreases |ids|
  {
    if ids == [] {
    } else {
      WalkNothing(ids[..|ids| - 1], m, n, deltas);
      assert forall i :: 0 <= i < |ids| - 1 ==> ids[..|ids| - 1][i] == ids[i];
    }
  }

  lemma DistinctIds<E>(items: seq<E>, idOf: E -> string)
    requires Index(items, idOf).Some?
    ensures Distinct(Ids(items, idOf))
    ensures forall id :: id in Ids(items, idOf) <==> id in Index(items, idOf).value
  {
    IndexIs(items, idOf);
    forall i, j | 0 <= i < j < |items| ensures idOf(items[i]) != idOf(items[j]) { IndexSeparates(items, idOf, i, j); }
    forall id ensures id in Ids(items, idOf) <==> id in Index(items, idOf).value {
      if id in Ids(items, idOf) {
        var i :| 0 <= i < |items| && Ids(items, idOf)[i] == id;
        assert items[i] in items;
      }
      if id in Index(items, idOf).value {
        var x := Index(items, idOf).value[id];
        var i :| 0 <= i < |items| && items[i] == x;
        assert Ids(items, idOf)[i] == id;
      }
    }
  }

  lemma CompareNothing<E(!new)>(p: seq<E>, c: seq<E>, idOf: E -> string, deltas: (string, Option<E>,
      Option<E>) -> seq<Delta>)
    requires Discerns(idOf, deltas) && Compare(p, c, idOf, deltas).Some?
    ensures Compare(p, c, idOf, deltas).value == [] <==> SameItems(p, c)
  {
    hide Walk, UnionIds, Index, Ids, Distinct;
    var m, n := Index(p, idOf).value, Index(c, idOf).value;
    var ids := UnionIds(Ids(p, idOf), Ids(c, idOf));
    IndexIs(p, idOf);
    IndexIs(c, idOf);
    DistinctIds(p, idOf);
    DistinctIds(c, idOf);
    UnionIdsIs(Ids(p, idOf), Ids(c, idOf));
    WalkNothing(ids, m, n, deltas);
    if Walk(ids, m, n, deltas) == [] {
      forall x ensures x in p <==> x in c { NothingAt(ids, m, n, idOf, deltas, idOf(x)); }
    }
    if SameItems(p, c) {
      forall i | 0 <= i < |ids| ensures deltas(ids[i], At(m, ids[i]), At(n, ids[i])) == [] {
        SameAt(p, c, idOf, ids[i]);
        assert Under(idOf, ids[i], At(m, ids[i])) && Under(idOf, ids[i], At(n, ids[i]));
      }
    }
  }

  lemma NothingAt<E(!new)>(ids: seq<string>, m: map<string, E>, n: map<string, E>, idOf: E -> string,
      deltas: (string, Option<E>, Option<E>) -> seq<Delta>, id: string)
    requires Discerns(idOf, deltas)
    requires forall i :: 0 <= i < |ids| ==> deltas(ids[i], At(m, ids[i]), At(n, ids[i])) == []
    requires forall k :: k in ids <==> k in m || k in n
    requires forall k :: k in m ==> idOf(m[k]) == k
    requires forall k :: k in n ==> idOf(n[k]) == k
    ensures At(m, id) == At(n, id)
  {
    if id in ids {
      var i :| 0 <= i < |ids| && ids[i] == id;
      assert Under(idOf, id, At(m, id)) && Under(idOf, id, At(n, id));
    }
  }

  lemma SameAt<E>(p: seq<E>, c: seq<E>, idOf: E -> string, id: string)
    requires Index(p, idOf).Some? && Index(c, idOf).Some? && SameItems(p, c)
    ensures At(Index(p, idOf).value, id) == At(Index(c, idOf).value, id)
  {
    IndexIs(p, idOf);
    IndexIs(c, idOf);
    var m, n := Index(p, idOf).value, Index(c, idOf).value;
    if id in m { assert m[id] in c; }
    if id in n { assert n[id] in p; }
  }

  lemma ItemsDiscern(kind: Kind)
    ensures Discerns(ItemId(), ItemDeltas(kind))
  {
    hide ItemDelta;
    forall id, b: Option<Item>, a: Option<Item> | Under(ItemId(), id, b) && Under(ItemId(), id, a)
      ensures ItemDeltas(kind)(id, b, a) == [] <==> b == a
    {
    }
  }

  lemma SourcesDiscern()
    ensures Discerns(SourceId(), SourceDeltas())
  {
    hide FieldDeltas;
    forall id, b: Option<Provenance>, a: Option<Provenance> | Under(SourceId(), id, b) && Under(SourceId(), id, a)
      ensures SourceDeltas()(id, b, a) == [] <==> b == a
    {
      if b.Some? && a.Some? { FieldsDiscern(id, b.value, a.value); }
    }
  }

  lemma FieldsDiscern(id: string, b: Provenance, a: Provenance)
    ensures FieldDeltas(id, b, a) == [] <==> b.(source := "") == a.(source := "")
  {
  }

  lemma MaterialsEmpty(p: Context, c: Context, d: Parts)
    ensures MaterialsOfParts(p, c, d) == [] <==>
            p.status == c.status && d.evidence == [] && d.contradictions == [] && d.unresolved == [] &&
            d.freshness == [] &&
            d.confidence == [] && d.provenance == [] && d.limitations == []
  {
  }

  lemma PartsEmpty(p: Context, c: Context)
    requires PartsOf(p, c).Some?
    ensures MaterialsOfParts(p, c, PartsOf(p, c).value) == [] <==> Agree(p, c)
  {
    hide Compare, SameItems, Discerns, EvidenceItems, ContradictionItems, UnresolvedItems, LimitationItems, Sources,
      MaterialsOfParts, ItemDeltas, SourceDeltas;
    MaterialsEmpty(p, c, PartsOf(p, c).value);
    ItemsDiscern(EvidenceKind);
    ItemsDiscern(ContradictionKind);
    ItemsDiscern(UnresolvedKind);
    ItemsDiscern(LimitationKind);
    SourcesDiscern();
    CompareNothing(EvidenceItems(p), EvidenceItems(c), ItemId(), ItemDeltas(EvidenceKind));
    CompareNothing(ContradictionItems(p), ContradictionItems(c), ItemId(), ItemDeltas(ContradictionKind));
    CompareNothing(UnresolvedItems(p), UnresolvedItems(c), ItemId(), ItemDeltas(UnresolvedKind));
    CompareNothing(LimitationItems(p), LimitationItems(c), ItemId(), ItemDeltas(LimitationKind));
    CompareNothing(Sources(p), Sources(c), SourceId(), SourceDeltas());
  }

  /**
   * No material change is reported exactly when the contexts agree; the status says so, or that the basis is
   * insufficient.
   */
  lemma DeltaIsComplete(o: IdOrder, p: Context, c: Context)
    requires Build(o, p, c).Some?
    ensures var r := Build(o, p, c).value;
            (r.material == [] <==> Agree(p, c)) &&
            (r.status == Changed <==> !Agree(p, c)) &&
            (r.status == Unchanged <==>
              Agree(p, c) && p.status != "insufficient_evidence" && c.status != "insufficient_evidence")
  {
    hide PartsOf, MaterialsOfParts, Agree, SortedChanges, TotalOrder, SortedBy;
    var d := PartsOf(p, c).value;
    PartsEmpty(p, c);
    SortByPermutes(MaterialKeyOf(), o.material, MaterialsOfParts(p, c, d));
  }

  /** A delta exists exactly for comparable contexts whose five lists repeat no id. */
  lemma DeltaExistsIff(o: IdOrder, p: Context, c: Context)
    ensures Build(o, p, c).Some? <==>
            p.subject == c.subject && p.schemaVersion == c.schemaVersion && p.resourceType == c.resourceType &&
            NoRepeats(EvidenceItems(p), EvidenceItems(c), ItemId()) &&
            NoRepeats(ContradictionItems(p), ContradictionItems(c), ItemId()) &&
            NoRepeats(UnresolvedItems(p), UnresolvedItems(c), ItemId()) &&
            NoRepeats(LimitationItems(p), LimitationItems(c), ItemId()) && NoRepeats(Sources(p), Sources(c), SourceId())
  {
    hide Index, Walk, EvidenceItems, ContradictionItems, UnresolvedItems, LimitationItems, Sources, Assembled;
    IndexIffDistinct(EvidenceItems(p), EvidenceItems(c), ItemId());
    IndexIffDistinct(ContradictionItems(p), ContradictionItems(c), ItemId());
    IndexIffDistinct(UnresolvedItems(p), UnresolvedItems(c), ItemId());
    IndexIffDistinct(LimitationItems(p), LimitationItems(c), ItemId());
    IndexIffDistinct(Sources(p), Sources(c), SourceId());
  }

  ghost predicate NoRepeats<E>(a: seq<E>, b: seq<E>, idOf: E -> string) {
    (forall i, j :: 0 <= i < j < |a| ==> idOf(a[i]) != idOf(a[j])) &&
    (forall i, j :: 0 <= i < j < |b| ==> idOf(b[i]) != idOf(b[j]))
  }

  lemma IndexIffDistinct<E>(a: seq<E>, b: seq<E>, idOf: E -> string)
    ensures Index(a, idOf).Some? && Index(b, idOf).Some? <==> NoRepeats(a, b, idOf)
  {
    hide Index;
    IndexOfDistinct(a, idOf);
    IndexOfDistinct(b, idOf);
    if Index(a, idOf).Some? {
      forall i, j | 0 <= i < j < |a| ensures idOf(a[i]) != idOf(a[j]) { IndexSeparates(a, idOf, i, j); }
    }
    if Index(b, idOf).Some? {
      forall i, j | 0 <= i < j < |b| ensures idOf(b[i]) != idOf(b[j]) { IndexSeparates(b, idOf, i, j); }
    }
  }

  // ---- the order of the lists ----

  lemma CompareIgnoresOrder<E>(p: seq<E>, c: seq<E>, q: seq<E>, d: seq<E>, idOf: E -> string, deltas: (string,
      Option<E>, Option<E>) -> seq<Delta>)
    requires multiset(p) == multiset(q) && multiset(c) == multiset(d)
    ensures Compare(p, c, idOf, deltas) == Compare(q, d, idOf, deltas)
  {
    hide Index, Walk, UnionIds, Ids, Distinct;
    IndexIgnoresOrder(p, q, idOf);
    IndexIgnoresOrder(c, d, idOf);
    if Index(p, idOf).Some? && Index(c, idOf).Some? {
      DistinctIds(p, idOf);
      DistinctIds(c, idOf);
      DistinctIds(q, idOf);
      DistinctIds(d, idOf);
      UnionIdsUnique(Ids(p, idOf), Ids(c, idOf), Ids(q, idOf), Ids(d, idOf));
    }
  }

  /** One context is the other with its lists, and the lists inside its items, in another order. */
  ghost predicate Rearranged(p: Context, q: Context) {
    p.resourceType == q.resourceType && p.schemaVersion == q.schemaVersion && p.subject == q.subject &&
    p.status == q.status &&
    p.freshness == q.freshness && p.confidence == q.confidence &&
    multiset(EvidenceItems(p)) == multiset(EvidenceItems(q)) &&
    multiset(ContradictionItems(p)) == multiset(ContradictionItems(q)) &&
    multiset(UnresolvedItems(p)) == multiset(UnresolvedItems(q)) &&
    multiset(LimitationItems(p)) == multiset(LimitationItems(q)) &&
    multiset(Sources(p)) == multiset(Sources(q))
  }

  /** The delta does not depend on the order of any list in either context. */
  lemma DeltaIgnoresOrder(o: IdOrder, p: Context, c: Context, q: Context, d: Context)
    requires Rearranged(p, q) && Rearranged(c, d)
    ensures Build(o, p, c) == Build(o, q, d)
  {
    hide Compare, EvidenceItems, ContradictionItems, UnresolvedItems, LimitationItems, Sources, SortBy, ItemDeltas,
      SourceDeltas;
    CompareIgnoresOrder(EvidenceItems(p), EvidenceItems(c), EvidenceItems(q), EvidenceItems(d), ItemId(),
      ItemDeltas(EvidenceKind));
    CompareIgnoresOrder(ContradictionItems(p), ContradictionItems(c), ContradictionItems(q), ContradictionItems(d),
      ItemId(), ItemDeltas(ContradictionKind));
    CompareIgnoresOrder(UnresolvedItems(p), UnresolvedItems(c), UnresolvedItems(q), UnresolvedItems(d), ItemId(),
      ItemDeltas(UnresolvedKind));
    CompareIgnoresOrder(LimitationItems(p), LimitationItems(c), LimitationItems(q), LimitationItems(d), ItemId(),
      ItemDeltas(LimitationKind));
    CompareIgnoresOrder(Sources(p), Sources(c), Sources(q), Sources(d), SourceId(), SourceDeltas());
  }

  /** Items forget exactly the order of their inner lists. */
  lemma ItemsForgetOrder(a: Contradiction, b: Contradiction, u: Unresolved, v: Unresolved, s: Provenance, t: Provenance)
    ensures ContradictionItem(a) == ContradictionItem(b) <==>
            a.(evidenceIds := []) == b.(evidenceIds := []) && multiset(a.evidenceIds) == multiset(b.evidenceIds)
    ensures UnresolvedItem(u) == UnresolvedItem(v) <==>
            u.(relatedSources := None) == v.(relatedSources := None) &&
            (u.relatedSources.Some? <==> v.relatedSources.Some?) &&
            (u.relatedSources.Some? ==> multiset(u.relatedSources.value) == multiset(v.relatedSources.value))
    ensures Normalized(s) == Normalized(t) <==>
            s.(contributionScope := []) == t.(contributionScope := []) &&
            multiset(s.contributionScope) == multiset(t.contributionScope)
  {
    hide Sorted;
    SortedIffSameElements(a.evidenceIds, b.evidenceIds);
    SortedIffSameElements(s.contributionScope, t.contributionScope);
    if u.relatedSources.Some? && v.relatedSources.Some? {
      SortedIffSameElements(u.relatedSources.value, v.relatedSources.value);
    }
  }

  // ---- patching ----

  function States(m: map<string, Item>): map<string, string> { map id | id in m :: m[id].state }

  function PatchOne(m: map<string, string>, c: Change): map<string, string> {
    if c.key.id.None? then m
    else if (c.what.Added? || c.what.StateChanged?) && c.current.Text? then m[c.key.id.value := c.current.text]
    else if c.what.Removed? then m - {c.key.id.value}
    else m
  }

  function Patch(m: map<string, string>, changes: seq<Change>): map<string, string> {
    if changes == [] then m else PatchOne(Patch(m, changes[..|changes| - 1]), changes[|changes| - 1])
  }

  /** A change that sets or removes the state of an id. */
  predicate Touches(c: Change,
      id: string) { c.key.id == Some(id) && (c.what.Added? || c.what.StateChanged? || c.what.Removed?) }

  ghost predicate Sets(c: Change, target: Option<string>) {
    if target.Some? then !c.what.Removed? && c.current == Text(target.value) else c.what.Removed?
  }

  lemma PatchOneAt(m: map<string, string>, c: Change, id: string, target: Option<string>)
    ensures Touches(c, id) && Sets(c, target) ==> At(PatchOne(m, c), id) == target
    ensures !Touches(c, id) ==> At(PatchOne(m, c), id) == At(m, id)
  {
  }

  ghost predicate Touched(changes: seq<Change>, id: string) { exists c :: c in changes && Touches(c, id) }

  lemma {:induction false} PatchAt(m: map<string, string>, changes: seq<Change>, id: string, target: Option<string>)
    requires forall c :: c in changes && Touches(c, id) ==> Sets(c, target)
    ensures At(Patch(m, changes), id) == (if Touched(changes, id) then target else At(m, id))
    decreases |changes|
  {
    hide PatchOne, Touches, Sets, At;
    if changes == [] {
    } else {
      var before, last := changes[..|changes| - 1], changes[|changes| - 1];
      assert changes == before + [last];
      assert last in changes;
      PatchAt(m, before, id, target);
      PatchOneAt(Patch(m, before), last, id, target);
      TouchedByLast(before, last, id);
    }
  }

  lemma TouchedByLast(before: seq<Change>, last: Change, id: string)
    ensures Touched(before + [last], id) <==> Touched(before, id) || Touches(last, id)
  {
    hide Touches;
    assert (before + [last])[|before|] == last;
  }

  lemma {:induction false} WalkMembers<E>(ids: seq<string>, m: map<string, E>, n: map<string, E>, deltas: (string,
      Option<E>, Option<E>) -> seq<Delta>, d: Delta)
    ensures d in Walk(ids, m, n, deltas) <==>
              exists i :: 0 <= i < |ids| && d in deltas(ids[i], At(m, ids[i]), At(n, ids[i]))
    decreases |ids|
  {
    if ids == [] {
    } else {
      var before := ids[..|ids| - 1];
      WalkMembers(before, m, n, deltas, d);
      assert forall i :: 0 <= i < |before| ==> before[i] == ids[i];
      if d in Walk(before, m, n, deltas) {
        var i :| 0 <= i < |before| && d in deltas(before[i], At(m, before[i]), At(n, before[i]));
        assert d in deltas(ids[i], At(m, ids[i]), At(n, ids[i]));
      }
    }
  }

  /**
   * Each item delta names its own id; one that touches it sets its current state, and one does whenever that
   * changed.
   */
  lemma ItemDeltasTouch(kind: Kind, id: string, b: Option<Item>, a: Option<Item>)
    ensures forall d :: d in ItemDeltas(kind)(id, b, a) ==> d.change.key.id == Some(id)
    ensures forall d :: d in ItemDeltas(kind)(id, b, a) && Touches(d.change, id) ==>
              Sets(d.change, if a.Some? then Some(a.value.state) else None)
    ensures (b.Some? != a.Some? || (b.Some? && b.value.state != a.value.state)) ==>
              ItemDeltas(kind)(id, b, a) != [] && Touches(ItemDeltas(kind)(id, b, a)[0].change, id)
  {
  }

  lemma ListedChange(o: IdOrder, d: seq<Delta>, c: Change)
    ensures c in SortedChanges(o, d) <==> exists x :: x in d && x.change == c
  {
    hide TotalOrder, SortedBy, SortBy;
    SortByPermutes(ChangeKeyOf(), o.change, ChangesOf(d));
    SameMembers(ChangesOf(d), SortedChanges(o, d));
    if c in ChangesOf(d) {
      var i :| 0 <= i < |d| && ChangesOf(d)[i] == c;
      assert d[i] in d;
    }
    if x :| x in d && x.change == c {
      var i :| 0 <= i < |d| && d[i] == x;
      assert ChangesOf(d)[i] == c;
    }
  }

  lemma PatchedAt(o: IdOrder, kind: Kind, p: seq<Item>, c: seq<Item>, id: string)
    requires Compare(p, c, ItemId(), ItemDeltas(kind)).Some?
    ensures var m, n := Index(p, ItemId()).value, Index(c, ItemId()).value;
            At(Patch(States(m), SortedChanges(o, Compare(p, c, ItemId(), ItemDeltas(kind)).value)), id) ==
              At(States(n), id)
  {
    hide TotalOrder, Index, Walk, SortedChanges, ItemDeltas, Touches, Sets, UnionIds, Ids, Patch, Distinct, States;
    var m, n := Index(p, ItemId()).value, Index(c, ItemId()).value;
    var ids := UnionIds(Ids(p, ItemId()), Ids(c, ItemId()));
    var d := Walk(ids, m, n, ItemDeltas(kind));
    var target := At(States(n), id);
    forall x | x in SortedChanges(o, d) && Touches(x, id) ensures Sets(x, target) {
      TouchSets(o, kind, ids, m, n, x, id);
    }
    PatchAt(States(m), SortedChanges(o, d), id, target);
    DistinctIds(p, ItemId());
    DistinctIds(c, ItemId());
    UnionIdsIs(Ids(p, ItemId()), Ids(c, ItemId()));
    if At(States(m), id) != target { SomeTouch(o, kind, ids, m, n, id); }
  }

  lemma TouchSets(o: IdOrder, kind: Kind, ids: seq<string>, m: map<string, Item>, n: map<string, Item>, x: Change,
      id: string)
    requires x in SortedChanges(o, Walk(ids, m, n, ItemDeltas(kind))) && Touches(x, id)
    ensures Sets(x, At(States(n), id))
  {
    hide TotalOrder, Walk, SortedChanges, ItemDeltas, Sets;
    ListedChange(o, Walk(ids, m, n, ItemDeltas(kind)), x);
    var d :| d in Walk(ids, m, n, ItemDeltas(kind)) && d.change == x;
    WalkMembers(ids, m, n, ItemDeltas(kind), d);
    var i :| 0 <= i < |ids| && d in ItemDeltas(kind)(ids[i], At(m, ids[i]), At(n, ids[i]));
    ItemDeltasTouch(kind, ids[i], At(m, ids[i]), At(n, ids[i]));
    assert ids[i] == id;
  }

  lemma SomeTouch(o: IdOrder, kind: Kind, ids: seq<string>, m: map<string, Item>, n: map<string, Item>, id: string)
    requires (id in m || id in n ==> id in ids) && At(States(m), id) != At(States(n), id)
    ensures exists x :: x in SortedChanges(o, Walk(ids, m, n, ItemDeltas(kind))) && Touches(x, id)
  {
    hide TotalOrder, Walk, SortedChanges, ItemDeltas, Touches;
    var i :| 0 <= i < |ids| && ids[i] == id;
    ItemDeltasTouch(kind, id, At(m, id), At(n, id));
    var d := ItemDeltas(kind)(id, At(m, id), At(n, id))[0];
    assert d in ItemDeltas(kind)(ids[i], At(m, ids[i]), At(n, ids[i]));
    WalkMembers(ids, m, n, ItemDeltas(kind), d);
    ListedChange(o, Walk(ids, m, n, ItemDeltas(kind)), d.change);
  }

  lemma PatchedList(o: IdOrder, kind: Kind, p: seq<Item>, c: seq<Item>)
    requires Compare(p, c, ItemId(), ItemDeltas(kind)).Some?
    ensures var m, n := Index(p, ItemId()).value, Index(c, ItemId()).value;
            Patch(States(m), SortedChanges(o, Compare(p, c, ItemId(), ItemDeltas(kind)).value)) == States(n)
  {
    hide TotalOrder, Index, SortedChanges, ItemDeltas, Patch, Walk, UnionIds, Ids;
    var m, n := Index(p, ItemId()).value, Index(c, ItemId()).value;
    var patched := Patch(States(m), SortedChanges(o, Compare(p, c, ItemId(), ItemDeltas(kind)).value));
    forall id ensures At(patched, id) == At(States(n), id) { PatchedAt(o, kind, p, c, id); }
    SameMap(patched, States(n));
  }

  lemma SameMap(a: map<string, string>, b: map<string, string>)
    requires forall id :: At(a, id) == At(b, id)
    ensures a == b
  {
    forall id ensures id in a <==> id in b { assert At(a, id) == At(b, id); }
    forall id | id in a ensures a[id] == b[id] { assert At(a, id) == At(b, id); }
  }

  function StatesOf(items: seq<Item>): map<string, string> {
    var m := Index(items, ItemId());
    if m.Some? then States(m.value) else map[]
  }

  /** Applying the change lists to the previous states gives the current states, in all four categories. */
  lemma DeltaPatches(o: IdOrder, p: Context, c: Context)
    requires Build(o, p, c).Some?
    ensures var r := Build(o, p, c).value;
            Patch(StatesOf(EvidenceItems(p)), r.evidence) == StatesOf(EvidenceItems(c)) &&
            Patch(StatesOf(ContradictionItems(p)), r.contradictions) == StatesOf(ContradictionItems(c)) &&
            Patch(StatesOf(UnresolvedItems(p)), r.unresolved) == StatesOf(UnresolvedItems(c)) &&
            Patch(StatesOf(LimitationItems(p)), r.limitations) == StatesOf(LimitationItems(c))
  {
    hide Index, Walk, UnionIds, Ids, Patch, States, SortBy, EvidenceItems, ContradictionItems, UnresolvedItems,
      LimitationItems, Sources, ItemDeltas, SourceDeltas, MaterialsOfParts, SortedChanges;
    PatchedList(o, EvidenceKind, EvidenceItems(p), EvidenceItems(c));
    PatchedList(o, ContradictionKind, ContradictionItems(p), ContradictionItems(c));
    PatchedList(o, UnresolvedKind, UnresolvedItems(p), UnresolvedItems(c));
    PatchedList(o, LimitationKind, LimitationItems(p), LimitationItems(c));
  }

  // ---- reversal ----

  function FlipType(t: ChangeType): ChangeType { if t.Added? then Removed else if t.Removed? then Added else t }

  function FlipKey(k: ChangeKey): ChangeKey { k.(what := FlipType(k.what), before := k.after, after := k.before) }

  /** The change of the swapped comparison; the source it names is treated apart. */
  function Flip(c: Change): Change {
    Change(FlipKey(c.key), FlipType(c.what), None, c.field, c.current, c.previous,
           if c.treatment.None? then None else Treatment(c.key.kind, FlipType(c.what)))
  }

  function FlipMaterial(m: Material): Material {
    m.(what := FlipType(m.what), previous := m.current, current := m.previous)
  }

  function Unsourced(c: Change): Change { c.(source := None) }

  /** Position by position, one delta list is the other with every change turned around. */
  ghost predicate Flipped(d: seq<Delta>, e: seq<Delta>) {
    |d| == |e| && forall i :: 0 <= i < |d| ==>
      Unsourced(e[i].change) == Flip(d[i].change) && e[i].material == FlipMaterial(d[i].material)
  }

  lemma FlippedTogether(d: seq<Delta>, e: seq<Delta>, f: seq<Delta>, g: seq<Delta>)
    requires Flipped(d, e) && Flipped(f, g)
    ensures Flipped(d + f, e + g)
  {
    hide Flip, FlipMaterial, Unsourced;
  }

  lemma ItemDeltaFlips(kind: Kind, what: ChangeType, id: string, before: Option<Item>, after: Option<Item>,
      s: Option<string>, t: Option<string>, b: Value, a: Value)
    ensures Flipped([ItemDelta(kind, what, id, before, after, s, b, a)],
              [ItemDelta(kind, FlipType(what), id, after, before, t, a, b)])
  {
    hide SourceOf;
  }

  lemma StateDeltaFlips(kind: Kind, id: string, b: Item, a: Item)
    ensures Flipped(StateDelta(kind, id, b, a), StateDelta(kind, id, a, b))
    ensures Flipped(ContentDelta(kind, id, b, a), ContentDelta(kind, id, a, b))
  {
    hide ItemDelta, Flip, FlipMaterial, Unsourced, SourceOf;
    ItemDeltaFlips(kind, StateChanged, id, Some(b), Some(a), SourceOf(a), SourceOf(b), Text(b.state), Text(a.state));
    ItemDeltaFlips(kind, ContentChanged, id, Some(b), Some(a), SourceOf(a), SourceOf(b), Whole(b.content),
      Whole(a.content));
  }

  lemma ItemDeltasFlip(kind: Kind, id: string, b: Option<Item>, a: Option<Item>)
    ensures Flipped(ItemDeltas(kind)(id, b, a), ItemDeltas(kind)(id, a, b))
  {
    hide ItemDelta, Flip, FlipMaterial, Unsourced, SourceOf, StateDelta, ContentDelta;
    if b.Some? && a.Some? {
      StateDeltaFlips(kind, id, b.value, a.value);
      FlippedTogether(StateDelta(kind, id, b.value, a.value), StateDelta(kind, id, a.value, b.value),
                      ContentDelta(kind, id, b.value, a.value), ContentDelta(kind, id, a.value, b.value));
    } else if a.Some? {
      ItemDeltaFlips(kind, Added, id, b, a, SourceOf(a.value), SourceOf(a.value), Missing, Missing);
    } else if b.Some? {
      ItemDeltaFlips(kind, Removed, id, b, a, SourceOf(b.value), SourceOf(b.value), Missing, Missing);
    }
  }

  lemma FieldDeltaFlips(kind: Kind, id: Option<string>, what: ChangeType, material: ChangeType, field: string,
      b: Value, a: Value)
    requires FlipType(what) == what && FlipType(material) == material
    ensures Flipped(FieldDelta(kind, id, what, material, field, b, a),
              FieldDelta(kind, id, what, material, field, a, b))
  {
  }

  lemma SourceDeltaFlips(what: ChangeType, id: string, b: Value, a: Value)
    ensures Flipped([SourceDelta(what, id, b, a)], [SourceDelta(FlipType(what), id, a, b)])
  {
  }

  lemma SourceDeltasFlip(id: string, b: Option<Provenance>, a: Option<Provenance>)
    ensures Flipped(SourceDeltas()(id, b, a), SourceDeltas()(id, a, b))
  {
    hide FieldDeltas, SourceDelta, Flip, FlipMaterial, Unsourced;
    SourceDeltaFlips(Added, id, Null, Text(id));
    SourceDeltaFlips(Removed, id, Text(id), Null);
    if b.Some? && a.Some? { FieldDeltasFlip(id, b.value, a.value); }
  }

  lemma FieldDeltasFlip(id: string, b: Provenance, a: Provenance)
    ensures Flipped(FieldDeltas(id, b, a), FieldDeltas(id, a, b))
  {
    hide FieldDelta, Flipped;
    var k, n := ProvenanceKind, Some(id);
    FieldDeltaFlips(k, n, FieldChanged("source_status"), StateChanged, "source_status", Text(b.sourceStatus),
      Text(a.sourceStatus));
    FieldDeltaFlips(k, n, FieldChanged("claim_reconciliation_status"), StateChanged, "claim_reconciliation_status",
      Text(b.reconciliation), Text(a.reconciliation));
    FieldDeltaFlips(k, n, FieldChanged("contribution_scope"), ScopeChanged, "contribution_scope",
      Texts(b.contributionScope), Texts(a.contributionScope));
    FieldDeltaFlips(k, n, FieldChanged("source_type"), ContentChanged, "source_type", Text(b.sourceType),
      Text(a.sourceType));
    FieldDeltaFlips(k, n, FieldChanged("observed_at"), ValueChanged, "observed_at", OptText(b.observedAt),
      OptText(a.observedAt));
    FiveTogether(
      FieldDelta(k, n, FieldChanged("source_status"), StateChanged, "source_status", Text(b.sourceStatus),
        Text(a.sourceStatus)),
      FieldDelta(k, n, FieldChanged("source_status"), StateChanged, "source_status", Text(a.sourceStatus),
        Text(b.sourceStatus)),
      FieldDelta(k, n, FieldChanged("claim_reconciliation_status"), StateChanged, "claim_reconciliation_status",
        Text(b.reconciliation), Text(a.reconciliation)),
      FieldDelta(k, n, FieldChanged("claim_reconciliation_status"), StateChanged, "claim_reconciliation_status",
        Text(a.reconciliation), Text(b.reconciliation)),
      FieldDelta(k, n, FieldChanged("contribution_scope"), ScopeChanged, "contribution_scope",
        Texts(b.contributionScope), Texts(a.contributionScope)),
      FieldDelta(k, n, FieldChanged("contribution_scope"), ScopeChanged, "contribution_scope",
        Texts(a.contributionScope), Texts(b.contributionScope)),
      FieldDelta(k, n, FieldChanged("source_type"), ContentChanged, "source_type", Text(b.sourceType),
        Text(a.sourceType)),
      FieldDelta(k, n, FieldChanged("source_type"), ContentChanged, "source_type", Text(a.sourceType),
        Text(b.sourceType)),
      FieldDelta(k, n, FieldChanged("observed_at"), ValueChanged, "observed_at", OptText(b.observedAt),
        OptText(a.observedAt)),
      FieldDelta(k, n, FieldChanged("observed_at"), ValueChanged, "observed_at", OptText(a.observedAt),
        OptText(b.observedAt)));
  }

  lemma FiveTogether(d1: seq<Delta>, e1: seq<Delta>, d2: seq<Delta>, e2: seq<Delta>, d3: seq<Delta>, e3: seq<Delta>,
                     d4: seq<Delta>, e4: seq<Delta>, d5: seq<Delta>, e5: seq<Delta>)
    requires Flipped(d1, e1) && Flipped(d2, e2) && Flipped(d3, e3) && Flipped(d4, e4) && Flipped(d5, e5)
    ensures Flipped(d1 + d2 + d3 + d4 + d5, e1 + e2 + e3 + e4 + e5)
    ensures Flipped(d1 + d2 + d3, e1 + e2 + e3) && Flipped(d1 + d2, e1 + e2)
  {
    hide Flipped;
    FlippedTogether(d1, e1, d2, e2);
    FlippedTogether(d1 + d2, e1 + e2, d3, e3);
    FlippedTogether(d1 + d2 + d3, e1 + e2 + e3, d4, e4);
    FlippedTogether(d1 + d2 + d3 + d4, e1 + e2 + e3 + e4, d5, e5);
  }

  ghost predicate Reversible<E(!new)>(deltas: (string, Option<E>, Option<E>) -> seq<Delta>) {
    forall id, b, a :: Flipped(deltas(id, b, a), deltas(id, a, b))
  }

  lemma {:induction false} WalkFlips<E(!new)>(ids: seq<string>, m: map<string, E>, n: map<string, E>,
      deltas: (string, Option<E>, Option<E>) -> seq<Delta>)
    requires Reversible(deltas)
    ensures Flipped(Walk(ids, m, n, deltas), Walk(ids, n, m, deltas))
    decreases |ids|
  {
    hide Flipped;
    if ids == [] {
      assert Flipped([], []) by { NothingFlips(); }
    } else {
      var id := ids[|ids| - 1];
      WalkFlips(ids[..|ids| - 1], m, n, deltas);
      FlippedTogether(Walk(ids[..|ids| - 1], m, n, deltas), Walk(ids[..|ids| - 1], n, m, deltas),
                      deltas(id, At(m, id), At(n, id)), deltas(id, At(n, id), At(m, id)));
    }
  }

  lemma NothingFlips()
    ensures Flipped([], [])
  {
  }

  lemma CompareFlips<E(!new)>(p: seq<E>, c: seq<E>, idOf: E -> string, deltas: (string, Option<E>,
      Option<E>) -> seq<Delta>)
    requires Reversible(deltas)
    ensures Compare(p, c, idOf, deltas).Some? <==> Compare(c, p, idOf, deltas).Some?
    ensures Compare(p, c, idOf, deltas).Some? ==>
              Flipped(Compare(p, c, idOf, deltas).value, Compare(c, p, idOf, deltas).value)
  {
    hide Walk, Index, UnionIds, Ids, Flipped, Distinct;
    if Compare(p, c, idOf, deltas).Some? {
      DistinctIds(p, idOf);
      DistinctIds(c, idOf);
      UnionIdsUnique(Ids(p, idOf), Ids(c, idOf), Ids(c, idOf), Ids(p, idOf));
      WalkFlips(UnionIds(Ids(p, idOf), Ids(c, idOf)), Index(p, idOf).value, Index(c, idOf).value, deltas);
    }
  }

  function Flips(s: seq<Change>): seq<Change> { seq(|s|, i requires 0 <= i < |s| => Flip(s[i])) }

  function Unsourceds(s: seq<Change>): seq<Change> { seq(|s|, i requires 0 <= i < |s| => Unsourced(s[i])) }

  /** The list of the swapped comparison holds exactly the turned-around changes, each as often. */
  ghost predicate Reverses(s: seq<Change>, t: seq<Change>) { multiset(Unsourceds(t)) == multiset(Flips(s)) }

  lemma {:induction false} MapPermutes(s: seq<Change>, t: seq<Change>)
    requires multiset(s) == multiset(t)
    ensures multiset(Flips(s)) == multiset(Flips(t))
    ensures multiset(Unsourceds(s)) == multiset(Unsourceds(t))
    decreases |s|
  {
    hide Flip, Unsourced;
    SameMembers(s, t);
    if s == [] {
    } else {
      assert s[0] in t;
      var k :| 0 <= k < |t| && t[k] == s[0];
      TakeOut(s, 0);
      TakeOut(t, k);
      CancelOne(multiset(s[..0] + s[1..]), multiset(t[..k] + t[k + 1..]), s[0]);
      MapPermutes(s[..0] + s[1..], t[..k] + t[k + 1..]);
    }
  }

  lemma TakeOut(s: seq<Change>, k: nat)
    requires k < |s|
    ensures multiset(s) == multiset(s[..k] + s[k + 1..]) + multiset{s[k]}
    ensures multiset(Flips(s)) == multiset(Flips(s[..k] + s[k + 1..])) + multiset{Flip(s[k])}
    ensures multiset(Unsourceds(s)) == multiset(Unsourceds(s[..k] + s[k + 1..])) + multiset{Unsourced(s[k])}
  {
    hide Flip, Unsourced;
    RemoveOne(s, k);
    RemoveOne(Flips(s), k);
    RemoveOne(Unsourceds(s), k);
    assert Flips(s)[..k] + Flips(s)[k + 1..] == Flips(s[..k] + s[k + 1..]);
    assert Unsourceds(s)[..k] + Unsourceds(s)[k + 1..] == Unsourceds(s[..k] + s[k + 1..]);
  }

  lemma SortedReverses(o: IdOrder, d: seq<Delta>, e: seq<Delta>)
    requires Flipped(d, e)
    ensures Reverses(SortedChanges(o, d), SortedChanges(o, e))
  {
    hide TotalOrder, SortedBy, SortBy, Flip, Unsourced, FlipMaterial;
    SortByPermutes(ChangeKeyOf(), o.change, ChangesOf(d));
    SortByPermutes(ChangeKeyOf(), o.change, ChangesOf(e));
    MapPermutes(SortedChanges(o, d), ChangesOf(d));
    MapPermutes(SortedChanges(o, e), ChangesOf(e));
    assert Unsourceds(ChangesOf(e)) == Flips(ChangesOf(d));
  }

  lemma ItemsReversible(kind: Kind)
    ensures Reversible(ItemDeltas(kind))
  {
    hide Flipped, ItemDeltas;
    forall id, b, a ensures Flipped(ItemDeltas(kind)(id, b, a), ItemDeltas(kind)(id, a, b)) {
      ItemDeltasFlip(kind, id, b, a);
    }
  }

  lemma SourcesReversible()
    ensures Reversible(SourceDeltas())
  {
    hide Flipped, SourceDeltas;
    forall id, b, a ensures Flipped(SourceDeltas()(id, b, a), SourceDeltas()(id, a, b)) { SourceDeltasFlip(id, b, a); }
  }

  lemma ScalarsFlip(p: Context, c: Context)
    ensures Flipped(FreshnessDeltas(p.freshness, c.freshness), FreshnessDeltas(c.freshness, p.freshness))
    ensures Flipped(ConfidenceDeltas(p.confidence, c.confidence), ConfidenceDeltas(c.confidence, p.confidence))
  {
    hide FieldDelta, Flipped;
    var b, a := p.freshness, c.freshness;
    var k, v := FreshnessKind, ValueChanged;
    FieldDeltaFlips(k, None, v, v, "freshness_status", Text(b.status), Text(a.status));
    FieldDeltaFlips(k, None, v, v, "observed_at", OptText(b.observedAt), OptText(a.observedAt));
    FieldDeltaFlips(k, None, v, v, "source_age_seconds", Age(b), Age(a));
    FlippedTogether(FieldDelta(k, None, v, v, "freshness_status", Text(b.status), Text(a.status)),
                    FieldDelta(k, None, v, v, "freshness_status", Text(a.status), Text(b.status)),
                    FieldDelta(k, None, v, v, "observed_at", OptText(b.observedAt), OptText(a.observedAt)),
                    FieldDelta(k, None, v, v, "observed_at", OptText(a.observedAt), OptText(b.observedAt)));
    FlippedTogether(FieldDelta(k, None, v, v, "freshness_status", Text(b.status), Text(a.status)) +
                    FieldDelta(k, None, v, v, "observed_at", OptText(b.observedAt), OptText(a.observedAt)),
                    FieldDelta(k, None, v, v, "freshness_status", Text(a.status), Text(b.status)) +
                    FieldDelta(k, None, v, v, "observed_at", OptText(a.observedAt), OptText(b.observedAt)),
                    FieldDelta(k, None, v, v, "source_age_seconds", Age(b), Age(a)),
                    FieldDelta(k, None, v, v, "source_age_seconds", Age(a), Age(b)));
    var x, y := p.confidence, c.confidence;
    FieldDeltaFlips(ConfidenceKind, None, v, v, "level", Text(x.level), Text(y.level));
    FieldDeltaFlips(ConfidenceKind, None, v, v, "basis", Text(x.basis), Text(y.basis));
    FlippedTogether(FieldDelta(ConfidenceKind, None, v, v, "level", Text(x.level), Text(y.level)),
                    FieldDelta(ConfidenceKind, None, v, v, "level", Text(y.level), Text(x.level)),
                    FieldDelta(ConfidenceKind, None, v, v, "basis", Text(x.basis), Text(y.basis)),
                    FieldDelta(ConfidenceKind, None, v, v, "basis", Text(y.basis), Text(x.basis)));
  }

  ghost predicate PartsFlipped(d: Parts, e: Parts) {
    Flipped(d.evidence, e.evidence) && Flipped(d.contradictions, e.contradictions) &&
    Flipped(d.unresolved, e.unresolved) &&
    Flipped(d.freshness, e.freshness) && Flipped(d.confidence, e.confidence) && Flipped(d.provenance, e.provenance) &&
    Flipped(d.limitations, e.limitations)
  }

  lemma PartsFlip(p: Context, c: Context)
    ensures PartsOf(p, c).Some? <==> PartsOf(c, p).Some?
    ensures PartsOf(p, c).Some? ==> PartsFlipped(PartsOf(p, c).value, PartsOf(c, p).value)
  {
    hide Compare, Flipped, Reversible, EvidenceItems, ContradictionItems, UnresolvedItems, LimitationItems, Sources,
      ItemDeltas, SourceDeltas, FreshnessDeltas, ConfidenceDeltas;
    ItemsReversible(EvidenceKind);
    ItemsReversible(ContradictionKind);
    ItemsReversible(UnresolvedKind);
    ItemsReversible(LimitationKind);
    SourcesReversible();
    ScalarsFlip(p, c);
    CompareFlips(EvidenceItems(p), EvidenceItems(c), ItemId(), ItemDeltas(EvidenceKind));
    CompareFlips(ContradictionItems(p), ContradictionItems(c), ItemId(), ItemDeltas(ContradictionKind));
    CompareFlips(UnresolvedItems(p), UnresolvedItems(c), ItemId(), ItemDeltas(UnresolvedKind));
    CompareFlips(LimitationItems(p), LimitationItems(c), ItemId(), ItemDeltas(LimitationKind));
    CompareFlips(Sources(p), Sources(c), SourceId(), SourceDeltas());
  }

  ghost predicate MaterialsFlipped(s: seq<Material>, t: seq<Material>) {
    |s| == |t| && forall i :: 0 <= i < |s| ==> t[i] == FlipMaterial(s[i])
  }

  lemma MaterialsTogether(s: seq<Material>, t: seq<Material>, u: seq<Material>, v: seq<Material>)
    requires MaterialsFlipped(s, t) && MaterialsFlipped(u, v)
    ensures MaterialsFlipped(s + u, t + v)
  {
    hide FlipMaterial;
  }

  lemma MaterialsOfFlipped(d: seq<Delta>, e: seq<Delta>)
    requires Flipped(d, e)
    ensures MaterialsFlipped(MaterialsOf(d), MaterialsOf(e))
  {
    hide FlipMaterial, Flip, Unsourced;
  }

  lemma PartMaterialsFlip(p: Context, c: Context, d: Parts, e: Parts)
    requires PartsFlipped(d, e)
    ensures MaterialsFlipped(MaterialsOfParts(p, c, d), MaterialsOfParts(c, p, e))
  {
    hide Flipped, MaterialsOf;
    assert MaterialsFlipped(StatusMaterial(p, c), StatusMaterial(c, p));
    MaterialsOfFlipped(d.evidence, e.evidence);
    MaterialsOfFlipped(d.contradictions, e.contradictions);
    MaterialsOfFlipped(d.unresolved, e.unresolved);
    MaterialsOfFlipped(d.freshness, e.freshness);
    MaterialsOfFlipped(d.confidence, e.confidence);
    MaterialsOfFlipped(d.provenance, e.provenance);
    MaterialsOfFlipped(d.limitations, e.limitations);
    ManyTogether(p, c, d, e);
  }

  lemma ManyTogether(p: Context, c: Context, d: Parts, e: Parts)
    requires MaterialsFlipped(StatusMaterial(p, c), StatusMaterial(c, p)) &&
             MaterialsFlipped(MaterialsOf(d.evidence), MaterialsOf(e.evidence))
    requires MaterialsFlipped(MaterialsOf(d.contradictions), MaterialsOf(e.contradictions)) &&
             MaterialsFlipped(MaterialsOf(d.unresolved), MaterialsOf(e.unresolved))
    requires MaterialsFlipped(MaterialsOf(d.freshness), MaterialsOf(e.freshness)) &&
             MaterialsFlipped(MaterialsOf(d.confidence), MaterialsOf(e.confidence))
    requires MaterialsFlipped(MaterialsOf(d.provenance), MaterialsOf(e.provenance)) &&
             MaterialsFlipped(MaterialsOf(d.limitations), MaterialsOf(e.limitations))
    ensures MaterialsFlipped(MaterialsOfParts(p, c, d), MaterialsOfParts(c, p, e))
  {
    hide MaterialsFlipped, MaterialsOf, StatusMaterial;
    var s, t := StatusMaterial(p, c), StatusMaterial(c, p);
    MaterialsTogether(s, t, MaterialsOf(d.evidence), MaterialsOf(e.evidence));
    s, t := s + MaterialsOf(d.evidence), t + MaterialsOf(e.evidence);
    MaterialsTogether(s, t, MaterialsOf(d.contradictions), MaterialsOf(e.contradictions));
    s, t := s + MaterialsOf(d.contradictions), t + MaterialsOf(e.contradictions);
    MaterialsTogether(s, t, MaterialsOf(d.unresolved), MaterialsOf(e.unresolved));
    s, t := s + MaterialsOf(d.unresolved), t + MaterialsOf(e.unresolved);
    MaterialsTogether(s, t, MaterialsOf(d.freshness), MaterialsOf(e.freshness));
    s, t := s + MaterialsOf(d.freshness), t + MaterialsOf(e.freshness);
    MaterialsTogether(s, t, MaterialsOf(d.confidence), MaterialsOf(e.confidence));
    s, t := s + MaterialsOf(d.confidence), t + MaterialsOf(e.confidence);
    MaterialsTogether(s, t, MaterialsOf(d.provenance), MaterialsOf(e.provenance));
    s, t := s + MaterialsOf(d.provenance), t + MaterialsOf(e.provenance);
    MaterialsTogether(s, t, MaterialsOf(d.limitations), MaterialsOf(e.limitations));
  }

  function FlipMaterials(s: seq<Material>): seq<Material> { seq(|s|, i requires 0 <= i < |s| => FlipMaterial(s[i])) }

  lemma {:induction false} FlippedMaterialsPermute(s: seq<Material>, t: seq<Material>)
    requires multiset(s) == multiset(t)
    ensures multiset(FlipMaterials(s)) == multiset(FlipMaterials(t))
    decreases |s|
  {
    hide FlipMaterial;
    SameMembers(s, t);
    if s == [] {
    } else {
      assert s[0] in t;
      var k :| 0 <= k < |t| && t[k] == s[0];
      TakeOutMaterial(s, 0);
      TakeOutMaterial(t, k);
      CancelOne(multiset(s[..0] + s[1..]), multiset(t[..k] + t[k + 1..]), s[0]);
      FlippedMaterialsPermute(s[..0] + s[1..], t[..k] + t[k + 1..]);
    }
  }

  lemma TakeOutMaterial(s: seq<Material>, k: nat)
    requires k < |s|
    ensures multiset(s) == multiset(s[..k] + s[k + 1..]) + multiset{s[k]}
    ensures multiset(FlipMaterials(s)) == multiset(FlipMaterials(s[..k] + s[k + 1..])) + multiset{FlipMaterial(s[k])}
  {
    hide FlipMaterial;
    assert s == s[..k] + ([s[k]] + s[k + 1..]);
    assert FlipMaterials(s) == FlipMaterials(s)[..k] + ([FlipMaterials(s)[k]] + FlipMaterials(s)[k + 1..]);
    assert FlipMaterials(s)[..k] + FlipMaterials(s)[k + 1..] == FlipMaterials(s[..k] + s[k + 1..]);
  }

  lemma SortedMaterialsReverse(o: IdOrder, s: seq<Material>, t: seq<Material>)
    requires MaterialsFlipped(s, t)
    ensures multiset(SortBy(MaterialKeyOf(), o.material, t)) ==
              multiset(FlipMaterials(SortBy(MaterialKeyOf(), o.material, s)))
    ensures SortBy(MaterialKeyOf(), o.material, t) == [] <==> SortBy(MaterialKeyOf(), o.material, s) == []
  {
    hide TotalOrder, SortedBy, SortBy, FlipMaterial;
    SortByPermutes(MaterialKeyOf(), o.material, s);
    SortByPermutes(MaterialKeyOf(), o.material, t);
    FlippedMaterialsPermute(SortBy(MaterialKeyOf(), o.material, s), s);
    assert t == FlipMaterials(s);
  }

  /**
   * Swapping the contexts turns every change around: added and removed, previous and current change places.
   * The source an evidence change names is the exception, see SourceIsCurrent.
   */
  lemma SwapReverses(o: IdOrder, p: Context, c: Context)
    ensures Build(o, p, c).Some? <==> Build(o, c, p).Some?
    ensures Build(o, p, c).Some? ==>
      var r, t := Build(o, p, c).value, Build(o, c, p).value;
      r.status == t.status && r.insufficientBasis == t.insufficientBasis &&
      multiset(t.material) == multiset(FlipMaterials(r.material)) &&
      Reverses(r.evidence, t.evidence) && Reverses(r.contradictions, t.contradictions) &&
      Reverses(r.unresolved, t.unresolved) &&
      Reverses(r.freshness, t.freshness) && Reverses(r.confidence, t.confidence) &&
      Reverses(r.provenance, t.provenance) &&
      Reverses(r.limitations, t.limitations)
  {
    hide PartsOf, Flipped, SortedChanges, Reverses, MaterialsOfParts, SortBy;
    PartsFlip(p, c);
    if Build(o, p, c).Some? {
      var d, e := PartsOf(p, c).value, PartsOf(c, p).value;
      PartMaterialsFlip(p, c, d, e);
      SortedMaterialsReverse(o, MaterialsOfParts(p, c, d), MaterialsOfParts(c, p, e));
      SortedReverses(o, d.evidence, e.evidence);
      SortedReverses(o, d.contradictions, e.contradictions);
      SortedReverses(o, d.unresolved, e.unresolved);
      SortedReverses(o, d.freshness, e.freshness);
      SortedReverses(o, d.confidence, e.confidence);
      SortedReverses(o, d.provenance, e.provenance);
      SortedReverses(o, d.limitations, e.limitations);
    }
  }

  ghost predicate SameSources(d: seq<Delta>, e: seq<Delta>) {
    |d| == |e| && forall i :: 0 <= i < |d| ==> d[i].change.source == e[i].change.source
  }

  /**
   * An evidence change names the source of the current item, so the swapped comparison names the same sources
   * exactly when the item's source did not change.
   */
  lemma SourceIsCurrent(id: string, b: Option<Item>, a: Option<Item>)
    requires (b.Some? ==> b.value.content.EvidenceContent?) && (a.Some? ==> a.value.content.EvidenceContent?)
    ensures SameSources(ItemDeltas(EvidenceKind)(id, b, a), ItemDeltas(EvidenceKind)(id, a, b)) <==>
            (b.Some? && a.Some? ==> b.value.content.source == a.value.content.source)
  {
    hide Treatment, StateOf, MaterialType, ItemField;
    var d, e := ItemDeltas(EvidenceKind)(id, b, a), ItemDeltas(EvidenceKind)(id, a, b);
    if b.Some? && a.Some? && b.value.content.source != a.value.content.source {
      assert d[|d| - 1].change.source == Some(a.value.content.source) &&
        e[|e| - 1].change.source == Some(b.value.content.source);
    }
  }
}
