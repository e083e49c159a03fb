/** What each list of a context delta says about the two contexts, entry by entry. */
module DeltaReport {
  import opened Wrappers
  import opened Orders
  import opened Keyed
  import opened ContextDelta

  // ---- the changes of an item, spelled out ----

  /** The field names a material change of an item uses, and the type it gives to a change of state. */
  datatype Naming = Naming(state: string, content: string, item: string, stateType: ChangeType)

  const EVIDENCE := Naming("evidence_status", "content", "evidence", StateChanged)
  const CONTRADICTION := Naming("status", "contradiction", "contradiction", StateChanged)
  const UNRESOLVED := Naming("status", "unresolved_evidence", "unresolved_evidence", StateChanged)
  const LIMITATION := Naming("impact", "limitation", "limitation", ValueChanged)

  function NamedSource(x: Item): Option<string> {
    match x.content
    case EvidenceContent(source, _) => Some(source)
    case _ => None
  }

  /** Evidence changes carry no treatment. */
  function Handled(kind: Kind, how: string): Option<string> { if kind == EvidenceKind then None else Some(how) }

  ghost predicate AbsentFrom(s: seq<Item>, id: string) { forall x :: x in s ==> x.id != id }

  ghost predicate SaysAdded(kind: Kind, names: Naming, p: seq<Item>, c: seq<Item>, a: Item, d: Delta) {
    a in c && AbsentFrom(p, a.id) &&
    d == Delta(Change(ChangeKey(kind, Some(a.id), Added, Missing, Missing), Added, NamedSource(a), "", Null,
                      Text(a.state), Handled(kind, "structural_change_only")),
               Material(kind, Added, Some(a.id), names.item, Missing, Missing))
  }

  ghost predicate SaysRemoved(kind: Kind, names: Naming, p: seq<Item>, c: seq<Item>, b: Item, d: Delta) {
    b in p && AbsentFrom(c, b.id) &&
    d == Delta(Change(ChangeKey(kind, Some(b.id), Removed, Missing, Missing), Removed, NamedSource(b), "",
                      Text(b.state), Null, Handled(kind, "removed_from_current_bounded_context")),
               Material(kind, Removed, Some(b.id), names.item, Missing, Missing))
  }

  ghost predicate Kept(p: seq<Item>, c: seq<Item>, b: Item, a: Item) { b in p && a in c && b.id == a.id }

  ghost predicate SaysState(kind: Kind, names: Naming, p: seq<Item>, c: seq<Item>, b: Item, a: Item, d: Delta) {
    Kept(p, c, b, a) && b.state != a.state &&
    d == Delta(Change(ChangeKey(kind, Some(b.id), StateChanged, Text(b.state), Text(a.state)), StateChanged,
                      NamedSource(a), "", Text(b.state), Text(a.state), Handled(kind, "structural_change_only")),
               Material(kind, names.stateType, Some(b.id), names.state, Text(b.state), Text(a.state)))
  }

  ghost predicate SaysContent(kind: Kind, names: Naming, p: seq<Item>, c: seq<Item>, b: Item, a: Item, d: Delta) {
    Kept(p, c, b, a) && b.content != a.content &&
    d == Delta(Change(ChangeKey(kind, Some(b.id), ContentChanged, Whole(b.content), Whole(a.content)), ContentChanged,
                      NamedSource(a), "", Text(b.state), Text(a.state), Handled(kind, "structural_change_only")),
               Material(kind, ContentChanged, Some(b.id), names.content, Whole(b.content), Whole(a.content)))
  }

  ghost predicate ItemSays(kind: Kind, names: Naming, p: seq<Item>, c: seq<Item>, d: Delta) {
    (exists a :: SaysAdded(kind, names, p, c, a, d)) || (exists b :: SaysRemoved(kind, names, p, c, b, d)) ||
    (exists b, a :: SaysState(kind, names, p, c, b, a, d)) || (exists b, a :: SaysContent(kind, names, p, c, b, a, d))
  }

  // ---- the changes of fields, spelled out ----

  /** A field change: previous and current value, once in its own list and once among the material changes. */
  ghost predicate FieldSays(kind: Kind, id: Option<string>, what: ChangeType, material: ChangeType, field: string,
      b: Value, a: Value, d: Delta) {
    b != a &&
    d == Delta(Change(ChangeKey(kind, id, FieldChanged(field), b, a), what, None, field, b, a, None),
               Material(kind, material, id, field, b, a))
  }

  ghost predicate FreshnessSays(b: Freshness, a: Freshness, d: Delta) {
    FieldSays(FreshnessKind, None, ValueChanged, ValueChanged, "freshness_status", Text(b.status), Text(a.status), d) ||
    FieldSays(FreshnessKind, None, ValueChanged, ValueChanged, "observed_at", TextOrNull(b.observedAt),
              TextOrNull(a.observedAt), d) ||
    FieldSays(FreshnessKind, None, ValueChanged, ValueChanged, "source_age_seconds", NumberOrNull(b.ageSeconds),
              NumberOrNull(a.ageSeconds), d)
  }

  function TextOrNull(s: Option<string>): Value {
    match s
    case Some(t) => Text(t)
    case None => Null
  }

  function NumberOrNull(n: Option<nat>): Value {
    match n
    case Some(k) => Number(k)
    case None => Null
  }

  ghost predicate ConfidenceSays(b: Confidence, a: Confidence, d: Delta) {
    FieldSays(ConfidenceKind, None, ValueChanged, ValueChanged, "level", Text(b.level), Text(a.level), d) ||
    FieldSays(ConfidenceKind, None, ValueChanged, ValueChanged, "basis", Text(b.basis), Text(a.basis), d)
  }

  ghost predicate SourceFieldSays(b: Provenance, a: Provenance, d: Delta) {
    var id := Some(b.source);
    FieldSays(ProvenanceKind, id, FieldChanged("source_status"), StateChanged, "source_status", Text(b.sourceStatus),
              Text(a.sourceStatus), d) ||
    FieldSays(ProvenanceKind, id, FieldChanged("claim_reconciliation_status"), StateChanged,
              "claim_reconciliation_status", Text(b.reconciliation), Text(a.reconciliation), d) ||
    FieldSays(ProvenanceKind, id, FieldChanged("contribution_scope"), ScopeChanged, "contribution_scope",
              Texts(b.contributionScope), Texts(a.contributionScope), d) ||
    FieldSays(ProvenanceKind, id, FieldChanged("source_type"), ContentChanged, "source_type", Text(b.sourceType),
              Text(a.sourceType), d) ||
    FieldSays(ProvenanceKind, id, FieldChanged("observed_at"), ValueChanged, "observed_at", TextOrNull(b.observedAt),
              TextOrNull(a.observedAt), d)
  }

  ghost predicate SourceSays(what: ChangeType, id: string, b: Value, a: Value, d: Delta) {
    d == Delta(Change(ChangeKey(ProvenanceKind, Some(id), what, Missing, Missing), what, None, "source", b, a, None),
               Material(ProvenanceKind, what, Some(id), "source", Missing, Missing))
  }

  ghost predicate NoSource(s: seq<Provenance>, id: string) { forall x :: x in s ==> x.source != id }

  ghost predicate SourceAdded(p: seq<Provenance>, c: seq<Provenance>, a: Provenance, d: Delta) {
    a in c && NoSource(p, a.source) && SourceSays(Added, a.source, Null, Text(a.source), d)
  }

  ghost predicate SourceRemoved(p: seq<Provenance>, c: seq<Provenance>, b: Provenance, d: Delta) {
    b in p && NoSource(c, b.source) && SourceSays(Removed, b.source, Text(b.source), Null, d)
  }

  ghost predicate SourceChanged(p: seq<Provenance>, c: seq<Provenance>, b: Provenance, a: Provenance, d: Delta) {
    b in p && a in c && b.source == a.source && SourceFieldSays(b, a, d)
  }

  ghost predicate ProvenanceSays(p: seq<Provenance>, c: seq<Provenance>, d: Delta) {
    (exists a :: SourceAdded(p, c, a, d)) || (exists b :: SourceRemoved(p, c, b, d)) ||
    (exists b, a :: SourceChanged(p, c, b, a, d))
  }

  // ---- one list ----

  ghost predicate Holds<E>(s: seq<E>, idOf: E -> string, id: string, x: Option<E>) {
    if x.Some? then x.value in s && idOf(x.value) == id else forall e :: e in s ==> idOf(e) != id
  }

  /** What both sides hold under an id that at least one of them has. */
  ghost predicate Pairs<E>(p: seq<E>, c: seq<E>, idOf: E -> string, id: string, b: Option<E>, a: Option<E>) {
    (b.Some? || a.Some?) && Holds(p, idOf, id, b) && Holds(c, idOf, id, a)
  }

  lemma AtHolds<E>(s: seq<E>, idOf: E -> string, id: string, x: Option<E>)
    requires Index(s, idOf).Some?
    ensures At(Index(s, idOf).value, id) == x <==> Holds(s, idOf, id, x)
  {
    hide Index;
    IndexIs(s, idOf);
    DistinctIds(s, idOf);
    var m := Index(s, idOf).value;
    if x.Some? && Holds(s, idOf, id, x) { assert m[id] == x.value; }
    if x.None? && id in m { assert m[id] in s && idOf(m[id]) == id; }
    if x.None? && id !in m {
      forall e | e in s ensures idOf(e) != id { assert idOf(e) in m; }
    }
  }

  /** The deltas of a comparison are those of the ids, each with what both sides hold under it. */
  lemma CompareSays<E>(p: seq<E>, c: seq<E>, idOf: E -> string, deltas: (string, Option<E>, Option<E>) -> seq<Delta>,
      d: Delta)
    requires Compare(p, c, idOf, deltas).Some?
    ensures d in Compare(p, c, idOf, deltas).value <==>
              exists id, b, a :: Pairs(p, c, idOf, id, b, a) && d in deltas(id, b, a)
  {
    hide Walk, UnionIds, Index, Ids, Distinct, Holds;
    var m, n := Index(p, idOf).value, Index(c, idOf).value;
    var ids := UnionIds(Ids(p, idOf), Ids(c, idOf));
    DistinctIds(p, idOf);
    DistinctIds(c, idOf);
    UnionIdsIs(Ids(p, idOf), Ids(c, idOf));
    WalkMembers(ids, m, n, deltas, d);
    if d in Walk(ids, m, n, deltas) {
      var i :| 0 <= i < |ids| && d in deltas(ids[i], At(m, ids[i]), At(n, ids[i]));
      AtHolds(p, idOf, ids[i], At(m, ids[i]));
      AtHolds(c, idOf, ids[i], At(n, ids[i]));
      assert ids[i] in ids;
      assert Pairs(p, c, idOf, ids[i], At(m, ids[i]), At(n, ids[i]));
    }
    if id, b, a :| Pairs(p, c, idOf, id, b, a) && d in deltas(id, b, a) {
      AtHolds(p, idOf, id, b);
      AtHolds(c, idOf, id, a);
      assert id in ids;
      var i :| 0 <= i < |ids| && ids[i] == id;
    }
  }

  ghost predicate NamesFit(kind: Kind, names: Naming) {
    (kind == EvidenceKind && names == EVIDENCE) || (kind == ContradictionKind && names == CONTRADICTION) ||
    (kind == UnresolvedKind && names == UNRESOLVED) || (kind == LimitationKind && names == LIMITATION)
  }

  lemma HoldsItem(s: seq<Item>, id: string, x: Option<Item>)
    ensures Holds(s, ItemId(), id, x) <==> if x.Some? then x.value in s && x.value.id == id else AbsentFrom(s, id)
  {
    if x.None? && AbsentFrom(s, id) {
      forall e | e in s ensures ItemId()(e) != id {}
    }
    if x.None? && Holds(s, ItemId(), id, x) {
      forall e | e in s ensures e.id != id { assert ItemId()(e) != id; }
    }
  }

  lemma HoldsSource(s: seq<Provenance>, id: string, x: Option<Provenance>)
    ensures Holds(s, SourceId(), id, x) <==> if x.Some? then x.value in s && x.value.source == id else NoSource(s, id)
  {
    if x.None? && NoSource(s, id) {
      forall e | e in s ensures SourceId()(e) != id {}
    }
    if x.None? && Holds(s, SourceId(), id, x) {
      forall e | e in s ensures e.source != id { assert SourceId()(e) != id; }
    }
  }

  /** The deltas of an id that one side lacks, or that both sides hold, in terms of the cases above. */
  lemma OneSided(kind: Kind, names: Naming, p: seq<Item>, c: seq<Item>, id: string, x: Item, d: Delta)
    requires NamesFit(kind, names) && x.id == id
    ensures x in c && AbsentFrom(p, id) ==>
              (d in ItemDeltas(kind)(id, None, Some(x)) <==> SaysAdded(kind, names, p, c, x, d))
    ensures x in p && AbsentFrom(c, id) ==>
              (d in ItemDeltas(kind)(id, Some(x), None) <==> SaysRemoved(kind, names, p, c, x, d))
  {
    hide AbsentFrom;
    var added := ItemDelta(kind, Added, id, None, Some(x), SourceOf(x), Missing, Missing);
    var removed := ItemDelta(kind, Removed, id, Some(x), None, SourceOf(x), Missing, Missing);
    assert ItemDeltas(kind)(id, None, Some(x)) == [added];
    assert ItemDeltas(kind)(id, Some(x), None) == [removed];
    assert x in c && AbsentFrom(p, id) ==> (d == added <==> SaysAdded(kind, names, p, c, x, d));
    assert x in p && AbsentFrom(c, id) ==> (d == removed <==> SaysRemoved(kind, names, p, c, x, d));
  }

  lemma TwoSided(kind: Kind, names: Naming, p: seq<Item>, c: seq<Item>, b: Item, a: Item, d: Delta)
    requires NamesFit(kind, names) && Kept(p, c, b, a)
    ensures d in StateDelta(kind, b.id, b, a) <==> SaysState(kind, names, p, c, b, a, d)
    ensures d in ContentDelta(kind, b.id, b, a) <==> SaysContent(kind, names, p, c, b, a, d)
    ensures d in ItemDeltas(kind)(b.id, Some(b), Some(a)) <==>
              d in StateDelta(kind, b.id, b, a) || d in ContentDelta(kind, b.id, b, a)
  {
  }

  lemma ItemSaysFrom(kind: Kind, names: Naming, p: seq<Item>, c: seq<Item>, id: string, b: Option<Item>,
      a: Option<Item>, d: Delta)
    requires NamesFit(kind, names) && Pairs(p, c, ItemId(), id, b, a) && d in ItemDeltas(kind)(id, b, a)
    ensures ItemSays(kind, names, p, c, d)
  {
    hide NamesFit, Holds, ItemDeltas, SaysAdded, SaysRemoved, SaysState, SaysContent, StateDelta, ContentDelta,
      AbsentFrom;
    HoldsItem(p, id, b);
    HoldsItem(c, id, a);
    if b.None? {
      OneSided(kind, names, p, c, id, a.value, d);
    } else if a.None? {
      OneSided(kind, names, p, c, id, b.value, d);
    } else {
      TwoSided(kind, names, p, c, b.value, a.value, d);
    }
  }

  lemma ItemSaysTo(kind: Kind, names: Naming, p: seq<Item>, c: seq<Item>, d: Delta)
    returns (id: string, b: Option<Item>, a: Option<Item>)
    requires NamesFit(kind, names) && ItemSays(kind, names, p, c, d)
    ensures Pairs(p, c, ItemId(), id, b, a) && d in ItemDeltas(kind)(id, b, a)
  {
    hide NamesFit, Holds, ItemDeltas, StateDelta, ContentDelta, AbsentFrom;
    if x :| SaysAdded(kind, names, p, c, x, d) {
      id, b, a := x.id, None, Some(x);
      OneSided(kind, names, p, c, id, x, d);
    } else if x :| SaysRemoved(kind, names, p, c, x, d) {
      id, b, a := x.id, Some(x), None;
      OneSided(kind, names, p, c, id, x, d);
    } else if x, y :| SaysState(kind, names, p, c, x, y, d) {
      id, b, a := x.id, Some(x), Some(y);
      TwoSided(kind, names, p, c, x, y, d);
    } else {
      var x, y :| SaysContent(kind, names, p, c, x, y, d);
      id, b, a := x.id, Some(x), Some(y);
      TwoSided(kind, names, p, c, x, y, d);
    }
    HoldsItem(p, id, b);
    HoldsItem(c, id, a);
  }

  lemma ItemsSay(kind: Kind, names: Naming, p: seq<Item>, c: seq<Item>, d: Delta)
    requires NamesFit(kind, names) && Compare(p, c, ItemId(), ItemDeltas(kind)).Some?
    ensures d in Compare(p, c, ItemId(), ItemDeltas(kind)).value <==> ItemSays(kind, names, p, c, d)
  {
    hide Compare, ItemSays, NamesFit, Pairs;
    CompareSays(p, c, ItemId(), ItemDeltas(kind), d);
    if id, b, a :| Pairs(p, c, ItemId(), id, b, a) && d in ItemDeltas(kind)(id, b, a) {
      ItemSaysFrom(kind, names, p, c, id, b, a, d);
    }
    if ItemSays(kind, names, p, c, d) { var id, b, a := ItemSaysTo(kind, names, p, c, d); }
  }

  lemma FieldIs(kind: Kind, id: Option<string>, what: ChangeType, material: ChangeType, field: string, b: Value,
      a: Value, d: Delta)
    ensures d in FieldDelta(kind, id, what, material, field, b, a) <==>
              FieldSays(kind, id, what, material, field, b, a, d)
  {
  }

  lemma SourceFieldsSay(b: Provenance, a: Provenance, d: Delta)
    ensures d in FieldDeltas(b.source, b, a) <==> SourceFieldSays(b, a, d)
  {
    hide FieldDelta, FieldSays;
    var id := Some(b.source);
    FieldIs(ProvenanceKind, id, FieldChanged("source_status"), StateChanged, "source_status", Text(b.sourceStatus),
      Text(a.sourceStatus), d);
    FieldIs(ProvenanceKind, id, FieldChanged("claim_reconciliation_status"), StateChanged,
      "claim_reconciliation_status", Text(b.reconciliation), Text(a.reconciliation), d);
    FieldIs(ProvenanceKind, id, FieldChanged("contribution_scope"), ScopeChanged, "contribution_scope",
      Texts(b.contributionScope), Texts(a.contributionScope), d);
    FieldIs(ProvenanceKind, id, FieldChanged("source_type"), ContentChanged, "source_type", Text(b.sourceType),
      Text(a.sourceType), d);
    FieldIs(ProvenanceKind, id, FieldChanged("observed_at"), ValueChanged, "observed_at", TextOrNull(b.observedAt),
      TextOrNull(a.observedAt), d);
  }

  lemma FreshnessListSays(b: Freshness, a: Freshness, d: Delta)
    ensures d in FreshnessDeltas(b, a) <==> FreshnessSays(b, a, d)
  {
    hide FieldDelta, FieldSays;
    FieldIs(FreshnessKind, None, ValueChanged, ValueChanged, "freshness_status", Text(b.status), Text(a.status), d);
    FieldIs(FreshnessKind, None, ValueChanged, ValueChanged, "observed_at", TextOrNull(b.observedAt),
      TextOrNull(a.observedAt), d);
    FieldIs(FreshnessKind, None, ValueChanged, ValueChanged, "source_age_seconds", NumberOrNull(b.ageSeconds),
      NumberOrNull(a.ageSeconds), d);
  }

  lemma ConfidenceListSays(b: Confidence, a: Confidence, d: Delta)
    ensures d in ConfidenceDeltas(b, a) <==> ConfidenceSays(b, a, d)
  {
    hide FieldDelta, FieldSays;
    FieldIs(ConfidenceKind, None, ValueChanged, ValueChanged, "level", Text(b.level), Text(a.level), d);
    FieldIs(ConfidenceKind, None, ValueChanged, ValueChanged, "basis", Text(b.basis), Text(a.basis), d);
  }

  /** The deltas of a source, in terms of the cases above. */
  lemma SourceCases(p: seq<Provenance>, c: seq<Provenance>, x: Provenance, y: Provenance, d: Delta)
    ensures x in c && NoSource(p, x.source) ==>
              (d in SourceDeltas()(x.source, None, Some(x)) <==> SourceAdded(p, c, x, d))
    ensures x in p && NoSource(c, x.source) ==>
              (d in SourceDeltas()(x.source, Some(x), None) <==> SourceRemoved(p, c, x, d))
    ensures x in p && y in c && x.source == y.source ==>
              (d in SourceDeltas()(x.source, Some(x), Some(y)) <==> SourceChanged(p, c, x, y, d))
  {
    hide NoSource, FieldDeltas, SourceFieldSays;
    SourceFieldsSay(x, y, d);
    assert SourceDeltas()(x.source, None, Some(x)) == [SourceDelta(Added, x.source, Null, Text(x.source))];
    assert SourceDeltas()(x.source, Some(x), None) == [SourceDelta(Removed, x.source, Text(x.source), Null)];
  }

  lemma SourcesSay(p: seq<Provenance>, c: seq<Provenance>, d: Delta)
    requires Compare(p, c, SourceId(), SourceDeltas()).Some?
    ensures d in Compare(p, c, SourceId(), SourceDeltas()).value <==> ProvenanceSays(p, c, d)
  {
    hide Compare, SourceFieldSays, Holds, SourceDeltas, NoSource, SourceSays;
    CompareSays(p, c, SourceId(), SourceDeltas(), d);
    if id, b, a :| Pairs(p, c, SourceId(), id, b, a) && d in SourceDeltas()(id, b, a) {
      HoldsSource(p, id, b);
      HoldsSource(c, id, a);
      var x := if b.Some? then b.value else a.value;
      SourceCases(p, c, x, if a.Some? then a.value else x, d);
    }
    if x :| SourceAdded(p, c, x, d) {
      HoldsSource(p, x.source, None);
      HoldsSource(c, x.source, Some(x));
      SourceCases(p, c, x, x, d);
      assert Pairs(p, c, SourceId(), x.source, None, Some(x));
    }
    if x :| SourceRemoved(p, c, x, d) {
      HoldsSource(p, x.source, Some(x));
      HoldsSource(c, x.source, None);
      SourceCases(p, c, x, x, d);
      assert Pairs(p, c, SourceId(), x.source, Some(x), None);
    }
    if x, y :| SourceChanged(p, c, x, y, d) {
      HoldsSource(p, x.source, Some(x));
      HoldsSource(c, x.source, Some(y));
      SourceCases(p, c, x, y, d);
      assert Pairs(p, c, SourceId(), x.source, Some(x), Some(y));
    }
  }

  // ---- nothing twice ----

  ghost predicate Single<T>(s: seq<T>) { forall i, j :: 0 <= i < j < |s| ==> s[i] != s[j] }

  ghost predicate Once(s: seq<Delta>) {
    forall i, j :: 0 <= i < j < |s| ==> s[i].change != s[j].change && s[i].material != s[j].material
  }

  ghost predicate Unlike(d: Delta, e: Delta) { d.change != e.change && d.material != e.material }

  lemma OnceAppend(a: seq<Delta>, b: seq<Delta>)
    requires Once(a) && Once(b) && forall d, e :: d in a && e in b ==> Unlike(d, e)
    ensures Once(a + b)
  {
    forall i, j | 0 <= i < j < |a + b|
      ensures (a + b)[i].change != (a + b)[j].change && (a + b)[i].material != (a + b)[j].material
    {
      if i < |a| <= j { assert Unlike(a[i], b[j - |a|]); }
    }
  }

  /** The deltas of one id name it, and none comes twice. */
  ghost predicate Own(id: string, s: seq<Delta>) {
    Once(s) && forall d :: d in s ==> d.change.key.id == Some(id) && d.material.id == Some(id)
  }

  lemma {:induction false} WalkOnce<E(!new)>(ids: seq<string>, m: map<string, E>, n: map<string, E>,
      deltas: (string, Option<E>, Option<E>) -> seq<Delta>)
    requires Distinct(ids) && forall id, b, a :: Own(id, deltas(id, b, a))
    ensures Once(Walk(ids, m, n, deltas))
    ensures forall d :: d in Walk(ids, m, n, deltas) ==>
              d.change.key.id.Some? && d.material.id == d.change.key.id && d.change.key.id.value in ids
    decreases |ids|
  {
    if ids == [] {
    } else {
      var last := |ids| - 1;
      var id := ids[last];
      WalkOnce(ids[..last], m, n, deltas);
      assert Own(id, deltas(id, At(m, id), At(n, id)));
      assert id !in ids[..last];
      assert ids == ids[..last] + [id];
      OnceAppend(Walk(ids[..last], m, n, deltas), deltas(id, At(m, id), At(n, id)));
    }
  }

  lemma CompareOnce<E(!new)>(p: seq<E>, c: seq<E>, idOf: E -> string,
      deltas: (string, Option<E>, Option<E>) -> seq<Delta>)
    requires Compare(p, c, idOf, deltas).Some? && forall id, b, a :: Own(id, deltas(id, b, a))
    ensures Once(Compare(p, c, idOf, deltas).value)
  {
    hide Walk, UnionIds, Index, Ids, Distinct, Own;
    DistinctIds(p, idOf);
    DistinctIds(c, idOf);
    UnionIdsIs(Ids(p, idOf), Ids(c, idOf));
    WalkOnce(UnionIds(Ids(p, idOf), Ids(c, idOf)), Index(p, idOf).value, Index(c, idOf).value, deltas);
  }

  lemma OneOwn(id: string, d: Delta)
    requires d.change.key.id == Some(id) && d.material.id == Some(id)
    ensures Own(id, [d]) && Own(id, [])
  {
  }

  lemma TwoOwn(kind: Kind, id: string, b: Item, a: Item)
    ensures Own(id, StateDelta(kind, id, b, a) + ContentDelta(kind, id, b, a))
  {
  }

  lemma ItemOwn(kind: Kind, id: string, b: Option<Item>, a: Option<Item>)
    ensures Own(id, ItemDeltas(kind)(id, b, a))
  {
    hide StateDelta, ContentDelta, Own, ItemDelta;
    if b.Some? && a.Some? {
      TwoOwn(kind, id, b.value, a.value);
    } else if a.Some? {
      ItemDeltaNames(kind, Added, id, b, a, SourceOf(a.value));
      OneOwn(id, ItemDelta(kind, Added, id, b, a, SourceOf(a.value), Missing, Missing));
    } else if b.Some? {
      ItemDeltaNames(kind, Removed, id, b, a, SourceOf(b.value));
      OneOwn(id, ItemDelta(kind, Removed, id, b, a, SourceOf(b.value), Missing, Missing));
    } else {
      NoneOwn(id);
    }
  }

  lemma ItemDeltaNames(kind: Kind, what: ChangeType, id: string, b: Option<Item>, a: Option<Item>,
      source: Option<string>)
    ensures var d := ItemDelta(kind, what, id, b, a, source, Missing, Missing);
            d.change.key.id == Some(id) && d.material.id == Some(id)
  {
  }

  lemma NoneOwn(id: string)
    ensures Own(id, [])
  {
  }

  lemma ItemsOwn(kind: Kind)
    ensures forall id, b, a :: Own(id, ItemDeltas(kind)(id, b, a))
  {
    hide Own, ItemDeltas;
    forall id, b: Option<Item>, a: Option<Item> ensures Own(id, ItemDeltas(kind)(id, b, a)) {
      ItemOwn(kind, id, b, a);
    }
  }

  /** Deltas of certain fields only. */
  ghost predicate About(s: seq<Delta>, fields: set<string>) {
    Once(s) && forall d :: d in s ==> d.change.field in fields && d.material.field in fields
  }

  lemma AboutAppend(a: seq<Delta>, f: set<string>, b: seq<Delta>, g: set<string>)
    requires About(a, f) && About(b, g) && f !! g
    ensures About(a + b, f + g)
  {
    forall d, e | d in a && e in b ensures Unlike(d, e) { assert d.change.field in f && e.change.field in g; }
    OnceAppend(a, b);
  }

  lemma AboutOne(d: Delta, field: string)
    requires d.change.field == field && d.material.field == field
    ensures About([d], {field}) && About([], {field})
  {
  }

  lemma AboutField(kind: Kind, id: Option<string>, what: ChangeType, material: ChangeType, field: string, b: Value,
      a: Value)
    ensures About(FieldDelta(kind, id, what, material, field, b, a), {field})
    ensures forall d :: d in FieldDelta(kind, id, what, material, field, b, a) ==>
              d.change.key.id == id && d.material.id == id && d.material.kind == kind
  {
    hide About;
    AboutOne(Delta(Change(ChangeKey(kind, id, FieldChanged(field), b, a), what, None, field, b, a, None),
                   Material(kind, material, id, field, b, a)), field);
  }

  lemma FieldNamesDiffer()
    ensures "source_status" !in {"claim_reconciliation_status", "contribution_scope", "source_type", "observed_at"}
    ensures "claim_reconciliation_status" !in {"contribution_scope", "source_type", "observed_at"}
    ensures "contribution_scope" !in {"source_type", "observed_at"}
    ensures "source_type" != "observed_at"
    ensures "freshness_status" !in {"observed_at", "source_age_seconds"} && "observed_at" != "source_age_seconds"
    ensures "level" != "basis"
  {
    assert "source_status"[7] == 's' && "source_type"[7] == 't';
    assert "source_status"[0] == 's' && "claim_reconciliation_status"[0] == 'c' && "contribution_scope"[0] == 'c';
    assert "claim_reconciliation_status"[1] == 'l' && "contribution_scope"[1] == 'o';
    assert "source_type"[0] == 's' && "observed_at"[0] == 'o' && "freshness_status"[0] == 'f';
    assert "source_age_seconds"[0] == 's' && "level"[0] == 'l' && "basis"[0] == 'b';
  }

  lemma FieldsOwn(id: string, b: Provenance, a: Provenance)
    ensures Own(id, FieldDeltas(id, b, a))
  {
    hide FieldDelta, About, Once;
    var i := Some(id);
    var status := FieldDelta(ProvenanceKind, i, FieldChanged("source_status"), StateChanged, "source_status",
                             Text(b.sourceStatus), Text(a.sourceStatus));
    var claims := FieldDelta(ProvenanceKind, i, FieldChanged("claim_reconciliation_status"), StateChanged,
                             "claim_reconciliation_status", Text(b.reconciliation), Text(a.reconciliation));
    var scope := FieldDelta(ProvenanceKind, i, FieldChanged("contribution_scope"), ScopeChanged, "contribution_scope",
                            Texts(b.contributionScope), Texts(a.contributionScope));
    var kind := FieldDelta(ProvenanceKind, i, FieldChanged("source_type"), ContentChanged, "source_type",
                           Text(b.sourceType), Text(a.sourceType));
    var time := FieldDelta(ProvenanceKind, i, FieldChanged("observed_at"), ValueChanged, "observed_at",
                           OptText(b.observedAt), OptText(a.observedAt));
    AboutField(ProvenanceKind, i, FieldChanged("source_status"), StateChanged, "source_status", Text(b.sourceStatus),
      Text(a.sourceStatus));
    AboutField(ProvenanceKind, i, FieldChanged("claim_reconciliation_status"), StateChanged,
      "claim_reconciliation_status", Text(b.reconciliation), Text(a.reconciliation));
    AboutField(ProvenanceKind, i, FieldChanged("contribution_scope"), ScopeChanged, "contribution_scope",
      Texts(b.contributionScope), Texts(a.contributionScope));
    AboutField(ProvenanceKind, i, FieldChanged("source_type"), ContentChanged, "source_type", Text(b.sourceType),
      Text(a.sourceType));
    AboutField(ProvenanceKind, i, FieldChanged("observed_at"), ValueChanged, "observed_at", OptText(b.observedAt),
      OptText(a.observedAt));
    FiveFields(status, claims, scope, kind, time);
    assert FieldDeltas(id, b, a) == status + claims + scope + kind + time;
  }

  lemma FiveFields(status: seq<Delta>, claims: seq<Delta>, scope: seq<Delta>, kind: seq<Delta>, time: seq<Delta>)
    requires About(status, {"source_status"}) && About(claims, {"claim_reconciliation_status"})
    requires About(scope, {"contribution_scope"}) && About(kind, {"source_type"}) && About(time, {"observed_at"})
    ensures Once(status + claims + scope + kind + time)
  {
    FieldNamesDiffer();
    hide About, Once;
    AboutAppend(status, {"source_status"}, claims, {"claim_reconciliation_status"});
    AboutAppend(status + claims, {"source_status"} + {"claim_reconciliation_status"}, scope, {"contribution_scope"});
    var three := {"source_status"} + {"claim_reconciliation_status"} + {"contribution_scope"};
    AboutAppend(status + claims + scope, three, kind, {"source_type"});
    AboutAppend(status + claims + scope + kind, three + {"source_type"}, time, {"observed_at"});
    AboutIsOnce(status + claims + scope + kind + time, three + {"source_type"} + {"observed_at"});
  }

  lemma AboutIsOnce(s: seq<Delta>, fields: set<string>)
    requires About(s, fields)
    ensures Once(s)
  {
  }

  lemma SourceOwn(id: string, b: Option<Provenance>, a: Option<Provenance>)
    ensures Own(id, SourceDeltas()(id, b, a))
  {
    hide FieldDeltas, Own;
    if b.Some? && a.Some? {
      FieldsOwn(id, b.value, a.value);
    } else if a.Some? {
      OneOwn(id, SourceDelta(Added, id, Null, Text(id)));
    } else if b.Some? {
      OneOwn(id, SourceDelta(Removed, id, Text(id), Null));
    } else {
      NoneOwn(id);
    }
  }

  lemma SourcesOwn()
    ensures forall id, b, a :: Own(id, SourceDeltas()(id, b, a))
  {
    hide SourceDeltas, Own;
    forall id, b: Option<Provenance>, a: Option<Provenance> ensures Own(id, SourceDeltas()(id, b, a)) {
      SourceOwn(id, b, a);
    }
  }

  lemma FreshnessOnce(b: Freshness, a: Freshness)
    ensures Once(FreshnessDeltas(b, a))
  {
    FieldNamesDiffer();
    hide FieldDelta, About, Once;
    var x := FieldDelta(FreshnessKind, None, ValueChanged, ValueChanged, "freshness_status", Text(b.status),
                        Text(a.status));
    var y := FieldDelta(FreshnessKind, None, ValueChanged, ValueChanged, "observed_at", OptText(b.observedAt),
                        OptText(a.observedAt));
    var z := FieldDelta(FreshnessKind, None, ValueChanged, ValueChanged, "source_age_seconds", Age(b), Age(a));
    AboutField(FreshnessKind, None, ValueChanged, ValueChanged, "freshness_status", Text(b.status), Text(a.status));
    AboutField(FreshnessKind, None, ValueChanged, ValueChanged, "observed_at", OptText(b.observedAt),
      OptText(a.observedAt));
    AboutField(FreshnessKind, None, ValueChanged, ValueChanged, "source_age_seconds", Age(b), Age(a));
    AboutAppend(x, {"freshness_status"}, y, {"observed_at"});
    AboutAppend(x + y, {"freshness_status"} + {"observed_at"}, z, {"source_age_seconds"});
    AboutIsOnce(x + y + z, {"freshness_status"} + {"observed_at"} + {"source_age_seconds"});
  }

  lemma ConfidenceOnce(b: Confidence, a: Confidence)
    ensures Once(ConfidenceDeltas(b, a))
  {
    FieldNamesDiffer();
    hide FieldDelta, About, Once;
    var x := FieldDelta(ConfidenceKind, None, ValueChanged, ValueChanged, "level", Text(b.level), Text(a.level));
    var y := FieldDelta(ConfidenceKind, None, ValueChanged, ValueChanged, "basis", Text(b.basis), Text(a.basis));
    AboutField(ConfidenceKind, None, ValueChanged, ValueChanged, "level", Text(b.level), Text(a.level));
    AboutField(ConfidenceKind, None, ValueChanged, ValueChanged, "basis", Text(b.basis), Text(a.basis));
    AboutAppend(x, {"level"}, y, {"basis"});
    AboutIsOnce(x + y, {"level"} + {"basis"});
  }

  // ---- the whole report ----

  /** The deltas of all parts, spelled out. */
  ghost predicate PartSays(p: Context, c: Context, d: Delta) {
    ItemSays(EvidenceKind, EVIDENCE, EvidenceItems(p), EvidenceItems(c), d) ||
    ItemSays(ContradictionKind, CONTRADICTION, ContradictionItems(p), ContradictionItems(c), d) ||
    ItemSays(UnresolvedKind, UNRESOLVED, UnresolvedItems(p), UnresolvedItems(c), d) ||
    ItemSays(LimitationKind, LIMITATION, LimitationItems(p), LimitationItems(c), d) ||
    FreshnessSays(p.freshness, c.freshness, d) || ConfidenceSays(p.confidence, c.confidence, d) ||
    ProvenanceSays(Sources(p), Sources(c), d)
  }

  ghost predicate StatusSays(p: Context, c: Context, m: Material) {
    p.status != c.status &&
    m == Material(StatusKind, StateChanged, None, "context_status", Text(p.status), Text(c.status))
  }

  /** A list of changes is a sorted list of deltas, each once. */
  lemma ListIs(o: IdOrder, d: seq<Delta>)
    requires Once(d)
    ensures Single(SortedChanges(o, d))
    ensures forall x :: x in SortedChanges(o, d) <==> exists e :: e in d && e.change == x
    ensures TotalOrder(o.change) ==> SortedBy(ChangeKeyOf(), o.change, SortedChanges(o, d))
  {
    hide TotalOrder, SortedBy, SortBy;
    var changes := ChangesOf(d);
    assert Single(changes);
    SortByPermutes(ChangeKeyOf(), o.change, changes);
    SingleSurvives(changes, SortedChanges(o, d));
    SameMembers(changes, SortedChanges(o, d));
    forall x ensures x in changes <==> exists e :: e in d && e.change == x {
      if x in changes { var i :| 0 <= i < |changes| && changes[i] == x; assert d[i] in d; }
      if e :| e in d && e.change == x { var i :| 0 <= i < |d| && d[i] == e; assert changes[i] == x; }
    }
    if TotalOrder(o.change) { SortByIsSort(ChangeKeyOf(), o.change, changes); }
  }

  lemma SingleSurvives<T>(s: seq<T>, t: seq<T>)
    requires Single(s) && multiset(s) == multiset(t)
    ensures Single(t)
  {
    forall i, j | 0 <= i < j < |t| ensures t[i] != t[j] {
      DistinctCount(s, t[j]);
      RepeatCount(t, i, j);
    }
  }

  lemma PartsOnce(p: Context, c: Context)
    requires PartsOf(p, c).Some?
    ensures var d := PartsOf(p, c).value;
            Once(d.evidence) && Once(d.contradictions) && Once(d.unresolved) && Once(d.limitations) &&
            Once(d.freshness) && Once(d.confidence) && Once(d.provenance)
  {
    hide Compare, Own, ItemDeltas, SourceDeltas, FreshnessDeltas, ConfidenceDeltas, Once, EvidenceItems,
      ContradictionItems, UnresolvedItems, LimitationItems, Sources;
    ItemsOwn(EvidenceKind);
    ItemsOwn(ContradictionKind);
    ItemsOwn(UnresolvedKind);
    ItemsOwn(LimitationKind);
    SourcesOwn();
    CompareOnce(EvidenceItems(p), EvidenceItems(c), ItemId(), ItemDeltas(EvidenceKind));
    CompareOnce(ContradictionItems(p), ContradictionItems(c), ItemId(), ItemDeltas(ContradictionKind));
    CompareOnce(UnresolvedItems(p), UnresolvedItems(c), ItemId(), ItemDeltas(UnresolvedKind));
    CompareOnce(LimitationItems(p), LimitationItems(c), ItemId(), ItemDeltas(LimitationKind));
    CompareOnce(Sources(p), Sources(c), SourceId(), SourceDeltas());
    FreshnessOnce(p.freshness, c.freshness);
    ConfidenceOnce(p.confidence, c.confidence);
  }

  lemma PartsSay(p: Context, c: Context, d: Delta)
    requires PartsOf(p, c).Some?
    ensures var parts := PartsOf(p, c).value;
            (d in parts.evidence <==> ItemSays(EvidenceKind, EVIDENCE, EvidenceItems(p), EvidenceItems(c), d)) &&
            (d in parts.contradictions <==>
              ItemSays(ContradictionKind, CONTRADICTION, ContradictionItems(p), ContradictionItems(c), d)) &&
            (d in parts.unresolved <==>
              ItemSays(UnresolvedKind, UNRESOLVED, UnresolvedItems(p), UnresolvedItems(c), d)) &&
            (d in parts.limitations <==>
              ItemSays(LimitationKind, LIMITATION, LimitationItems(p), LimitationItems(c), d)) &&
            (d in parts.freshness <==> FreshnessSays(p.freshness, c.freshness, d)) &&
            (d in parts.confidence <==> ConfidenceSays(p.confidence, c.confidence, d)) &&
            (d in parts.provenance <==> ProvenanceSays(Sources(p), Sources(c), d))
  {
    hide Compare, ItemDeltas, SourceDeltas, FreshnessDeltas, ConfidenceDeltas, EvidenceItems, ContradictionItems,
      UnresolvedItems, LimitationItems, Sources, ItemSays, FreshnessSays, ConfidenceSays, ProvenanceSays;
    ItemsSay(EvidenceKind, EVIDENCE, EvidenceItems(p), EvidenceItems(c), d);
    ItemsSay(ContradictionKind, CONTRADICTION, ContradictionItems(p), ContradictionItems(c), d);
    ItemsSay(UnresolvedKind, UNRESOLVED, UnresolvedItems(p), UnresolvedItems(c), d);
    ItemsSay(LimitationKind, LIMITATION, LimitationItems(p), LimitationItems(c), d);
    SourcesSay(Sources(p), Sources(c), d);
    FreshnessListSays(p.freshness, c.freshness, d);
    ConfidenceListSays(p.confidence, c.confidence, d);
  }

  /** One list of a report: what each entry says, each exactly once, and in id order when ids are ordered. */
  ghost predicate Lists(o: IdOrder, changes: seq<Change>, says: Delta -> bool) {
    Single(changes) && (forall x :: x in changes <==> exists d :: says(d) && d.change == x) &&
    (TotalOrder(o.change) ==> SortedBy(ChangeKeyOf(), o.change, changes))
  }

  lemma ListSays(o: IdOrder, d: seq<Delta>, says: Delta -> bool)
    requires Once(d) && forall e :: e in d <==> says(e)
    ensures Lists(o, SortedChanges(o, d), says)
  {
    hide Once, Single, TotalOrder, SortedBy, SortBy, SortedChanges;
    ListIs(o, d);
  }

  /**
   * The lists of a report in closed form: for every item, field and source exactly the changes between what the two
   * contexts hold under its id, with the previous and the current value on their sides.
   */
  lemma ReportSays(o: IdOrder, p: Context, c: Context)
    requires Build(o, p, c).Some?
    ensures var r := Build(o, p, c).value;
            Lists(o, r.evidence, d => ItemSays(EvidenceKind, EVIDENCE, EvidenceItems(p), EvidenceItems(c), d)) &&
            Lists(o, r.contradictions,
                  d => ItemSays(ContradictionKind, CONTRADICTION, ContradictionItems(p), ContradictionItems(c), d)) &&
            Lists(o, r.unresolved,
              d => ItemSays(UnresolvedKind, UNRESOLVED, UnresolvedItems(p), UnresolvedItems(c), d)) &&
            Lists(o, r.limitations,
              d => ItemSays(LimitationKind, LIMITATION, LimitationItems(p), LimitationItems(c), d)) &&
            Lists(o, r.freshness, d => FreshnessSays(p.freshness, c.freshness, d)) &&
            Lists(o, r.confidence, d => ConfidenceSays(p.confidence, c.confidence, d)) &&
            Lists(o, r.provenance, d => ProvenanceSays(Sources(p), Sources(c), d)) &&
            (r.insufficientBasis <==> p.status == "insufficient_evidence" || c.status == "insufficient_evidence")
  {
    hide PartsOf, Once, Lists, ItemSays, FreshnessSays, ConfidenceSays, ProvenanceSays, SortedChanges, MaterialsOfParts,
      EvidenceItems, ContradictionItems, UnresolvedItems, LimitationItems, Sources, SortBy;
    var parts := PartsOf(p, c).value;
    PartsOnce(p, c);
    forall d ensures
      (d in parts.evidence <==> ItemSays(EvidenceKind, EVIDENCE, EvidenceItems(p), EvidenceItems(c), d)) &&
      (d in parts.contradictions <==>
        ItemSays(ContradictionKind, CONTRADICTION, ContradictionItems(p), ContradictionItems(c), d)) &&
      (d in parts.unresolved <==> ItemSays(UnresolvedKind, UNRESOLVED, UnresolvedItems(p), UnresolvedItems(c), d)) &&
      (d in parts.limitations <==> ItemSays(LimitationKind, LIMITATION, LimitationItems(p), LimitationItems(c), d)) &&
      (d in parts.freshness <==> FreshnessSays(p.freshness, c.freshness, d)) &&
      (d in parts.confidence <==> ConfidenceSays(p.confidence, c.confidence, d)) &&
      (d in parts.provenance <==> ProvenanceSays(Sources(p), Sources(c), d))
    {
      PartsSay(p, c, d);
    }
    ListSays(o, parts.evidence, d => ItemSays(EvidenceKind, EVIDENCE, EvidenceItems(p), EvidenceItems(c), d));
    ListSays(o, parts.contradictions,
      d => ItemSays(ContradictionKind, CONTRADICTION, ContradictionItems(p), ContradictionItems(c), d));
    ListSays(o, parts.unresolved, d => ItemSays(UnresolvedKind, UNRESOLVED, UnresolvedItems(p), UnresolvedItems(c), d));
    ListSays(o, parts.limitations,
      d => ItemSays(LimitationKind, LIMITATION, LimitationItems(p), LimitationItems(c), d));
    ListSays(o, parts.freshness, d => FreshnessSays(p.freshness, c.freshness, d));
    ListSays(o, parts.confidence, d => ConfidenceSays(p.confidence, c.confidence, d));
    ListSays(o, parts.provenance, d => ProvenanceSays(Sources(p), Sources(c), d));
  }

  // ---- the material changes ----

  /** Materials of certain kinds only, none twice. */
  ghost predicate OfKinds(s: seq<Material>, kinds: set<Kind>) { Single(s) && forall m :: m in s ==> m.kind in kinds }

  lemma KindsAppend(a: seq<Material>, f: set<Kind>, b: seq<Material>, g: set<Kind>)
    requires OfKinds(a, f) && OfKinds(b, g) && f !! g
    ensures OfKinds(a + b, f + g)
  {
    forall i, j | 0 <= i < j < |a + b| ensures (a + b)[i] != (a + b)[j] {
      if i < |a| <= j { assert a[i].kind in f && b[j - |a|].kind in g; }
    }
  }

  lemma MaterialsAre(d: seq<Delta>, kind: Kind)
    requires Once(d) && forall e :: e in d ==> e.material.kind == kind
    ensures OfKinds(MaterialsOf(d), {kind})
    ensures forall m :: m in MaterialsOf(d) <==> exists e :: e in d && e.material == m
  {
    var ms := MaterialsOf(d);
    forall m ensures m in ms <==> exists e :: e in d && e.material == m {
      if m in ms { var i :| 0 <= i < |ms| && ms[i] == m; assert d[i] in d; }
      if e :| e in d && e.material == m { var i :| 0 <= i < |d| && d[i] == e; assert ms[i] == m; }
    }
  }

  lemma SaysKind(kind: Kind, names: Naming, p: Context, c: Context, a: seq<Item>, b: seq<Item>, d: Delta)
    ensures ItemSays(kind, names, a, b, d) ==> d.material.kind == kind
    ensures FreshnessSays(p.freshness, c.freshness, d) ==> d.material.kind == FreshnessKind
    ensures ConfidenceSays(p.confidence, c.confidence, d) ==> d.material.kind == ConfidenceKind
    ensures ProvenanceSays(Sources(p), Sources(c), d) ==> d.material.kind == ProvenanceKind
  {
    hide AbsentFrom, NoSource, NamedSource, Handled;
  }

  lemma SaysKinds(p: Context, c: Context, e: Delta)
    ensures ItemSays(EvidenceKind, EVIDENCE, EvidenceItems(p), EvidenceItems(c), e) ==> e.material.kind == EvidenceKind
    ensures ItemSays(ContradictionKind, CONTRADICTION, ContradictionItems(p), ContradictionItems(c), e) ==>
              e.material.kind == ContradictionKind
    ensures ItemSays(UnresolvedKind, UNRESOLVED, UnresolvedItems(p), UnresolvedItems(c), e) ==>
              e.material.kind == UnresolvedKind
    ensures ItemSays(LimitationKind, LIMITATION, LimitationItems(p), LimitationItems(c), e) ==>
              e.material.kind == LimitationKind
    ensures FreshnessSays(p.freshness, c.freshness, e) ==> e.material.kind == FreshnessKind
    ensures ConfidenceSays(p.confidence, c.confidence, e) ==> e.material.kind == ConfidenceKind
    ensures ProvenanceSays(Sources(p), Sources(c), e) ==> e.material.kind == ProvenanceKind
  {
    hide ItemSays, FreshnessSays, ConfidenceSays, ProvenanceSays;
    SaysKind(EvidenceKind, EVIDENCE, p, c, EvidenceItems(p), EvidenceItems(c), e);
    SaysKind(ContradictionKind, CONTRADICTION, p, c, ContradictionItems(p), ContradictionItems(c), e);
    SaysKind(UnresolvedKind, UNRESOLVED, p, c, UnresolvedItems(p), UnresolvedItems(c), e);
    SaysKind(LimitationKind, LIMITATION, p, c, LimitationItems(p), LimitationItems(c), e);
  }

  /** Every part's materials: of its own kind, none twice, and those of its deltas. */
  lemma PartMaterials(p: Context, c: Context)
    requires PartsOf(p, c).Some?
    ensures var d := PartsOf(p, c).value;
            OfKinds(MaterialsOf(d.evidence), {EvidenceKind}) &&
            OfKinds(MaterialsOf(d.contradictions), {ContradictionKind}) &&
            OfKinds(MaterialsOf(d.unresolved), {UnresolvedKind}) &&
            OfKinds(MaterialsOf(d.limitations), {LimitationKind}) &&
            OfKinds(MaterialsOf(d.freshness), {FreshnessKind}) &&
            OfKinds(MaterialsOf(d.confidence), {ConfidenceKind}) &&
            OfKinds(MaterialsOf(d.provenance), {ProvenanceKind})
    ensures var d := PartsOf(p, c).value;
            forall m :: (m in MaterialsOf(d.evidence) || m in MaterialsOf(d.contradictions) ||
                         m in MaterialsOf(d.unresolved) || m in MaterialsOf(d.freshness) ||
                         m in MaterialsOf(d.confidence) ||
                         m in MaterialsOf(d.provenance) || m in MaterialsOf(d.limitations)) <==>
                        exists e :: PartSays(p, c, e) && e.material == m
  {
    hide PartsOf, Once, ItemSays, FreshnessSays, ConfidenceSays, ProvenanceSays, EvidenceItems, ContradictionItems,
      UnresolvedItems, LimitationItems, Sources, MaterialsOf, OfKinds;
    var d := PartsOf(p, c).value;
    PartsOnce(p, c);
    forall e { PartsSay(p, c, e); }
    forall e { SaysKinds(p, c, e); }
    MaterialsAre(d.evidence, EvidenceKind);
    MaterialsAre(d.contradictions, ContradictionKind);
    MaterialsAre(d.unresolved, UnresolvedKind);
    MaterialsAre(d.limitations, LimitationKind);
    MaterialsAre(d.freshness, FreshnessKind);
    MaterialsAre(d.confidence, ConfidenceKind);
    MaterialsAre(d.provenance, ProvenanceKind);
  }

  lemma AllKinds(p: Context, c: Context, d: Parts)
    requires OfKinds(MaterialsOf(d.evidence), {EvidenceKind}) &&
             OfKinds(MaterialsOf(d.contradictions), {ContradictionKind})
    requires OfKinds(MaterialsOf(d.unresolved), {UnresolvedKind}) &&
             OfKinds(MaterialsOf(d.limitations), {LimitationKind})
    requires OfKinds(MaterialsOf(d.freshness), {FreshnessKind}) && OfKinds(MaterialsOf(d.confidence), {ConfidenceKind})
    requires OfKinds(MaterialsOf(d.provenance), {ProvenanceKind}) && OfKinds(StatusMaterial(p, c), {StatusKind})
    ensures Single(MaterialsOfParts(p, c, d))
  {
    hide OfKinds, MaterialsOf, StatusMaterial, Single;
    var s := StatusMaterial(p, c);
    KindsAppend(s, {StatusKind}, MaterialsOf(d.evidence), {EvidenceKind});
    s := s + MaterialsOf(d.evidence);
    KindsAppend(s, {StatusKind, EvidenceKind}, MaterialsOf(d.contradictions), {ContradictionKind});
    s := s + MaterialsOf(d.contradictions);
    KindsAppend(s, {StatusKind, EvidenceKind, ContradictionKind}, MaterialsOf(d.unresolved), {UnresolvedKind});
    s := s + MaterialsOf(d.unresolved);
    var items := {StatusKind, EvidenceKind, ContradictionKind, UnresolvedKind};
    KindsAppend(s, items, MaterialsOf(d.freshness), {FreshnessKind});
    s := s + MaterialsOf(d.freshness);
    KindsAppend(s, items + {FreshnessKind}, MaterialsOf(d.confidence), {ConfidenceKind});
    s := s + MaterialsOf(d.confidence);
    KindsAppend(s, items + {FreshnessKind} + {ConfidenceKind}, MaterialsOf(d.provenance), {ProvenanceKind});
    s := s + MaterialsOf(d.provenance);
    KindsAppend(s, items + {FreshnessKind} + {ConfidenceKind} + {ProvenanceKind}, MaterialsOf(d.limitations),
      {LimitationKind});
    s := s + MaterialsOf(d.limitations);
    KindsAreSingle(s, items + {FreshnessKind} + {ConfidenceKind} + {ProvenanceKind} + {LimitationKind});
  }

  lemma KindsAreSingle(s: seq<Material>, kinds: set<Kind>)
    requires OfKinds(s, kinds)
    ensures Single(s)
  {
  }

  /** The material changes are the change of status and, for every entry of every list, its material side; each once. */
  lemma MaterialSays(o: IdOrder, p: Context, c: Context)
    requires Build(o, p, c).Some?
    ensures var r := Build(o, p, c).value;
            Single(r.material) &&
            (forall m :: m in r.material <==>
              StatusSays(p, c, m) || exists d :: PartSays(p, c, d) && d.material == m) &&
            (TotalOrder(o.material) ==> SortedBy(MaterialKeyOf(), o.material, r.material))
  {
    hide PartsOf, PartSays, SortedChanges, MaterialsOf, OfKinds, SortBy, TotalOrder, SortedBy, Single;
    var d := PartsOf(p, c).value;
    var all := MaterialsOfParts(p, c, d);
    PartMaterials(p, c);
    StatusIsSaid(p, c);
    AllKinds(p, c, d);
    SortByPermutes(MaterialKeyOf(), o.material, all);
    SingleSurvives(all, SortBy(MaterialKeyOf(), o.material, all));
    SameMembers(all, SortBy(MaterialKeyOf(), o.material, all));
    if TotalOrder(o.material) { SortByIsSort(MaterialKeyOf(), o.material, all); }
  }

  lemma StatusIsSaid(p: Context, c: Context)
    ensures OfKinds(StatusMaterial(p, c), {StatusKind})
    ensures forall m :: m in StatusMaterial(p, c) <==> StatusSays(p, c, m)
  {
  }

  // ---- what the compared items are ----

  /** A list in text order, with nothing lost. */
  ghost predicate InTextOrder(sorted: seq<string>, s: seq<string>) {
    multiset(sorted) == multiset(s) && SortedBy(Itself(), TextLe(), sorted)
  }

  lemma SortedIsInOrder(s: seq<string>)
    ensures InTextOrder(Sorted(s), s)
  {
    hide TotalOrder, SortedBy, SortBy;
    TextTotal();
    SortByIsSort(Itself(), TextLe(), s);
  }

  /** Every item keeps its id, its state and all it says, inner lists in text order. */
  lemma ItemsAre(c: Context)
    ensures |EvidenceItems(c)| == |c.evidence| && forall i :: 0 <= i < |c.evidence| ==>
              var e := c.evidence[i];
              EvidenceItems(c)[i] == Item(e.id, e.status, EvidenceContent(e.source, e.statement))
    ensures |LimitationItems(c)| == |c.limitations| && forall i :: 0 <= i < |c.limitations| ==>
              var l := c.limitations[i];
              LimitationItems(c)[i] == Item(l.id, l.impact, LimitationContent(l.description))
    ensures |ContradictionItems(c)| == |c.contradictions| && forall i :: 0 <= i < |c.contradictions| ==>
              var k, x := c.contradictions[i], ContradictionItems(c)[i];
              x.content.ContradictionContent? && InTextOrder(x.content.evidenceIds, k.evidenceIds) &&
              x == Item(k.id, k.status, ContradictionContent(x.content.evidenceIds, k.summary, k.resolutionBasis))
    ensures |UnresolvedItems(c)| == |c.unresolved| && forall i :: 0 <= i < |c.unresolved| ==>
              var u, x := c.unresolved[i], UnresolvedItems(c)[i];
              x.content.UnresolvedContent? &&
              x == Item(u.id, u.status, UnresolvedContent(u.scope, u.reason, x.content.relatedSources)) &&
              (x.content.relatedSources.None? <==> u.relatedSources.None?) &&
              (u.relatedSources.Some? ==> InTextOrder(x.content.relatedSources.value, u.relatedSources.value))
    ensures |Sources(c)| == |c.provenance| && forall i :: 0 <= i < |c.provenance| ==>
              var p, x := c.provenance[i], Sources(c)[i];
              InTextOrder(x.contributionScope, p.contributionScope) && x == p.(contributionScope := x.contributionScope)
  {
    hide InTextOrder, Sorted;
    forall s { SortedIsInOrder(s); }
  }
}
