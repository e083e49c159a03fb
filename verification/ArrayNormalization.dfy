/** scripts/gate3_reference_semantics.py: set and multiset array semantics over canonical encodings. */
module ArrayNormalization {
  import opened Wrappers
  import opened Orders
  import opened UnicodeText
  import opened Jcs

  datatype Reason =
    | NotCanonical
    | LacksIdentity
    | UnhashableIdentity
    | ConflictingIdentity
    | NoSortTuple
    | ConflictingTuple
    | UndeclaredSemantics

  type Bytes = seq<int>

  /** A declared sort tuple: each component is its presence tag followed by the component's bytes. */
  type SortKey = seq<seq<int>>

  /** "$value" */
  const WHOLE_VALUE: Text := [0x24, 0x76, 0x61, 0x6C, 0x75, 0x65]

  function SortKeyLe(): (SortKey, SortKey) -> bool { Lex(ByteStringLe()) }

  lemma SortKeyTotal()
    ensures TotalOrder(SortKeyLe())
  {
    ByteStringTotal();
    LexTotal(ByteStringLe());
  }

  function Encoding(v: Json): Bytes {
    match CanonicalBytes(v)
    case None => []
    case Some(b) => b
  }

  function Field(v: Json, name: Text): Option<Json> {
    if v.Dict? then Lookup(v.members, name) else None
  }

  function Component(v: Json, field: Text): seq<int> {
    if field == WHOLE_VALUE then [1] + Encoding(v)
    else
      match Field(v, field)
      case Some(x) => [1] + Encoding(x)
      case None => [0]
  }

  function SortKeyOf(v: Json, fields: seq<Text>): SortKey {
    if fields == [] then [] else [Component(v, fields[0])] + SortKeyOf(v, fields[1..])
  }

  /** A value as a Python dictionary key: `True` and 1 are one key, `False` and 0 another, lists and dicts are none. */
  datatype Identity = Absent | TextIdentity(text: Text) | NumberIdentity(n: int) | Unhashable

  function IdentityOf(v: Json, key: Text): Identity {
    match Field(v, key)
    case Some(Str(t)) => TextIdentity(t)
    case Some(Int(n)) => NumberIdentity(n)
    case Some(Bool(b)) => NumberIdentity(if b then 1 else 0)
    case Some(List(_)) => Unhashable
    case Some(Dict(_)) => Unhashable
    case _ => Absent
  }

  /** Only dicts are checked, and only when a nonempty identity key is declared. */
  predicate Identified(v: Json, identityKey: Option<Text>) {
    v.Dict? && identityKey.Some? && identityKey.value != []
  }

  // ---- what the procedures promise ----

  ghost predicate Canonicalizable(v: Json) { IsPython(v) && CanonicalBytes(v).Some? }

  ghost predicate IdentityUsable(v: Json, identityKey: Option<Text>) {
    Identified(v, identityKey) ==>
      !IdentityOf(v, identityKey.value).Absent? && !IdentityOf(v, identityKey.value).Unhashable?
  }

  ghost predicate IdentityConflict(v: Json, w: Json, identityKey: Option<Text>) {
    && Identified(v, identityKey) && Identified(w, identityKey)
    && IdentityOf(v, identityKey.value) == IdentityOf(w, identityKey.value)
    && Encoding(v) != Encoding(w)
  }

  ghost predicate TupleConflict(v: Json, w: Json, fields: seq<Text>) {
    SortKeyOf(v, fields) == SortKeyOf(w, fields) && Encoding(v) != Encoding(w)
  }

  ghost predicate IdentitiesAgree(values: seq<Json>, identityKey: Option<Text>) {
    && (forall v :: v in values ==> IdentityUsable(v, identityKey))
    && (forall v, w :: v in values && w in values ==> !IdentityConflict(v, w, identityKey))
  }

  ghost predicate TuplesAgree(values: seq<Json>, fields: seq<Text>) {
    && (values != [] ==> fields != [])
    && (forall v, w :: v in values && w in values ==> !TupleConflict(v, w, fields))
  }

  /** A set is accepted: every value encodes, identities and sort tuples tell different values apart. */
  ghost predicate AcceptsSet(values: seq<Json>, fields: seq<Text>, identityKey: Option<Text>) {
    && (forall v :: v in values ==> CanonicalBytes(v).Some?)
    && IdentitiesAgree(values, identityKey) && TuplesAgree(values, fields)
  }

  ghost predicate AcceptsMultiset(values: seq<Json>, fields: seq<Text>) {
    && (forall v :: v in values ==> CanonicalBytes(v).Some?)
    && TuplesAgree(values, fields)
  }

  /** A refusal names something that is wrong with the values. */
  ghost predicate Explains(reason: Reason, values: seq<Json>, fields: seq<Text>, identityKey: Option<Text>) {
    match reason
    case NotCanonical => exists v :: v in values && CanonicalBytes(v).None?
    case LacksIdentity => exists v :: v in values && Lacks(v, identityKey)
    case UnhashableIdentity => exists v :: v in values && Unhashes(v, identityKey)
    case ConflictingIdentity => exists v, w :: v in values && w in values && IdentityConflict(v, w, identityKey)
    case NoSortTuple => values != [] && fields == []
    case ConflictingTuple => exists v, w :: v in values && w in values && TupleConflict(v, w, fields)
    case UndeclaredSemantics => false
  }

  ghost predicate Lacks(v: Json, identityKey: Option<Text>) {
    Identified(v, identityKey) && IdentityOf(v, identityKey.value).Absent?
  }

  ghost predicate Unhashes(v: Json, identityKey: Option<Text>) {
    Identified(v, identityKey) && IdentityOf(v, identityKey.value).Unhashable?
  }

  ghost predicate StrictlyIncreasing(r: seq<Json>, fields: seq<Text>) {
    forall i, j :: 0 <= i < j < |r| ==>
      SortKeyLe()(SortKeyOf(r[i], fields), SortKeyOf(r[j], fields)) &&
      SortKeyOf(r[i], fields) != SortKeyOf(r[j], fields)
  }

  ghost predicate Represented(v: Json, r: seq<Json>) { exists u :: u in r && Encoding(u) == Encoding(v) }

  /** One copy of each encoding, strictly increasing in the declared tuple. */
  ghost predicate IsSetForm(values: seq<Json>, fields: seq<Text>, r: seq<Json>) {
    && StrictlyIncreasing(r, fields)
    && (forall u :: u in r ==> u in values)
    && (forall v :: v in values ==> Represented(v, r))
  }

  ghost predicate IsMultisetForm(values: seq<Json>, fields: seq<Text>, r: seq<Json>) {
    SortedBy(KeyBy(fields), SortKeyLe(), r) && multiset(r) == multiset(values)
  }

  function KeyBy(fields: seq<Text>): Json -> SortKey { (v: Json) => SortKeyOf(v, fields) }

  // ---- the procedures ----

  ghost predicate DistinctEncodings(us: seq<Json>) {
    forall i, j :: 0 <= i < j < |us| ==> Encoding(us[i]) != Encoding(us[j])
  }

  ghost predicate Collected(values: seq<Json>, us: seq<Json>) {
    && DistinctEncodings(us)
    && (forall u :: u in us ==> u in values)
    && (forall v :: v in values ==> Represented(v, us))
  }

  /** The identity dictionary after a prefix: every identity of the prefix, with its one encoding. */
  ghost predicate IdentityIndex(values: seq<Json>, identityKey: Option<Text>, identities: map<Identity, Bytes>) {
    && (forall v :: v in values && Identified(v, identityKey) ==>
          IdentityOf(v, identityKey.value) in identities && identities[IdentityOf(v, identityKey.value)] == Encoding(v))
    && (forall id :: id in identities ==> HasIdentity(values, identityKey, id))
  }

  ghost predicate HasIdentity(values: seq<Json>, identityKey: Option<Text>, id: Identity) {
    exists v :: v in values && Identified(v, identityKey) && IdentityOf(v, identityKey.value) == id
  }

  lemma IdentityIndexed(values: seq<Json>, identityKey: Option<Text>, identities: map<Identity, Bytes>, v: Json)
    requires IdentityIndex(values, identityKey, identities) && Identified(v, identityKey)
    ensures var id := IdentityOf(v, identityKey.value);
      && (id !in identities || identities[id] == Encoding(v) ==>
            IdentityIndex(values + [v], identityKey, identities[id := Encoding(v)]))
      && (id in identities && identities[id] != Encoding(v) ==>
        exists u :: u in values && IdentityConflict(u, v, identityKey))
  {
    hide IdentityOf, Encoding;
    var id := IdentityOf(v, identityKey.value);
    if id !in identities || identities[id] == Encoding(v) {
      forall x | x in identities[id := Encoding(v)].Keys ensures HasIdentity(values + [v], identityKey, x) {
        if x == id { assert v in values + [v]; } else { assert HasIdentity(values, identityKey, x); }
      }
    } else {
      assert HasIdentity(values, identityKey, id);
    }
  }

  lemma IdentityUntouched(values: seq<Json>, identityKey: Option<Text>, identities: map<Identity, Bytes>, v: Json)
    requires IdentityIndex(values, identityKey, identities) && !Identified(v, identityKey)
    ensures IdentityIndex(values + [v], identityKey, identities)
  {
    hide IdentityOf, Identified, Encoding;
    forall x | x in identities ensures HasIdentity(values + [v], identityKey, x) {
      assert HasIdentity(values, identityKey, x);
    }
  }

  lemma IndexMeansAgreement(values: seq<Json>, identityKey: Option<Text>, identities: map<Identity, Bytes>)
    requires IdentityIndex(values, identityKey, identities)
    ensures forall v, w :: v in values && w in values ==> !IdentityConflict(v, w, identityKey)
  {
    hide IdentityOf, Identified, Encoding;
  }

  ghost predicate SeenExactly(unique: seq<Json>, seen: set<Bytes>) {
    && (forall u :: u in unique ==> Encoding(u) in seen)
    && (forall b :: b in seen ==> HasEncoding(unique, b))
  }

  ghost predicate HasEncoding(unique: seq<Json>, b: Bytes) { exists u :: u in unique && Encoding(u) == b }

  lemma StillRepresented(values: seq<Json>, unique: seq<Json>, v: Json)
    requires forall x :: x in values ==> Represented(x, unique)
    ensures forall x :: x in values + [v] ==> Represented(x, unique + [v])
  {
    hide Encoding;
    assert v in unique + [v];
    forall x | x in values ensures Represented(x, unique + [v]) {
      assert Represented(x, unique);
      var u :| u in unique && Encoding(u) == Encoding(x);
      assert u in unique + [v];
    }
  }

  lemma SeenNext(unique: seq<Json>, seen: set<Bytes>, v: Json)
    requires SeenExactly(unique, seen)
    ensures SeenExactly(unique + [v], seen + {Encoding(v)})
    ensures Encoding(v) in seen ==> Represented(v, unique)
    ensures Encoding(v) !in seen && DistinctEncodings(unique) ==> DistinctEncodings(unique + [v])
  {
    hide Encoding;
    assert v in unique + [v];
    assert forall i :: 0 <= i < |unique| ==> unique[i] in unique;
    forall b | b in seen ensures HasEncoding(unique + [v], b) {
      assert HasEncoding(unique, b);
      var u :| u in unique && Encoding(u) == b;
      assert u in unique + [v];
    }
    if Encoding(v) in seen { assert HasEncoding(unique, Encoding(v)); }
  }

  /** `setdefault`: a new encoding is kept, a known one changes nothing. */
  lemma CollectedNext(values: seq<Json>, unique: seq<Json>, seen: set<Bytes>, v: Json)
    requires Collected(values, unique) && SeenExactly(unique, seen)
    ensures Encoding(v) !in seen ==>
      Collected(values + [v], unique + [v]) && SeenExactly(unique + [v], seen + {Encoding(v)})
    ensures Encoding(v) in seen ==> Collected(values + [v], unique)
  {
    hide Encoding, Represented, DistinctEncodings, SeenExactly;
    SeenNext(unique, seen, v);
    StillRepresented(values, unique, v);
  }

  /** First pass: encode every value, keep the first of each encoding, and compare identities. */
  method CollectUnique(values: seq<Json>, identityKey: Option<Text>) returns (r: Result<seq<Json>, Reason>)
    ensures r.Ok? <==> (forall v :: v in values ==> CanonicalBytes(v).Some?) && IdentitiesAgree(values, identityKey)
    ensures r.Ok? ==> Collected(values, r.value)
    ensures r.Err? ==>
      !r.error.NoSortTuple? && !r.error.ConflictingTuple? && Explains(r.error, values, [], identityKey)
  {
    hide CanonicalBytes, IdentityOf, Collected, IdentityIndex, SeenExactly;
    var unique: seq<Json> := [];
    var seen: set<Bytes> := {};
    var identities: map<Identity, Bytes> := map[];
    NothingCollected(identityKey);
    for i := 0 to |values|
      invariant forall v :: v in values[..i] ==> CanonicalBytes(v).Some? && IdentityUsable(v, identityKey)
      invariant IdentityIndex(values[..i], identityKey, identities)
      invariant Collected(values[..i], unique) && SeenExactly(unique, seen)
    {
      var value := values[i];
      assert values[..i + 1] == values[..i] + [value];
      var encoded := CanonicalBytes(value);
      if encoded.None? { return Err(NotCanonical); }
      if Identified(value, identityKey) {
        var identity := IdentityOf(value, identityKey.value);
        assert identity.Absent? || identity.Unhashable? ==> !IdentityUsable(value, identityKey) && value in values;
        assert identity.Absent? ==> Lacks(value, identityKey);
        assert identity.Unhashable? ==> Unhashes(value, identityKey);
        if identity.Absent? { return Err(LacksIdentity); }
        if identity.Unhashable? { return Err(UnhashableIdentity); }
        IdentityIndexed(values[..i], identityKey, identities, value);
        if identity in identities && identities[identity] != encoded.value { return Err(ConflictingIdentity); }
        identities := identities[identity := encoded.value];
      } else {
        IdentityUntouched(values[..i], identityKey, identities, value);
      }
      CollectedNext(values[..i], unique, seen, value);
      if encoded.value !in seen {
        seen := seen + {encoded.value};
        unique := unique + [value];
      }
    }
    assert values[..|values|] == values;
    IndexMeansAgreement(values, identityKey, identities);
    return Ok(unique);
  }

  lemma NothingCollected(identityKey: Option<Text>)
    ensures IdentityIndex([], identityKey, map[]) && Collected([], []) && SeenExactly([], {})
  {
  }

  /** The tuple dictionary after a prefix: every declared tuple of the prefix, with its one encoding. */
  ghost predicate TupleIndex(values: seq<Json>, fields: seq<Text>, tuples: map<SortKey, Bytes>) {
    && (values != [] ==> fields != [])
    && (forall v :: v in values ==>
          SortKeyOf(v, fields) in tuples && tuples[SortKeyOf(v, fields)] == Encoding(v))
    && (forall k :: k in tuples ==> HasTuple(values, fields, k))
  }

  ghost predicate HasTuple(values: seq<Json>, fields: seq<Text>, k: SortKey) {
    exists v :: v in values && SortKeyOf(v, fields) == k
  }

  lemma TupleIndexed(values: seq<Json>, fields: seq<Text>, tuples: map<SortKey, Bytes>, v: Json)
    requires TupleIndex(values, fields, tuples) && fields != []
    ensures var k := SortKeyOf(v, fields);
      && (k !in tuples || tuples[k] == Encoding(v) ==> TupleIndex(values + [v], fields, tuples[k := Encoding(v)]))
      && (k in tuples && tuples[k] != Encoding(v) ==> exists u :: u in values && TupleConflict(u, v, fields))
  {
    hide SortKeyOf, Encoding;
    var k := SortKeyOf(v, fields);
    if k !in tuples || tuples[k] == Encoding(v) {
      forall x | x in tuples[k := Encoding(v)].Keys ensures HasTuple(values + [v], fields, x) {
        if x == k { assert v in values + [v]; } else { assert HasTuple(values, fields, x); }
      }
    } else {
      assert HasTuple(values, fields, k);
    }
  }

  lemma TupleIndexMeansAgreement(values: seq<Json>, fields: seq<Text>, tuples: map<SortKey, Bytes>)
    requires TupleIndex(values, fields, tuples)
    ensures TuplesAgree(values, fields)
  {
    hide SortKeyOf, Encoding;
  }

  /** Second pass: no two different encodings may share a declared tuple. */
  method CheckTuples(us: seq<Json>, fields: seq<Text>) returns (failure: Option<Reason>)
    ensures failure.None? <==> TuplesAgree(us, fields)
    ensures failure.Some? ==>
      (failure.value.NoSortTuple? || failure.value.ConflictingTuple?) && Explains(failure.value, us, fields, None)
  {
    hide SortKeyOf, Encoding;
    var tuples: map<SortKey, Bytes> := map[];
    for i := 0 to |us|
      invariant TupleIndex(us[..i], fields, tuples)
    {
      assert us[..i + 1] == us[..i] + [us[i]];
      if fields == [] { return Some(NoSortTuple); }
      var key := SortKeyOf(us[i], fields);
      var encoded := Encoding(us[i]);
      TupleIndexed(us[..i], fields, tuples, us[i]);
      if key in tuples && tuples[key] != encoded { return Some(ConflictingTuple); }
      tuples := tuples[key := encoded];
    }
    assert us[..|us|] == us;
    TupleIndexMeansAgreement(us, fields, tuples);
    return None;
  }

  lemma ExplainsWhatever(reason: Reason, values: seq<Json>, fields: seq<Text>, identityKey: Option<Text>)
    requires !reason.NoSortTuple? && !reason.ConflictingTuple? && Explains(reason, values, [], identityKey)
    ensures Explains(reason, values, fields, identityKey)
  {
  }

  lemma ExplainsCollected(reason: Reason, values: seq<Json>, us: seq<Json>, fields: seq<Text>,
      identityKey: Option<Text>)
    requires (reason.NoSortTuple? || reason.ConflictingTuple?) && Explains(reason, us, fields, None)
    requires Collected(values, us)
    ensures Explains(reason, values, fields, identityKey)
  {
    hide SortKeyOf, Encoding, CanonicalBytes, DistinctEncodings, Represented;
    if reason.NoSortTuple? { assert us[0] in values; }
  }

  method NormalizeReferenceArray(values: seq<Json>, fields: seq<Text>, identityKey: Option<Text>)
    returns (r: Result<seq<Json>, Reason>)
    requires forall v :: v in values ==> IsPython(v)
    ensures r.Ok? <==> AcceptsSet(values, fields, identityKey)
    ensures r.Ok? ==> IsSetForm(values, fields, r.value)
    ensures r.Err? ==> Explains(r.error, values, fields, identityKey)
  {
    hide Explains, IsSetForm, IdentitiesAgree, TuplesAgree, Collected, SortBy, CanonicalBytes, IsPython;
    var collected := CollectUnique(values, identityKey);
    if collected.Err? {
      ExplainsWhatever(collected.error, values, fields, identityKey);
      return collected;
    }
    var us := collected.value;
    CollectedTuples(values, us, fields);
    var failure := CheckTuples(us, fields);
    if failure.Some? {
      ExplainsCollected(failure.value, values, us, fields, identityKey);
      return Err(failure.value);
    }
    CollectedSorts(values, us, fields);
    return Ok(SortBy(KeyBy(fields), SortKeyLe(), us));
  }

  /** The multiset pass: encode, and compare declared tuples, value by value. */
  method CheckMultiset(values: seq<Json>, fields: seq<Text>) returns (failure: Option<Reason>)
    ensures failure.None? <==> AcceptsMultiset(values, fields)
    ensures failure.Some? ==> Explains(failure.value, values, fields, None)
  {
    hide SortKeyOf, CanonicalBytes;
    var tuples: map<SortKey, Bytes> := map[];
    for i := 0 to |values|
      invariant forall v :: v in values[..i] ==> CanonicalBytes(v).Some?
      invariant TupleIndex(values[..i], fields, tuples)
    {
      assert values[..i + 1] == values[..i] + [values[i]];
      var encoded := CanonicalBytes(values[i]);
      if encoded.None? { return Some(NotCanonical); }
      if fields == [] { return Some(NoSortTuple); }
      var key := SortKeyOf(values[i], fields);
      TupleIndexed(values[..i], fields, tuples, values[i]);
      if key in tuples && tuples[key] != encoded.value { return Some(ConflictingTuple); }
      tuples := tuples[key := encoded.value];
    }
    assert values[..|values|] == values;
    TupleIndexMeansAgreement(values, fields, tuples);
    return None;
  }

  method NormalizeMultiset(values: seq<Json>, fields: seq<Text>) returns (r: Result<seq<Json>, Reason>)
    ensures r.Ok? <==> AcceptsMultiset(values, fields)
    ensures r.Ok? ==> IsMultisetForm(values, fields, r.value)
    ensures r.Err? ==> Explains(r.error, values, fields, None)
  {
    hide TotalOrder, SortKeyOf, TuplesAgree;
    var failure := CheckMultiset(values, fields);
    if failure.Some? { return Err(failure.value); }
    SortKeyTotal();
    SortByIsSort(KeyBy(fields), SortKeyLe(), values);
    return Ok(SortBy(KeyBy(fields), SortKeyLe(), values));
  }

  datatype Semantics = OrderedSequence | SetSemantics | MultisetSemantics | Undeclared

  /** `normalize_semantic_array`: one explicitly declared class per array. */
  method NormalizeSemanticArray(values: seq<Json>, semantics: Semantics, sortTuple: Option<seq<Text>>,
                                identityKey: Option<Text>)
    returns (r: Result<seq<Json>, Reason>)
    requires forall v :: v in values ==> IsPython(v)
    ensures semantics.OrderedSequence? ==> r == Ok(values)
    ensures !semantics.OrderedSequence? && sortTuple.None? ==> r == Err(NoSortTuple)
    ensures semantics.Undeclared? && sortTuple.Some? ==> r == Err(UndeclaredSemantics)
    ensures semantics.SetSemantics? && sortTuple.Some? ==>
      (r.Ok? <==> AcceptsSet(values, sortTuple.value, identityKey))
      && (r.Ok? ==> IsSetForm(values, sortTuple.value, r.value))
      && (r.Err? ==> Explains(r.error, values, sortTuple.value, identityKey))
    ensures semantics.MultisetSemantics? && sortTuple.Some? ==>
      (r.Ok? <==> AcceptsMultiset(values, sortTuple.value))
      && (r.Ok? ==> IsMultisetForm(values, sortTuple.value, r.value))
      && (r.Err? ==> Explains(r.error, values, sortTuple.value, None))
  {
    if semantics.OrderedSequence? { return Ok(values); }
    if sortTuple.None? { return Err(NoSortTuple); }
    match semantics {
      case SetSemantics => r := NormalizeReferenceArray(values, sortTuple.value, identityKey);
      case MultisetSemantics => r := NormalizeMultiset(values, sortTuple.value);
      case _ => r := Err(UndeclaredSemantics);
    }
  }

  // ---- everything the procedures look at is determined by the encoding ----

  lemma EncodingDecidesValue(v: Json, w: Json)
    requires Canonicalizable(v) && Canonicalizable(w) && Encoding(v) == Encoding(w)
    ensures Denote(v) == Denote(w)
  {
    hide Denote, CanonicalBytes, IsPython;
    EqualBytesIffEqualValues(v, w);
  }

  /** Equal values have equal fields. */
  lemma FieldByValue(v: Json, w: Json, name: Text)
    requires IsPython(v) && IsPython(w) && Denote(v) == Denote(w)
    ensures Field(v, name).Some? <==> Field(w, name).Some?
    ensures Field(v, name).Some? ==>
      var x, y := Field(v, name).value, Field(w, name).value; IsPython(x) && IsPython(y) && Denote(x) == Denote(y)
  {
    if v.Dict? {
      LookupDenotes(v.members, name);
      LookupDenotes(w.members, name);
      LookupMember(v.members, name);
      LookupMember(w.members, name);
    }
  }

  lemma ComponentByValue(v: Json, w: Json, field: Text)
    requires IsPython(v) && IsPython(w) && Denote(v) == Denote(w)
    ensures Component(v, field) == Component(w, field)
  {
    hide Denote, CanonicalBytes, IsPython, Field;
    SameValueSameBytes(v, w);
    FieldByValue(v, w, field);
    if Field(v, field).Some? { SameValueSameBytes(Field(v, field).value, Field(w, field).value); }
  }

  lemma {:induction false} SortKeyByValue(v: Json, w: Json, fields: seq<Text>)
    requires IsPython(v) && IsPython(w) && Denote(v) == Denote(w)
    ensures SortKeyOf(v, fields) == SortKeyOf(w, fields)
  {
    hide Denote, IsPython, Component;
    if fields == [] {
    } else {
      ComponentByValue(v, w, fields[0]);
      SortKeyByValue(v, w, fields[1..]);
    }
  }

  lemma SortKeyByEncoding(v: Json, w: Json, fields: seq<Text>)
    requires Canonicalizable(v) && Canonicalizable(w) && Encoding(v) == Encoding(w)
    ensures SortKeyOf(v, fields) == SortKeyOf(w, fields)
  {
    hide Denote, CanonicalBytes, IsPython;
    EncodingDecidesValue(v, w);
    SortKeyByValue(v, w, fields);
  }

  lemma IdentityByEncoding(v: Json, w: Json, identityKey: Option<Text>)
    requires Canonicalizable(v) && Canonicalizable(w) && Encoding(v) == Encoding(w)
    ensures Identified(v, identityKey) <==> Identified(w, identityKey)
    ensures Identified(v, identityKey) ==> IdentityOf(v, identityKey.value) == IdentityOf(w, identityKey.value)
  {
    hide CanonicalBytes, IsPython, Field;
    EncodingDecidesValue(v, w);
    if Identified(v, identityKey) { FieldByValue(v, w, identityKey.value); }
  }

  // ---- sets ----

  ghost predicate AllCanonicalizable(values: seq<Json>) { forall v :: v in values ==> Canonicalizable(v) }

  lemma CollectedTuples(values: seq<Json>, us: seq<Json>, fields: seq<Text>)
    requires AllCanonicalizable(values) && Collected(values, us)
    ensures TuplesAgree(us, fields) <==> TuplesAgree(values, fields)
  {
    hide SortKeyOf, Encoding, Canonicalizable;
    assert us != [] ==> us[0] in values;
    assert values != [] ==> Represented(values[0], us);
    if TuplesAgree(us, fields) {
      forall v, w | v in values && w in values ensures !TupleConflict(v, w, fields) {
        assert Represented(v, us) && Represented(w, us);
        var x :| x in us && Encoding(x) == Encoding(v);
        var y :| y in us && Encoding(y) == Encoding(w);
        SortKeyByEncoding(x, v, fields);
        SortKeyByEncoding(y, w, fields);
        assert !TupleConflict(x, y, fields);
      }
    }
  }

  lemma SortedMembers(us: seq<Json>, fields: seq<Text>)
    ensures var r := SortBy(KeyBy(fields), SortKeyLe(), us);
            multiset(r) == multiset(us) && (forall u :: u in r <==> u in us) && SortedBy(KeyBy(fields), SortKeyLe(), r)
  {
    hide SortKeyOf, TotalOrder, SortedBy, SortBy, LexLe;
    SortKeyTotal();
    SortByIsSort(KeyBy(fields), SortKeyLe(), us);
    SameMembers(us, SortBy(KeyBy(fields), SortKeyLe(), us));
  }

  lemma SortedIncreases(us: seq<Json>, r: seq<Json>, fields: seq<Text>)
    requires DistinctEncodings(us) && TuplesAgree(us, fields) && multiset(us) == multiset(r) &&
             (forall u :: u in r <==> u in us)
    requires SortedBy(KeyBy(fields), SortKeyLe(), r)
    ensures StrictlyIncreasing(r, fields)
  {
    hide SortKeyOf, Encoding, LexLe, DistinctEncodings;
    forall i, j | 0 <= i < j < |r|
      ensures SortKeyLe()(SortKeyOf(r[i], fields), SortKeyOf(r[j], fields)) &&
              SortKeyOf(r[i], fields) != SortKeyOf(r[j], fields)
    {
      SortedDistinct(us, r, i, j);
      assert !TupleConflict(r[i], r[j], fields);
      assert KeyBy(fields)(r[i]) == SortKeyOf(r[i], fields) && KeyBy(fields)(r[j]) == SortKeyOf(r[j], fields);
    }
  }

  lemma StillStandsFor(us: seq<Json>, r: seq<Json>, v: Json)
    requires Represented(v, us) && forall u :: u in r <==> u in us
    ensures Represented(v, r)
  {
    hide Encoding;
  }

  lemma CollectedSorts(values: seq<Json>, us: seq<Json>, fields: seq<Text>)
    requires Collected(values, us) && TuplesAgree(us, fields)
    ensures IsSetForm(values, fields, SortBy(KeyBy(fields), SortKeyLe(), us))
  {
    hide SortKeyOf, Encoding, LexLe, DistinctEncodings, Represented, StrictlyIncreasing, SortBy, SortedBy,
      TuplesAgree;
    var r := SortBy(KeyBy(fields), SortKeyLe(), us);
    SortedMembers(us, fields);
    SortedIncreases(us, r, fields);
    forall v | v in values ensures Represented(v, r) { StillStandsFor(us, r, v); }
  }

  /** The first value of each encoding. */
  ghost function FirstOfEach(values: seq<Json>): seq<Json> {
    if values == [] then []
    else
      var rest, last := FirstOfEach(values[..|values| - 1]), values[|values| - 1];
      if HasEncoding(rest, Encoding(last)) then rest else rest + [last]
  }

  lemma {:induction false} FirstsCollect(values: seq<Json>)
    ensures Collected(values, FirstOfEach(values))
  {
    hide Encoding, Represented, DistinctEncodings;
    if values == [] {
      NothingCollected(None);
    } else {
      var rest, last := values[..|values| - 1], values[|values| - 1];
      FirstsCollect(rest);
      var us := FirstOfEach(rest);
      var seen := set u | u in us :: Encoding(u);
      forall b | b in seen ensures HasEncoding(us, b) {
        var u :| u in us && Encoding(u) == b;
      }
      CollectedNext(rest, us, seen, last);
      assert values == rest + [last];
    }
  }

  /** An acceptable set has a form. */
  lemma SetFormExists(values: seq<Json>, fields: seq<Text>, identityKey: Option<Text>) returns (r: seq<Json>)
    requires AcceptsSet(values, fields, identityKey) && forall v :: v in values ==> IsPython(v)
    ensures IsSetForm(values, fields, r) && r == SortBy(KeyBy(fields), SortKeyLe(), FirstOfEach(values))
  {
    hide IsPython, CanonicalBytes, Collected, TuplesAgree, IsSetForm, SortBy, FirstOfEach;
    r := SortBy(KeyBy(fields), SortKeyLe(), FirstOfEach(values));
    FirstsCollect(values);
    AcceptedIsCanonicalizable(values, fields, identityKey);
    CollectedTuples(values, FirstOfEach(values), fields);
    CollectedSorts(values, FirstOfEach(values), fields);
  }

  lemma SortedDistinct(us: seq<Json>, r: seq<Json>, i: nat, j: nat)
    requires DistinctEncodings(us) && multiset(us) == multiset(r) && i < j < |r|
    ensures Encoding(r[i]) != Encoding(r[j])
  {
    hide Encoding;
    assert r[i] in multiset(r) && r[j] in multiset(r);
    assert r[i] in multiset(us) && r[j] in multiset(us);
    RepeatCount(r, i, j);
    DistinctCount(us, r[j]);
  }

  ghost predicate SameEncodings(xs: seq<Json>, ys: seq<Json>) {
    (forall x :: x in xs ==> HasEncoding(ys, Encoding(x))) && (forall y :: y in ys ==> HasEncoding(xs, Encoding(y)))
  }

  lemma AcceptanceCarriesOver(xs: seq<Json>, ys: seq<Json>, fields: seq<Text>, identityKey: Option<Text>)
    requires AllCanonicalizable(xs) && AllCanonicalizable(ys)
    requires forall y :: y in ys ==> HasEncoding(xs, Encoding(y))
    requires AcceptsSet(xs, fields, identityKey)
    ensures AcceptsSet(ys, fields, identityKey)
  {
    hide Encoding, SortKeyOf, IdentityOf, Identified, IsPython, CanonicalBytes;
    assert ys != [] ==> HasEncoding(xs, Encoding(ys[0]));
    forall y | y in ys ensures IdentityUsable(y, identityKey) {
      assert HasEncoding(xs, Encoding(y));
      var x :| x in xs && Encoding(x) == Encoding(y);
      IdentityByEncoding(x, y, identityKey);
      assert IdentityUsable(x, identityKey);
    }
    forall y, z | y in ys && z in ys ensures !IdentityConflict(y, z, identityKey) && !TupleConflict(y, z, fields) {
      assert HasEncoding(xs, Encoding(y)) && HasEncoding(xs, Encoding(z));
      var u :| u in xs && Encoding(u) == Encoding(y);
      var v :| v in xs && Encoding(v) == Encoding(z);
      IdentityByEncoding(u, y, identityKey);
      IdentityByEncoding(v, z, identityKey);
      SortKeyByEncoding(u, y, fields);
      SortKeyByEncoding(v, z, fields);
      assert !IdentityConflict(u, v, identityKey) && !TupleConflict(u, v, fields);
    }
  }

  ghost predicate HasResult(xs: seq<Json>, r: Option<Bytes>) { exists x :: x in xs && CanonicalBytes(x) == r }

  /** The same results of encoding occur in both, the rejection of a value that cannot be encoded among them. */
  ghost predicate SameResults(xs: seq<Json>, ys: seq<Json>) {
    (forall x :: x in xs ==> HasResult(ys, CanonicalBytes(x))) &&
    (forall y :: y in ys ==> HasResult(xs, CanonicalBytes(y)))
  }

  lemma AcceptedIsCanonicalizable(xs: seq<Json>, fields: seq<Text>, identityKey: Option<Text>)
    requires AcceptsSet(xs, fields, identityKey) && forall x :: x in xs ==> IsPython(x)
    ensures AllCanonicalizable(xs)
  {
    hide IsPython, CanonicalBytes, IdentitiesAgree, TuplesAgree;
  }

  lemma ResultsAreEncodings(xs: seq<Json>, ys: seq<Json>)
    requires AllCanonicalizable(xs) && SameResults(xs, ys)
    ensures (forall y :: y in ys ==> CanonicalBytes(y).Some?) && SameEncodings(xs, ys)
  {
    hide IsPython, CanonicalBytes;
    forall y | y in ys ensures CanonicalBytes(y).Some? && HasEncoding(xs, Encoding(y)) {
      assert HasResult(xs, CanonicalBytes(y));
    }
    forall x | x in xs ensures HasEncoding(ys, Encoding(x)) { assert HasResult(ys, CanonicalBytes(x)); }
  }

  lemma AcceptanceFollows(xs: seq<Json>, ys: seq<Json>, fields: seq<Text>, identityKey: Option<Text>)
    requires (forall x :: x in xs ==> IsPython(x)) && (forall y :: y in ys ==> IsPython(y))
    requires SameResults(xs, ys) && AcceptsSet(xs, fields, identityKey)
    ensures AcceptsSet(ys, fields, identityKey)
  {
    hide IsPython, CanonicalBytes, AcceptsSet, SameResults, HasEncoding;
    AcceptedIsCanonicalizable(xs, fields, identityKey);
    ResultsAreEncodings(xs, ys);
    AcceptanceCarriesOver(xs, ys, fields, identityKey);
  }

  /**
   * Acceptance of a set depends only on which results of encoding occur, not on their order or number; a value that
   * cannot be encoded is such a result too, and gets every set it occurs in rejected.
   */
  lemma AcceptanceDependsOnEncodings(xs: seq<Json>, ys: seq<Json>, fields: seq<Text>, identityKey: Option<Text>)
    requires (forall x :: x in xs ==> IsPython(x)) && (forall y :: y in ys ==> IsPython(y)) && SameResults(xs, ys)
    ensures AcceptsSet(xs, fields, identityKey) <==> AcceptsSet(ys, fields, identityKey)
  {
    hide IsPython, CanonicalBytes, AcceptsSet;
    if AcceptsSet(xs, fields, identityKey) { AcceptanceFollows(xs, ys, fields, identityKey); }
    if AcceptsSet(ys, fields, identityKey) { AcceptanceFollows(ys, xs, fields, identityKey); }
  }

  /** A value's place in a set form: its tuple and its encoding. */
  datatype Place = Place(key: SortKey, encoding: Bytes)

  function PlaceOf(v: Json, fields: seq<Text>): Place { Place(SortKeyOf(v, fields), Encoding(v)) }

  function Places(vs: seq<Json>, fields: seq<Text>): seq<Place> {
    if vs == [] then [] else [PlaceOf(vs[0], fields)] + Places(vs[1..], fields)
  }

  function PlaceKey(): Place -> SortKey { (p: Place) => p.key }

  lemma {:induction false} PlaceAt(vs: seq<Json>, fields: seq<Text>)
    ensures |Places(vs, fields)| == |vs|
    ensures forall i :: 0 <= i < |vs| ==> Places(vs, fields)[i] == PlaceOf(vs[i], fields)
  {
    hide SortKeyOf, Encoding;
    if vs == [] {
    } else {
      PlaceAt(vs[1..], fields);
    }
  }

  lemma PlacesSorted(r: seq<Json>, fields: seq<Text>)
    requires StrictlyIncreasing(r, fields)
    ensures SortedBy(PlaceKey(), SortKeyLe(), Places(r, fields))
    ensures forall i, j :: 0 <= i < j < |Places(r, fields)| ==> Places(r, fields)[i].key != Places(r, fields)[j].key
  {
    hide SortKeyOf, Encoding, LexLe;
    PlaceAt(r, fields);
  }

  lemma PlacesIncluded(xs: seq<Json>, ys: seq<Json>, fields: seq<Text>, r: seq<Json>, s: seq<Json>, p: Place)
    requires AllCanonicalizable(xs) && AllCanonicalizable(ys) && SameEncodings(xs, ys)
    requires IsSetForm(xs, fields, r) && IsSetForm(ys, fields, s) && p in Places(r, fields)
    ensures p in Places(s, fields)
  {
    hide SortKeyOf, Encoding, StrictlyIncreasing, IsPython, CanonicalBytes;
    PlaceAt(r, fields);
    PlaceAt(s, fields);
    var i :| 0 <= i < |r| && Places(r, fields)[i] == p;
    assert r[i] in xs;
    assert HasEncoding(ys, Encoding(r[i]));
    var y :| y in ys && Encoding(y) == Encoding(r[i]);
    assert Represented(y, s);
    var u :| u in s && Encoding(u) == Encoding(y);
    assert u in ys;
    SortKeyByEncoding(r[i], u, fields);
    var j :| 0 <= j < |s| && s[j] == u;
    assert Places(s, fields)[j] == p;
  }

  /**
   * The normal form of a set depends only on which encodings occur: the same tuples and encodings, in the same
   * order.
   */
  lemma SetFormUnique(xs: seq<Json>, ys: seq<Json>, fields: seq<Text>, r: seq<Json>, s: seq<Json>)
    requires AllCanonicalizable(xs) && AllCanonicalizable(ys) && SameEncodings(xs, ys)
    requires IsSetForm(xs, fields, r) && IsSetForm(ys, fields, s)
    ensures Places(r, fields) == Places(s, fields)
  {
    hide SortKeyOf, Encoding, TotalOrder, SortedBy, IsSetForm, SameEncodings, AllCanonicalizable, LexLe, Places;
    assert StrictlyIncreasing(r, fields) && StrictlyIncreasing(s, fields) by {
      SetFormIncreasing(xs, fields, r);
      SetFormIncreasing(ys, fields, s);
    }
    PlacesSorted(r, fields);
    PlacesSorted(s, fields);
    assert SameEncodings(ys, xs) by { SameEncodingsSymmetric(xs, ys); }
    forall p ensures p in Places(r, fields) <==> p in Places(s, fields) {
      if p in Places(r, fields) { PlacesIncluded(xs, ys, fields, r, s, p); }
      if p in Places(s, fields) { PlacesIncluded(ys, xs, fields, s, r, p); }
    }
    DistinctPermutation(Places(r, fields), Places(s, fields));
    SortKeyTotal();
    SortedUnique(PlaceKey(), SortKeyLe(), Places(r, fields), Places(s, fields));
  }

  lemma SetFormIncreasing(xs: seq<Json>, fields: seq<Text>, r: seq<Json>)
    requires IsSetForm(xs, fields, r)
    ensures StrictlyIncreasing(r, fields)
  {
  }

  lemma SameEncodingsSymmetric(xs: seq<Json>, ys: seq<Json>)
    requires SameEncodings(xs, ys)
    ensures SameEncodings(ys, xs)
  {
  }

  lemma FormKeepsEncodings(xs: seq<Json>, fields: seq<Text>, r: seq<Json>)
    requires AllCanonicalizable(xs) && IsSetForm(xs, fields, r)
    ensures AllCanonicalizable(r) && SameEncodings(xs, r) && StrictlyIncreasing(r, fields)
    ensures forall u :: u in r ==> HasEncoding(xs, Encoding(u))
  {
    hide SortKeyOf, Encoding, Canonicalizable, StrictlyIncreasing;
    forall u | u in r ensures HasEncoding(xs, Encoding(u)) { assert u in xs; }
    forall x | x in xs ensures HasEncoding(r, Encoding(x)) { assert Represented(x, r); }
  }

  lemma FormMembers(xs: seq<Json>, fields: seq<Text>, r: seq<Json>)
    requires IsSetForm(xs, fields, r)
    ensures forall u :: u in r ==> u in xs
  {
    hide StrictlyIncreasing, Represented;
  }

  /** Normalizing a normal form changes nothing: it is accepted, and its own normal form is itself. */
  lemma SetFormIdempotent(xs: seq<Json>, fields: seq<Text>, identityKey: Option<Text>, r: seq<Json>, s: seq<Json>)
    requires AllCanonicalizable(xs) && AcceptsSet(xs, fields, identityKey) && IsSetForm(xs, fields, r)
    ensures AcceptsSet(r, fields, identityKey)
    ensures IsSetForm(r, fields, s) ==> s == r
  {
    hide SortKeyOf, Encoding, HasEncoding, AcceptsSet, IsSetForm, SameEncodings, AllCanonicalizable,
      StrictlyIncreasing, Places;
    FormKeepsEncodings(xs, fields, r);
    AcceptanceCarriesOver(xs, r, fields, identityKey);
    if IsSetForm(r, fields, s) {
      SetFormUnique(xs, r, fields, r, s);
      FormMembers(r, fields, s);
      SamePlacesSameValues(r, fields, s);
    }
  }

  lemma SamePlacesSameValues(r: seq<Json>, fields: seq<Text>, s: seq<Json>)
    requires StrictlyIncreasing(r, fields) && (forall u :: u in s ==> u in r) && Places(r, fields) == Places(s, fields)
    ensures s == r
  {
    hide SortKeyOf, Encoding, LexLe, Places;
    PlaceAt(r, fields);
    PlaceAt(s, fields);
    forall i | 0 <= i < |s| ensures s[i] == r[i] {
      assert s[i] in r;
      var k :| 0 <= k < |r| && r[k] == s[i];
      assert PlaceOf(r[k], fields) == Places(s, fields)[i] == PlaceOf(r[i], fields);
      KeysDiffer(r, fields, i, k);
    }
  }

  lemma KeysDiffer(r: seq<Json>, fields: seq<Text>, i: nat, k: nat)
    requires StrictlyIncreasing(r, fields) && i < |r| && k < |r|
    ensures i != k ==> SortKeyOf(r[i], fields) != SortKeyOf(r[k], fields)
  {
    hide SortKeyOf, LexLe;
  }

  // ---- multisets ----

  lemma {:induction false} PlacesAppend(a: seq<Json>, b: seq<Json>, fields: seq<Text>)
    ensures Places(a + b, fields) == Places(a, fields) + Places(b, fields)
  {
    hide SortKeyOf, Encoding;
    if a == [] {
      assert a + b == b;
    } else {
      assert (a + b)[1..] == a[1..] + b;
      PlacesAppend(a[1..], b, fields);
    }
  }

  lemma PlacesRemoveOne(s: seq<Json>, k: nat, fields: seq<Text>)
    requires k < |s|
    ensures multiset(Places(s, fields)) == multiset(Places(s[..k] + s[k + 1..], fields))
              + multiset{PlaceOf(s[k], fields)}
  {
    hide PlaceOf;
    assert s == s[..k] + ([s[k]] + s[k + 1..]);
    PlacesAppend(s[..k], [s[k]] + s[k + 1..], fields);
    PlacesAppend([s[k]], s[k + 1..], fields);
    PlacesAppend(s[..k], s[k + 1..], fields);
    assert Places([s[k]], fields) == [PlaceOf(s[k], fields)];
  }

  lemma {:induction false} PlacesPermute(xs: seq<Json>, ys: seq<Json>, fields: seq<Text>)
    requires multiset(xs) == multiset(ys)
    ensures multiset(Places(xs, fields)) == multiset(Places(ys, fields))
    decreases |xs|
  {
    hide Places, PlaceOf;
    if xs == [] {
      assert |multiset(ys)| == |ys|;
    } else {
      assert xs[0] in multiset(xs) && xs[0] in multiset(ys);
      var k :| 0 <= k < |ys| && ys[k] == xs[0];
      RemoveOne(xs, 0);
      RemoveOne(ys, k);
      PlacesRemoveOne(xs, 0, fields);
      PlacesRemoveOne(ys, k, fields);
      CancelOne(multiset(xs[..0] + xs[1..]), multiset(ys[..k] + ys[k + 1..]), xs[0]);
      PlacesPermute(xs[..0] + xs[1..], ys[..k] + ys[k + 1..], fields);
    }
  }

  /** A multiset form keeps every encoding as often as it came, and any permutation of the input gives the same one. */
  lemma MultisetFormUnique(xs: seq<Json>, ys: seq<Json>, fields: seq<Text>, r: seq<Json>, s: seq<Json>)
    requires AcceptsMultiset(xs, fields) && multiset(xs) == multiset(ys)
    requires IsMultisetForm(xs, fields, r) && IsMultisetForm(ys, fields, s)
    ensures AcceptsMultiset(ys, fields)
    ensures Places(r, fields) == Places(s, fields)
    ensures multiset(Places(r, fields)) == multiset(Places(xs, fields))
  {
    hide SortKeyOf, Encoding, TotalOrder, LexLe, CanonicalBytes, Places;
    forall y ensures y in ys <==> y in xs { assert y in multiset(ys) <==> y in multiset(xs); }
    assert ys != [] ==> ys[0] in xs;
    PlacesPermute(xs, r, fields);
    PlacesPermute(ys, s, fields);
    PlacesPermute(xs, ys, fields);
    PlaceAt(r, fields);
    PlaceAt(s, fields);
    assert SortedBy(PlaceKey(), SortKeyLe(), Places(r, fields));
    assert SortedBy(PlaceKey(), SortKeyLe(), Places(s, fields));
    forall p, q | p in Places(r, fields) && q in Places(r, fields) && PlaceKey()(p) == PlaceKey()(q) ensures p == q {
      var i :| 0 <= i < |r| && Places(r, fields)[i] == p;
      var j :| 0 <= j < |r| && Places(r, fields)[j] == q;
      assert r[i] in multiset(r) && r[j] in multiset(r);
      assert r[i] in xs && r[j] in xs;
      assert !TupleConflict(r[i], r[j], fields);
    }
    SortKeyTotal();
    SortedUnique(PlaceKey(), SortKeyLe(), Places(r, fields), Places(s, fields));
  }
}
