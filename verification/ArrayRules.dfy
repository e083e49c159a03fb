/** The declared order of arrays and the rules of their acceptance, spelled out on the fields of the values. */
module ArrayRules {
  import opened Wrappers
  import opened Orders
  import opened UnicodeText
  import opened Jcs
  import opened ArrayNormalization

  // ---- the declared order ----

  /** The canonical bytes of a field; the field "$value" is the value itself. */
  ghost function FieldBytes(v: Json, field: Text): Option<seq<int>> {
    if field == [0x24, 0x76, 0x61, 0x6C, 0x75, 0x65] then Some(Encoding(v))
    else if v.Dict? && Lookup(v.members, field).Some? then Some(Encoding(Lookup(v.members, field).value))
    else None
  }

  /** An absent field comes before every present one, and present ones come in the order of their bytes. */
  ghost predicate FieldBefore(a: Option<seq<int>>, b: Option<seq<int>>) {
    b.Some? && (a.None? || (a.value != b.value && LexLe(IntLe(), a.value, b.value)))
  }

  /** The first declared field in which two values differ decides. */
  ghost predicate Precedes(v: Json, w: Json, fields: seq<Text>) {
    fields != [] &&
    (FieldBefore(FieldBytes(v, fields[0]), FieldBytes(w, fields[0])) ||
     (FieldBytes(v, fields[0]) == FieldBytes(w, fields[0]) && Precedes(v, w, fields[1..])))
  }

  ghost predicate AgreeOn(v: Json, w: Json, fields: seq<Text>) {
    forall f :: f in fields ==> FieldBytes(v, f) == FieldBytes(w, f)
  }

  lemma ComponentIs(v: Json, field: Text)
    ensures Component(v, field) == match FieldBytes(v, field) case None => [0] case Some(b) => [1] + b
  {
    hide Encoding, Lookup;
  }

  lemma ComponentOrder(v: Json, w: Json, field: Text)
    ensures Component(v, field) == Component(w, field) <==> FieldBytes(v, field) == FieldBytes(w, field)
    ensures Component(v, field) != Component(w, field) && LexLe(IntLe(), Component(v, field), Component(w, field)) <==>
              FieldBefore(FieldBytes(v, field), FieldBytes(w, field))
  {
    hide FieldBytes, Component;
    ComponentIs(v, field);
    ComponentIs(w, field);
    var a, b := FieldBytes(v, field), FieldBytes(w, field);
    var x, y := Component(v, field), Component(w, field);
    assert x[0] == (if a.Some? then 1 else 0) && y[0] == (if b.Some? then 1 else 0);
    if a.Some? { assert x[1..] == a.value; }
    if b.Some? { assert y[1..] == b.value; }
  }

  lemma LexHead(a: seq<seq<int>>, b: seq<seq<int>>)
    requires a != [] && b != []
    ensures LexLe(ByteStringLe(), a, b) <==>
              (a[0] == b[0] && LexLe(ByteStringLe(), a[1..], b[1..])) || (a[0] != b[0] && LexLe(IntLe(), a[0], b[0]))
  {
  }

  lemma {:induction false} KeyOrderIs(v: Json, w: Json, fields: seq<Text>)
    ensures SortKeyOf(v, fields) == SortKeyOf(w, fields) <==> AgreeOn(v, w, fields)
    ensures SortKeyLe()(SortKeyOf(v, fields), SortKeyOf(w, fields)) && SortKeyOf(v, fields) != SortKeyOf(w, fields) <==>
              Precedes(v, w, fields)
  {
    hide FieldBytes, Component, FieldBefore;
    if fields == [] {
    } else {
      KeyOrderIs(v, w, fields[1..]);
      ComponentOrder(v, w, fields[0]);
      var a, b := SortKeyOf(v, fields), SortKeyOf(w, fields);
      assert a[0] == Component(v, fields[0]) && a[1..] == SortKeyOf(v, fields[1..]);
      assert b[0] == Component(w, fields[0]) && b[1..] == SortKeyOf(w, fields[1..]);
      assert a == [a[0]] + a[1..] && b == [b[0]] + b[1..];
      assert fields == [fields[0]] + fields[1..];
      HeadOrder(a, b);
    }
  }

  lemma HeadOrder(a: seq<seq<int>>, b: seq<seq<int>>)
    requires a != [] && b != []
    ensures SortKeyLe()(a, b) <==>
              (a[0] == b[0] && SortKeyLe()(a[1..], b[1..])) || (a[0] != b[0] && LexLe(IntLe(), a[0], b[0]))
  {
    LexHead(a, b);
  }

  /** A set form stands in the declared order: the first field that differs is absent first, then by bytes. */
  lemma SetFormOrder(values: seq<Json>, fields: seq<Text>, r: seq<Json>)
    requires IsSetForm(values, fields, r)
    ensures forall i, j :: 0 <= i < j < |r| ==> Precedes(r[i], r[j], fields)
  {
    hide SortKeyOf, Precedes, Represented, SortKeyLe;
    forall i, j | 0 <= i < j < |r| ensures Precedes(r[i], r[j], fields) { KeyOrderIs(r[i], r[j], fields); }
  }

  /** A multiset form does too, but for values that agree in every declared field. */
  lemma MultisetFormOrder(values: seq<Json>, fields: seq<Text>, r: seq<Json>)
    requires IsMultisetForm(values, fields, r)
    ensures forall i, j :: 0 <= i < j < |r| ==> Precedes(r[i], r[j], fields) || AgreeOn(r[i], r[j], fields)
  {
    hide SortKeyOf, Precedes, AgreeOn, SortKeyLe;
    forall i, j | 0 <= i < j < |r| ensures Precedes(r[i], r[j], fields) || AgreeOn(r[i], r[j], fields) {
      KeyOrderIs(r[i], r[j], fields);
      assert SortKeyLe()(KeyBy(fields)(r[i]), KeyBy(fields)(r[j]));
    }
  }

  // ---- acceptance ----

  /** A field that can be a dictionary key: a string, an integer or a boolean. */
  ghost predicate HasIdentity(v: Json, key: Text) {
    v.Dict? && Lookup(v.members, key).Some? &&
    (Lookup(v.members, key).value.Str? || Lookup(v.members, key).value.Int? || Lookup(v.members, key).value.Bool?)
  }

  /** Two such fields are one key when the strings are equal, or the numbers are, with True as 1 and False as 0. */
  ghost predicate SameIdentity(v: Json, w: Json, key: Text)
    requires HasIdentity(v, key) && HasIdentity(w, key)
  {
    var a, b := Lookup(v.members, key).value, Lookup(w.members, key).value;
    if a.Str? || b.Str? then a == b else AsNumber(a) == AsNumber(b)
  }

  ghost function AsNumber(v: Json): int {
    match v
    case Int(n) => n
    case Bool(b) => if b then 1 else 0
    case _ => 0
  }

  /** Different values are told apart by their identity and by some declared field. */
  ghost predicate ToldApart(values: seq<Json>, fields: seq<Text>) {
    (values != [] ==> fields != []) &&
    forall v, w :: v in values && w in values && AgreeOn(v, w, fields) ==> CanonicalBytes(v) == CanonicalBytes(w)
  }

  ghost predicate IdentifiedBy(values: seq<Json>, key: Text) {
    (forall v :: v in values && v.Dict? ==> HasIdentity(v, key)) &&
    forall v, w :: v in values && w in values && Identical(v, w, key) ==> CanonicalBytes(v) == CanonicalBytes(w)
  }

  ghost predicate Identical(v: Json, w: Json, key: Text) {
    HasIdentity(v, key) && HasIdentity(w, key) && SameIdentity(v, w, key)
  }

  lemma TuplesAgreeIff(values: seq<Json>, fields: seq<Text>)
    requires forall v :: v in values ==> CanonicalBytes(v).Some?
    ensures TuplesAgree(values, fields) <==> ToldApart(values, fields)
  {
    hide SortKeyOf, AgreeOn, CanonicalBytes;
    forall v, w { KeyOrderIs(v, w, fields); }
    forall v, w | v in values && w in values
      ensures !TupleConflict(v, w, fields) <==> (AgreeOn(v, w, fields) ==> CanonicalBytes(v) == CanonicalBytes(w)) {}
  }

  lemma IdentityIs(v: Json, w: Json, key: Text)
    requires v.Dict? && w.Dict?
    ensures HasIdentity(v, key) <==> !IdentityOf(v, key).Absent? && !IdentityOf(v, key).Unhashable?
    ensures HasIdentity(v, key) && HasIdentity(w, key) ==>
              (SameIdentity(v, w, key) <==> IdentityOf(v, key) == IdentityOf(w, key))
  {
    hide Lookup;
  }

  lemma IdentitiesAgreeIff(values: seq<Json>, key: Text)
    requires key != [] && forall v :: v in values ==> CanonicalBytes(v).Some?
    ensures IdentitiesAgree(values, Some(key)) <==> IdentifiedBy(values, key)
  {
    hide IdentityOf, CanonicalBytes, HasIdentity, SameIdentity;
    forall v | v in values ensures IdentityUsable(v, Some(key)) <==> (v.Dict? ==> HasIdentity(v, key)) {
      if v.Dict? { IdentityIs(v, v, key); }
    }
    forall v, w | v in values && w in values
      ensures v.Dict? && w.Dict? && HasIdentity(v, key) && HasIdentity(w, key) ==>
          (!IdentityConflict(v, w, Some(key)) <==> (SameIdentity(v, w, key) ==> CanonicalBytes(v) == CanonicalBytes(w)))
    {
      if v.Dict? && w.Dict? { IdentityIs(v, w, key); }
    }
    forall v | HasIdentity(v, key) ensures v.Dict? { IdentityNeedsDict(v, key); }
  }

  lemma IdentityNeedsDict(v: Json, key: Text)
    requires HasIdentity(v, key)
    ensures v.Dict?
  {
  }

  /**
   * A set is accepted exactly when its values encode, some declared field tells different values apart, and, with an
   * identity key, every dict has a usable identity that different values do not share.
   */
  lemma AcceptsSetIff(values: seq<Json>, fields: seq<Text>, identityKey: Option<Text>)
    ensures AcceptsSet(values, fields, identityKey) <==>
              (forall v :: v in values ==> CanonicalBytes(v).Some?) && ToldApart(values, fields) &&
              (identityKey.Some? && identityKey.value != [] ==> IdentifiedBy(values, identityKey.value))
  {
    hide CanonicalBytes, TuplesAgree, ToldApart, IdentifiedBy, IdentityOf;
    if forall v :: v in values ==> CanonicalBytes(v).Some? {
      TuplesAgreeIff(values, fields);
      if identityKey.Some? && identityKey.value != [] { IdentitiesAgreeIff(values, identityKey.value); }
    }
  }

  /** A multiset is accepted exactly when its values encode and some declared field tells different values apart. */
  lemma AcceptsMultisetIff(values: seq<Json>, fields: seq<Text>)
    ensures AcceptsMultiset(values, fields) <==>
              (forall v :: v in values ==> CanonicalBytes(v).Some?) && ToldApart(values, fields)
  {
    hide CanonicalBytes, TuplesAgree, ToldApart;
    if forall v :: v in values ==> CanonicalBytes(v).Some? { TuplesAgreeIff(values, fields); }
  }
}
