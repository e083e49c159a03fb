/** scripts/gate3_reference_semantics.py: the projection of declared paths whose canonical bytes identify a response. */
module Projection {
  import opened Wrappers
  import opened Orders
  import opened UnicodeText
  import opened Jcs
  import ArrayNormalization

  /** A field rule: its path split at the dots, and whether it takes part in the semantic identity. */
  datatype Rule = Rule(root: Text, parts: seq<Text>, included: bool)

  /** Stands for the normalization of one field value, which may reject it. */
  type Normalizer = (seq<Text>, Json) -> Option<Json>

  datatype Versions = Versions(canonicalization: Text, derivation: Text)

  /** "review_context_response" */
  const ROOT: Text :=
    [0x72, 0x65, 0x76, 0x69, 0x65, 0x77, 0x5F, 0x63, 0x6F, 0x6E, 0x74, 0x65, 0x78, 0x74, 0x5F, 0x72, 0x65, 0x73, 0x70,
      0x6F, 0x6E, 0x73, 0x65]

  /** "canonicalization_version" */
  const CANONICALIZATION: Text :=
    [0x63, 0x61, 0x6E, 0x6F, 0x6E, 0x69, 0x63, 0x61, 0x6C, 0x69, 0x7A, 0x61, 0x74, 0x69, 0x6F, 0x6E, 0x5F, 0x76, 0x65,
      0x72, 0x73, 0x69, 0x6F, 0x6E]

  /** "derivation_version" */
  const DERIVATION: Text :=
    [0x64, 0x65, 0x72, 0x69, 0x76, 0x61, 0x74, 0x69, 0x6F, 0x6E, 0x5F, 0x76, 0x65, 0x72, 0x73, 0x69, 0x6F, 0x6E]

  // ---- paths into nested dicts ----

  /** Replace the value under a name where it stands, or append a new member. */
  function SetMember(ms: seq<Member>, name: Text, v: Json): seq<Member> {
    if ms == [] then [Member(name, v)]
    else if ms[0].name == name then [Member(name, v)] + ms[1..]
    else [ms[0]] + SetMember(ms[1..], name, v)
  }

  function GetPath(v: Json, parts: seq<Text>): Option<Json>
    decreases |parts|
  {
    if parts == [] then Some(v)
    else if !v.Dict? || Lookup(v.members, parts[0]).None? then None
    else GetPath(Lookup(v.members, parts[0]).value, parts[1..])
  }

  /** None where the original raises: an empty path, or a step into something that is no dict. */
  function SetPath(v: Json, parts: seq<Text>, x: Json): Option<Json>
    decreases |parts|
  {
    if parts == [] || !v.Dict? then None
    else if |parts| == 1 then Some(Dict(SetMember(v.members, parts[0], x)))
    else
      var found := Lookup(v.members, parts[0]);
      var inner := SetPath(if found.Some? then found.value else Dict([]), parts[1..], x);
      if inner.None? then None else Some(Dict(SetMember(v.members, parts[0], inner.value)))
  }

  method Get(v: Json, parts: seq<Text>) returns (r: Option<Json>)
    ensures r == GetPath(v, parts)
  {
    var current := v;
    for i := 0 to |parts|
      invariant GetPath(v, parts) == GetPath(current, parts[i..])
    {
      if !current.Dict? || Lookup(current.members, parts[i]).None? { return None; }
      current := Lookup(current.members, parts[i]).value;
    }
    return Some(current);
  }

  // ---- the projection ----

  /** The normalized value a rule contributes; None where the original raises. */
  function Contribution(r: Rule, response: Json, norm: Normalizer): Option<Json> {
    if r.root != ROOT || GetPath(response, r.parts).None? then None
    else norm(r.parts, GetPath(response, r.parts).value)
  }

  function Project(rules: seq<Rule>, response: Json, norm: Normalizer): Option<Json> {
    if rules == [] then Some(Dict([]))
    else
      var before := Project(rules[..|rules| - 1], response, norm);
      var r := rules[|rules| - 1];
      if before.None? || !r.included then before
      else if Contribution(r, response, norm).None? then None
      else SetPath(before.value, r.parts, Contribution(r, response, norm).value)
  }

  function Material(v: Versions, projected: Json): Json {
    Dict([Member(CANONICALIZATION, Str(v.canonicalization)), Member(DERIVATION, Str(v.derivation)),
      Member(ROOT, projected)])
  }

  lemma {:induction false} ProjectStaysNone(rules: seq<Rule>, response: Json, norm: Normalizer, n: nat)
    requires n <= |rules| && Project(rules[..n], response, norm).None?
    ensures Project(rules, response, norm).None?
    decreases |rules|
  {
    if n == |rules| {
      assert rules[..n] == rules;
    } else {
      assert rules[..|rules| - 1][..n] == rules[..n];
      ProjectStaysNone(rules[..|rules| - 1], response, norm, n);
    }
  }

  /** Set every included path of the response in a fresh dict, in rule order. */
  method ProjectSemanticMaterial(rules: seq<Rule>, response: Json, norm: Normalizer,
      versions: Versions) returns (r: Option<Json>)
    ensures r == if Project(rules, response, norm).None? then None
              else Some(Material(versions, Project(rules, response, norm).value))
  {
    hide SetPath, GetPath;
    var projected := Dict([]);
    for i := 0 to |rules|
      invariant Project(rules[..i], response, norm) == Some(projected)
    {
      assert rules[..i + 1][..i] == rules[..i];
      if rules[i].included {
        var next: Option<Json> := None;
        if rules[i].root == ROOT {
          var found := Get(response, rules[i].parts);
          if found.Some? {
            var value := norm(rules[i].parts, found.value);
            if value.Some? { next := SetPath(projected, rules[i].parts, value.value); }
          }
        }
        if next.None? {
          ProjectStaysNone(rules, response, norm, i + 1);
          return None;
        }
        projected := next.value;
      }
    }
    assert rules[..|rules|] == rules;
    return Some(Material(versions, projected));
  }

  // ---- paths into values without member order ----

  ghost function GetValue(v: Value, parts: seq<Text>): Option<Value>
    decreases |parts|
  {
    if parts == [] then Some(v)
    else if !v.VDict? || parts[0] !in v.fields then None
    else GetValue(v.fields[parts[0]], parts[1..])
  }

  ghost function Inner(v: Value, name: Text): Value
    requires v.VDict?
  {
    if name in v.fields then v.fields[name] else VDict(map[])
  }

  ghost function SetValue(v: Value, parts: seq<Text>, x: Value): Option<Value>
    decreases |parts|
  {
    if parts == [] || !v.VDict? then None
    else if |parts| == 1 then Some(VDict(v.fields[parts[0] := x]))
    else
      var inner := SetValue(Inner(v, parts[0]), parts[1..], x);
      if inner.None? then None else Some(VDict(v.fields[parts[0] := inner.value]))
  }

  lemma {:induction false} SetMemberDenotes(ms: seq<Member>, name: Text, v: Json)
    ensures DenoteMembers(SetMember(ms, name, v)) == DenoteMembers(ms)[name := Denote(v)]
  {
    hide Denote;
    if ms == [] {
    } else if ms[0].name == name {
      assert ([Member(name, v)] + ms[1..])[1..] == ms[1..];
    } else {
      SetMemberDenotes(ms[1..], name, v);
      assert ([ms[0]] + SetMember(ms[1..], name, v))[1..] == SetMember(ms[1..], name, v);
    }
  }

  lemma {:induction false} SetMemberMembers(ms: seq<Member>, name: Text, v: Json)
    ensures forall m :: m in SetMember(ms, name, v) ==> m == Member(name, v) || m in ms
    ensures forall m :: m in SetMember(ms, name, v) && m.name != name ==> m in ms
  {
    if ms == [] {
    } else {
      SetMemberMembers(ms[1..], name, v);
      assert ms == [ms[0]] + ms[1..];
    }
  }

  lemma HeadApart(ms: seq<Member>, m: Member)
    requires UniqueNames(ms) && ms != [] && m in ms[1..]
    ensures m.name != ms[0].name
  {
    var k :| 0 <= k < |ms[1..]| && ms[1..][k] == m;
    assert ms[k + 1] == m;
  }

  lemma PrependUnique(m: Member, ms: seq<Member>)
    requires UniqueNames(ms) && forall x :: x in ms ==> x.name != m.name
    ensures UniqueNames([m] + ms)
  {
  }

  lemma {:induction false} SetMemberUnique(ms: seq<Member>, name: Text, v: Json)
    requires UniqueNames(ms)
    ensures UniqueNames(SetMember(ms, name, v))
  {
    if ms == [] {
    } else {
      assert UniqueNames(ms[1..]);
      if ms[0].name == name {
        forall x | x in ms[1..] ensures x.name != name { HeadApart(ms, x); }
        PrependUnique(Member(name, v), ms[1..]);
      } else {
        SetMemberUnique(ms[1..], name, v);
        SetMemberMembers(ms[1..], name, v);
        forall x | x in SetMember(ms[1..], name, v) ensures x.name != ms[0].name {
          if x.name != name { HeadApart(ms, x); }
        }
        PrependUnique(ms[0], SetMember(ms[1..], name, v));
      }
    }
  }

  lemma SetMemberPython(ms: seq<Member>, name: Text, v: Json)
    requires IsPython(Dict(ms)) && IsPython(v)
    ensures IsPython(Dict(SetMember(ms, name, v)))
  {
    SetMemberUnique(ms, name, v);
    SetMemberMembers(ms, name, v);
  }

  lemma InnerPython(ms: seq<Member>, name: Text)
    requires IsPython(Dict(ms))
    ensures Lookup(ms, name).Some? ==> IsPython(Lookup(ms, name).value)
  {
    LookupMember(ms, name);
  }

  lemma {:induction false} GetPathDenotes(v: Json, parts: seq<Text>)
    requires IsPython(v)
    ensures GetPath(v, parts).Some? <==> GetValue(Denote(v), parts).Some?
    ensures GetPath(v, parts).Some? ==>
              Denote(GetPath(v, parts).value) == GetValue(Denote(v), parts).value && IsPython(GetPath(v, parts).value)
    decreases |parts|
  {
    hide IsPython, DenoteMembers;
    if parts != [] && v.Dict? {
      LookupDenotes(v.members, parts[0]);
      InnerPython(v.members, parts[0]);
      if Lookup(v.members, parts[0]).Some? { GetPathDenotes(Lookup(v.members, parts[0]).value, parts[1..]); }
    }
  }

  /** Setting a path in a dict is setting it in the value the dict denotes. */
  lemma {:induction false} SetPathDenotes(v: Json, parts: seq<Text>, x: Json)
    requires IsPython(v) && IsPython(x)
    ensures SetPath(v, parts, x).Some? <==> SetValue(Denote(v), parts, Denote(x)).Some?
    ensures SetPath(v, parts, x).Some? ==>
              Denote(SetPath(v, parts, x).value) == SetValue(Denote(v), parts, Denote(x)).value
    ensures SetPath(v, parts, x).Some? ==> IsPython(SetPath(v, parts, x).value)
    decreases |parts|
  {
    hide IsPython, DenoteMembers, SetMember, Lookup;
    if parts != [] && v.Dict? {
      if |parts| == 1 {
        SetMemberDenotes(v.members, parts[0], x);
        SetMemberPython(v.members, parts[0], x);
      } else {
        var found := Lookup(v.members, parts[0]);
        var start := if found.Some? then found.value else Dict([]);
        LookupDenotes(v.members, parts[0]);
        InnerPython(v.members, parts[0]);
        EmptyDict();
        SetPathDenotes(start, parts[1..], x);
        var inner := SetPath(start, parts[1..], x);
        if inner.Some? {
          SetMemberDenotes(v.members, parts[0], inner.value);
          SetMemberPython(v.members, parts[0], inner.value);
        }
      }
    }
  }

  lemma EmptyDict()
    ensures IsPython(Dict([])) && DenoteMembers([]) == map[]
  {
  }

  // ---- setting and getting ----

  lemma {:induction false} GetWhatWasSet(v: Value, parts: seq<Text>, x: Value)
    requires SetValue(v, parts, x).Some?
    ensures GetValue(SetValue(v, parts, x).value, parts) == Some(x)
    decreases |parts|
  {
    if |parts| > 1 {
      GetWhatWasSet(Inner(v, parts[0]), parts[1..], x);
    } else {
      assert GetValue(x, parts[1..]) == Some(x);
    }
  }

  predicate Apart(p: seq<Text>, q: seq<Text>) { !(p <= q) && !(q <= p) }

  lemma ApartTails(p: seq<Text>, q: seq<Text>)
    requires Apart(p, q) && p[0] == q[0]
    ensures |p| > 1 && |q| > 1 && Apart(p[1..], q[1..])
  {
    assert p == [p[0]] + p[1..] && q == [q[0]] + q[1..];
  }

  /** Setting a path disturbs no path that is neither above nor below it. */
  lemma {:induction false} OthersStay(v: Value, p: seq<Text>, x: Value, q: seq<Text>)
    requires Apart(p, q) && SetValue(v, p, x).Some?
    ensures GetValue(SetValue(v, p, x).value, q) == GetValue(v, q)
    decreases |p|
  {
    if p[0] == q[0] {
      ApartTails(p, q);
      OthersStay(Inner(v, p[0]), p[1..], x, q[1..]);
      if p[0] !in v.fields { assert GetValue(VDict(map[]), q[1..]) == None; }
    }
  }

  lemma {:induction false} SettableStays(v: Value, p: seq<Text>, x: Value, q: seq<Text>, y: Value)
    requires Apart(p, q) && SetValue(v, p, x).Some? && SetValue(v, q, y).Some?
    ensures SetValue(SetValue(v, p, x).value, q, y).Some?
    decreases |p|
  {
    if p[0] == q[0] {
      ApartTails(p, q);
      SettableStays(Inner(v, p[0]), p[1..], x, q[1..], y);
    } else if |q| > 1 {
      assert Inner(SetValue(v, p, x).value, q[0]) == Inner(v, q[0]);
    }
  }

  lemma {:induction false} SettableInEmpty(parts: seq<Text>, x: Value)
    requires parts != []
    ensures SetValue(VDict(map[]), parts, x).Some?
    decreases |parts|
  {
    if |parts| == 1 {
    } else {
      SettableInEmpty(parts[1..], x);
    }
  }

  lemma {:induction false} SettableWhatever(v: Value, parts: seq<Text>, x: Value, y: Value)
    ensures SetValue(v, parts, x).Some? <==> SetValue(v, parts, y).Some?
    decreases |parts|
  {
    if parts != [] && v.VDict? && |parts| > 1 { SettableWhatever(Inner(v, parts[0]), parts[1..], x, y); }
  }

  // ---- the identity of a response ----

  ghost predicate PrefixFree(rules: seq<Rule>) {
    forall i, j :: 0 <= i < j < |rules| && rules[i].included && rules[j].included ==>
      Apart(rules[i].parts, rules[j].parts)
  }

  ghost predicate KeepsPython(norm: Normalizer) {
    forall p, v :: IsPython(v) && norm(p, v).Some? ==> IsPython(norm(p, v).value)
  }

  lemma ContributionPython(r: Rule, response: Json, norm: Normalizer)
    requires IsPython(response) && KeepsPython(norm) && Contribution(r, response, norm).Some?
    ensures IsPython(Contribution(r, response, norm).value)
  {
    hide IsPython, GetPath;
    GetPathDenotes(response, r.parts);
  }

  lemma {:induction false} ProjectPython(rules: seq<Rule>, response: Json, norm: Normalizer)
    requires IsPython(response) && KeepsPython(norm)
    ensures Project(rules, response, norm).Some? ==> IsPython(Project(rules, response, norm).value)
    decreases |rules|
  {
    hide IsPython, SetPath, Contribution, KeepsPython;
    if rules == [] {
      EmptyDict();
    } else {
      var r := rules[|rules| - 1];
      var before := Project(rules[..|rules| - 1], response, norm);
      ProjectPython(rules[..|rules| - 1], response, norm);
      if before.Some? && r.included && Contribution(r, response, norm).Some? {
        ContributionPython(r, response, norm);
        SetPathDenotes(before.value, r.parts, Contribution(r, response, norm).value);
      }
    }
  }

  /** Each rule's contribution is found at its path, when no included path is above or below another. */
  lemma {:induction false} ProjectedAt(rules: seq<Rule>, response: Json, norm: Normalizer, i: nat)
    requires IsPython(response) && KeepsPython(norm) && PrefixFree(rules) && Project(rules, response, norm).Some?
    requires i < |rules| && rules[i].included
    ensures Contribution(rules[i], response, norm).Some?
    ensures GetValue(Denote(Project(rules, response, norm).value), rules[i].parts) ==
              Some(Denote(Contribution(rules[i], response, norm).value))
    decreases |rules|
  {
    hide IsPython, SetPath, Contribution, KeepsPython, GetValue, SetValue, Denote, Apart;
    var last := |rules| - 1;
    var before := Project(rules[..last], response, norm);
    ProjectPython(rules[..last], response, norm);
    if rules[last].included {
      var x := Contribution(rules[last], response, norm).value;
      ContributionPython(rules[last], response, norm);
      SetPathDenotes(before.value, rules[last].parts, x);
      GetWhatWasSet(Denote(before.value), rules[last].parts, Denote(x));
      if i < last {
        PrefixFreeBefore(rules);
        ProjectedAt(rules[..last], response, norm, i);
        ApartEitherWay(rules[i].parts, rules[last].parts);
        OthersStay(Denote(before.value), rules[last].parts, Denote(x), rules[i].parts);
      }
    } else {
      PrefixFreeBefore(rules);
      ProjectedAt(rules[..last], response, norm, i);
    }
  }

  lemma PrefixFreeBefore(rules: seq<Rule>)
    requires PrefixFree(rules) && rules != []
    ensures PrefixFree(rules[..|rules| - 1])
  {
    hide Apart;
  }

  lemma ApartEitherWay(p: seq<Text>, q: seq<Text>)
    ensures Apart(p, q) <==> Apart(q, p)
  {
  }

  /** The contributions of two responses denote the same value at every included path. */
  ghost predicate SameFields(rules: seq<Rule>, a: Json, b: Json, norm: Normalizer) {
    forall i :: 0 <= i < |rules| && rules[i].included ==> SameField(rules[i], a, b, norm)
  }

  ghost predicate SameField(r: Rule, a: Json, b: Json, norm: Normalizer) {
    Contribution(r, a, norm).Some? && Contribution(r, b, norm).Some? &&
    Denote(Contribution(r, a, norm).value) == Denote(Contribution(r, b, norm).value)
  }

  /** At one path both responses contribute the same value, or neither contributes any. */
  ghost predicate MatchingField(r: Rule, a: Json, b: Json, norm: Normalizer) {
    SameField(r, a, b, norm) || (Contribution(r, a, norm).None? && Contribution(r, b, norm).None?)
  }

  ghost predicate MatchingFields(rules: seq<Rule>, a: Json, b: Json, norm: Normalizer) {
    forall i :: 0 <= i < |rules| && rules[i].included ==> MatchingField(rules[i], a, b, norm)
  }

  lemma {:induction false} MatchingFieldsSameValue(rules: seq<Rule>, a: Json, b: Json, norm: Normalizer)
    requires IsPython(a) && IsPython(b) && KeepsPython(norm) && MatchingFields(rules, a, b, norm)
    ensures Project(rules, a, norm).Some? <==> Project(rules, b, norm).Some?
    ensures Project(rules, a, norm).Some? ==>
              Denote(Project(rules, a, norm).value) == Denote(Project(rules, b, norm).value)
    decreases |rules|
  {
    hide IsPython, SetPath, Contribution, KeepsPython, SetValue, Denote;
    if rules == [] {
    } else {
      var last := |rules| - 1;
      FieldsBefore(rules, a, b, norm);
      MatchingFieldsSameValue(rules[..last], a, b, norm);
      ProjectPython(rules[..last], a, norm);
      ProjectPython(rules[..last], b, norm);
      if rules[last].included && Project(rules[..last], a, norm).Some? && Contribution(rules[last], a, norm).Some? {
        assert MatchingField(rules[last], a, b, norm);
        ContributionPython(rules[last], a, norm);
        ContributionPython(rules[last], b, norm);
        SetPathDenotes(Project(rules[..last], a, norm).value, rules[last].parts,
          Contribution(rules[last], a, norm).value);
        SetPathDenotes(Project(rules[..last], b, norm).value, rules[last].parts,
          Contribution(rules[last], b, norm).value);
      }
    }
  }

  lemma FieldsBefore(rules: seq<Rule>, a: Json, b: Json, norm: Normalizer)
    requires MatchingFields(rules, a, b, norm) && rules != []
    ensures MatchingFields(rules[..|rules| - 1], a, b, norm)
  {
    hide MatchingField;
  }

  lemma MaterialDenotes(v: Versions, a: Json, b: Json)
    requires IsPython(a) && IsPython(b)
    ensures IsPython(Material(v, a)) && IsPython(Material(v, b))
    ensures Denote(Material(v, a)) == Denote(Material(v, b)) <==> Denote(a) == Denote(b)
  {
    MaterialMembers(v, a);
    MaterialMembers(v, b);
    MaterialPython(v, a);
    MaterialPython(v, b);
    hide IsPython, DenoteMembers;
    assert Denote(Material(v, a)).fields[ROOT] == Denote(a) && Denote(Material(v, b)).fields[ROOT] == Denote(b);
  }

  lemma NamesApart()
    ensures ROOT != CANONICALIZATION && ROOT != DERIVATION && CANONICALIZATION != DERIVATION
  {
    assert ROOT[0] != CANONICALIZATION[0] && ROOT[0] != DERIVATION[0] && CANONICALIZATION[0] != DERIVATION[0];
  }

  lemma MaterialPython(v: Versions, a: Json)
    requires IsPython(a)
    ensures IsPython(Material(v, a))
  {
    NamesApart();
  }

  lemma DenoteCons(m: Member, ms: seq<Member>)
    ensures DenoteMembers([m] + ms) == DenoteMembers(ms)[m.name := Denote(m.value)]
  {
    hide Denote;
    assert ([m] + ms)[1..] == ms;
  }

  lemma MaterialMembers(v: Versions, a: Json)
    ensures Denote(Material(v, a)) ==
            VDict(map[][ROOT := Denote(a)][DERIVATION := VStr(v.derivation)]
                       [CANONICALIZATION := VStr(v.canonicalization)])
    ensures Denote(Material(v, a)).fields[ROOT] == Denote(a)
  {
    hide DenoteMembers;
    NamesApart();
    var c, d, r := Member(CANONICALIZATION, Str(v.canonicalization)), Member(DERIVATION, Str(v.derivation)),
      Member(ROOT, a);
    EmptyDict();
    DenoteCons(r, []);
    DenoteCons(d, [r] + []);
    DenoteCons(c, [d] + ([r] + []));
    assert Material(v, a).members == [c] + ([d] + ([r] + []));
  }

  /** A text of ASCII characters as code points. */
  ghost function Ascii(s: string): Text
    requires forall i :: 0 <= i < |s| ==> s[i] as int < 0x80
  {
    seq(|s|, i requires 0 <= i < |s| => s[i] as int)
  }

  lemma NamesAre()
    ensures ROOT == Ascii("review_context_response") && CANONICALIZATION == Ascii("canonicalization_version")
    ensures DERIVATION == Ascii("derivation_version")
  {
  }

  /** The material: both versions under their names, and the projection under the name of the response. */
  lemma MaterialSays(v: Versions, a: Json)
    ensures Denote(Material(v, a)) ==
            VDict(map[Ascii("canonicalization_version") := VStr(v.canonicalization),
                      Ascii("derivation_version") := VStr(v.derivation),
                      Ascii("review_context_response") := Denote(a)])
  {
    hide Material, Ascii;
    NamesApart();
    NamesAre();
    MaterialMembers(v, a);
  }

  /** What one included rule must find in the response. */
  ghost predicate Contributes(r: Rule, response: Json, norm: Normalizer, x: Json) {
    r.root == Ascii("review_context_response") && r.parts != [] && GetPath(response, r.parts).Some? &&
    norm(r.parts, GetPath(response, r.parts).value) == Some(x)
  }

  lemma ContributesIff(r: Rule, response: Json, norm: Normalizer, x: Json)
    ensures Contributes(r, response, norm, x) <==> r.parts != [] && Contribution(r, response, norm) == Some(x)
  {
    hide GetPath, Ascii;
    NamesAre();
  }

  lemma {:induction false} NothingApart(rules: seq<Rule>, response: Json, norm: Normalizer, q: seq<Text>)
    requires IsPython(response) && KeepsPython(norm) && Project(rules, response, norm).Some?
    requires q != [] && forall i :: 0 <= i < |rules| && rules[i].included ==> Apart(rules[i].parts, q)
    ensures GetValue(Denote(Project(rules, response, norm).value), q) == None
  {
    hide IsPython, KeepsPython, SetPath, Contribution, Denote, Apart;
    if rules == [] {
      NothingInEmpty(q);
    } else {
      var last := |rules| - 1;
      var before := Project(rules[..last], response, norm);
      NothingApart(rules[..last], response, norm, q);
      if rules[last].included {
        var x := Contribution(rules[last], response, norm).value;
        ContributionPython(rules[last], response, norm);
        ProjectPython(rules[..last], response, norm);
        SetPathDenotes(before.value, rules[last].parts, x);
        OthersStay(Denote(before.value), rules[last].parts, Denote(x), q);
      }
    }
  }

  lemma NothingInEmpty(q: seq<Text>)
    requires q != []
    ensures GetValue(Denote(Dict([])), q) == None
  {
  }

  ghost predicate Provides(r: Rule, response: Json, norm: Normalizer) {
    exists x :: Contributes(r, response, norm, x)
  }

  lemma ProvidesIff(r: Rule, response: Json, norm: Normalizer)
    ensures Provides(r, response, norm) <==> r.parts != [] && Contribution(r, response, norm).Some?
  {
    hide Contribution, Contributes;
    forall x { ContributesIff(r, response, norm, x); }
    if r.parts != [] && Contribution(r, response, norm).Some? {
      assert Contributes(r, response, norm, Contribution(r, response, norm).value);
    }
  }

  /**
   * For included paths none of which is above another: there is a projection exactly when every included rule finds
   * and normalizes its value, and it holds these values at their paths and nothing apart from them.
   */
  lemma ProjectionIs(rules: seq<Rule>, response: Json, norm: Normalizer)
    requires IsPython(response) && KeepsPython(norm) && PrefixFree(rules)
    ensures Project(rules, response, norm).Some? <==>
            forall i :: 0 <= i < |rules| && rules[i].included ==> Provides(rules[i], response, norm)
    ensures Project(rules, response, norm).Some? ==>
            var found := Denote(Project(rules, response, norm).value);
            (forall i, x :: 0 <= i < |rules| && rules[i].included && Contributes(rules[i], response, norm, x) ==>
              GetValue(found, rules[i].parts) == Some(Denote(x))) &&
            (forall q :: q != [] && ApartFromAll(rules, q) ==> GetValue(found, q) == None)
  {
    hide IsPython, KeepsPython, PrefixFree, Project, Contribution, Contributes, Provides, Denote, GetValue;
    ProjectionExistsIff(rules, response, norm);
    forall i | 0 <= i < |rules| ensures Provides(rules[i], response, norm) <==>
      rules[i].parts != [] && Contribution(rules[i], response, norm).Some?
    {
      ProvidesIff(rules[i], response, norm);
    }
    if Project(rules, response, norm).Some? {
      forall i, x | 0 <= i < |rules| && rules[i].included && Contributes(rules[i], response, norm, x)
        ensures GetValue(Denote(Project(rules, response, norm).value), rules[i].parts) == Some(Denote(x))
      {
        ContributesIff(rules[i], response, norm, x);
        ProjectedAt(rules, response, norm, i);
      }
      forall q | q != [] && ApartFromAll(rules, q)
        ensures GetValue(Denote(Project(rules, response, norm).value), q) == None
      {
        NothingApart(rules, response, norm, q);
      }
    }
  }

  ghost predicate ApartFromAll(rules: seq<Rule>, q: seq<Text>) {
    forall i :: 0 <= i < |rules| && rules[i].included ==> Apart(rules[i].parts, q)
  }

  /**
   * For included paths none of which is above another, two responses have identical semantic bytes exactly when their
   * normalized values agree at every included path.
   */
  lemma BytesIffFields(rules: seq<Rule>, a: Json, b: Json, norm: Normalizer, versions: Versions)
    requires IsPython(a) && IsPython(b) && KeepsPython(norm) && PrefixFree(rules)
    requires Project(rules, a, norm).Some? && Project(rules, b, norm).Some?
    requires CanonicalBytes(Material(versions, Project(rules, a, norm).value)).Some?
    requires CanonicalBytes(Material(versions, Project(rules, b, norm).value)).Some?
    ensures SameFields(rules, a, b, norm) <==>
              CanonicalBytes(Material(versions, Project(rules, a, norm).value)) ==
              CanonicalBytes(Material(versions, Project(rules, b, norm).value))
  {
    hide IsPython, KeepsPython, PrefixFree, Project, CanonicalBytes, Material, Denote, Contribution, GetValue;
    var x, y := Project(rules, a, norm).value, Project(rules, b, norm).value;
    ProjectPython(rules, a, norm);
    ProjectPython(rules, b, norm);
    MaterialDenotes(versions, x, y);
    EqualBytesIffEqualValues(Material(versions, x), Material(versions, y));
    if SameFields(rules, a, b, norm) { MatchingFieldsSameValue(rules, a, b, norm); }
    if Denote(x) == Denote(y) {
      forall i | 0 <= i < |rules| && rules[i].included ensures SameField(rules[i], a, b, norm) {
        ProjectedAt(rules, a, norm, i);
        ProjectedAt(rules, b, norm, i);
      }
    }
  }

  /** Whatever else a response holds, and in whatever member order, never affects its bytes or whether it has any. */
  lemma {:induction false} ElsewhereNeverMatters(rules: seq<Rule>, a: Json, b: Json, norm: Normalizer)
    requires forall i :: 0 <= i < |rules| && rules[i].included ==>
               GetPath(a, rules[i].parts) == GetPath(b, rules[i].parts)
    ensures Project(rules, a, norm) == Project(rules, b, norm)
    decreases |rules|
  {
    hide GetPath, SetPath;
    if rules == [] {
    } else {
      ElsewhereNeverMatters(rules[..|rules| - 1], a, b, norm);
    }
  }

  /** A projection exists exactly when every included rule has the right root, a path, a value and a normal form. */
  lemma {:induction false} ProjectionExistsIff(rules: seq<Rule>, response: Json, norm: Normalizer)
    requires IsPython(response) && KeepsPython(norm) && PrefixFree(rules)
    ensures Project(rules, response, norm).Some? <==>
            forall i :: 0 <= i < |rules| && rules[i].included ==>
              rules[i].parts != [] && Contribution(rules[i], response, norm).Some?
    ensures Project(rules, response, norm).Some? ==>
            forall q, y ::
              q != [] && (forall i :: 0 <= i < |rules| && rules[i].included ==> Apart(rules[i].parts, q)) ==>
                SetValue(Denote(Project(rules, response, norm).value), q, y).Some?
    decreases |rules|
  {
    hide IsPython, SetPath, Contribution, KeepsPython, SetValue, Apart;
    if rules == [] {
      EmptyDict();
      forall q, y | q != [] ensures SetValue(VDict(map[]), q, y).Some? { SettableInEmpty(q, y); }
    } else {
      var last := |rules| - 1;
      PrefixFreeBefore(rules);
      ProjectionExistsIff(rules[..last], response, norm);
      ProjectPython(rules[..last], response, norm);
      var before := Project(rules[..last], response, norm);
      assert forall i :: 0 <= i < last ==> rules[..last][i] == rules[i];
      if rules[last].included && before.Some? && Contribution(rules[last], response, norm).Some? {
        ContributionPython(rules[last], response, norm);
        var x := Contribution(rules[last], response, norm).value;
        SetPathDenotes(before.value, rules[last].parts, x);
        LastSettable(rules, Denote(before.value), x);
        if SetValue(Denote(before.value), rules[last].parts, Denote(x)).Some? {
          forall q, y | q != [] && forall i :: 0 <= i < |rules| && rules[i].included ==> Apart(rules[i].parts, q)
            ensures SetValue(SetValue(Denote(before.value), rules[last].parts, Denote(x)).value, q, y).Some?
          {
            SettableStays(Denote(before.value), rules[last].parts, Denote(x), q, y);
          }
        }
      }
    }
  }

  lemma LastSettable(rules: seq<Rule>, v: Value, x: Json)
    requires PrefixFree(rules) && rules != [] && rules[|rules| - 1].included
    requires forall q, y ::
               q != [] && (forall i :: 0 <= i < |rules| - 1 && rules[i].included ==> Apart(rules[i].parts, q)) ==>
                 SetValue(v, q, y).Some?
    ensures SetValue(v, rules[|rules| - 1].parts, Denote(x)).Some? <==> rules[|rules| - 1].parts != []
  {
    hide Apart, Denote;
  }

  // ---- declared sets ----

  /** How the elements of a declared set are told apart and ordered. */
  datatype SetRule = SetRule(fields: seq<Text>, identityKey: Option<Text>)

  /** At this path the normalizer does to a list what `ArrayNormalization.NormalizeReferenceArray` promises. */
  ghost predicate NormalizesSet(norm: Normalizer, path: seq<Text>, rule: SetRule) {
    forall xs: seq<Json> :: AllPython(xs) ==> SetResult(norm(path, List(xs)), xs, rule)
  }

  ghost predicate AllPython(xs: seq<Json>) { forall x :: x in xs ==> IsPython(x) }

  ghost predicate SetResult(r: Option<Json>, xs: seq<Json>, rule: SetRule) {
    (r.Some? <==> ArrayNormalization.AcceptsSet(xs, rule.fields, rule.identityKey)) &&
    (r.Some? ==> r.value.List? && ArrayNormalization.IsSetForm(xs, rule.fields, r.value.items))
  }

  ghost function SetNormalized(rule: SetRule, v: Json): Option<Json> {
    if !v.List? || !AllPython(v.items) then Some(v)
    else if !ArrayNormalization.AcceptsSet(v.items, rule.fields, rule.identityKey) then None
    else
      Some(List(SortBy(ArrayNormalization.KeyBy(rule.fields), ArrayNormalization.SortKeyLe(),
                       ArrayNormalization.FirstOfEach(v.items))))
  }

  lemma SetNormalizedIsResult(rule: SetRule, xs: seq<Json>)
    requires AllPython(xs)
    ensures SetResult(SetNormalized(rule, List(xs)), xs, rule)
    ensures SetNormalized(rule, List(xs)).Some? ==> IsPython(SetNormalized(rule, List(xs)).value)
  {
    hide ArrayNormalization.AcceptsSet, ArrayNormalization.IsSetForm, SortBy, ArrayNormalization.FirstOfEach;
    if ArrayNormalization.AcceptsSet(xs, rule.fields, rule.identityKey) {
      var r := ArrayNormalization.SetFormExists(xs, rule.fields, rule.identityKey);
      ArrayNormalization.FormMembers(xs, rule.fields, r);
    }
  }

  /** A normalizer that keeps values as they are, except that it normalizes each declared set. */
  lemma SetNormalizerExists(sets: map<seq<Text>, SetRule>) returns (norm: Normalizer)
    ensures KeepsPython(norm)
    ensures forall path :: path in sets ==> NormalizesSet(norm, path, sets[path])
  {
    hide SetNormalized, SetResult;
    norm := (path, v) => if path in sets then SetNormalized(sets[path], v) else Some(v);
    forall path, v | IsPython(v) && norm(path, v).Some? ensures IsPython(norm(path, v).value) {
      if path in sets { KeptPython(sets[path], v); }
    }
    forall path | path in sets ensures NormalizesSet(norm, path, sets[path]) {
      forall xs: seq<Json> | AllPython(xs) ensures SetResult(norm(path, List(xs)), xs, sets[path]) {
        SetNormalizedIsResult(sets[path], xs);
      }
    }
  }

  lemma KeptPython(rule: SetRule, v: Json)
    requires IsPython(v)
    ensures SetNormalized(rule, v).Some? ==> IsPython(SetNormalized(rule, v).value)
  {
    hide ArrayNormalization.AcceptsSet, SortBy, ArrayNormalization.FirstOfEach, SetResult;
    if v.List? { SetNormalizedIsResult(rule, v.items); }
  }

  /** Both responses hold a list at the path, with the same elements in any order and number. */
  ghost predicate SameSets(path: seq<Text>, a: Json, b: Json) {
    GetPath(a, path).Some? && GetPath(b, path).Some? && GetPath(a, path).value.List? && GetPath(b, path).value.List? &&
    ArrayNormalization.SameResults(GetPath(a, path).value.items, GetPath(b, path).value.items)
  }

  /** Two responses that differ at included paths only in the order and repetition of declared sets. */
  ghost predicate SameUpToSets(rules: seq<Rule>, sets: map<seq<Text>, SetRule>, a: Json, b: Json) {
    forall i :: 0 <= i < |rules| && rules[i].included ==>
      GetPath(a, rules[i].parts) == GetPath(b, rules[i].parts) ||
      (rules[i].parts in sets && SameSets(rules[i].parts, a, b))
  }

  lemma {:induction false} DenoteItemsAt(xs: seq<Json>)
    ensures |DenoteItems(xs)| == |xs| && forall i :: 0 <= i < |xs| ==> DenoteItems(xs)[i] == Denote(xs[i])
  {
    hide Denote;
    if xs == [] {
    } else {
      DenoteItemsAt(xs[1..]);
    }
  }

  /** Set forms in the same places denote the same list. */
  lemma SamePlacesDenote(r: seq<Json>, s: seq<Json>, fields: seq<Text>)
    requires ArrayNormalization.AllCanonicalizable(r) && ArrayNormalization.AllCanonicalizable(s)
    requires ArrayNormalization.Places(r, fields) == ArrayNormalization.Places(s, fields)
    ensures Denote(List(r)) == Denote(List(s))
  {
    hide ArrayNormalization.Places, ArrayNormalization.Encoding, ArrayNormalization.SortKeyOf,
      ArrayNormalization.Canonicalizable, DenoteItems;
    ArrayNormalization.PlaceAt(r, fields);
    ArrayNormalization.PlaceAt(s, fields);
    DenoteItemsAt(r);
    DenoteItemsAt(s);
    forall i | 0 <= i < |r| ensures Denote(r[i]) == Denote(s[i]) {
      assert ArrayNormalization.Places(r, fields)[i] == ArrayNormalization.Places(s, fields)[i];
      ArrayNormalization.EncodingDecidesValue(r[i], s[i]);
    }
    assert DenoteItems(r) == DenoteItems(s);
  }

  lemma SetsMatch(xs: seq<Json>, ys: seq<Json>, rule: SetRule, u: Option<Json>, v: Option<Json>)
    requires AllPython(xs) && AllPython(ys) && ArrayNormalization.SameResults(xs, ys)
    requires SetResult(u, xs, rule) && SetResult(v, ys, rule)
    ensures u.Some? <==> v.Some?
    ensures u.Some? ==> Denote(u.value) == Denote(v.value)
  {
    hide ArrayNormalization.AcceptsSet, ArrayNormalization.IsSetForm, ArrayNormalization.SameResults, Denote,
      ArrayNormalization.AllCanonicalizable, ArrayNormalization.Places, ArrayNormalization.SameEncodings;
    ArrayNormalization.AcceptanceDependsOnEncodings(xs, ys, rule.fields, rule.identityKey);
    if u.Some? {
      ArrayNormalization.AcceptedIsCanonicalizable(xs, rule.fields, rule.identityKey);
      ArrayNormalization.AcceptedIsCanonicalizable(ys, rule.fields, rule.identityKey);
      ArrayNormalization.ResultsAreEncodings(xs, ys);
      ArrayNormalization.SetFormUnique(xs, ys, rule.fields, u.value.items, v.value.items);
      ArrayNormalization.FormKeepsEncodings(xs, rule.fields, u.value.items);
      ArrayNormalization.FormKeepsEncodings(ys, rule.fields, v.value.items);
      SamePlacesDenote(u.value.items, v.value.items, rule.fields);
    }
  }

  lemma FieldMatches(r: Rule, rule: SetRule, a: Json, b: Json, norm: Normalizer)
    requires IsPython(a) && IsPython(b) && NormalizesSet(norm, r.parts, rule) && SameSets(r.parts, a, b)
    ensures MatchingField(r, a, b, norm)
  {
    hide SetResult, ArrayNormalization.SameResults, Denote, GetPath;
    GetPathDenotes(a, r.parts);
    GetPathDenotes(b, r.parts);
    var xs, ys := GetPath(a, r.parts).value.items, GetPath(b, r.parts).value.items;
    assert AllPython(xs) && AllPython(ys);
    assert SetResult(norm(r.parts, List(xs)), xs, rule) && SetResult(norm(r.parts, List(ys)), ys, rule);
    SetsMatch(xs, ys, rule, norm(r.parts, List(xs)), norm(r.parts, List(ys)));
  }

  /**
   * Reordering or repeating the elements of a declared set at an included path never changes the semantic bytes, nor
   * whether a response has any.
   */
  lemma SetOrderNeverMatters(rules: seq<Rule>, sets: map<seq<Text>, SetRule>, a: Json, b: Json, norm: Normalizer,
      versions: Versions)
    requires IsPython(a) && IsPython(b) && KeepsPython(norm)
    requires forall path :: path in sets ==> NormalizesSet(norm, path, sets[path])
    requires SameUpToSets(rules, sets, a, b)
    ensures Project(rules, a, norm).Some? <==> Project(rules, b, norm).Some?
    ensures Project(rules, a, norm).Some? ==>
      CanonicalBytes(Material(versions, Project(rules, a, norm).value)) ==
      CanonicalBytes(Material(versions, Project(rules, b, norm).value))
  {
    hide IsPython, KeepsPython, NormalizesSet, SameSets, Project, CanonicalBytes, Material, Denote, GetPath;
    forall i | 0 <= i < |rules| && rules[i].included ensures MatchingField(rules[i], a, b, norm) {
      if GetPath(a, rules[i].parts) != GetPath(b, rules[i].parts) {
        FieldMatches(rules[i], sets[rules[i].parts], a, b, norm);
      }
    }
    MatchingFieldsSameValue(rules, a, b, norm);
    if Project(rules, a, norm).Some? {
      ProjectPython(rules, a, norm);
      ProjectPython(rules, b, norm);
      var x, y := Project(rules, a, norm).value, Project(rules, b, norm).value;
      MaterialDenotes(versions, x, y);
      SameValueSameBytes(Material(versions, x), Material(versions, y));
    }
  }
}
