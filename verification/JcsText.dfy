/** What the canonical text of a value looks like: its order of members, its words, numbers and escapes. */
module JcsText {
  import opened Wrappers
  import opened Orders
  import opened UnicodeText
  import opened Jcs

  // ---- the order of members ----

  /** The members of every object stand in the order of the UTF-16 code units of their names. */
  ghost predicate Ordered(v: Json) {
    match v
    case List(items) => forall x :: x in items ==> Ordered(x)
    case Dict(ns) =>
      (forall i, j :: 0 <= i < j < |ns| ==> LexLe(IntLe(), Utf16Units(ns[i].name), Utf16Units(ns[j].name))) &&
      forall n :: n in ns ==> Ordered(n.value)
    case _ => true
  }

  lemma MemberOrder(ms: seq<Member>)
    ensures var ns := SortMembers(ms);
            forall i, j :: 0 <= i < j < |ns| ==> LexLe(IntLe(), Utf16Units(ns[i].name), Utf16Units(ns[j].name))
  {
    hide LexLe, SortMembers, Utf16Units, BigEndian;
    SortMembersFacts(ms);
    var ns := SortMembers(ms);
    forall i, j | 0 <= i < j < |ns| ensures LexLe(IntLe(), Utf16Units(ns[i].name), Utf16Units(ns[j].name)) {
      assert ByteStringLe()(MemberKey()(ns[i]), MemberKey()(ns[j]));
      ByteOrderIsUnitOrder(Utf16Units(ns[i].name), Utf16Units(ns[j].name));
    }
  }

  lemma {:induction false} CanonicalOrdered(v: Json)
    ensures Ordered(Canonical(v))
    decreases v, 1
  {
    hide LexLe, Utf16Units;
    match v
    case List(items) => CanonicalItemsOrdered(items);
    case Dict(ms) =>
      CanonicalMembersOrdered(ms);
      MemberOrder(CanonicalMembers(ms));
      SortMembersFacts(CanonicalMembers(ms));
    case _ =>
  }

  lemma {:induction false} CanonicalItemsOrdered(items: seq<Json>)
    ensures forall x :: x in CanonicalItems(items) ==> Ordered(x)
    decreases items, 0
  {
    hide Ordered, Canonical;
    if items == [] {
    } else {
      CanonicalOrdered(items[0]);
      CanonicalItemsOrdered(items[1..]);
    }
  }

  lemma {:induction false} CanonicalMembersOrdered(ms: seq<Member>)
    ensures forall m :: m in CanonicalMembers(ms) ==> Ordered(m.value)
    decreases ms, 0
  {
    hide Ordered, Canonical;
    if ms == [] {
    } else {
      CanonicalOrdered(ms[0].value);
      CanonicalMembersOrdered(ms[1..]);
    }
  }

  /** The members of the sorted value are still unique. */
  lemma {:induction false} CanonicalPython(v: Json)
    requires IsPython(v)
    ensures IsPython(Canonical(v))
    decreases v, 1
  {
    match v
    case List(items) => CanonicalItemsPython(items);
    case Dict(ms) =>
      CanonicalMembersPython(ms);
      CanonicalNames(ms);
      SortMembersFacts(CanonicalMembers(ms));
      PermutedUnique(CanonicalMembers(ms), SortMembers(CanonicalMembers(ms)));
    case _ =>
  }

  lemma {:induction false} CanonicalItemsPython(items: seq<Json>)
    requires forall x :: x in items ==> IsPython(x)
    ensures forall x :: x in CanonicalItems(items) ==> IsPython(x)
    decreases items, 0
  {
    hide IsPython, Canonical;
    if items == [] {
    } else {
      CanonicalPython(items[0]);
      CanonicalItemsPython(items[1..]);
    }
  }

  lemma {:induction false} CanonicalMembersPython(ms: seq<Member>)
    requires forall m :: m in ms ==> IsPython(m.value)
    ensures forall m :: m in CanonicalMembers(ms) ==> IsPython(m.value)
    decreases ms, 0
  {
    hide IsPython, Canonical;
    if ms == [] {
    } else {
      CanonicalPython(ms[0].value);
      CanonicalMembersPython(ms[1..]);
    }
  }

  /** Whatever is serialized reads back as the same value, the members of every object in code unit order. */
  lemma MembersAreOrdered(v: Json)
    requires Serialize(v).Some?
    ensures Read(Serialize(v).value).Some?
    ensures var w := Read(Serialize(v).value).value;
            Ordered(w) && (IsPython(v) ==> IsPython(w) && Denote(w) == Denote(v))
  {
    hide Serialize, Read, Ordered, Canonical, Denote, IsPython;
    ReaderInvertsSerializer(v);
    CanonicalOrdered(v);
    if IsPython(v) {
      CanonicalPython(v);
      CanonicalDenotes(v);
    }
  }

  // ---- what is serialized ----

  /** Safe integers, text without surrogates, and lists and dicts of such values. */
  ghost predicate InProfile(v: Json) {
    match v
    case Int(n) => -9007199254740991 <= n <= 9007199254740991
    case Str(t) => HasNoSurrogate(t)
    case List(items) => forall x :: x in items ==> InProfile(x)
    case Dict(ms) => forall m :: m in ms ==> HasNoSurrogate(m.name) && InProfile(m.value)
    case Unsupported => false
    case _ => true
  }

  ghost predicate HasNoSurrogate(t: Text) { forall c :: c in t ==> c < 0xD800 || c > 0xDFFF }

  lemma EncodableIff(t: Text)
    ensures Encodable(t) <==> HasNoSurrogate(t)
  {
    if HasNoSurrogate(t) { forall i | 0 <= i < |t| ensures IsScalar(t[i]) { assert t[i] in t; } }
  }

  lemma {:induction false} PrintableIff(v: Json)
    ensures Printable(v) <==> InProfile(v)
    decreases v, 1
  {
    hide Encodable, HasNoSurrogate;
    match v
    case Str(t) => EncodableIff(t);
    case List(items) => PrintableItemsIff(items);
    case Dict(ms) => PrintableMembersIff(ms);
    case _ =>
  }

  lemma {:induction false} PrintableItemsIff(items: seq<Json>)
    ensures PrintableItems(items) <==> forall x :: x in items ==> InProfile(x)
    decreases items, 0
  {
    hide Printable, InProfile;
    if items == [] {
    } else {
      PrintableIff(items[0]);
      PrintableItemsIff(items[1..]);
      assert items == [items[0]] + items[1..];
    }
  }

  lemma {:induction false} PrintableMembersIff(ms: seq<Member>)
    ensures PrintableMembers(ms) <==> forall m :: m in ms ==> HasNoSurrogate(m.name) && InProfile(m.value)
    decreases ms, 0
  {
    hide Printable, InProfile, Encodable, HasNoSurrogate;
    if ms == [] {
    } else {
      PrintableIff(ms[0].value);
      EncodableIff(ms[0].name);
      PrintableMembersIff(ms[1..]);
      assert ms == [ms[0]] + ms[1..];
    }
  }

  /** A value is serialized exactly when it is in the profile. */
  lemma SerializesIff(v: Json)
    ensures Serialize(v).Some? <==> InProfile(v)
    ensures CanonicalBytes(v).Some? <==> InProfile(v)
  {
    hide Serialize, Printable, InProfile, Print, Canonical;
    SerializeIsPrint(v);
    PrintableIff(v);
  }

  // ---- words, numbers and escapes ----

  ghost predicate LowerHex(c: CodePoint, d: int) {
    (0x30 <= c <= 0x39 && d == c - 0x30) || (0x61 <= c <= 0x66 && d == c - 0x61 + 10)
  }

  /** How RFC 8785 section 3.2.2.2 writes one character of a string. */
  ghost predicate WritesChar(c: CodePoint, e: Text) {
    if c >= 0x20 && c != 0x22 && c != 0x5C then e == [c]
    else if c in {0x22, 0x5C, 0x08, 0x09, 0x0A, 0x0C, 0x0D} then
      |e| == 2 && e[0] == 0x5C && (c, e[1]) in {(0x22, 0x22), (0x5C, 0x5C), (0x08, 0x62), (0x09, 0x74), (0x0A, 0x6E),
        (0x0C, 0x66), (0x0D, 0x72)}
    else
      |e| == 6 && e[..4] == [0x5C, 0x75, 0x30, 0x30] &&
      exists h, l :: LowerHex(e[4], h) && LowerHex(e[5], l) && c == 16 * h + l
  }

  lemma CharIsWritten(c: CodePoint)
    ensures WritesChar(c, Escape(c))
  {
    if c < 0x20 && c !in {0x22, 0x5C, 0x08, 0x09, 0x0A, 0x0C, 0x0D} {
      assert LowerHex(Escape(c)[4], c / 16) && LowerHex(Escape(c)[5], c % 16);
    }
  }

  /** A string is written between quotes, character by character. */
  ghost predicate WritesString(s: Text, t: Text) {
    exists parts: seq<Text> ::
      |parts| == |s| && (forall i :: 0 <= i < |s| ==> WritesChar(s[i], parts[i])) &&
      t == [0x22] + Concat(parts) + [0x22]
  }

  ghost function Concat(parts: seq<Text>): Text {
    if parts == [] then [] else parts[0] + Concat(parts[1..])
  }

  lemma {:induction false} StringIsWritten(s: Text) returns (parts: seq<Text>)
    ensures |parts| == |s| && (forall i :: 0 <= i < |s| ==> WritesChar(s[i], parts[i])) && Escaped(s) == Concat(parts)
  {
    hide WritesChar, Escape;
    if s == [] {
      parts := [];
    } else {
      var rest := StringIsWritten(s[1..]);
      CharIsWritten(s[0]);
      parts := [Escape(s[0])] + rest;
      assert parts[1..] == rest;
    }
  }

  /** A number is written in decimal digits, without a leading zero, after a sign when it is negative. */
  ghost predicate WritesInt(n: int, t: Text) {
    if n < 0 then t != [] && t[0] == 0x2D && WritesNat(-n, t[1..]) else WritesNat(n, t)
  }

  ghost predicate WritesNat(n: nat, t: Text) {
    t != [] && (forall i :: 0 <= i < |t| ==> 0x30 <= t[i] <= 0x39) && (|t| > 1 ==> t[0] != 0x30) && Worth(t) == n
  }

  ghost function Worth(t: Text): int {
    if t == [] then 0 else Worth(t[..|t| - 1]) * 10 + t[|t| - 1] - 0x30
  }

  lemma {:induction false} NatIsWritten(n: nat)
    ensures WritesNat(n, NatText(n)) && (n > 0 ==> NatText(n)[0] != 0x30)
  {
    var t := NatText(n);
    if n < 10 {
      assert t[..0] == [];
    } else {
      NatIsWritten(n / 10);
      assert t[..|t| - 1] == NatText(n / 10);
    }
  }

  lemma IntIsWritten(n: int)
    ensures WritesInt(n, IntText(n))
  {
    hide NatText, WritesNat;
    if n < 0 {
      NatIsWritten(-n);
      assert IntText(n)[1..] == NatText(-n);
    } else {
      NatIsWritten(n);
    }
  }

  /** The texts of the parts of a list or an object, separated by commas. */
  ghost function Separated(parts: seq<Text>): Text {
    if parts == [] then [] else if |parts| == 1 then parts[0] else parts[0] + [0x2C] + Separated(parts[1..])
  }

  /** The text of a value whose members are in order, without white space. */
  ghost predicate Writes(v: Json, t: Text) {
    match v
    case Null => t == [0x6E, 0x75, 0x6C, 0x6C]
    case Bool(b) => t == if b then [0x74, 0x72, 0x75, 0x65] else [0x66, 0x61, 0x6C, 0x73, 0x65]
    case Int(n) => WritesInt(n, t)
    case Str(s) => WritesString(s, t)
    case List(items) => exists parts :: WritesItems(items, parts) && t == [0x5B] + Separated(parts) + [0x5D]
    case Dict(ms) => exists parts :: WritesMembers(ms, parts) && t == [0x7B] + Separated(parts) + [0x7D]
    case Unsupported => false
  }

  ghost predicate WritesItems(items: seq<Json>, parts: seq<Text>) {
    |parts| == |items| && forall i :: 0 <= i < |items| ==> Writes(items[i], parts[i])
  }

  ghost predicate WritesMembers(ms: seq<Member>, parts: seq<Text>) {
    |parts| == |ms| && forall i :: 0 <= i < |ms| ==> WritesMember(ms[i], parts[i])
  }

  ghost predicate WritesMember(m: Member, t: Text) {
    exists name, value :: WritesString(m.name, name) && Writes(m.value, value) && t == name + [0x3A] + value
  }

  lemma {:induction false} PrintIsWritten(v: Json)
    requires Printable(v)
    ensures Writes(v, Print(v))
    decreases v, 1
  {
    hide WritesChar, WritesInt, IntText, Escaped, Encodable;
    match v
    case Int(n) => IntIsWritten(n);
    case Str(s) => var parts := StringIsWritten(s);
    case List(items) => var parts := ItemsAreWritten(items);
    case Dict(ms) => var parts := MembersAreWritten(ms);
    case _ =>
  }

  lemma {:induction false} ItemsAreWritten(items: seq<Json>) returns (parts: seq<Text>)
    requires PrintableItems(items)
    ensures WritesItems(items, parts) && PrintItems(items) == Separated(parts)
    decreases items, 0
  {
    hide Writes, Print, Printable;
    if items == [] {
      parts := [];
    } else {
      PrintIsWritten(items[0]);
      var rest := ItemsAreWritten(items[1..]);
      parts := [Print(items[0])] + rest;
      assert parts[1..] == rest;
    }
  }

  lemma {:induction false} MembersAreWritten(ms: seq<Member>) returns (parts: seq<Text>)
    requires PrintableMembers(ms)
    ensures WritesMembers(ms, parts) && PrintMembers(ms) == Separated(parts)
    decreases ms, 0
  {
    hide Writes, Print, Printable, Escaped, WritesChar, Encodable;
    if ms == [] {
      parts := [];
    } else {
      PrintIsWritten(ms[0].value);
      var name := StringIsWritten(ms[0].name);
      var rest := MembersAreWritten(ms[1..]);
      var part := Quoted(ms[0].name) + [0x3A] + Print(ms[0].value);
      assert WritesString(ms[0].name, Quoted(ms[0].name));
      assert WritesMember(ms[0], part);
      parts := [part] + rest;
      assert parts[1..] == rest;
    }
  }

  /**
   * The serializer writes exactly the canonical form of RFC 8785: the value with its members in code unit order, in
   * literal words, plain decimal numbers, the prescribed escapes, and no white space.
   */
  lemma SerializedIsCanonical(v: Json)
    requires IsPython(v) && Serialize(v).Some?
    ensures exists w :: Ordered(w) && IsPython(w) && Denote(w) == Denote(v) && Writes(w, Serialize(v).value)
  {
    hide Serialize, Printable, Print, Ordered, Canonical, Denote, IsPython, Writes;
    SerializeIsPrint(v);
    CanonicalPrintable(v);
    PrintIsWritten(Canonical(v));
    CanonicalOrdered(v);
    CanonicalPython(v);
    CanonicalDenotes(v);
  }
}
