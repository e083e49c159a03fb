/** scripts/gate3_reference_semantics.py: the JCS-profile serializer (RFC 8785) and a reader for its output. */
module Jcs {
  import opened Wrappers
  import opened Orders
  import opened UnicodeText

  const SAFE_IJSON_INTEGER := 9_007_199_254_740_991

  /**
   * A Python value handed to the serializer. A dict is its items in insertion order. Floats, and anything else outside
   * the profile (including a dict with a key that is no string), are `Unsupported`.
   */
  datatype Json =
    | Null
    | Bool(b: bool)
    | Int(n: int)
    | Str(text: Text)
    | List(items: seq<Json>)
    | Dict(members: seq<Member>)
    | Unsupported

  datatype Member = Member(name: Text, value: Json)

  ghost predicate UniqueNames(ms: seq<Member>) {
    forall i, j :: 0 <= i < j < |ms| ==> ms[i].name != ms[j].name
  }

  /** Python dicts have unique keys, at every depth. */
  ghost predicate IsPython(v: Json) {
    match v
    case List(items) => forall x :: x in items ==> IsPython(x)
    case Dict(ms) => UniqueNames(ms) && forall m :: m in ms ==> IsPython(m.value)
    case _ => true
  }

  // ---- printing ----

  const QUOTE: CodePoint := 0x22
  const BACKSLASH: CodePoint := 0x5C
  const COMMA: CodePoint := 0x2C
  const COLON: CodePoint := 0x3A
  const MINUS: CodePoint := 0x2D

  function HexDigit(d: nat): CodePoint
    requires d < 16
  {
    if d < 10 then 0x30 + d else 0x61 + d - 10
  }

  /** RFC 8785 section 3.2.2.2: two-character escapes where JSON has them, lower-case \u00xx for other controls. */
  function Escape(c: CodePoint): Text {
    if c == QUOTE || c == BACKSLASH then [BACKSLASH, c]
    else if c == 0x08 then [BACKSLASH, 0x62]
    else if c == 0x09 then [BACKSLASH, 0x74]
    else if c == 0x0A then [BACKSLASH, 0x6E]
    else if c == 0x0C then [BACKSLASH, 0x66]
    else if c == 0x0D then [BACKSLASH, 0x72]
    else if c < 0x20 then [BACKSLASH, 0x75, 0x30, 0x30, HexDigit(c / 16), HexDigit(c % 16)]
    else [c]
  }

  function Escaped(t: Text): Text {
    if t == [] then [] else Escape(t[0]) + Escaped(t[1..])
  }

  function Quoted(t: Text): Text { [QUOTE] + Escaped(t) + [QUOTE] }

  function IntText(n: int): Text {
    if n < 0 then [MINUS] + NatText(-n) else NatText(n)
  }

  function NatText(n: nat): Text {
    if n < 10 then [0x30 + n] else NatText(n / 10) + [0x30 + n % 10]
  }

  const NULL_TEXT: Text := [0x6E, 0x75, 0x6C, 0x6C]
  const TRUE_TEXT: Text := [0x74, 0x72, 0x75, 0x65]
  const FALSE_TEXT: Text := [0x66, 0x61, 0x6C, 0x73, 0x65]

  /** A dict member already serialized, waiting to be ordered by name. */
  datatype Entry = Entry(name: Text, valueText: Text)

  function EntryKey(): Entry -> seq<int> { (e: Entry) => Utf16(e.name) }

  function JoinEntries(es: seq<Entry>): Text {
    if es == [] then []
    else Quoted(es[0].name) + [COLON] + es[0].valueText + (if |es| == 1 then [] else [COMMA] + JoinEntries(es[1..]))
  }

  function JoinTexts(ts: seq<Text>): Text {
    if ts == [] then [] else ts[0] + (if |ts| == 1 then [] else [COMMA] + JoinTexts(ts[1..]))
  }

  /** The text of a value, or nothing where the original raises. */
  function Serialize(v: Json): Option<Text> {
    match v
    case Null => Some(NULL_TEXT)
    case Bool(b) => Some(if b then TRUE_TEXT else FALSE_TEXT)
    case Int(n) => if n > SAFE_IJSON_INTEGER || -n > SAFE_IJSON_INTEGER then None else Some(IntText(n))
    case Str(t) => if Encodable(t) then Some(Quoted(t)) else None
    case List(items) =>
      (match SerializeItems(items)
       case None => None
       case Some(ts) => Some([0x5B] + JoinTexts(ts) + [0x5D]))
    case Dict(ms) =>
      (match SerializeMembers(ms)
       case None => None
       case Some(es) => Some([0x7B] + JoinEntries(SortBy(EntryKey(), ByteStringLe(), es)) + [0x7D]))
    case Unsupported => None
  }

  function SerializeItems(items: seq<Json>): Option<seq<Text>> {
    if items == [] then Some([])
    else
      match (Serialize(items[0]), SerializeItems(items[1..]))
      case (Some(t), Some(ts)) => Some([t] + ts)
      case _ => None
  }

  function SerializeMembers(ms: seq<Member>): Option<seq<Entry>> {
    if ms == [] then Some([])
    else

      match (Serialize(ms[0].value), SerializeMembers(ms[1..]))
      case (Some(t), Some(es)) => if Encodable(ms[0].name) then Some([Entry(ms[0].name, t)] + es) else None
      case _ => None
  }

  /** `canonicalize_jcs_profile`: the UTF-8 bytes of the text. */
  function CanonicalBytes(v: Json): Option<seq<int>> {
    match Serialize(v)
    case None => None
    case Some(t) => Some(Utf8(t))
  }

  // ---- the same text, printed from the recursively sorted value ----

  predicate Printable(v: Json) {
    match v
    case Int(n) => -SAFE_IJSON_INTEGER <= n <= SAFE_IJSON_INTEGER
    case Str(t) => Encodable(t)
    case List(items) => PrintableItems(items)
    case Dict(ms) => PrintableMembers(ms)
    case Unsupported => false
    case _ => true
  }

  predicate PrintableItems(items: seq<Json>) {
    items == [] || (Printable(items[0]) && PrintableItems(items[1..]))
  }

  predicate PrintableMembers(ms: seq<Member>) {
    ms == [] || (Encodable(ms[0].name) && Printable(ms[0].value) && PrintableMembers(ms[1..]))
  }

  function Print(v: Json): Text {
    match v
    case Null => NULL_TEXT
    case Bool(b) => if b then TRUE_TEXT else FALSE_TEXT
    case Int(n) => IntText(n)
    case Str(t) => Quoted(t)
    case List(items) => [0x5B] + PrintItems(items) + [0x5D]
    case Dict(ms) => [0x7B] + PrintMembers(ms) + [0x7D]
    case Unsupported => []
  }

  function PrintItems(items: seq<Json>): Text {
    if items == [] then []
    else Print(items[0]) + (if |items| == 1 then [] else [COMMA] + PrintItems(items[1..]))
  }

  function PrintMembers(ms: seq<Member>): Text {
    if ms == [] then []
    else

      Quoted(ms[0].name) + [COLON] + Print(ms[0].value) + (if |ms| == 1 then [] else [COMMA] + PrintMembers(ms[1..]))
  }

  function MemberKey(): Member -> seq<int> { (m: Member) => Utf16(m.name) }

  /** The value with the members of every dict in name order. */
  function Canonical(v: Json): Json {
    match v
    case List(items) => List(CanonicalItems(items))
    case Dict(ms) => Dict(SortBy(MemberKey(), ByteStringLe(), CanonicalMembers(ms)))
    case _ => v
  }

  function CanonicalItems(items: seq<Json>): seq<Json> {
    if items == [] then [] else [Canonical(items[0])] + CanonicalItems(items[1..])
  }

  function CanonicalMembers(ms: seq<Member>): seq<Member> {
    if ms == [] then []
    else [Member(ms[0].name, Canonical(ms[0].value))] + CanonicalMembers(ms[1..])
  }

  function Texts(items: seq<Json>): seq<Text> {
    if items == [] then [] else [Print(items[0])] + Texts(items[1..])
  }

  function EntryOf(m: Member): Entry { Entry(m.name, Print(m.value)) }

  function Entries(ms: seq<Member>): seq<Entry> {
    if ms == [] then [] else [EntryOf(ms[0])] + Entries(ms[1..])
  }

  lemma {:induction false} JoinIsPrintItems(items: seq<Json>)
    ensures JoinTexts(Texts(items)) == PrintItems(items) && |Texts(items)| == |items|
  {
    hide Print;
    if items == [] {
    } else {
      JoinIsPrintItems(items[1..]);
    }
  }

  lemma {:induction false} JoinIsPrintMembers(ms: seq<Member>)
    ensures JoinEntries(Entries(ms)) == PrintMembers(ms) && |Entries(ms)| == |ms|
  {
    hide Print, Quoted;
    if ms == [] {
    } else {
      JoinIsPrintMembers(ms[1..]);
    }
  }

  lemma {:induction false} InsertEntry(m: Member, ms: seq<Member>)
    ensures Insert(EntryKey(), ByteStringLe(), EntryOf(m), Entries(ms))
         == Entries(Insert(MemberKey(), ByteStringLe(), m, ms))
  {
    hide Print, LexLe, Utf16;
    if ms == [] {
    } else {
      InsertEntry(m, ms[1..]);
      assert Entries(ms)[1..] == Entries(ms[1..]);
    }
  }

  /** Ordering serialized members by name is serializing members ordered by name. */
  lemma {:induction false} SortEntries(ms: seq<Member>)
    ensures SortBy(EntryKey(), ByteStringLe(), Entries(ms)) == Entries(SortBy(MemberKey(), ByteStringLe(), ms))
  {
    hide Print, LexLe, Utf16;
    if ms == [] {
    } else {
      SortEntries(ms[1..]);
      assert Entries(ms)[1..] == Entries(ms[1..]);
      InsertEntry(ms[0], SortBy(MemberKey(), ByteStringLe(), ms[1..]));
    }
  }

  /** The serializer rejects exactly the unprintable values and otherwise prints the sorted value. */
  lemma {:induction false} SerializeIsPrint(v: Json)
    ensures Serialize(v) == if Printable(v) then Some(Print(Canonical(v))) else None
  {
    hide IntText, Quoted;
    match v
    case List(items) =>
      SerializeItemsIsPrint(items);
      JoinIsPrintItems(CanonicalItems(items));
    case Dict(ms) =>
      SerializeMembersIsPrint(ms);
      SortEntries(CanonicalMembers(ms));
      JoinIsPrintMembers(SortBy(MemberKey(), ByteStringLe(), CanonicalMembers(ms)));
    case _ =>
  }

  lemma {:induction false} SerializeItemsIsPrint(items: seq<Json>)
    ensures SerializeItems(items) == if PrintableItems(items) then Some(Texts(CanonicalItems(items))) else None
  {
    hide Print;
    if items == [] {
    } else {
      SerializeIsPrint(items[0]);
      SerializeItemsIsPrint(items[1..]);
      assert CanonicalItems(items)[1..] == CanonicalItems(items[1..]);
    }
  }

  lemma {:induction false} SerializeMembersIsPrint(ms: seq<Member>)
    ensures SerializeMembers(ms) == if PrintableMembers(ms) then Some(Entries(CanonicalMembers(ms))) else None
  {
    hide Print;
    if ms == [] {
    } else {
      SerializeIsPrint(ms[0].value);
      SerializeMembersIsPrint(ms[1..]);
      assert CanonicalMembers(ms)[1..] == CanonicalMembers(ms[1..]);
    }
  }

  // ---- reading ----

  predicate IsDecimalDigit(c: CodePoint) { 0x30 <= c <= 0x39 }

  function DigitsRead(t: Text): (n: nat)
    ensures n <= |t| && (forall i :: 0 <= i < n ==> IsDecimalDigit(t[i]))
  {
    if t != [] && IsDecimalDigit(t[0]) then 1 + DigitsRead(t[1..]) else 0
  }

  function DigitsValue(t: Text): nat
    requires forall i :: 0 <= i < |t| ==> IsDecimalDigit(t[i])
  {
    if t == [] then 0
    else
      assert IsDecimalDigit(t[|t| - 1]);
      var last: int := t[|t| - 1];
      DigitsValue(t[..|t| - 1]) * 10 + (last - 0x30)
  }

  function HexValue(c: CodePoint): CodePoint {
    if 0x30 <= c <= 0x39 then c - 0x30 else if 0x61 <= c <= 0x66 then c - 0x61 + 10 else 0
  }

  /** The character an escape stands for and the length of the escape. */
  function Unescape(t: Text): Option<(CodePoint, nat)>
    requires t != []
    ensures Unescape(t).Some? ==> 1 <= Unescape(t).value.1 <= |t|
  {
    if t[0] != BACKSLASH then Some((t[0], 1))
    else if |t| < 2 then None
    else if t[1] == QUOTE || t[1] == BACKSLASH then Some((t[1], 2))
    else if t[1] == 0x62 then Some((0x08, 2))
    else if t[1] == 0x74 then Some((0x09, 2))
    else if t[1] == 0x6E then Some((0x0A, 2))
    else if t[1] == 0x66 then Some((0x0C, 2))
    else if t[1] == 0x72 then Some((0x0D, 2))
    else if t[1] == 0x75 && |t| >= 6 then
      Some((HexValue(t[2]) * 4096 + HexValue(t[3]) * 256 + HexValue(t[4]) * 16 + HexValue(t[5]), 6))
    else None
  }

  /** Reads up to and including the closing quote. */
  function ReadString(t: Text): (r: Option<(Text, Text)>)
    ensures r.Some? ==> |r.value.1| < |t|
    decreases |t|
  {
    if t == [] then None
    else if t[0] == QUOTE then Some(([], t[1..]))
    else
      match Unescape(t)
      case None => None
      case Some((c, n)) =>
        (match ReadString(t[n..])
         case None => None
         case Some((s, rest)) => Some(([c] + s, rest)))
  }

  function ReadNat(t: Text): Option<(nat, Text)> {
    var n := DigitsRead(t);
    if n == 0 then None else Some((DigitsValue(t[..n]), t[n..]))
  }

  function ReadValue(t: Text): (r: Option<(Json, Text)>)
    ensures r.Some? ==> |r.value.1| < |t|
    decreases |t|, 0
  {
    if NULL_TEXT <= t then Some((Null, t[4..]))
    else if TRUE_TEXT <= t then Some((Bool(true), t[4..]))
    else if FALSE_TEXT <= t then Some((Bool(false), t[5..]))
    else if t == [] then None
    else if t[0] == QUOTE then
      (match ReadString(t[1..])
       case None => None
       case Some((s, rest)) => Some((Str(s), rest)))
    else if t[0] == MINUS then
      (match ReadNat(t[1..])
       case None => None
       case Some((n, rest)) => Some((Int(0 - n), rest)))
    else if IsDecimalDigit(t[0]) then
      (match ReadNat(t)
       case None => None
       case Some((n, rest)) => Some((Int(n), rest)))
    else if t[0] == 0x5B then
      if |t| > 1 && t[1] == 0x5D then Some((List([]), t[2..]))
      else
        (match ReadItems(t[1..])
         case None => None
         case Some((items, rest)) => Some((List(items), rest)))
    else if t[0] == 0x7B then
      if |t| > 1 && t[1] == 0x7D then Some((Dict([]), t[2..]))
      else
        (match ReadMembers(t[1..])
         case None => None
         case Some((ms, rest)) => Some((Dict(ms), rest)))
    else None
  }

  /** One or more values up to and including the closing bracket. */
  function ReadItems(t: Text): (r: Option<(seq<Json>, Text)>)
    ensures r.Some? ==> |r.value.1| < |t|
    decreases |t|, 1
  {
    match ReadValue(t)
    case None => None
    case Some((v, rest)) =>
      if rest == [] then None
      else if rest[0] == 0x5D then Some(([v], rest[1..]))
      else if rest[0] == COMMA then
        (match ReadItems(rest[1..])
         case None => None
         case Some((vs, after)) => Some(([v] + vs, after)))
      else None
  }

  function ReadMembers(t: Text): (r: Option<(seq<Member>, Text)>)
    ensures r.Some? ==> |r.value.1| < |t|
    decreases |t|, 1
  {
    if t == [] || t[0] != QUOTE then None
    else
      match ReadString(t[1..])
      case None => None
      case Some((name, colon)) =>
        if colon == [] || colon[0] != COLON then None
        else
          match ReadValue(colon[1..])
          case None => None
          case Some((v, rest)) =>
            if rest == [] then None
            else if rest[0] == 0x7D then Some(([Member(name, v)], rest[1..]))
            else if rest[0] == COMMA then
              (match ReadMembers(rest[1..])
               case None => None
               case Some((ms, after)) => Some(([Member(name, v)] + ms, after)))
            else None
  }

  function Read(t: Text): Option<Json> {
    var r := ReadValue(t);
    if r.Some? && r.value.1 == [] then Some(r.value.0) else None
  }

  // ---- reading back what was printed ----

  lemma UnescapeBack(c: CodePoint, tail: Text)
    ensures var t := Escape(c) + tail;
      && t[0] != QUOTE && Unescape(t) == Some((c, |Escape(c)|)) && t[|Escape(c)|..] == tail
  {
  }

  lemma {:induction false} ReadStringBack(s: Text, rest: Text)
    ensures ReadString(Escaped(s) + [QUOTE] + rest) == Some((s, rest))
  {
    hide Escape, Unescape;
    var t := Escaped(s) + [QUOTE] + rest;
    if s == [] {
      assert t[1..] == rest;
    } else {
      var tail := Escaped(s[1..]) + [QUOTE] + rest;
      assert t == Escape(s[0]) + tail;
      UnescapeBack(s[0], tail);
      ReadStringBack(s[1..], rest);
      assert s == [s[0]] + s[1..];
    }
  }

  lemma {:induction false} NatTextDigits(n: nat)
    ensures NatText(n) != [] && (forall i :: 0 <= i < |NatText(n)| ==> IsDecimalDigit(NatText(n)[i]))
    ensures DigitsValue(NatText(n)) == n
  {
    if n < 10 {
      assert NatText(n)[..0] == [];
    } else {
      NatTextDigits(n / 10);
      var t := NatText(n);
      assert t[..|t| - 1] == NatText(n / 10);
    }
  }

  lemma {:induction false} DigitsReadOf(digits: Text, rest: Text)
    requires forall i :: 0 <= i < |digits| ==> IsDecimalDigit(digits[i])
    requires rest == [] || !IsDecimalDigit(rest[0])
    ensures DigitsRead(digits + rest) == |digits|
  {
    if digits == [] {
      assert digits + rest == rest;
    } else {
      assert (digits + rest)[1..] == digits[1..] + rest;
      DigitsReadOf(digits[1..], rest);
    }
  }

  lemma ReadNatBack(n: nat, rest: Text)
    requires rest == [] || !IsDecimalDigit(rest[0])
    ensures ReadNat(NatText(n) + rest) == Some((n, rest))
    ensures NatText(n) != [] && IsDecimalDigit(NatText(n)[0])
  {
    hide DigitsRead, DigitsValue, NatText;
    NatTextDigits(n);
    DigitsReadOf(NatText(n), rest);
    var t := NatText(n) + rest;
    assert t[..|NatText(n)|] == NatText(n) && t[|NatText(n)|..] == rest;
  }

  /** What the reader does on each opening character. */
  lemma ReadValueOn(t: Text)
    requires t != []
    ensures t[0] == QUOTE ==>
      ReadValue(t) == match ReadString(t[1..]) case None => None case Some((s, rest)) => Some((Str(s), rest))
    ensures t[0] == MINUS ==>
      ReadValue(t) == match ReadNat(t[1..]) case None => None case Some((n, rest)) => Some((Int(0 - n), rest))
    ensures IsDecimalDigit(t[0]) ==>
      ReadValue(t) == match ReadNat(t) case None => None case Some((n, rest)) => Some((Int(n), rest))
    ensures t[0] == 0x5B && |t| > 1 && t[1] == 0x5D ==> ReadValue(t) == Some((List([]), t[2..]))
    ensures t[0] == 0x5B && |t| > 1 && t[1] != 0x5D ==>
      ReadValue(t) == match ReadItems(t[1..]) case None => None case Some((vs, rest)) => Some((List(vs), rest))
    ensures t[0] == 0x7B && |t| > 1 && t[1] == 0x7D ==> ReadValue(t) == Some((Dict([]), t[2..]))
    ensures t[0] == 0x7B && |t| > 1 && t[1] != 0x7D ==>
      ReadValue(t) == match ReadMembers(t[1..]) case None => None case Some((ms, rest)) => Some((Dict(ms), rest))
  {
    hide ReadString, ReadNat, ReadItems, ReadMembers;
    assert NULL_TEXT <= t ==> t[0] == NULL_TEXT[0];
    assert TRUE_TEXT <= t ==> t[0] == TRUE_TEXT[0];
    assert FALSE_TEXT <= t ==> t[0] == FALSE_TEXT[0];
  }

  lemma PrintHead(v: Json)
    requires Printable(v)
    ensures Print(v) != [] && Print(v)[0] != 0x5D
  {
    if v.Int? { NatTextDigits(if v.n < 0 then -v.n else v.n); }
  }

  lemma ReadWordsBack(v: Json, rest: Text)
    requires v.Null? || v.Bool?
    ensures ReadValue(Print(v) + rest) == Some((v, rest))
  {
    var t := Print(v) + rest;
    assert t[..|Print(v)|] == Print(v) && t[|Print(v)|..] == rest;
    assert v == Bool(true) ==> t[0] == TRUE_TEXT[0] != NULL_TEXT[0];
    assert v == Bool(false) ==> t[0] == FALSE_TEXT[0] != TRUE_TEXT[0];
  }

  lemma ReadIntBack(n: int, rest: Text)
    requires rest == [] || !IsDecimalDigit(rest[0])
    ensures ReadValue(IntText(n) + rest) == Some((Int(n), rest))
  {
    hide NatText, ReadValue, ReadNat;
    var t := IntText(n) + rest;
    ReadNatBack(if n < 0 then -n else n, rest);
    ReadValueOn(t);
    assert n < 0 ==> t[1..] == NatText(-n) + rest;
  }

  lemma {:induction false} ReadBack(v: Json, rest: Text)
    requires Printable(v) && (rest == [] || !IsDecimalDigit(rest[0]))
    ensures ReadValue(Print(v) + rest) == Some((v, rest))
    decreases v, 2
  {
    hide ReadValue, ReadString, IntText, Escaped, ReadItems, ReadMembers;
    var t := Print(v) + rest;
    match v
    case Int(n) => ReadIntBack(n, rest);
    case Str(s) =>
      assert t[1..] == Escaped(s) + [QUOTE] + rest;
      ReadStringBack(s, rest);
      ReadValueOn(t);
    case List(items) =>
      ReadListBack(items, rest);
    case Dict(ms) =>
      ReadDictBack(ms, rest);
    case _ => ReadWordsBack(v, rest);
  }

  lemma {:induction false} ReadListBack(items: seq<Json>, rest: Text)
    requires PrintableItems(items)
    ensures ReadValue([0x5B] + PrintItems(items) + [0x5D] + rest) == Some((List(items), rest))
    decreases items, 1
  {
    hide ReadValue, ReadItems, Print, Printable;
    var t := [0x5B] + PrintItems(items) + [0x5D] + rest;
    ReadValueOn(t);
    if items == [] {
      assert t[2..] == rest;
    } else {
      PrintHead(items[0]);
      assert t[1] == Print(items[0])[0];
      assert t[1..] == PrintItems(items) + [0x5D] + rest;
      ReadItemsBack(items, rest);
    }
  }

  lemma {:induction false} ReadItemsBack(items: seq<Json>, rest: Text)
    requires PrintableItems(items) && items != []
    ensures ReadItems(PrintItems(items) + [0x5D] + rest) == Some((items, rest))
    decreases items, 0
  {
    hide ReadValue, Print, Printable;
    var t := PrintItems(items) + [0x5D] + rest;
    if |items| == 1 {
      assert t == Print(items[0]) + ([0x5D] + rest);
      ReadBack(items[0], [0x5D] + rest);
      assert items == [items[0]];
    } else {
      var tail := PrintItems(items[1..]) + [0x5D] + rest;
      assert t == Print(items[0]) + ([COMMA] + tail);
      ReadBack(items[0], [COMMA] + tail);
      ReadItemsBack(items[1..], rest);
      assert ([COMMA] + tail)[1..] == tail;
      assert items == [items[0]] + items[1..];
    }
  }

  lemma {:induction false} ReadDictBack(ms: seq<Member>, rest: Text)
    requires PrintableMembers(ms)
    ensures ReadValue([0x7B] + PrintMembers(ms) + [0x7D] + rest) == Some((Dict(ms), rest))
    decreases ms, 1
  {
    hide ReadValue, ReadMembers, Print, Printable, Escaped;
    var t := [0x7B] + PrintMembers(ms) + [0x7D] + rest;
    ReadValueOn(t);
    if ms == [] {
      assert t[2..] == rest;
    } else {
      assert t[1] == QUOTE;
      assert t[1..] == PrintMembers(ms) + [0x7D] + rest;
      ReadMembersBack(ms, rest);
    }
  }

  lemma ReadMembersOn(t: Text, name: Text, value: Text, v: Json, more: Text)
    requires t != [] && t[0] == QUOTE && ReadString(t[1..]) == Some((name, [COLON] + value))
    requires ReadValue(value) == Some((v, more)) && more != []
    ensures more[0] == 0x7D ==> ReadMembers(t) == Some(([Member(name, v)], more[1..]))
    ensures more[0] == COMMA ==>
      ReadMembers(t) == match ReadMembers(more[1..])
                        case None => None
                        case Some((ms, after)) => Some(([Member(name, v)] + ms, after))
  {
    hide ReadValue, ReadString;
    assert ([COLON] + value)[1..] == value;
  }

  lemma Assoc(a: Text, b: Text, c: Text)
    ensures (a + b) + c == a + (b + c)
  {
  }

  lemma PrintedMember(ms: seq<Member>, rest: Text) returns (value: Text, more: Text)
    requires ms != []
    ensures more == if |ms| == 1 then [0x7D] + rest else [COMMA] + (PrintMembers(ms[1..]) + [0x7D] + rest)
    ensures value == Print(ms[0].value) + more
    ensures var t := PrintMembers(ms) + [0x7D] + rest;
      t[0] == QUOTE && t[1..] == Escaped(ms[0].name) + [QUOTE] + ([COLON] + value)
  {
    hide Print, Escaped;
    var e, p := Escaped(ms[0].name), Print(ms[0].value);
    var tail := if |ms| == 1 then [] else [COMMA] + PrintMembers(ms[1..]);
    more := tail + ([0x7D] + rest);
    value := p + more;
    var head := [QUOTE] + e + [QUOTE];
    assert PrintMembers(ms) == head + [COLON] + p + tail;
    RegroupMember(e, p, tail, [0x7D], rest);
    if |ms| > 1 { RegroupTail(PrintMembers(ms[1..]), rest); }
  }

  lemma RegroupTail(u: Text, rest: Text)
    ensures ([COMMA] + u) + ([0x7D] + rest) == [COMMA] + (u + [0x7D] + rest)
  {
  }

  lemma RegroupMember(e: Text, p: Text, tail: Text, close: Text, rest: Text)
    ensures var t := [QUOTE] + e + [QUOTE] + [COLON] + p + tail + close + rest;
      t[0] == QUOTE && t[1..] == e + [QUOTE] + ([COLON] + (p + (tail + (close + rest))))
  {
    var z := close + rest;
    var h := [QUOTE] + e + [QUOTE] + [COLON];
    Assoc(h + p + tail, close, rest);
    Assoc(h + p, tail, z);
    Assoc(h, p, tail + z);
    var y := p + (tail + z);
    Assoc([QUOTE] + e + [QUOTE], [COLON], y);
    Assoc([QUOTE] + e, [QUOTE], [COLON] + y);
    Assoc([QUOTE], e, [QUOTE] + ([COLON] + y));
    Assoc(e, [QUOTE], [COLON] + y);
    var x := e + [QUOTE] + ([COLON] + y);
    assert ([QUOTE] + x)[1..] == x;
  }

  lemma {:induction false} ReadMembersBack(ms: seq<Member>, rest: Text)
    requires PrintableMembers(ms) && ms != []
    ensures ReadMembers(PrintMembers(ms) + [0x7D] + rest) == Some((ms, rest))
    decreases ms, 0
  {
    hide ReadValue, ReadString, ReadMembers, Print, Printable, Escaped, PrintMembers;
    var m := ms[0];
    var value, more := PrintedMember(ms, rest);
    ReadStringBack(m.name, [COLON] + value);
    ReadBack(m.value, more);
    ReadMembersOn(PrintMembers(ms) + [0x7D] + rest, m.name, value, m.value, more);
    if |ms| == 1 {
      assert more[1..] == rest && ms == [m];
    } else {
      assert more[1..] == PrintMembers(ms[1..]) + [0x7D] + rest;
      ReadMembersBack(ms[1..], rest);
      assert ms == [m] + ms[1..];
    }
  }

  // ---- the JSON value, without member order ----

  datatype Value =
    | VNull
    | VBool(b: bool)
    | VInt(n: int)
    | VStr(text: Text)
    | VList(items: seq<Value>)
    | VDict(fields: map<Text, Value>)
    | VUnsupported

  ghost function Denote(v: Json): Value {
    match v
    case Null => VNull
    case Bool(b) => VBool(b)
    case Int(n) => VInt(n)
    case Str(t) => VStr(t)
    case List(items) => VList(DenoteItems(items))
    case Dict(ms) => VDict(DenoteMembers(ms))
    case Unsupported => VUnsupported
  }

  ghost function DenoteItems(items: seq<Json>): seq<Value> {
    if items == [] then [] else [Denote(items[0])] + DenoteItems(items[1..])
  }

  ghost function DenoteMembers(ms: seq<Member>): map<Text, Value> {
    if ms == [] then map[] else DenoteMembers(ms[1..])[ms[0].name := Denote(ms[0].value)]
  }

  ghost predicate HasName(ms: seq<Member>, name: Text) { exists m :: m in ms && m.name == name }

  lemma {:induction false} DenotedNames(ms: seq<Member>, name: Text)
    ensures name in DenoteMembers(ms) <==> HasName(ms, name)
  {
    hide Denote;
    if ms == [] {
    } else {
      DenotedNames(ms[1..], name);
      assert ms == [ms[0]] + ms[1..];
    }
  }

  lemma {:induction false} DenotedMember(ms: seq<Member>, m: Member)
    requires UniqueNames(ms) && m in ms
    ensures m.name in DenoteMembers(ms) && DenoteMembers(ms)[m.name] == Denote(m.value)
  {
    hide Denote;
    assert ms == [ms[0]] + ms[1..];
    if m != ms[0] {
      DenotedMember(ms[1..], m);
      var k :| 0 <= k < |ms[1..]| && ms[1..][k] == m;
      assert ms[0].name != ms[k + 1].name;
    }
  }

  lemma SameMembersDenote(a: seq<Member>, b: seq<Member>)
    requires UniqueNames(a) && UniqueNames(b)
    requires forall m :: m in a <==> m in b
    ensures DenoteMembers(a) == DenoteMembers(b)
  {
    hide Denote, DenoteMembers;
    forall name ensures name in DenoteMembers(a) <==> name in DenoteMembers(b) {
      DenotedNames(a, name);
      DenotedNames(b, name);
    }
    forall name | name in DenoteMembers(a) ensures DenoteMembers(a)[name] == DenoteMembers(b)[name] {
      DenotedNames(a, name);
      var m :| m in a && m.name == name;
      DenotedMember(a, m);
      DenotedMember(b, m);
    }
  }

  lemma {:induction false} CanonicalMemberAt(ms: seq<Member>, i: nat)
    requires i < |ms|
    ensures |CanonicalMembers(ms)| == |ms|
    ensures CanonicalMembers(ms)[i] == Member(ms[i].name, Canonical(ms[i].value))
  {
    hide Canonical;
    if i > 0 {
      CanonicalMemberAt(ms[1..], i - 1);
    } else if |ms| > 1 {
      CanonicalMemberAt(ms[1..], 0);
    }
  }

  lemma CanonicalNames(ms: seq<Member>)
    requires UniqueNames(ms)
    ensures |CanonicalMembers(ms)| == |ms| && UniqueNames(CanonicalMembers(ms))
  {
    hide Canonical, CanonicalMembers;
    CanonicalMembersLength(ms);
    forall i | 0 <= i < |ms| ensures CanonicalMembers(ms)[i].name == ms[i].name { CanonicalMemberAt(ms, i); }
  }

  lemma {:induction false} CanonicalMembersLength(ms: seq<Member>)
    ensures |CanonicalMembers(ms)| == |ms|
  {
    hide Canonical;
    if ms == [] {
    } else {
      CanonicalMembersLength(ms[1..]);
    }
  }

  function SortMembers(ms: seq<Member>): seq<Member> { SortBy(MemberKey(), ByteStringLe(), ms) }

  lemma SortMembersFacts(ms: seq<Member>)
    ensures SortedBy(MemberKey(), ByteStringLe(), SortMembers(ms))
    ensures multiset(SortMembers(ms)) == multiset(ms)
    ensures forall m :: m in SortMembers(ms) <==> m in ms
  {
    hide LexLe, TotalOrder, SortedBy;
    ByteStringTotal();
    SortByIsSort(MemberKey(), ByteStringLe(), ms);
    forall m ensures m in SortMembers(ms) <==> m in ms {
      assert m in multiset(SortMembers(ms)) <==> m in multiset(ms);
    }
  }

  lemma NameDetermines(ms: seq<Member>, m: Member, n: Member)
    requires UniqueNames(ms) && m in ms && n in ms
    ensures m.name == n.name ==> m == n
  {
  }

  /** Members with unique names stay so under permutation. */
  lemma PermutedUnique(a: seq<Member>, b: seq<Member>)
    requires UniqueNames(a) && multiset(a) == multiset(b)
    ensures UniqueNames(b)
  {
    forall i, j | 0 <= i < j < |b| ensures b[i].name != b[j].name {
      assert b[i] in multiset(b) && b[j] in multiset(b);
      assert b[i] in multiset(a) && b[j] in multiset(a);
      NameDetermines(a, b[i], b[j]);
      RepeatCount(b, i, j);
      DistinctCount(a, b[j]);
    }
  }

  /** Sorting members changes no value. */
  lemma {:induction false} CanonicalDenotes(v: Json)
    requires IsPython(v)
    ensures Denote(Canonical(v)) == Denote(v)
    decreases v, 1
  {
    match v
    case List(items) => CanonicalItemsDenote(items);
    case Dict(ms) =>
      CanonicalMembersDenote(ms);
      CanonicalNames(ms);
      SortMembersFacts(CanonicalMembers(ms));
      PermutedUnique(CanonicalMembers(ms), SortMembers(CanonicalMembers(ms)));
      SameMembersDenote(CanonicalMembers(ms), SortMembers(CanonicalMembers(ms)));
    case _ =>
  }

  lemma {:induction false} CanonicalItemsDenote(items: seq<Json>)
    requires forall x :: x in items ==> IsPython(x)
    ensures DenoteItems(CanonicalItems(items)) == DenoteItems(items)
    decreases items, 0
  {
    hide Denote, Canonical, IsPython;
    if items == [] {
    } else {
      CanonicalDenotes(items[0]);
      CanonicalItemsDenote(items[1..]);
      assert CanonicalItems(items)[1..] == CanonicalItems(items[1..]);
    }
  }

  lemma {:induction false} CanonicalMembersDenote(ms: seq<Member>)
    requires forall m :: m in ms ==> IsPython(m.value)
    ensures DenoteMembers(CanonicalMembers(ms)) == DenoteMembers(ms)
    decreases ms, 0
  {
    hide Denote, Canonical, IsPython;
    if ms == [] {
    } else {
      CanonicalDenotes(ms[0].value);
      CanonicalMembersDenote(ms[1..]);
      assert CanonicalMembers(ms)[1..] == CanonicalMembers(ms[1..]);
    }
  }

  // ---- unique readability and order independence ----

  lemma {:induction false} PrintableAt(ms: seq<Member>, m: Member)
    requires PrintableMembers(ms) && m in ms
    ensures Encodable(m.name) && Printable(m.value)
  {
    hide Encodable, Printable;
    assert ms == [ms[0]] + ms[1..];
    if m != ms[0] { PrintableAt(ms[1..], m); }
  }

  lemma {:induction false} AllPrintable(ms: seq<Member>)
    requires forall m :: m in ms ==> Encodable(m.name) && Printable(m.value)
    ensures PrintableMembers(ms)
  {
    hide Encodable, Printable;
    if ms == [] {
    } else {
      AllPrintable(ms[1..]);
    }
  }

  /** The sorted value is still printable. */
  lemma {:induction false} CanonicalPrintable(v: Json)
    requires Printable(v)
    ensures Printable(Canonical(v))
    decreases v, 1
  {
    hide Encodable;
    match v
    case List(items) => CanonicalItemsPrintable(items);
    case Dict(ms) =>
      var cs := CanonicalMembers(ms);
      SortMembersFacts(cs);
      forall m | m in SortMembers(cs) ensures Encodable(m.name) && Printable(m.value) {
        assert m in cs;
        CanonicalMembersPrintable(ms, m);
      }
      AllPrintable(SortMembers(cs));
    case _ =>
  }

  lemma {:induction false} CanonicalItemsPrintable(items: seq<Json>)
    requires PrintableItems(items)
    ensures PrintableItems(CanonicalItems(items))
    decreases items, 0
  {
    hide Printable, Canonical;
    if items == [] {
    } else {
      CanonicalPrintable(items[0]);
      CanonicalItemsPrintable(items[1..]);
      assert CanonicalItems(items)[1..] == CanonicalItems(items[1..]);
    }
  }

  lemma {:induction false} CanonicalMembersPrintable(ms: seq<Member>, m: Member)
    requires PrintableMembers(ms) && m in CanonicalMembers(ms)
    ensures Encodable(m.name) && Printable(m.value)
    decreases ms, 0
  {
    hide Printable, Canonical, Encodable;
    assert CanonicalMembers(ms)[1..] == CanonicalMembers(ms[1..]);
    CanonicalPrintable(ms[0].value);
    if m != CanonicalMembers(ms)[0] { CanonicalMembersPrintable(ms[1..], m); }
  }

  /** The reader recovers every serializable value from its text, with the members in name order. */
  lemma ReaderInvertsSerializer(v: Json)
    ensures Serialize(v).Some? ==> Read(Serialize(v).value) == Some(Canonical(v))
  {
    hide Serialize, Print, ReadValue, Printable, Canonical;
    SerializeIsPrint(v);
    if Printable(v) {
      CanonicalPrintable(v);
      ReadBack(Canonical(v), []);
      assert Print(Canonical(v)) + [] == Print(Canonical(v));
    }
  }

  lemma CanonicalMemberOf(ms: seq<Member>, m: Member)
    requires m in ms
    ensures Member(m.name, Canonical(m.value)) in CanonicalMembers(ms)
  {
    hide Canonical, CanonicalMembers;
    var i :| 0 <= i < |ms| && ms[i] == m;
    CanonicalMemberAt(ms, i);
  }

  lemma CanonicalMemberFrom(ms: seq<Member>, c: Member) returns (m: Member)
    requires c in CanonicalMembers(ms)
    ensures m in ms && c == Member(m.name, Canonical(m.value))
  {
    hide Canonical, CanonicalMembers;
    CanonicalMembersLength(ms);
    var i :| 0 <= i < |CanonicalMembers(ms)| && CanonicalMembers(ms)[i] == c;
    CanonicalMemberAt(ms, i);
    m := ms[i];
  }

  lemma Counterpart(ms: seq<Member>, ns: seq<Member>, n: Member) returns (m: Member)
    requires UniqueNames(ms) && UniqueNames(ns) && DenoteMembers(ms) == DenoteMembers(ns) && n in ns
    ensures m in ms && m.name == n.name && Denote(m.value) == Denote(n.value)
  {
    hide Denote, DenoteMembers, UniqueNames;
    DenotedMember(ns, n);
    DenotedNames(ms, n.name);
    m :| m in ms && m.name == n.name;
    DenotedMember(ms, m);
  }

  /** Name order is unique: the same members sort to the same sequence. */
  lemma SortMembersUnique(a: seq<Member>, b: seq<Member>)
    requires UniqueNames(a) && UniqueNames(b) && (forall m :: m in a <==> m in b)
    requires forall m :: m in a ==> Encodable(m.name)
    ensures SortMembers(a) == SortMembers(b)
  {
    hide LexLe, TotalOrder, SortedBy, Utf16, Encodable;
    DistinctPermutation(a, b);
    SortMembersFacts(a);
    SortMembersFacts(b);
    ByteStringTotal();
    forall x, y | x in SortMembers(a) && y in SortMembers(a) && MemberKey()(x) == MemberKey()(y) ensures x == y {
      Utf16Injective(x.name, y.name);
      NameDetermines(a, x, y);
    }
    SortedUnique(MemberKey(), ByteStringLe(), SortMembers(a), SortMembers(b));
  }

  /** Equal JSON values have one sorted form, whatever order their members were inserted in. */
  lemma {:induction false} SameValueSameForm(v: Json, w: Json)
    requires IsPython(v) && IsPython(w) && Denote(v) == Denote(w) && Printable(v)
    ensures Printable(w) && Canonical(v) == Canonical(w)
    decreases v, 1
  {
    match v
    case List(items) => SameItemsSameForm(items, w.items);
    case Dict(ms) =>
      SameMembersSameForm(ms, w.members);
      var a, b := CanonicalMembers(ms), CanonicalMembers(w.members);
      CanonicalNames(ms);
      CanonicalNames(w.members);
      forall c | c in a ensures Encodable(c.name) {
        var m := CanonicalMemberFrom(ms, c);
        PrintableAt(ms, m);
      }
      SortMembersUnique(a, b);
    case _ =>
  }

  lemma {:induction false} SameItemsSameForm(items: seq<Json>, others: seq<Json>)
    requires (forall x :: x in items ==> IsPython(x)) && (forall x :: x in others ==> IsPython(x))
    requires DenoteItems(items) == DenoteItems(others) && PrintableItems(items)
    ensures PrintableItems(others) && CanonicalItems(items) == CanonicalItems(others)
    decreases items, 0
  {
    hide IsPython, Denote, Printable, Canonical;
    if items != [] && others != [] {
      assert DenoteItems(items)[0] == Denote(items[0]) && DenoteItems(others)[0] == Denote(others[0]);
      assert DenoteItems(items)[1..] == DenoteItems(items[1..]) && DenoteItems(others)[1..] == DenoteItems(others[1..]);
      SameValueSameForm(items[0], others[0]);
      SameItemsSameForm(items[1..], others[1..]);
    }
  }

  lemma {:induction false} SameMembersSameForm(ms: seq<Member>, ns: seq<Member>)
    requires UniqueNames(ms) && (forall m :: m in ms ==> IsPython(m.value))
    requires UniqueNames(ns) && (forall n :: n in ns ==> IsPython(n.value))
    requires DenoteMembers(ms) == DenoteMembers(ns) && PrintableMembers(ms)
    ensures PrintableMembers(ns)
    ensures forall c :: c in CanonicalMembers(ms) <==> c in CanonicalMembers(ns)
    decreases ms, 0
  {
    hide IsPython, Denote, DenoteMembers, Printable, PrintableMembers, Canonical, CanonicalMembers, UniqueNames,
      Encodable;
    forall n | n in ns ensures Encodable(n.name) && Printable(n.value) &&
      Member(n.name, Canonical(n.value)) in CanonicalMembers(ms) {
      var m := Counterpart(ms, ns, n);
      PrintableAt(ms, m);
      SameValueSameForm(m.value, n.value);
      CanonicalMemberOf(ms, m);
    }
    AllPrintable(ns);
    forall c | c in CanonicalMembers(ns) ensures c in CanonicalMembers(ms) {
      var n := CanonicalMemberFrom(ns, c);
    }
    forall c | c in CanonicalMembers(ms) ensures c in CanonicalMembers(ns) {
      var m := CanonicalMemberFrom(ms, c);
      var n := Counterpart(ns, ms, m);
      PrintableAt(ms, m);
      SameValueSameForm(m.value, n.value);
      CanonicalMemberOf(ns, n);
    }
  }

  /** Equal JSON values are serialized alike, or both rejected: insertion order never shows. */
  lemma SameValueSameBytes(v: Json, w: Json)
    requires IsPython(v) && IsPython(w) && Denote(v) == Denote(w)
    ensures CanonicalBytes(v) == CanonicalBytes(w)
  {
    hide IsPython, Denote, Printable, Canonical, Serialize, Print;
    SerializeIsPrint(v);
    SerializeIsPrint(w);
    if Printable(v) { SameValueSameForm(v, w); }
    if Printable(w) { SameValueSameForm(w, v); }
  }

  /** The canonical bytes identify the JSON value: equal bytes exactly when equal values. */
  lemma EqualBytesIffEqualValues(v: Json, w: Json)
    requires IsPython(v) && IsPython(w) && CanonicalBytes(v).Some? && CanonicalBytes(w).Some?
    ensures CanonicalBytes(v) == CanonicalBytes(w) <==> Denote(v) == Denote(w)
  {
    hide IsPython, Denote, Canonical, Serialize, Read;
    if CanonicalBytes(v) == CanonicalBytes(w) {
      Utf8Injective(Serialize(v).value, Serialize(w).value);
      ReaderInvertsSerializer(v);
      ReaderInvertsSerializer(w);
      CanonicalDenotes(v);
      CanonicalDenotes(w);
    }
    if Denote(v) == Denote(w) { SameValueSameBytes(v, w); }
  }

  // ---- members by name ----

  function Lookup(ms: seq<Member>, name: Text): Option<Json> {
    if ms == [] then None else if ms[0].name == name then Some(ms[0].value) else Lookup(ms[1..], name)
  }

  lemma {:induction false} LookupDenotes(ms: seq<Member>, name: Text)
    ensures Lookup(ms, name).Some? <==> name in DenoteMembers(ms)
    ensures Lookup(ms, name).Some? ==> Denote(Lookup(ms, name).value) == DenoteMembers(ms)[name]
  {
    hide Denote;
    if ms == [] {
    } else {
      LookupDenotes(ms[1..], name);
    }
  }

  lemma {:induction false} LookupMember(ms: seq<Member>, name: Text)
    ensures Lookup(ms, name).Some? ==> Member(name, Lookup(ms, name).value) in ms
    ensures Lookup(ms, name).None? ==> forall m :: m in ms ==> m.name != name
  {
    if ms == [] {
    } else {
      LookupMember(ms[1..], name);
      assert ms == [ms[0]] + ms[1..];
    }
  }
}
