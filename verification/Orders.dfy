/** Total orders, lexicographic order and the stable sort behind Python's `sorted`. */
module Orders {

  ghost predicate TotalOrder<T(!new)>(le: (T, T) -> bool) {
    && (forall x :: le(x, x))
    && (forall x, y :: le(x, y) && le(y, x) ==> x == y)
    && (forall x, y, z :: le(x, y) && le(y, z) ==> le(x, z))
    && (forall x, y :: le(x, y) || le(y, x))
  }

  // ---- lexicographic order on sequences ----

  predicate LexLe<T(==)>(le: (T, T) -> bool, a: seq<T>, b: seq<T>) {
    if a == [] then true
    else if b == [] then false
    else if a[0] == b[0] then LexLe(le, a[1..], b[1..])
    else le(a[0], b[0])
  }

  function Lex<T(==)>(le: (T, T) -> bool): (seq<T>, seq<T>) -> bool {
    (a, b) => LexLe(le, a, b)
  }

  lemma {:induction false} LexReflexive<T(!new)>(le: (T, T) -> bool, a: seq<T>)
    ensures LexLe(le, a, a)
  {
    if a == [] {
    } else {
      LexReflexive(le, a[1..]);
    }
  }

  lemma {:induction false} LexAntisymmetric<T(!new)>(le: (T, T) -> bool, a: seq<T>, b: seq<T>)
    requires TotalOrder(le) && LexLe(le, a, b) && LexLe(le, b, a)
    ensures a == b
  {
    if a != [] && b != [] {
      assert a[0] == b[0];
      LexAntisymmetric(le, a[1..], b[1..]);
      assert a == [a[0]] + a[1..] && b == [b[0]] + b[1..];
    }
  }

  lemma {:induction false} LexTransitive<T(!new)>(le: (T, T) -> bool, a: seq<T>, b: seq<T>, c: seq<T>)
    requires TotalOrder(le) && LexLe(le, a, b) && LexLe(le, b, c)
    ensures LexLe(le, a, c)
  {
    if a != [] && b != [] && c != [] && a[0] == b[0] && b[0] == c[0] {
      LexTransitive(le, a[1..], b[1..], c[1..]);
    }
  }

  lemma {:induction false} LexConnected<T(!new)>(le: (T, T) -> bool, a: seq<T>, b: seq<T>)
    requires TotalOrder(le)
    ensures LexLe(le, a, b) || LexLe(le, b, a)
  {
    if a != [] && b != [] && a[0] == b[0] { LexConnected(le, a[1..], b[1..]); }
  }

  /** Comparing sequences element by element is a total order when comparing elements is. */
  lemma LexTotal<T(!new)>(le: (T, T) -> bool)
    requires TotalOrder(le)
    ensures TotalOrder(Lex(le))
  {
    forall a ensures Lex(le)(a, a) { LexReflexive(le, a); }
    forall a, b | Lex(le)(a, b) && Lex(le)(b, a) ensures a == b { LexAntisymmetric(le, a, b); }
    forall a, b, c | Lex(le)(a, b) && Lex(le)(b, c) ensures Lex(le)(a, c) { LexTransitive(le, a, b, c); }
    forall a, b ensures Lex(le)(a, b) || Lex(le)(b, a) { LexConnected(le, a, b); }
  }

  function IntLe(): (int, int) -> bool { (a: int, b: int) => a <= b }

  function ByteStringLe(): (seq<int>, seq<int>) -> bool { Lex(IntLe()) }

  lemma ByteStringTotal()
    ensures TotalOrder(ByteStringLe())
  {
    LexTotal(IntLe());
  }

  function CharLe(): (char, char) -> bool { (a: char, b: char) => a <= b }

  function TextLe(): (string, string) -> bool { Lex(CharLe()) }

  lemma TextTotal()
    ensures TotalOrder(TextLe())
  {
    LexTotal(CharLe());
  }

  // ---- stable sort by a key ----

  /** x goes before the first element whose key is not smaller: earlier input stays earlier among equals. */
  function Insert<T, K>(key: T -> K, le: (K, K) -> bool, x: T, s: seq<T>): seq<T> {
    if s == [] || le(key(x), key(s[0])) then [x] + s
    else [s[0]] + Insert(key, le, x, s[1..])
  }

  function SortBy<T, K>(key: T -> K, le: (K, K) -> bool, s: seq<T>): seq<T> {
    if s == [] then [] else Insert(key, le, s[0], SortBy(key, le, s[1..]))
  }

  ghost predicate SortedBy<T, K>(key: T -> K, le: (K, K) -> bool, s: seq<T>) {
    forall i, j :: 0 <= i < j < |s| ==> le(key(s[i]), key(s[j]))
  }

  lemma {:induction false} InsertPermutes<T, K>(key: T -> K, le: (K, K) -> bool, x: T, s: seq<T>)
    ensures multiset(Insert(key, le, x, s)) == multiset(s) + multiset{x}
  {
    if s == [] || le(key(x), key(s[0])) {
      assert multiset([x] + s) == multiset{x} + multiset(s);
    } else {
      InsertPermutes(key, le, x, s[1..]);
      assert s == [s[0]] + s[1..];
    }
  }

  lemma {:induction false} InsertSorted<T, K(!new)>(key: T -> K, le: (K, K) -> bool, x: T, s: seq<T>)
    requires TotalOrder(le) && SortedBy(key, le, s)
    ensures SortedBy(key, le, Insert(key, le, x, s))
  {
    if s == [] {
    } else if le(key(x), key(s[0])) {
      forall j | 0 <= j < |s| ensures le(key(x), key(s[j])) {
        assert j == 0 || le(key(s[0]), key(s[j]));
      }
    } else {
      var rest := Insert(key, le, x, s[1..]);
      InsertSorted(key, le, x, s[1..]);
      InsertPermutes(key, le, x, s[1..]);
      forall j | 0 <= j < |rest| ensures le(key(s[0]), key(rest[j])) {
        assert rest[j] in multiset(rest);
        if rest[j] != x {
          var k :| 0 <= k < |s[1..]| && s[1..][k] == rest[j];
          assert s[1..][k] == s[k + 1];
        }
      }
    }
  }

  /** Whatever the comparison, the sort returns the same elements, each as often as before. */
  lemma {:induction false} SortByPermutes<T, K>(key: T -> K, le: (K, K) -> bool, s: seq<T>)
    ensures multiset(SortBy(key, le, s)) == multiset(s)
    ensures |SortBy(key, le, s)| == |s|
  {
    if s == [] {
    } else {
      SortByPermutes(key, le, s[1..]);
      InsertPermutes(key, le, s[0], SortBy(key, le, s[1..]));
      assert s == [s[0]] + s[1..];
    }
    assert |multiset(SortBy(key, le, s))| == |SortBy(key, le, s)|;
  }

  lemma {:induction false} SortByOrders<T, K(!new)>(key: T -> K, le: (K, K) -> bool, s: seq<T>)
    requires TotalOrder(le)
    ensures SortedBy(key, le, SortBy(key, le, s))
  {
    hide TotalOrder, Insert;
    if s == [] {
    } else {
      SortByOrders(key, le, s[1..]);
      InsertSorted(key, le, s[0], SortBy(key, le, s[1..]));
    }
  }

  /** The sort returns the same elements, each as often as before, in key order. */
  lemma SortByIsSort<T, K(!new)>(key: T -> K, le: (K, K) -> bool, s: seq<T>)
    requires TotalOrder(le)
    ensures SortedBy(key, le, SortBy(key, le, s))
    ensures multiset(SortBy(key, le, s)) == multiset(s)
    ensures |SortBy(key, le, s)| == |s|
  {
    hide TotalOrder, SortedBy, SortBy;
    SortByOrders(key, le, s);
    SortByPermutes(key, le, s);
  }

  /** In a sorted sequence the first key is least. */
  lemma FirstIsLeast<T, K(!new)>(key: T -> K, le: (K, K) -> bool, s: seq<T>, x: T)
    requires TotalOrder(le) && SortedBy(key, le, s) && x in s
    ensures le(key(s[0]), key(x))
  {
    var i :| 0 <= i < |s| && s[i] == x;
    assert le(key(s[i]), key(s[i]));
    assert i > 0 ==> le(key(s[0]), key(s[i]));
  }

  lemma TailSorted<T, K>(key: T -> K, le: (K, K) -> bool, s: seq<T>)
    requires SortedBy(key, le, s) && s != []
    ensures SortedBy(key, le, s[1..])
  {
  }

  lemma TailMultiset<T>(s: seq<T>)
    requires s != []
    ensures multiset(s[1..]) == multiset(s) - multiset{s[0]}
  {
    assert s == [s[0]] + s[1..];
  }

  lemma HeadsAgree<T, K(!new)>(key: T -> K, le: (K, K) -> bool, a: seq<T>, b: seq<T>)
    requires TotalOrder(le) && SortedBy(key, le, a) && SortedBy(key, le, b)
    requires a != [] && b != [] && a[0] in b && b[0] in a
    ensures key(a[0]) == key(b[0])
  {
    FirstIsLeast(key, le, a, b[0]);
    FirstIsLeast(key, le, b, a[0]);
  }

  ghost predicate KeyIdentifies<T, K>(key: T -> K, s: seq<T>) {
    forall x, y :: x in s && y in s && key(x) == key(y) ==> x == y
  }

  lemma HeadsAndTails<T, K(!new)>(key: T -> K, le: (K, K) -> bool, a: seq<T>, b: seq<T>)
    requires TotalOrder(le) && SortedBy(key, le, a) && SortedBy(key, le, b)
    requires multiset(a) == multiset(b) && KeyIdentifies(key, a) && a != [] && b != []
    ensures a[0] == b[0] && multiset(a[1..]) == multiset(b[1..])
    ensures SortedBy(key, le, a[1..]) && SortedBy(key, le, b[1..])
  {
    hide TotalOrder, SortedBy;
    assert a[0] in multiset(a) && b[0] in multiset(b);
    assert a[0] in multiset(b) && b[0] in multiset(a);
    HeadsAgree(key, le, a, b);
    TailSorted(key, le, a);
    TailSorted(key, le, b);
    TailMultiset(a);
    TailMultiset(b);
  }

  lemma TailIdentifies<T, K>(key: T -> K, a: seq<T>)
    requires KeyIdentifies(key, a) && a != []
    ensures KeyIdentifies(key, a[1..])
  {
  }

  /** Two key-sorted arrangements of the same elements are one arrangement, when the key identifies the element. */
  lemma {:induction false} SortedUnique<T, K(!new)>(key: T -> K, le: (K, K) -> bool, a: seq<T>, b: seq<T>)
    requires TotalOrder(le) && SortedBy(key, le, a) && SortedBy(key, le, b)
    requires multiset(a) == multiset(b) && KeyIdentifies(key, a)
    ensures a == b
  {
    hide TotalOrder, SortedBy, KeyIdentifies;
    assert |multiset(a)| == |a| && |multiset(b)| == |b|;
    if a == [] {
    } else {
      HeadsAndTails(key, le, a, b);
      TailIdentifies(key, a);
      SortedUnique(key, le, a[1..], b[1..]);
      assert a == [a[0]] + a[1..] && b == [b[0]] + b[1..];
    }
  }

  lemma {:induction false} DistinctCount<T>(s: seq<T>, x: T)
    requires forall i, j :: 0 <= i < j < |s| ==> s[i] != s[j]
    ensures multiset(s)[x] == if x in s then 1 else 0
  {
    if s == [] {
    } else {
      DistinctCount(s[1..], x);
      assert s == [s[0]] + s[1..];
      assert forall k :: 0 <= k < |s[1..]| ==> s[1..][k] == s[k + 1];
      assert s[0] !in s[1..];
    }
  }

  /** Sequences without repetition over the same elements are permutations of each other. */
  lemma DistinctPermutation<T>(a: seq<T>, b: seq<T>)
    requires forall i, j :: 0 <= i < j < |a| ==> a[i] != a[j]
    requires forall i, j :: 0 <= i < j < |b| ==> b[i] != b[j]
    requires forall x :: x in a <==> x in b
    ensures multiset(a) == multiset(b)
  {
    forall x ensures multiset(a)[x] == multiset(b)[x] {
      DistinctCount(a, x);
      DistinctCount(b, x);
    }
  }

  lemma RepeatCount<T>(s: seq<T>, i: nat, j: nat)
    requires i < j < |s|
    ensures s[i] == s[j] ==> multiset(s)[s[j]] >= 2
  {
    assert s == s[..j] + [s[j]] + s[j + 1..];
    assert s[i] in s[..j];
    assert multiset(s) == multiset(s[..j]) + multiset{s[j]} + multiset(s[j + 1..]);
  }

  /** Texts sorted by themselves. */
  function Itself(): string -> string { (s: string) => s }

  // ---- multisets ----

  lemma CancelOne<T>(a: multiset<T>, b: multiset<T>, x: T)
    requires a + multiset{x} == b + multiset{x}
    ensures a == b
  {
    assert a == (a + multiset{x}) - multiset{x};
    assert b == (b + multiset{x}) - multiset{x};
  }

  lemma RemoveOne<T>(s: seq<T>, k: nat)
    requires k < |s|
    ensures multiset(s) == multiset(s[..k] + s[k + 1..]) + multiset{s[k]}
  {
    assert s == s[..k] + ([s[k]] + s[k + 1..]);
  }

  lemma SameMembers<E>(a: seq<E>, b: seq<E>)
    requires multiset(a) == multiset(b)
    ensures |a| == |b| && forall x :: x in a <==> x in b
  {
    assert |multiset(a)| == |a| && |multiset(b)| == |b|;
    forall x ensures x in a <==> x in b { assert x in multiset(a) <==> x in multiset(b); }
  }
}
