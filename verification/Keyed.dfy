/** Dictionaries built from lists of items that carry their own id. */
module Keyed {
  import opened Wrappers
  import opened Orders

  /** None when two items share an id. */
  function Index<E>(items: seq<E>, idOf: E -> string): Option<map<string, E>> {
    if items == [] then Some(map[])
    else
      var rest := Index(items[..|items| - 1], idOf);
      var last := items[|items| - 1];
      if rest.None? || idOf(last) in rest.value then None else Some(rest.value[idOf(last) := last])
  }

  method IndexById<E>(items: seq<E>, idOf: E -> string) returns (r: Option<map<string, E>>)
    ensures r == Index(items, idOf)
  {
    var indexed: map<string, E> := map[];
    for i := 0 to |items|
      invariant Index(items[..i], idOf) == Some(indexed)
    {
      assert items[..i + 1][..i] == items[..i];
      if idOf(items[i]) in indexed {
        NoIndexOfMore(items, idOf, i + 1);
        return None;
      }
      indexed := indexed[idOf(items[i]) := items[i]];
    }
    assert items[..|items|] == items;
    return Some(indexed);
  }

  lemma {:induction false} NoIndexOfMore<E>(items: seq<E>, idOf: E -> string, n: nat)
    requires n <= |items| && Index(items[..n], idOf).None?
    ensures Index(items, idOf).None?
    decreases |items|
  {
    if n == |items| {
      assert items[..n] == items;
    } else {
      assert items[..|items| - 1][..n] == items[..n];
      NoIndexOfMore(items[..|items| - 1], idOf, n);
    }
  }

  ghost function IdSet<E>(items: seq<E>, idOf: E -> string): set<string> { set x | x in items :: idOf(x) }

  lemma {:induction false} IndexContents<E>(items: seq<E>, idOf: E -> string)
    ensures Index(items, idOf).Some? ==> forall x :: x in items ==>
              idOf(x) in Index(items, idOf).value && Index(items, idOf).value[idOf(x)] == x
    ensures Index(items, idOf).Some? ==> forall k :: k in Index(items, idOf).value ==>
              Index(items, idOf).value[k] in items && idOf(Index(items, idOf).value[k]) == k
    decreases |items|
  {
    if items == [] {
    } else {
      var rest, last := items[..|items| - 1], items[|items| - 1];
      IndexContents(rest, idOf);
      assert items == rest + [last];
    }
  }

  lemma IdSetAppend<E>(items: seq<E>, last: E, idOf: E -> string)
    ensures IdSet(items + [last], idOf) == IdSet(items, idOf) + {idOf(last)}
  {
  }

  lemma IndexKeys<E>(items: seq<E>, idOf: E -> string)
    ensures Index(items, idOf).Some? ==> Index(items, idOf).value.Keys == IdSet(items, idOf)
  {
    hide Index;
    IndexContents(items, idOf);
  }

  lemma {:induction false} IndexSize<E>(items: seq<E>, idOf: E -> string)
    ensures |IdSet(items, idOf)| <= |items|
    ensures Index(items, idOf).Some? <==> |IdSet(items, idOf)| == |items|
    decreases |items|
  {
    hide IdSet;
    if items == [] {
      NoIds(idOf);
    } else {
      var rest, last := items[..|items| - 1], items[|items| - 1];
      IndexSize(rest, idOf);
      IndexKeys(rest, idOf);
      assert items == rest + [last];
      IdSetAppend(rest, last, idOf);
    }
  }

  lemma NoIds<E>(idOf: E -> string)
    ensures IdSet([], idOf) == {}
  {
  }

  /** An index exists exactly when no id repeats, and then holds exactly the items. */
  lemma IndexIs<E>(items: seq<E>, idOf: E -> string)
    ensures Index(items, idOf).Some? <==> |IdSet(items, idOf)| == |items|
    ensures Index(items, idOf).Some? ==> Index(items, idOf).value.Keys == IdSet(items, idOf)
    ensures Index(items, idOf).Some? ==> forall x :: x in items ==>
              idOf(x) in Index(items, idOf).value && Index(items, idOf).value[idOf(x)] == x
    ensures Index(items, idOf).Some? ==> forall k :: k in Index(items, idOf).value ==>
              Index(items, idOf).value[k] in items && idOf(Index(items, idOf).value[k]) == k
  {
    hide Index, IdSet;
    IndexContents(items, idOf);
    IndexKeys(items, idOf);
    IndexSize(items, idOf);
  }

  /** The index does not depend on the order of the list. */
  lemma IndexIgnoresOrder<E>(a: seq<E>, b: seq<E>, idOf: E -> string)
    requires multiset(a) == multiset(b)
    ensures Index(a, idOf) == Index(b, idOf)
  {
    SameMembers(a, b);
    IndexIs(a, idOf);
    IndexIs(b, idOf);
    assert IdSet(a, idOf) == IdSet(b, idOf);
    if Index(a, idOf).Some? {
      var m, n := Index(a, idOf).value, Index(b, idOf).value;
      forall k | k in m ensures k in n && n[k] == m[k] { assert m[k] in b && idOf(m[k]) == k; }
      assert m.Keys == n.Keys;
      assert m == n;
    }
  }

  lemma {:induction false} IndexSeparates<E>(items: seq<E>, idOf: E -> string, i: nat, j: nat)
    requires Index(items, idOf).Some? && i < j < |items|
    ensures idOf(items[i]) != idOf(items[j])
    decreases |items|
  {
    var rest := items[..|items| - 1];
    if j == |items| - 1 {
      IndexIs(rest, idOf);
      assert rest[i] == items[i] && items[i] in rest;
    } else {
      IndexSeparates(rest, idOf, i, j);
    }
  }


  lemma {:induction false} IndexOfDistinct<E>(items: seq<E>, idOf: E -> string)
    ensures (forall i, j :: 0 <= i < j < |items| ==> idOf(items[i]) != idOf(items[j])) ==> Index(items, idOf).Some?
    decreases |items|
  {
    if items == [] {
    } else {
      var rest := items[..|items| - 1];
      IndexOfDistinct(rest, idOf);
      IndexIs(rest, idOf);
      if Index(rest, idOf).Some? && idOf(items[|items| - 1]) in Index(rest, idOf).value {
        var x := Index(rest, idOf).value[idOf(items[|items| - 1])];
        var i :| 0 <= i < |rest| && rest[i] == x;
        assert idOf(items[i]) == idOf(items[|items| - 1]);
      }
    }
  }
}
