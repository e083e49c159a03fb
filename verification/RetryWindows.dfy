/**
 * How many retries a request is granted in a window, from the windows its attempts ask for.
 * A changed window resets the stored count, so what counts is how often, and how long, a window is asked for in a row.
 */
module RetryWindows {
  import opened Wrappers
  import opened AdmissionTables

  type pos = x: int | x > 0 witness 1

  /** A guard row after attempts without exemption in the given windows, in order. */
  function After(g: Guard, windows: seq<int>, limit: pos): Guard {
    if windows == [] then g
    else Attempt(After(g, windows[..|windows| - 1], limit), false, windows[|windows| - 1], limit).0
  }

  /** How many of those attempts were permitted in window w. */
  function Granted(g: Guard, windows: seq<int>, limit: pos, w: int): nat {
    if windows == [] then 0
    else
      var before := windows[..|windows| - 1];
      Granted(g, before, limit, w) +
      (if windows[|windows| - 1] == w && Attempt(After(g, before, limit), false, w, limit).1.permitted then 1 else 0)
  }

  /** How many entries a list starts with that ask for w. */
  function Leading(windows: seq<int>, w: int): (n: nat)
    ensures n <= |windows| && (n < |windows| ==> windows[n] != w)
    ensures forall i :: 0 <= i < n ==> windows[i] == w
  {
    if windows != [] && windows[0] == w then 1 + Leading(windows[1..], w) else 0
  }

  /** The lengths of the maximal contiguous blocks in which w is asked for, in order. */
  function Blocks(windows: seq<int>, w: int): seq<nat> {
    if windows == [] then []
    else if windows[0] != w then Blocks(windows[1..], w)
    else [Leading(windows, w)] + Blocks(windows[Leading(windows, w)..], w)
  }

  function Min(a: nat, b: nat): nat { if a <= b then a else b }

  /** Every block is granted up to the limit. */
  function Capped(blocks: seq<nat>, limit: nat): nat {
    if blocks == [] then 0 else Min(blocks[0], limit) + Capped(blocks[1..], limit)
  }

  /** Between two requests for w nothing else is asked for. */
  ghost predicate Contiguous(windows: seq<int>, w: int) {
    forall i, j, k :: 0 <= i <= j <= k < |windows| && windows[i] == w && windows[k] == w ==> windows[j] == w
  }

  // ---- the law ----

  lemma {:induction false} AttemptsCompose(g: Guard, a: seq<int>, b: seq<int>, limit: pos, w: int)
    ensures After(g, a + b, limit) == After(After(g, a, limit), b, limit)
    ensures Granted(g, a + b, limit, w) == Granted(g, a, limit, w) + Granted(After(g, a, limit), b, limit, w)
    decreases |b|
  {
    hide Attempt;
    if b == [] {
      assert a + b == a;
    } else {
      assert (a + b)[..|a + b| - 1] == a + b[..|b| - 1];
      AttemptsCompose(g, a, b[..|b| - 1], limit, w);
    }
  }

  function Times(w: int, n: nat): seq<int> { seq(n, i requires 0 <= i < n => w) }

  /** A window that starts empty grants up to the limit, however often it is asked for in a row. */
  lemma {:induction false} FillWindow(g: Guard, w: int, limit: pos, n: nat)
    requires CurrentRetries(g, w) == 0
    ensures Granted(g, Times(w, n), limit, w) == Min(n, limit)
    ensures CurrentRetries(After(g, Times(w, n), limit), w) == Min(n, limit)
    ensures n > 0 ==> After(g, Times(w, n), limit).window == Some(w)
  {
    if n == 0 {
    } else {
      assert Times(w, n)[..n - 1] == Times(w, n - 1);
      FillWindow(g, w, limit, n - 1);
    }
  }

  /** An attempt in another window leaves nothing of w's count. */
  lemma OtherResets(g: Guard, v: int, limit: pos, w: int)
    requires v != w
    ensures CurrentRetries(After(g, [v], limit), w) == 0 && Granted(g, [v], limit, w) == 0
  {
    assert [v][..0] == [];
    assert After(g, [], limit) == g;
  }

  /** The retries granted in a window are its blocks, each cut off at the limit. */
  lemma {:induction false} GrantedIsCapped(g: Guard, windows: seq<int>, limit: pos, w: int)
    requires windows != [] && windows[0] == w ==> CurrentRetries(g, w) == 0
    ensures Granted(g, windows, limit, w) == Capped(Blocks(windows, w), limit)
    decreases |windows|
  {
    hide Attempt, CurrentRetries, Granted, After;
    if windows == [] {
      NothingGranted(g, limit, w);
    } else if windows[0] != w {
      var rest := windows[1..];
      assert windows == [windows[0]] + rest;
      AttemptsCompose(g, [windows[0]], rest, limit, w);
      OtherResets(g, windows[0], limit, w);
      GrantedIsCapped(After(g, [windows[0]], limit), rest, limit, w);
    } else {
      var n := Leading(windows, w);
      var rest := windows[n..];
      assert windows == Times(w, n) + rest;
      AttemptsCompose(g, Times(w, n), rest, limit, w);
      FillWindow(g, w, limit, n);
      GrantedIsCapped(After(g, Times(w, n), limit), rest, limit, w);
      assert ([n] + Blocks(rest, w))[1..] == Blocks(rest, w);
    }
  }

  lemma NothingGranted(g: Guard, limit: pos, w: int)
    ensures Granted(g, [], limit, w) == 0
  {
  }

  lemma {:induction false} CappedByBlocks(blocks: seq<nat>, limit: nat)
    ensures Capped(blocks, limit) <= limit * |blocks|
  {
    if blocks == [] {
    } else {
      CappedByBlocks(blocks[1..], limit);
      assert limit * |blocks| == limit * |blocks[1..]| + limit;
    }
  }

  lemma {:induction false} BlocksArePositive(windows: seq<int>, w: int)
    ensures forall i :: 0 <= i < |Blocks(windows, w)| ==> Blocks(windows, w)[i] > 0
    decreases |windows|
  {
    if windows == [] {
    } else {
      if windows[0] != w {
        BlocksArePositive(windows[1..], w);
      } else {
        BlocksArePositive(windows[Leading(windows, w)..], w);
      }
    }
  }

  lemma {:induction false} NoBlock(windows: seq<int>, w: int)
    ensures Blocks(windows, w) == [] <==> forall i :: 0 <= i < |windows| ==> windows[i] != w
    decreases |windows|
  {
    if windows != [] && windows[0] != w {
      NoBlock(windows[1..], w);
      assert forall i :: 1 <= i < |windows| ==> windows[i] == windows[1..][i - 1];
    }
  }

  /** A window is asked for contiguously exactly when it has at most one block. */
  lemma {:induction false} ContiguousIsOneBlock(windows: seq<int>, w: int)
    ensures |Blocks(windows, w)| <= 1 <==> Contiguous(windows, w)
    decreases |windows|
  {
    if windows == [] {
    } else {
      if windows[0] != w {
        var rest := windows[1..];
        ContiguousIsOneBlock(rest, w);
        if Contiguous(rest, w) {
          forall i, j, k | 0 <= i <= j <= k < |windows| && windows[i] == w && windows[k] == w ensures windows[j] == w {
            assert rest[i - 1] == w && rest[k - 1] == w;
            assert windows[j] == rest[j - 1];
          }
        }
        if Contiguous(windows, w) {
          forall i, j, k | 0 <= i <= j <= k < |rest| && rest[i] == w && rest[k] == w ensures rest[j] == w {
            assert windows[i + 1] == w && windows[k + 1] == w;
            assert rest[j] == windows[j + 1];
          }
        }
      } else {
        FirstBlock(windows, w);
      }
    }
  }

  lemma FirstBlock(windows: seq<int>, w: int)
    requires windows != [] && windows[0] == w
    ensures |Blocks(windows, w)| <= 1 <==> Contiguous(windows, w)
  {
    var n := Leading(windows, w);
    var rest := windows[n..];
    NoBlock(rest, w);
    if Blocks(rest, w) != [] {
      var i :| 0 <= i < |rest| && rest[i] == w;
      assert windows[n + i] == w && windows[n] != w;
    }
  }

  /**
   * For a window whose count starts empty, the bound holds whatever the limit exactly when the window is asked for
   * contiguously.
   */
  lemma LimitHoldsIffContiguous(g: Guard, windows: seq<int>, w: int)
    requires CurrentRetries(g, w) == 0
    ensures (forall limit: pos :: Granted(g, windows, limit, w) <= limit) <==> Contiguous(windows, w)
  {
    hide Granted, Contiguous, Blocks, CurrentRetries;
    var blocks := Blocks(windows, w);
    ContiguousIsOneBlock(windows, w);
    if |blocks| <= 1 {
      forall limit: pos ensures Granted(g, windows, limit, w) <= limit {
        GrantedIsCapped(g, windows, limit, w);
        CappedByBlocks(blocks, limit);
        AtMostOnce(limit, |blocks|);
      }
    } else {
      GrantedIsCapped(g, windows, 1, w);
      TwoBlocks(windows, w);
      assert Granted(g, windows, 1, w) > 1;
    }
  }

  lemma AtMostOnce(a: nat, b: nat)
    requires b <= 1
    ensures a * b <= a
  {
  }

  lemma TwoBlocks(windows: seq<int>, w: int)
    requires |Blocks(windows, w)| > 1
    ensures Capped(Blocks(windows, w), 1) > 1
  {
    BlocksArePositive(windows, w);
    var blocks := Blocks(windows, w);
    assert Capped(blocks, 1) == 1 + Capped(blocks[1..], 1);
    assert blocks[1..][0] == blocks[1];
  }

  /** A window filled, left once and filled again has two blocks. */
  lemma BackAndForth(w: int, v: int, n: pos)
    requires v != w
    ensures Blocks(Times(w, n) + ([v] + Times(w, n)), w) == [n, n] && Capped([n, n], n) == 2 * n
  {
    var rest := [v] + Times(w, n);
    OneBlock(w, n, rest);
    assert rest[1..] == Times(w, n);
    OneBlock(w, n, []);
    assert Times(w, n) + [] == Times(w, n);
    assert [n, n][1..] == [n] && [n][1..] == [] && Capped([n], n) == n;
  }

  lemma OneBlock(w: int, n: pos, rest: seq<int>)
    requires rest == [] || rest[0] != w
    ensures Blocks(Times(w, n) + rest, w) == [n] + Blocks(rest, w)
  {
    LeadingTimes(w, n, rest);
    var windows := Times(w, n) + rest;
    assert windows[0] == w && windows[n..] == rest;
  }

  lemma {:induction false} LeadingTimes(w: int, n: nat, rest: seq<int>)
    requires rest == [] || rest[0] != w
    ensures Leading(Times(w, n) + rest, w) == n
  {
    if n == 0 {
      assert Times(w, n) + rest == rest;
    } else {
      assert (Times(w, n) + rest)[1..] == Times(w, n - 1) + rest;
      LeadingTimes(w, n - 1, rest);
    }
  }
}
