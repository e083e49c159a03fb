/** app.py: the bounded priority queue of one API key. */
module QueueGovernance {
  import opened Wrappers
  import opened Orders
  import opened Clock

  const RETAINED_ENTRIES := 25
  const DEFAULT_REGIME := "Stable"

  datatype Priority = High | Normal | Low
  {
    function Rank(): nat {
      match this
      case High => 0
      case Normal => 1
      case Low => 2
    }
  }

  datatype Config = Config(requestTtlSeconds: nat, expireOnRegimeChange: bool, expireOnEpochChange: bool)

  datatype Entry = Entry(requestId: string, priority: Priority, conflictKey: string, expiryAt: Option<Instant>,
                         regime: string, epoch: int, expireOnRegimeChange: bool, expireOnEpochChange: bool,
                         sequence: nat)

  datatype Request = Request(requestId: string, priority: Priority, conflictKey: string, at: Instant, epoch: int)

  datatype Report = Report(position: nat, batchReviewRequired: bool, conflictGroup: Option<string>,
      expiryAt: Option<Instant>)

  datatype State = State(entries: seq<Entry>, nextSequence: nat)

  const INITIAL := State([], 1)

  predicate Active(e: Entry, now: Instant, regime: string, epoch: int) {
    && !(e.expiryAt.Some? && e.expiryAt.value <= now)
    && !(e.expireOnRegimeChange && e.regime != regime)
    && !(e.expireOnEpochChange && e.epoch != epoch)
  }

  function ActiveEntries(entries: seq<Entry>, now: Instant, regime: string, epoch: int): seq<Entry> {
    if entries == [] then []
    else (if Active(entries[0], now, regime, epoch) then [entries[0]] else [])
         + ActiveEntries(entries[1..], now, regime, epoch)
  }

  function Newest(entries: seq<Entry>): seq<Entry> {
    if |entries| > RETAINED_ENTRIES then entries[|entries| - RETAINED_ENTRIES..] else entries
  }

  function Pruned(entries: seq<Entry>, r: Request): seq<Entry> {
    Newest(ActiveEntries(entries, r.at, DEFAULT_REGIME, r.epoch))
  }

  function Expiry(c: Config, r: Request): Option<Instant> {
    if c.requestTtlSeconds > 0 then Some(r.at + c.requestTtlSeconds * TICKS_PER_SECOND) else None
  }

  function Candidate(c: Config, r: Request, sequence: nat): Entry {
    Entry(r.requestId, r.priority, r.conflictKey, Expiry(c, r), DEFAULT_REGIME, r.epoch,
          c.expireOnRegimeChange, c.expireOnEpochChange, sequence)
  }

  function Codes(s: string): seq<int> { seq(|s|, i requires 0 <= i < |s| => s[i] as int) }

  /** The tuple (priority rank, sequence, request id). */
  function RankKey(): Entry -> seq<int> {
    (e: Entry) => [e.priority.Rank(), e.sequence] + Codes(e.requestId)
  }

  function Ordered(entries: seq<Entry>): seq<Entry> { SortBy(RankKey(), ByteStringLe(), entries) }

  function Enqueued(c: Config, s: State, r: Request): State {
    State(Pruned(s.entries, r) + [Candidate(c, r, s.nextSequence)], s.nextSequence + 1)
  }

  /** High before normal before low. */
  predicate Outranks(p: Priority, q: Priority) { (p.High? && !q.High?) || (p.Normal? && q.Low?) }

  /** What distinguishes the place ahead of an entry: higher priority, or the same priority and an earlier sequence. */
  predicate Ahead(e: Entry, of: Entry) {
    Outranks(e.priority, of.priority) || (e.priority == of.priority && e.sequence < of.sequence)
  }

  ghost predicate WellFormed(s: State) {
    && Increasing(s.entries)
    && (forall e :: e in s.entries ==> e.sequence < s.nextSequence)
  }

  class QueueGovernor {
    var entries: seq<Entry>
    var nextSequence: nat

    ghost function Contents(): State
      reads this
    {
      State(entries, nextSequence)
    }

    constructor ()
      ensures Contents() == INITIAL
    {
      entries, nextSequence := [], 1;
    }

    method Prune(now: Instant, regime: string, epoch: int)
      modifies this`entries
      ensures entries == Newest(ActiveEntries(old(entries), now, regime, epoch))
    {
      var active: seq<Entry> := [];
      for i := 0 to |entries|
        invariant entries == old(entries)
        invariant active + ActiveEntries(entries[i..], now, regime, epoch) == ActiveEntries(entries, now, regime, epoch)
      {
        if Active(entries[i], now, regime, epoch) { active := active + [entries[i]]; }
        assert entries[i..][1..] == entries[i + 1..];
      }
      entries := Newest(active);
    }

    /** Enqueues the request and reports its rank among the entries still live. */
    method Evaluate(c: Config, r: Request) returns (report: Report)
      requires WellFormed(Contents())
      modifies this
      ensures Contents() == Enqueued(c, old(Contents()), r) && WellFormed(Contents())
      ensures report.position == 1 + |AheadOf(entries, Candidate(c, r, old(nextSequence)))|
      ensures report.batchReviewRequired <==>
        exists e :: e in entries && e.sequence != old(nextSequence) && e.conflictKey == r.conflictKey
      ensures report.conflictGroup == if report.batchReviewRequired then Some(r.conflictKey) else None
      ensures report.expiryAt ==
        if c.requestTtlSeconds > 0 then Some(r.at + c.requestTtlSeconds * TICKS_PER_SECOND) else None
    {
      hide Increasing, AheadOf, ActiveEntries, Newest;
      EnqueueKeepsForm(c, Contents(), r);
      Prune(r.at, DEFAULT_REGIME, r.epoch);
      var candidate := Candidate(c, r, nextSequence);
      nextSequence := nextSequence + 1;
      entries := entries + [candidate];
      var index := PlaceOf(entries, candidate);
      var shared := SharesConflictKey(entries);
      report := Report(index + 1, shared, if shared then Some(r.conflictKey) else None, Expiry(c, r));
    }
  }

  ghost function AheadOf(entries: seq<Entry>, candidate: Entry): set<Entry> {
    set e | e in entries && Ahead(e, candidate)
  }

  /** The index of the candidate's sequence in the sorted queue. */
  method PlaceOf(entries: seq<Entry>, candidate: Entry) returns (index: nat)
    requires Increasing(entries)
    requires candidate in entries
    ensures index == |AheadOf(entries, candidate)|
  {
    var ordered := Ordered(entries);
    SortByIsSortOf(entries);
    hide Ordered, AheadOf, SortedBy;
    assert candidate in multiset(ordered);
    index := 0;
    while ordered[index].sequence != candidate.sequence
      invariant index < |ordered|
      invariant candidate in ordered[index..]
      decreases |ordered| - index
    {
      assert ordered[index..] == [ordered[index]] + ordered[index + 1..];
      index := index + 1;
    }
    assert ordered[index] in multiset(ordered);
    assert ordered[index] == candidate;
    PositionCountsAhead(entries, index);
  }

  /** Whether some other entry shares the newest entry's conflict key, found by counting all that do. */
  method SharesConflictKey(entries: seq<Entry>) returns (shared: bool)
    requires entries != [] && Increasing(entries)
    ensures var candidate := entries[|entries| - 1];
      shared <==> exists e :: e in entries && e.sequence != candidate.sequence && e.conflictKey == candidate.conflictKey
  {
    var last := |entries| - 1;
    var key := entries[last].conflictKey;
    var sharing := 0;
    for i := 0 to |entries|
      invariant sharing >= 0
      invariant i <= last ==> (sharing > 0 <==> exists k :: 0 <= k < i && entries[k].conflictKey == key)
      invariant i > last ==> (sharing > 1 <==> exists k :: 0 <= k < last && entries[k].conflictKey == key)
    {
      if entries[i].conflictKey == key { sharing := sharing + 1; }
    }
    shared := sharing > 1;
  }

  lemma SortByIsSortOf(entries: seq<Entry>)
    ensures SortedBy(RankKey(), ByteStringLe(), Ordered(entries))
    ensures multiset(Ordered(entries)) == multiset(entries) && |Ordered(entries)| == |entries|
  {
    ByteStringTotal();
    SortByIsSort(RankKey(), ByteStringLe(), entries);
  }

  lemma KeyOrder(a: Entry, b: Entry)
    requires a.sequence != b.sequence
    ensures LexLe(IntLe(), RankKey()(a), RankKey()(b)) <==> Ahead(a, b)
  {
    var ka, kb := RankKey()(a), RankKey()(b);
    assert ka[0] == a.priority.Rank() && kb[0] == b.priority.Rank();
    assert ka[1..][0] == a.sequence && kb[1..][0] == b.sequence;
    assert a.priority.Rank() == b.priority.Rank() ==> a.priority == b.priority;
  }

  ghost function Elements(s: seq<Entry>): set<Entry> { set e | e in s }

  lemma {:induction false} DistinctSize(s: seq<Entry>)
    requires forall i, j :: 0 <= i < j < |s| ==> s[i] != s[j]
    ensures |Elements(s)| == |s|
  {
    if s == [] {
    } else {
      var n := |s| - 1;
      DistinctSize(s[..n]);
      assert s == s[..n] + [s[n]];
      assert Elements(s) == Elements(s[..n]) + {s[n]};
    }
  }

  lemma DistinctInOrder(entries: seq<Entry>)
    requires forall i, j :: 0 <= i < j < |entries| ==> entries[i].sequence != entries[j].sequence
    ensures var o := Ordered(entries);
      forall i, j :: 0 <= i < j < |o| ==> o[i].sequence != o[j].sequence
  {
    var o := Ordered(entries);
    SortByIsSortOf(entries);
    forall i, j | 0 <= i < j < |o| ensures o[i].sequence != o[j].sequence {
      assert o[i] in multiset(o) && o[j] in multiset(o);
      if o[i].sequence == o[j].sequence {
        var k :| 0 <= k < |entries| && entries[k] == o[i];
        assert o[i] == o[j];
        RepeatCount(o, i, j);
        SingleCounts(entries, k);
      }
    }
  }

  lemma SingleCounts(s: seq<Entry>, k: nat)
    requires k < |s|
    requires forall i, j :: 0 <= i < j < |s| ==> s[i] != s[j]
    ensures multiset(s)[s[k]] == 1
  {
    assert s == s[..k] + [s[k]] + s[k + 1..];
    assert multiset(s) == multiset(s[..k]) + multiset{s[k]} + multiset(s[k + 1..]);
    assert s[k] !in s[..k] && s[k] !in s[k + 1..];
  }

  /** With distinct sequences, the place in the sorted queue is the number of entries ahead. */
  lemma PositionCountsAhead(entries: seq<Entry>, index: nat)
    requires forall i, j :: 0 <= i < j < |entries| ==> entries[i].sequence != entries[j].sequence
    requires index < |Ordered(entries)|
    ensures index == |AheadOf(entries, Ordered(entries)[index])|
  {
    var o := Ordered(entries);
    SortByIsSortOf(entries);
    DistinctInOrder(entries);
    DistinctSize(o[..index]);
    var ahead := AheadOf(entries, o[index]);
    forall e ensures e in ahead <==> e in Elements(o[..index]) {
      assert e in entries <==> e in multiset(o);
      if e in o {
        var k :| 0 <= k < |o| && o[k] == e;
        if k != index { KeyOrder(e, o[index]); KeyOrder(o[index], e); }
        assert k < index ==> e in o[..index];
        assert e in o[..index] ==> k < index;
      }
    }
    assert ahead == Elements(o[..index]);
  }

  lemma {:induction false} ActiveSubset(entries: seq<Entry>, now: Instant, regime: string, epoch: int, e: Entry)
    requires e in ActiveEntries(entries, now, regime, epoch)
    ensures e in entries
  {
    hide Active;
    if entries != [] && e != entries[0] { ActiveSubset(entries[1..], now, regime, epoch, e); }
  }

  lemma {:induction false} ActiveIncreasing(entries: seq<Entry>, now: Instant, regime: string, epoch: int)
    requires Increasing(entries)
    ensures Increasing(ActiveEntries(entries, now, regime, epoch))
  {
    hide Active;
    if entries == [] {
    } else {
      ActiveIncreasing(entries[1..], now, regime, epoch);
      var rest := ActiveEntries(entries[1..], now, regime, epoch);
      forall j | 0 <= j < |rest| ensures entries[0].sequence < rest[j].sequence {
        ActiveSubset(entries[1..], now, regime, epoch, rest[j]);
        var k :| 0 <= k < |entries[1..]| && entries[1..][k] == rest[j];
        assert entries[k + 1] == rest[j];
      }
    }
  }

  ghost predicate Increasing(entries: seq<Entry>) {
    forall i, j :: 0 <= i < j < |entries| ==> entries[i].sequence < entries[j].sequence
  }

  lemma NewestIncreasing(entries: seq<Entry>)
    requires Increasing(entries)
    ensures Increasing(Newest(entries)) && |Newest(entries)| <= RETAINED_ENTRIES
    ensures forall e :: e in Newest(entries) ==> e in entries
  {
    var d := |entries| - |Newest(entries)|;
    assert forall i :: 0 <= i < |Newest(entries)| ==> Newest(entries)[i] == entries[d + i];
  }

  lemma PrunedIncreasing(entries: seq<Entry>, r: Request)
    requires Increasing(entries)
    ensures Increasing(Pruned(entries, r)) && |Pruned(entries, r)| <= RETAINED_ENTRIES
    ensures forall e :: e in Pruned(entries, r) ==> e in entries
  {
    var active := ActiveEntries(entries, r.at, DEFAULT_REGIME, r.epoch);
    ActiveIncreasing(entries, r.at, DEFAULT_REGIME, r.epoch);
    hide Active, Newest, Increasing;
    NewestIncreasing(active);
    forall e | e in Pruned(entries, r) ensures e in entries {
      ActiveSubset(entries, r.at, DEFAULT_REGIME, r.epoch, e);
    }
  }

  /** A queue keeps distinct, increasing sequences below the next one to be given out. */
  lemma EnqueueKeepsForm(c: Config, s: State, r: Request)
    requires WellFormed(s)
    ensures WellFormed(Enqueued(c, s, r))
    ensures |Enqueued(c, s, r).entries| <= RETAINED_ENTRIES + 1
  {
    PrunedIncreasing(s.entries, r);
    hide Pruned;
  }

  // ---- whole runs under one configuration ----

  function After(c: Config, rs: seq<Request>): State {
    if rs == [] then INITIAL else Enqueued(c, After(c, rs[..|rs| - 1]), rs[|rs| - 1])
  }

  /**
   * Whatever the clock does: sequences stay distinct, increasing and below the next one, and the queue stays
   * bounded.
   */
  lemma {:induction false} RunKeepsForm(c: Config, rs: seq<Request>)
    ensures WellFormed(After(c, rs)) && After(c, rs).nextSequence == |rs| + 1
    ensures |After(c, rs).entries| <= 26
  {
    hide Enqueued;
    if rs == [] {
    } else {
      var init := rs[..|rs| - 1];
      RunKeepsForm(c, init);
      EnqueueKeepsForm(c, After(c, init), rs[|rs| - 1]);
      assert Enqueued(c, After(c, init), rs[|rs| - 1]).nextSequence == |rs| + 1 by {
        EnqueueCounts(c, After(c, init), rs[|rs| - 1]);
      }
    }
  }

  lemma EnqueueCounts(c: Config, s: State, r: Request)
    ensures Enqueued(c, s, r).nextSequence == s.nextSequence + 1
  {
  }

  ghost predicate ClockNondecreasing(rs: seq<Request>) { Nondecreasing(rs, (r: Request) => r.at) }

  /** Every request of the run as the entry it became. */
  ghost function History(c: Config, rs: seq<Request>): seq<Entry> {
    seq(|rs|, i requires 0 <= i < |rs| => Candidate(c, rs[i], i + 1))
  }

  /** Request i is still queued right after the last request of the run. */
  ghost predicate Live(c: Config, rs: seq<Request>, i: nat)
    requires i < |rs|
  {
    var n := |rs|;
    && n - i <= 26
    && (c.requestTtlSeconds > 0 ==> rs[n - 1].at < rs[i].at + c.requestTtlSeconds * TICKS_PER_SECOND)
    && (c.expireOnEpochChange ==> forall k :: i <= k < n ==> rs[k].epoch == rs[i].epoch)
  }

  lemma {:induction false} ActiveSuffix(entries: seq<Entry>, r: Request, k: nat)
    requires k <= |entries|
    requires forall i :: 0 <= i < k ==> !Active(entries[i], r.at, DEFAULT_REGIME, r.epoch)
    requires forall i :: k <= i < |entries| ==> Active(entries[i], r.at, DEFAULT_REGIME, r.epoch)
    ensures ActiveEntries(entries, r.at, DEFAULT_REGIME, r.epoch) == entries[k..]
  {
    if entries == [] {
    } else {
      ActiveSuffix(entries[1..], r, if k == 0 then 0 else k - 1);
      if k == 0 {
        assert entries == [entries[0]] + entries[1..];
      } else {
        assert entries[1..][k - 1..] == entries[k..];
      }
    }
  }

  lemma FirstActive(entries: seq<Entry>, r: Request) returns (k: nat)
    requires forall i, j :: 0 <= i <= j < |entries| && Active(entries[i], r.at, DEFAULT_REGIME, r.epoch) ==>
      Active(entries[j], r.at, DEFAULT_REGIME, r.epoch)
    ensures k <= |entries|
    ensures forall i :: 0 <= i < |entries| ==> (i >= k <==> Active(entries[i], r.at, DEFAULT_REGIME, r.epoch))
  {
    k := 0;
    while k < |entries| && !Active(entries[k], r.at, DEFAULT_REGIME, r.epoch)
      invariant k <= |entries|
      invariant forall i :: 0 <= i < k ==> !Active(entries[i], r.at, DEFAULT_REGIME, r.epoch)
    {
      k := k + 1;
    }
  }

  /** Pruning a suffix of the history leaves a shorter suffix. */
  lemma PrunedSuffix(c: Config, rs: seq<Request>, init: seq<Request>, queued: seq<Entry>) returns (k: nat)
    requires ClockNondecreasing(rs) && rs != [] && init == rs[..|rs| - 1]
    requires |queued| <= |init| && queued == History(c, init)[|init| - |queued|..]
    requires forall i :: 0 <= i < |init| ==> (i >= |init| - |queued| <==> Live(c, init, i))
    ensures k <= |queued| && Pruned(queued, rs[|rs| - 1]) == Newest(queued[k..])
    ensures forall i :: 0 <= i < |rs| ==>
      (Live(c, rs, i) <==> i >= |init| - |queued| + k && |rs| - i <= RETAINED_ENTRIES + 1)
  {
    var r := rs[|rs| - 1];
    var from := |init| - |queued|;
    assert forall i :: 0 <= i < |queued| ==> queued[i] == Candidate(c, rs[from + i], from + i + 1);
    hide Active, Live, Candidate;
    forall i, j | 0 <= i <= j < |queued| && Active(queued[i], r.at, DEFAULT_REGIME, r.epoch)
      ensures Active(queued[j], r.at, DEFAULT_REGIME, r.epoch)
    {
      ActiveSince(c, rs, from + i, from + j);
    }
    k := FirstActive(queued, r);
    ActiveSuffix(queued, r, k);
    PrunedLive(c, rs, init, queued, k);
  }

  lemma HistoryGrows(c: Config, rs: seq<Request>, init: seq<Request>, from: nat)
    requires rs != [] && init == rs[..|rs| - 1] && from <= |init|
    ensures History(c, init)[from..] + [Candidate(c, rs[|rs| - 1], |rs|)] == History(c, rs)[from..]
  {
  }

  ghost predicate IsLiveSuffix(c: Config, rs: seq<Request>, s: State) {
    && s.nextSequence == |rs| + 1 && |s.entries| <= |rs|
    && s.entries == History(c, rs)[|rs| - |s.entries|..]
    && (forall i :: 0 <= i < |rs| ==> (i >= |rs| - |s.entries| <==> Live(c, rs, i)))
  }

  lemma NewestOfSuffix(whole: seq<Entry>, from: nat, k: nat)
    requires from <= |whole| && k <= |whole[from..]|
    ensures var kept := Newest(whole[from..][k..]);
      |kept| <= |whole| && kept == whole[|whole| - |kept|..]
      && |kept| == if |whole| - from - k > RETAINED_ENTRIES then RETAINED_ENTRIES else |whole| - from - k
  {
    assert whole[from..][k..] == whole[from + k..];
  }

  lemma SuffixStep(c: Config, rs: seq<Request>, init: seq<Request>, s: State)
    requires ClockNondecreasing(rs) && rs != [] && init == rs[..|rs| - 1] && IsLiveSuffix(c, init, s)
    ensures IsLiveSuffix(c, rs, Enqueued(c, s, rs[|rs| - 1]))
  {
    hide Live, Candidate, Pruned, History, Newest;
    var from := |init| - |s.entries|;
    var k := PrunedSuffix(c, rs, init, s.entries);
    HistoryLength(c, init);
    NewestOfSuffix(History(c, init), from, k);
    HistoryGrows(c, rs, init, |init| - |Newest(s.entries[k..])|);
  }

  /**
   * With a nondecreasing clock the queue is a suffix of the request history: request i is still queued exactly when
   * at most 25 requests followed it, it has not expired, and (if configured) the epoch has not changed since.
   */
  lemma {:induction false} QueueIsLiveHistory(c: Config, rs: seq<Request>)
    requires ClockNondecreasing(rs)
    ensures IsLiveSuffix(c, rs, After(c, rs))
  {
    if rs == [] {
    } else {
      var init := rs[..|rs| - 1];
      QueueIsLiveHistory(c, init);
      SuffixStep(c, rs, init, After(c, init));
    }
  }

  lemma HistoryLength(c: Config, rs: seq<Request>)
    ensures |History(c, rs)| == |rs|
  {
  }

  lemma ActiveSince(c: Config, rs: seq<Request>, i: nat, j: nat)
    requires ClockNondecreasing(rs) && i <= j < |rs| - 1 && Live(c, rs[..|rs| - 1], i)
    requires var r := rs[|rs| - 1]; Active(Candidate(c, rs[i], i + 1), r.at, DEFAULT_REGIME, r.epoch)
    ensures var r := rs[|rs| - 1]; Active(Candidate(c, rs[j], j + 1), r.at, DEFAULT_REGIME, r.epoch)
  {
    assert rs[..|rs| - 1][j] == rs[j] && rs[i].at <= rs[j].at;
  }

  lemma PrunedLive(c: Config, rs: seq<Request>, init: seq<Request>, queued: seq<Entry>, k: nat)
    requires ClockNondecreasing(rs) && rs != [] && init == rs[..|rs| - 1]
    requires k <= |queued| <= |init| && queued == History(c, init)[|init| - |queued|..]
    requires forall i :: 0 <= i < |init| ==> (i >= |init| - |queued| <==> Live(c, init, i))
    requires forall i :: 0 <= i < |queued| ==>
      (i >= k <==> Active(queued[i], rs[|rs| - 1].at, DEFAULT_REGIME, rs[|rs| - 1].epoch))
    ensures forall i :: 0 <= i < |rs| ==>
      (Live(c, rs, i) <==> i >= |init| - |queued| + k && |rs| - i <= RETAINED_ENTRIES + 1)
  {
    var n := |rs| - 1;
    var from := n - |queued|;
    forall i | 0 <= i < |rs| ensures Live(c, rs, i) <==> i >= from + k && |rs| - i <= RETAINED_ENTRIES + 1 {
      if i < n {
        assert i >= from ==> queued[i - from] == Candidate(c, rs[i], i + 1);
        if Live(c, rs, i) {
          assert rs[n - 1].at <= rs[n].at;
          assert Live(c, init, i);
          assert rs[n].epoch == rs[i].epoch || !c.expireOnEpochChange;
        }
        if i >= from + k && |rs| - i <= RETAINED_ENTRIES + 1 {
          assert Live(c, init, i);
          if c.expireOnEpochChange {
            forall x | i <= x < |rs| ensures rs[x].epoch == rs[i].epoch {
              if x < n { assert init[x].epoch == init[i].epoch; }
            }
          }
        }
      }
    }
  }

  // ---- positions over whole runs ----

  /**
   * The still queued requests that rank before request j: those of higher priority, and the earlier ones of its
   * own.
   */
  ghost function LiveAhead(c: Config, rs: seq<Request>, j: nat): set<nat>
    requires j < |rs|
  {
    set i: nat | i < |rs| && Live(c, rs, i) && RanksBefore(rs, i, j)
  }

  predicate RanksBefore(rs: seq<Request>, i: nat, j: nat)
    requires i < |rs| && j < |rs|
  {
    Outranks(rs[i].priority, rs[j].priority) || (rs[i].priority == rs[j].priority && i < j)
  }

  ghost function AsEntry(c: Config, rs: seq<Request>, i: nat): Entry
    requires i < |rs|
  {
    Candidate(c, rs[i], i + 1)
  }

  /** The entries of different requests differ, so there are as many entries as requests. */
  lemma {:induction false} AsManyEntries(c: Config, rs: seq<Request>, ids: set<nat>)
    requires forall i :: i in ids ==> i < |rs|
    ensures |set i | i in ids :: AsEntry(c, rs, i)| == |ids|
    decreases |ids|
  {
    if ids == {} {
    } else {
      var x :| x in ids;
      var rest := ids - {x};
      AsManyEntries(c, rs, rest);
      var e := AsEntry(c, rs, x);
      assert forall i :: i in rest ==> AsEntry(c, rs, i).sequence != e.sequence;
      assert (set i | i in ids :: AsEntry(c, rs, i)) == (set i | i in rest :: AsEntry(c, rs, i)) + {e};
    }
  }

  /** The queue after a run holds exactly the live requests. */
  lemma QueuedIffLive(c: Config, rs: seq<Request>, e: Entry)
    requires ClockNondecreasing(rs)
    ensures e in After(c, rs).entries <==> exists i: nat :: i < |rs| && Live(c, rs, i) && AsEntry(c, rs, i) == e
  {
    hide After, Live, Candidate;
    QueueIsLiveHistory(c, rs);
    var q := After(c, rs).entries;
    var from := |rs| - |q|;
    assert forall k :: 0 <= k < |q| ==> q[k] == AsEntry(c, rs, from + k);
    if e in q {
      var k :| 0 <= k < |q| && q[k] == e;
      assert Live(c, rs, from + k) && AsEntry(c, rs, from + k) == e;
    }
    if i: nat :| i < |rs| && Live(c, rs, i) && AsEntry(c, rs, i) == e {
      assert q[i - from] == e;
    }
  }

  lemma AheadIsRanksBefore(c: Config, rs: seq<Request>, i: nat, j: nat)
    requires i < |rs| && j < |rs|
    ensures Ahead(AsEntry(c, rs, i), AsEntry(c, rs, j)) <==> RanksBefore(rs, i, j)
  {
  }

  lemma AheadAreLive(c: Config, rs: seq<Request>, j: nat)
    requires ClockNondecreasing(rs) && j < |rs|
    ensures AheadOf(After(c, rs).entries, AsEntry(c, rs, j)) == set i | i in LiveAhead(c, rs, j) :: AsEntry(c, rs, i)
  {
    hide After, Live, AsEntry, Ahead, RanksBefore;
    var mine := AsEntry(c, rs, j);
    var queue := After(c, rs).entries;
    forall e ensures e in AheadOf(queue, mine) <==> e in (set i | i in LiveAhead(c, rs, j) :: AsEntry(c, rs, i)) {
      QueuedIffLive(c, rs, e);
      forall i: nat | i < |rs| ensures Ahead(AsEntry(c, rs, i), mine) <==> RanksBefore(rs, i, j) {
        AheadIsRanksBefore(c, rs, i, j);
      }
    }
  }

  /**
   * With a nondecreasing clock a request that is still queued stands, in the ranking, behind exactly the requests of
   * the run that are still queued and have higher priority, or its own priority and came earlier.
   */
  lemma PositionInRun(c: Config, rs: seq<Request>, j: nat)
    requires ClockNondecreasing(rs) && j < |rs| && Live(c, rs, j)
    ensures exists index: nat ::
              Stands(Ordered(After(c, rs).entries), index, AsEntry(c, rs, j)) && index == |LiveAhead(c, rs, j)|
  {
    hide After, Live, AsEntry, Ordered, Ahead;
    var queue := After(c, rs).entries;
    var mine := AsEntry(c, rs, j);
    QueuedIffLive(c, rs, mine);
    SortByIsSortOf(queue);
    assert mine in multiset(Ordered(queue));
    var index :| 0 <= index < |Ordered(queue)| && Ordered(queue)[index] == mine;
    RunKeepsForm(c, rs);
    PositionCountsAhead(queue, index);
    AheadAreLive(c, rs, j);
    AsManyEntries(c, rs, LiveAhead(c, rs, j));
    assert Stands(Ordered(queue), index, mine);
  }

  ghost predicate Stands(ranking: seq<Entry>, index: nat, e: Entry) { index < |ranking| && ranking[index] == e }

  /**
   * What the last request of a run is told, with a nondecreasing clock: how many requests rank before it, and whether
   * an earlier one that is still queued has its conflict key.
   */
  lemma ReportInRun(c: Config, rs: seq<Request>)
    requires ClockNondecreasing(rs) && rs != []
    ensures var n, queue := |rs| - 1, After(c, rs).entries;
            queue == Enqueued(c, After(c, rs[..n]), rs[n]).entries &&
            |AheadOf(queue, Candidate(c, rs[n], n + 1))| == |LiveAhead(c, rs, n)| &&
            ((exists e :: e in queue && e.sequence != n + 1 && e.conflictKey == rs[n].conflictKey) <==>
              exists i: nat :: i < n && Live(c, rs, i) && rs[i].conflictKey == rs[n].conflictKey)
  {
    hide Live, Ahead, RanksBefore, Enqueued;
    var n, queue := |rs| - 1, After(c, rs).entries;
    AheadAreLive(c, rs, n);
    AsManyEntries(c, rs, LiveAhead(c, rs, n));
    forall e { QueuedIffLive(c, rs, e); }
    if i: nat :| i < n && Live(c, rs, i) && rs[i].conflictKey == rs[n].conflictKey {
      assert AsEntry(c, rs, i) in queue;
    }
  }
}
