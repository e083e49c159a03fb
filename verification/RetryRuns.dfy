/** Runs of the gate that ask for given retry windows, and which sequences of windows keep the retry limit. */
module RetryRuns {
  import opened Wrappers
  import opened RetailPayment
  import opened RetailLedger
  import opened AdmissionTables
  import opened AdmissionProtocol
  import opened RetryWindows
  import opened AdmissionRuns

  type Trace = t: seq<System> | t != [] witness [Start(Disabled)]

  function Last(t: Trace): System { t[|t| - 1] }

  /** A handler that is new in u has observed a time no earlier than any handler of s. */
  ghost predicate SpawnsLater(s: System, u: System) {
    forall i, k :: i in s.workers && k in u.workers && k !in s.workers ==> s.workers[i].job.at <= u.workers[k].job.at
  }

  /** The clock never goes back: every handler observes a time no earlier than the handlers before it. */
  ghost predicate ClockForward(t: seq<System>) {
    forall n {:trigger Moment(t, n)} :: 0 <= n < |t| - 1 ==> SpawnsLater(Moment(t, n), t[n + 1])
  }

  ghost predicate ForwardRun(cfg: Config, t: Trace) { IsRun(cfg, t) && ClockForward(t) }

  lemma Extend(cfg: Config, t: Trace, a: Action) returns (u: Trace)
    requires ForwardRun(cfg, t) && SpawnsLater(Last(t), Step(cfg, Last(t), a))
    ensures ForwardRun(cfg, u) && Last(u) == Step(cfg, Last(t), a)
  {
    hide Step, Start, SpawnsLater;
    u := t + [Step(cfg, Last(t), a)];
    forall i | 0 <= i < |u| - 1 ensures Follows(cfg, Moment(u, i), u[i + 1]) && SpawnsLater(Moment(u, i), u[i + 1]) {
      if i < |t| - 1 {
        RunNext(cfg, t, i);
        assert SpawnsLater(Moment(t, i), t[i + 1]);
      }
    }
  }

  /** A worker takes one undisturbed step. */
  lemma Go(cfg: Config, t: Trace, id: nat) returns (u: Trace)
    requires ForwardRun(cfg, t) && id in Last(t).workers
    ensures ForwardRun(cfg, u)
    ensures var s := Last(t);
            var r := Advance(cfg, s.tables, s.mode, s.workers[id].job, s.workers[id].pc, NoFault);
            Last(u) == System(r.0, s.mode, s.workers[id := s.workers[id].(pc := r.1)], Logged(s.log, id, r.2))
  {
    hide Advance, ForwardRun, Logged;
    u := Extend(cfg, t, Run(id, NoFault));
  }

  /** The request is admitted and bound. */
  ghost predicate Open(s: System, p: Prepared) {
    s.mode.ControlledProof? && Registered(s.tables, Job(p, 0, false)) &&
    p.RequestId() in s.tables.guards && s.tables.guards[p.RequestId()].source == p.source
  }

  predicate Servable(p: Prepared) { SupportedResource(p.resourceType) && Strip(p.subject) != "" }

  /** The steps of a retry up to its charge leave tables and log alone. */
  lemma RetryStarts(cfg: Config, s: System, p: Prepared, j: Job)
    requires Open(s, p) && Servable(p) && j.prepared == p
    ensures p.RequestId() in s.tables.requests && p.RequestId() in s.tables.guards
    ensures Look(s.tables, j, NoFault) == CheckingHealth(Some(s.tables.requests[p.RequestId()]))
    ensures AfterMode(cfg, s.mode, j, Some(s.tables.requests[p.RequestId()]), NoFault) == LookingForGuard
  {
    hide Strip;
  }

  ghost function With(s: System, id: nat, j: Job, pc: Pc): System { s.(workers := s.workers[id := Worker(j, pc)]) }

  /** A step without a charge, taken by the one worker that moves. */
  lemma GoOn(cfg: Config, t: Trace, s: System, id: nat, j: Job, pc: Pc, next: Pc) returns (u: Trace)
    requires ForwardRun(cfg, t) && Last(t) == With(s, id, j, pc) &&
             Advance(cfg, s.tables, s.mode, j, pc, NoFault) == (s.tables, next, None)
    ensures ForwardRun(cfg, u) && Last(u) == With(s, id, j, next)
  {
    hide Advance, ForwardRun;
    u := Go(cfg, t, id);
  }

  lemma RetryReachesCharge(cfg: Config, t: Trace, s: System, p: Prepared, j: Job, m: nat) returns (u: Trace)
    requires ForwardRun(cfg, t) && Last(t) == s && Open(s, p) && Servable(p) && j.prepared == p && !j.paid
    requires m !in s.workers && forall i :: i in s.workers ==> s.workers[i].job.at <= j.at
    ensures ForwardRun(cfg, u) && Last(u) == With(s, m, j, Attempting)
  {
    hide ForwardRun, Look, AfterMode, Registered, Strip;
    RetryStarts(cfg, s, p, j);
    var found := Some(s.tables.requests[p.RequestId()]);
    u := Extend(cfg, t, Spawn(m, p, j.at, false));
    u := GoOn(cfg, u, s, m, j, Looking, CheckingHealth(found));
    u := GoOn(cfg, u, s, m, j, CheckingHealth(found), CheckingMode(found));
    u := GoOn(cfg, u, s, m, j, CheckingMode(found), LookingForGuard);
    u := GoOn(cfg, u, s, m, j, LookingForGuard, Attempting);
  }

  /** What a retry's charge leaves: the request stays open, and one more window has been asked for. */
  lemma RetryCharges(cfg: Config, t: Tables, j: Job, log: seq<Entry>, id: nat)
    requires Registered(t, j) && !j.paid
    requires j.prepared.RequestId() in t.guards && t.guards[j.prepared.RequestId()].source == j.prepared.source
    ensures var r := Advance(cfg, t, ControlledProof, j, Attempting, NoFault);
            Registered(r.0, j) && j.prepared.RequestId() in r.0.guards &&
            r.0.guards[j.prepared.RequestId()].source == j.prepared.source &&
            Asked(Logged(log, id, r.2), j.prepared.RequestId()) ==
              Asked(log, j.prepared.RequestId()) + [WindowStart(j.at, cfg.windowSeconds)]
  {
    hide Asked, WindowStart, AfterAttempt;
    var charge := AttemptCharge(cfg, t, j, NoFault);
    AskedAppend(log, Entry(id, charge.value), j.prepared.RequestId());
  }

  lemma RetryOnce(cfg: Config, t: Trace, p: Prepared, id: nat, at: nat) returns (u: Trace)
    requires ForwardRun(cfg, t) && Open(Last(t), p) && id in Last(t).workers
    requires Last(t).workers[id] == Worker(Job(p, at, false), Attempting)
    ensures ForwardRun(cfg, u) && Open(Last(u), p)
    ensures Asked(Last(u).log, p.RequestId()) == Asked(Last(t).log, p.RequestId())
              + [WindowStart(at, cfg.windowSeconds)]
    ensures Last(u).workers.Keys == Last(t).workers.Keys
    ensures forall k :: k in Last(t).workers && k != id ==> Last(u).workers[k] == Last(t).workers[k]
  {
    hide ForwardRun, Advance, Asked, Logged, WindowStart;
    RetryCharges(cfg, Last(t).tables, Job(p, at, false), Last(t).log, id);
    u := Go(cfg, t, id);
  }

  /** Worker 0, who came at time 0, is the only one. */
  ghost predicate OnlyFirst(s: System) { s.workers.Keys == {0} && s.workers[0].job.at == 0 }

  /** The first admission of a request, in an empty store. */
  lemma AdmitFirst(cfg: Config, p: Prepared) returns (t: Trace)
    requires Servable(p)
    ensures ForwardRun(cfg, t) && Open(Last(t), p) && Asked(Last(t).log, p.RequestId()) == [] && OnlyFirst(Last(t))
  {
    hide Strip, ForwardRun, Advance;
    var j := Job(p, 0, false);
    var s := Start(ControlledProof);
    t := StartRun(cfg);
    t := Extend(cfg, t, Spawn(0, p, 0, false));
    FirstSteps(cfg, s.tables, j);
    t := GoOn(cfg, t, s, 0, j, Looking, CheckingHealth(None));
    t := GoOn(cfg, t, s, 0, j, CheckingHealth(None), CheckingMode(None));
    t := GoOn(cfg, t, s, 0, j, CheckingMode(None), Consuming);
    t := AdmitCharged(cfg, t, p, j);
  }

  lemma StartRun(cfg: Config) returns (t: Trace)
    ensures ForwardRun(cfg, t) && Last(t) == Start(ControlledProof)
  {
    hide Step;
    t := [Start(ControlledProof)];
  }

  lemma FirstSteps(cfg: Config, t: Tables, j: Job)
    requires t == Start(ControlledProof).tables && Servable(j.prepared)
    ensures Advance(cfg, t, ControlledProof, j, Looking, NoFault) == (t, CheckingHealth(None), None)
    ensures Advance(cfg, t, ControlledProof, j, CheckingHealth(None), NoFault) == (t, CheckingMode(None), None)
    ensures Advance(cfg, t, ControlledProof, j, CheckingMode(None), NoFault) == (t, Consuming, None)
  {
    hide Strip;
  }

  /** From the charge of the rate slot on, in tables that know no request and no guard. */
  lemma ChargedSteps(cfg: Config, t: Tables, j: Job, c: Charge)
    requires t.requests == map[] && t.digests == map[] && t.uris == map[] && t.guards == map[] && !j.paid &&
             Servable(j.prepared)
    ensures var r := Advance(cfg, t, ControlledProof, j, Consuming, NoFault);
            t.rates == map[] ==>
              r.1.NotingAdmission? && r.2 == Some(r.1.charge) && r.2.value.RateSlot? && r.0 == t.(rates := r.0.rates)
    ensures var r := Advance(cfg, t, ControlledProof, j, NotingAdmission(c), NoFault);
            r.1 == RecordingRequest(c) && r.2.None? && r.0 == t.(events := r.0.events)
    ensures var r := Advance(cfg, t, ControlledProof, j, RecordingRequest(c), NoFault);
            r.1 == BindingSource(c) && r.2.None? && Registered(r.0, j) && r.0.guards == map[]
  {
    hide Strip, Noted, WindowStart;
  }

  lemma BoundStep(cfg: Config, t: Tables, j: Job, c: Charge)
    requires Registered(t, j) && t.guards == map[] && !j.paid
    ensures var r := Advance(cfg, t, ControlledProof, j, BindingSource(c), NoFault);
            r.1 == Passed(c) && r.2.None? && Registered(r.0, j) && j.prepared.RequestId() in r.0.guards &&
            r.0.guards[j.prepared.RequestId()].source == j.prepared.source
  {
  }

  lemma AdmitCharged(cfg: Config, t: Trace, p: Prepared, j: Job) returns (u: Trace)
    requires ForwardRun(cfg, t) && Servable(p) && j == Job(p, 0, false) &&
             Last(t) == With(Start(ControlledProof), 0, j, Consuming)
    ensures ForwardRun(cfg, u) && Open(Last(u), p) && Asked(Last(u).log, p.RequestId()) == [] && OnlyFirst(Last(u))
  {
    hide ForwardRun, Advance, Strip, Servable, Asked;
    u := Go(cfg, t, 0);
    ChargedSteps(cfg, Last(t).tables, j, Prepaid(""));
    var c := Last(u).workers[0].pc.charge;
    SlotAsksNothing(Last(u).log, c, p.RequestId());
    var s := Last(u);
    ChargedSteps(cfg, s.tables, j, c);
    u := Go(cfg, u, 0);
    ChargedSteps(cfg, Last(u).tables, j, c);
    u := Go(cfg, u, 0);
    BoundStep(cfg, Last(u).tables, j, c);
    u := Go(cfg, u, 0);
  }

  lemma SlotAsksNothing(log: seq<Entry>, c: Charge, request: string)
    ensures c.RateSlot? && log == [Entry(0, c)] ==> Asked(log, request) == []
  {
    if c.RateSlot? && log == [Entry(0, c)] {
      assert log[..0] == [];
      assert Asked([], request) == [];
    }
  }

  /** The windows a clock can observe. */
  ghost predicate Observable(cfg: Config, windows: seq<nat>) {
    forall i :: 0 <= i < |windows| ==> windows[i] == WindowStart(windows[i], cfg.windowSeconds)
  }

  /** Exactly the handlers of these attempts have come, besides worker 0, and are about to be charged. */
  ghost predicate Gathered(s: System, p: Prepared, windows: seq<nat>, ids: set<nat>)
    requires forall i :: i in ids ==> i < |windows|
  {
    0 in s.workers && s.workers[0].job.at == 0 &&
    (forall k :: k in s.workers && k != 0 ==> k - 1 in ids) &&
    forall i :: i in ids ==> Waits(s, p, i + 1, windows[i])
  }

  ghost predicate Waits(s: System, p: Prepared, id: nat, at: nat) {
    id in s.workers && s.workers[id] == Worker(Job(p, at, false), Attempting)
  }

  lemma {:induction false} LatestOf(windows: seq<nat>, ids: set<nat>) returns (x: nat)
    requires ids != {} && forall i :: i in ids ==> i < |windows|
    ensures x in ids && forall i :: i in ids ==> windows[i] <= windows[x]
    decreases |ids|
  {
    x :| x in ids;
    if ids != {x} {
      var y := LatestOf(windows, ids - {x});
      if windows[x] < windows[y] { x := y; }
    }
  }

  lemma StillOpen(s: System, p: Prepared, id: nat, j: Job, pc: Pc)
    requires Open(s, p)
    ensures Open(With(s, id, j, pc), p)
  {
  }

  /** The handlers of all attempts come in the order of the times they observe, and none is charged yet. */
  lemma {:induction false} Gather(cfg: Config, p: Prepared, windows: seq<nat>, ids: set<nat>) returns (t: Trace)
    requires Servable(p) && forall i :: i in ids ==> i < |windows|
    ensures ForwardRun(cfg, t) && Open(Last(t), p) && Asked(Last(t).log, p.RequestId()) == []
    ensures Gathered(Last(t), p, windows, ids)
    decreases |ids|
  {
    hide ForwardRun, Asked, Open, Servable;
    if ids == {} {
      t := AdmitFirst(cfg, p);
    } else {
      var x := LatestOf(windows, ids);
      t := Gather(cfg, p, windows, ids - {x});
      var s := Last(t);
      forall i | i in s.workers ensures s.workers[i].job.at <= windows[x] {
        if i != 0 { assert Waits(s, p, (i - 1) + 1, windows[i - 1]); }
      }
      t := RetryReachesCharge(cfg, t, s, p, Job(p, windows[x], false), x + 1);
      StillOpen(s, p, x + 1, Job(p, windows[x], false), Attempting);
      forall i | i in ids ensures Waits(Last(t), p, i + 1, windows[i]) {
        if i != x { assert Waits(s, p, i + 1, windows[i]); }
      }
    }
  }

  /** Then they are charged in the order of the list, whatever the times they observed. */
  lemma {:induction false} Charge(cfg: Config, p: Prepared, windows: seq<nat>, k: nat) returns (t: Trace)
    requires Servable(p) && Observable(cfg, windows) && k <= |windows|
    ensures ForwardRun(cfg, t) && Open(Last(t), p) && Asked(Last(t).log, p.RequestId()) == windows[..k]
    ensures forall i :: k <= i < |windows| ==> Waits(Last(t), p, i + 1, windows[i])
  {
    hide ForwardRun, Asked, Open, WindowStart, Servable;
    if k == 0 {
      var ids := set i: nat {:trigger windows[i]} | i < |windows|;
      t := Gather(cfg, p, windows, ids);
      assert forall i :: 0 <= i < |windows| ==> i in ids;
    } else {
      t := Charge(cfg, p, windows, k - 1);
      assert Waits(Last(t), p, (k - 1) + 1, windows[k - 1]);
      var u := RetryOnce(cfg, t, p, k, windows[k - 1]);
      forall i | k <= i < |windows| ensures Waits(Last(u), p, i + 1, windows[i]) {
        assert Waits(Last(t), p, i + 1, windows[i]);
      }
      assert windows[..k] == windows[..k - 1] + [windows[k - 1]];
      t := u;
    }
  }

  /** Whatever windows a request is to ask for, in whatever order, some run under a forward clock asks for them. */
  lemma RunAsking(cfg: Config, p: Prepared, windows: seq<nat>) returns (t: Trace)
    requires Servable(p) && Observable(cfg, windows)
    ensures IsRun(cfg, t) && ClockForward(t) && Asked(Last(t).log, p.RequestId()) == windows
  {
    hide IsRun, ClockForward, Asked, Open;
    t := Charge(cfg, p, windows, |windows|);
    assert windows[..|windows|] == windows;
  }

  /** The retry bound of one window, for one run that asks for the given windows. */
  ghost predicate BoundedAsking(cfg: Config, t: Trace, request: string, windows: seq<nat>, w: int) {
    IsRun(cfg, t) && Asked(Last(t).log, request) == windows ==>
      CountOf(Last(t).log, TakesRetry(request, w)) <= cfg.retries
  }

  /**
   * Which sequences of asked windows are safe: whatever the limit, no run that asks for them exceeds it in w, exactly
   * when w is asked for contiguously. A clock that never goes back does not help: windows are asked for in the order
   * the guard's transactions commit, which racing handlers can reach in any order.
   */
  lemma BoundHoldsIffContiguous(cfg: Config, p: Prepared, windows: seq<nat>, w: int)
    requires Servable(p) && Observable(cfg, windows)
    ensures (forall limit: pos, t: Trace :: BoundedAsking(cfg.(retries := limit), t, p.RequestId(), windows, w)) <==>
              Contiguous(windows, w)
    ensures (forall limit: pos, t: Trace ::
               ClockForward(t) ==> BoundedAsking(cfg.(retries := limit), t, p.RequestId(), windows, w)) <==>
              Contiguous(windows, w)
  {
    hide BoundedAsking, Contiguous, Servable, ClockForward;
    if Contiguous(windows, w) {
      forall limit: pos, t: Trace ensures BoundedAsking(cfg.(retries := limit), t, p.RequestId(), windows, w) {
        ContiguousIsBounded(cfg.(retries := limit), t, p.RequestId(), windows, w);
      }
    } else {
      var t := UnboundedRun(cfg.(retries := 1), p, windows, w);
      assert !BoundedAsking(cfg.(retries := 1), t, p.RequestId(), windows, w);
    }
  }

  lemma ContiguousIsBounded(cfg: Config, t: Trace, request: string, windows: seq<nat>, w: int)
    requires Contiguous(windows, w)
    ensures BoundedAsking(cfg, t, request, windows, w)
  {
    hide IsRun, Asked, CountOf, Contiguous;
    if IsRun(cfg, t) && Asked(Last(t).log, request) == windows { RetriesWithinLimit(cfg, t, |t| - 1, request, w); }
  }

  lemma UnboundedRun(cfg: Config, p: Prepared, windows: seq<nat>, w: int) returns (t: Trace)
    requires Servable(p) && Observable(cfg, windows) && cfg.retries == 1 && !Contiguous(windows, w)
    ensures ClockForward(t) && !BoundedAsking(cfg, t, p.RequestId(), windows, w)
  {
    hide IsRun, ClockForward, Asked, CountOf, Contiguous, Servable, Blocks, Capped;
    t := RunAsking(cfg, p, windows);
    RetriesAreBlocks(cfg, t, |t| - 1, p.RequestId(), w);
    ContiguousIsOneBlock(windows, w);
    TwoBlocks(windows, w);
  }

  /**
   * Whatever the limit, and though the clock never goes back, handlers that race to the guard get twice the limit in a
   * window: one that observed another window is charged between those that fill it and those that fill it again.
   */
  lemma RacingHandlersRetryMore(cfg: Config, p: Prepared, w: nat, v: nat) returns (t: Trace)
    requires Servable(p) && v != w && Observable(cfg, [w, v])
    ensures IsRun(cfg, t) && ClockForward(t)
    ensures CountOf(Last(t).log, TakesRetry(p.RequestId(), w)) == 2 * cfg.retries
  {
    hide IsRun, ClockForward, Asked, CountOf, Servable, Blocks, Capped;
    var windows: seq<nat> := Times(w, cfg.retries) + ([v] + Times(w, cfg.retries));
    assert [w, v][0] == w && [w, v][1] == v;
    t := RunAsking(cfg, p, windows);
    RetriesAreBlocks(cfg, t, |t| - 1, p.RequestId(), w);
    BackAndForth(w, v, cfg.retries);
  }
}
