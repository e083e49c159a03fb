/** What holds of every run of the admission protocol, over all interleavings, faults and crashes. */
module AdmissionRuns {
  import opened Wrappers
  import opened RetailPayment
  import opened RetailLedger
  import opened AdmissionTables
  import opened RetryWindows
  import opened AdmissionProtocol

  lemma RunNext(cfg: Config, t: seq<System>, n: nat)
    requires IsRun(cfg, t) && n + 1 < |t|
    ensures Follows(cfg, t[n], t[n + 1])
  {
    hide Step, Start;
    assert Moment(t, n) == t[n];
  }

  lemma RunStarts(cfg: Config, t: seq<System>)
    requires IsRun(cfg, t)
    ensures Inv(cfg, t[0]) && AllBound(t[0]) && NoticesOk(cfg, t[0].tables, t[0].log)
  {
    hide Inv, Step;
    var mode :| t[0] == Start(mode);
    StartInv(cfg, mode);
  }

  lemma FollowsKeeps(cfg: Config, s: System, u: System)
    requires Follows(cfg, s, u)
    ensures Inv(cfg, s) ==> Inv(cfg, u)
    ensures Inv(cfg, s) && NoticesOk(cfg, s.tables, s.log) ==> NoticesOk(cfg, u.tables, u.log)
    ensures AllBound(s) ==> AllBound(u) && Keeps(s.tables, u.tables)
  {
    hide Inv, Step, AllBound, Keeps, NoticesOk;
    RatesAside(s.tables, s.tables);
    if u != s {
      var a :| u == Step(cfg, s, a);
      if Inv(cfg, s) {
        StepKeeps(cfg, s, a);
        if NoticesOk(cfg, s.tables, s.log) { StepKeepsNotices(cfg, s, a); }
      }
      if AllBound(s) { StepBinds(cfg, s, a); }
    }
  }

  /** Every state of every run satisfies the invariants. */
  lemma {:induction false} RunKeeps(cfg: Config, t: seq<System>, n: nat)
    requires IsRun(cfg, t) && n < |t|
    ensures Inv(cfg, t[n]) && AllBound(t[n]) && NoticesOk(cfg, t[n].tables, t[n].log)
  {
    hide Inv, AllBound, NoticesOk, Follows, IsRun, Keeps;
    if n == 0 {
      RunStarts(cfg, t);
    } else {
      RunKeeps(cfg, t, n - 1);
      RunNext(cfg, t, n - 1);
      FollowsKeeps(cfg, t[n - 1], t[n]);
    }
  }

  // ---- what holds of every run ----

  /** In every window a subject's slots for a resource are as many as the stored count, and at most the limit. */
  lemma RateNeverExceeded(cfg: Config, t: seq<System>, n: nat, key: RateKey)
    requires IsRun(cfg, t) && n < |t|
    ensures CountOf(t[n].log, TakesRate(key)) == RateCount(t[n].tables.rates, key) <= MostSlots(cfg, key.resourceType)
  {
    hide IsRun, GuardsOk, SlotsOk, WorkersOk, CountOf, AllBound;
    RunKeeps(cfg, t, n);
    assert RateOk(cfg, t[n].tables.rates, t[n].log, key);
  }

  /** The configured limit of a resource; other resources have no slots. */
  ghost function MostSlots(cfg: Config, resourceType: string): nat {
    if resourceType == "state_ping" then cfg.statePing
    else if resourceType == "context_delta" then cfg.contextDelta
    else 0
  }

  lemma WindowOfSpan(at: int, from: int, seconds: pos)
    requires 0 <= from <= at <= from + seconds
    ensures at - at % seconds == from - from % seconds || at - at % seconds == from - from % seconds + seconds
  {
    var q, r := from / seconds, from % seconds;
    var p, t := at / seconds, at % seconds;
    assert from == q * seconds + r && at == p * seconds + t;
    Quotients(p, t, q, r, seconds);
  }

  lemma Multiples(a: int, b: int, seconds: pos)
    ensures a <= b ==> a * seconds <= b * seconds
  {
  }

  lemma Quotients(p: int, t: int, q: int, r: int, seconds: pos)
    requires 0 <= t < seconds && 0 <= r < seconds
    requires q * seconds + r <= p * seconds + t <= q * seconds + r + seconds
    ensures p * seconds == q * seconds || p * seconds == q * seconds + seconds
  {
    Multiples(p, q - 1, seconds);
    Multiples(q + 2, p, seconds);
    assert p == q || p == q + 1;
  }

  lemma {:induction false} SpanCoveredByTwo(cfg: Config, log: seq<Entry>, subject: string, resourceType: string,
      from: nat)
    requires SlotsOk(cfg, log)
    ensures var first := WindowStart(from, cfg.windowSeconds);
            CountOf(log, TakesInSpan(subject, resourceType, from, from + cfg.windowSeconds)) <=
            CountOf(log, TakesRate(RateKey(subject, resourceType, first))) +
            CountOf(log, TakesRate(RateKey(subject, resourceType, first + cfg.windowSeconds)))
    decreases |log|
  {
    if log == [] {
    } else {
      var before := log[..|log| - 1];
      forall i | 0 <= i < |before| ensures SlotOk(cfg, before, i) {
        assert before[..i] == log[..i];
        assert SlotOk(cfg, log, i);
      }
      SpanCoveredByTwo(cfg, before, subject, resourceType, from);
      assert SlotOk(cfg, log, |log| - 1);
      var c := log[|log| - 1].charge;
      if c.RateSlot? && from <= c.at <= from + cfg.windowSeconds { WindowOfSpan(c.at, from, cfg.windowSeconds); }
    }
  }

  /** Any closed span of one window length charges a subject at most twice the limit for a resource. */
  lemma SpanAdmitsTwiceLimit(cfg: Config, t: seq<System>, n: nat, subject: string, resourceType: string, from: nat)
    requires IsRun(cfg, t) && n < |t|
    ensures CountOf(t[n].log, TakesInSpan(subject, resourceType, from, from + cfg.windowSeconds)) <=
            2 * MostSlots(cfg, resourceType)
  {
    hide IsRun, RatesOk, GuardsOk, WorkersOk, SlotsOk, CountOf, MostSlots, WindowStart, AllBound;
    RunKeeps(cfg, t, n);
    var first := WindowStart(from, cfg.windowSeconds);
    RateNeverExceeded(cfg, t, n, RateKey(subject, resourceType, first));
    RateNeverExceeded(cfg, t, n, RateKey(subject, resourceType, first + cfg.windowSeconds));
    SpanCoveredByTwo(cfg, t[n].log, subject, resourceType, from);
  }

  /** A worker that passes has been charged exactly once, for itself; one that has not passed, at most once. */
  lemma PassIsChargedOnce(cfg: Config, t: seq<System>, n: nat, id: nat)
    requires IsRun(cfg, t) && n < |t| && id in t[n].workers
    ensures CountOf(t[n].log, ChargesTo(id)) <= 1
    ensures var w := t[n].workers[id];
            Carries(w.pc) ==>
              CountOf(t[n].log, ChargesTo(id)) == 1 && Entry(id, w.pc.charge) in t[n].log &&
              OwnCharge(cfg, w.job, w.pc.charge)
  {
    hide IsRun, RatesOk, GuardsOk, SlotsOk, CountOf, Fits, OwnCharge, AllBound;
    RunKeeps(cfg, t, n);
    if Carries(t[n].workers[id].pc) { FitsIsOwn(cfg, t[n].workers[id].job, t[n].workers[id].pc.charge); }
  }

  /** A charge of the job's own request: a slot or retry of the window it asks in, or its continuation if it pays. */
  ghost predicate OwnCharge(cfg: Config, j: Job, c: Charge) {
    var window := j.at - j.at % cfg.windowSeconds;
    (c.RateSlot? && c.key == RateKey(j.prepared.subject, j.prepared.resourceType, window) && c.at == j.at &&
     1 <= c.number <= MostSlots(cfg, j.prepared.resourceType)) ||
    (c.Exemption? && c.request == j.prepared.RequestId() && j.paid) ||
    (c.RetrySlot? && c.request == j.prepared.RequestId() && c.window == window && 1 <= c.count <= cfg.retries)
  }

  lemma FitsIsOwn(cfg: Config, j: Job, c: Charge)
    requires Fits(cfg, j, c)
    ensures OwnCharge(cfg, j, c)
  {
  }

  /** Two workers that carry the rate capability for one key hold different numbered slots of that key. */
  lemma SlotsAreOwn(cfg: Config, t: seq<System>, n: nat, i: nat, k: nat)
    requires IsRun(cfg, t) && n < |t|
    requires var w := t[n].workers;
             i in w && k in w && i != k && Carries(w[i].pc) && Carries(w[k].pc) && w[i].pc.charge.RateSlot? &&
             w[k].pc.charge.RateSlot?
    ensures var w := t[n].workers;
            w[i].pc.charge.key == w[k].pc.charge.key ==> w[i].pc.charge.number != w[k].pc.charge.number
  {
    hide IsRun, RatesOk, GuardsOk, CountOf, Fits, AllBound;
    var s := t[n];
    RunKeeps(cfg, t, n);
    var p :| 0 <= p < |s.log| && s.log[p] == Entry(i, s.workers[i].pc.charge);
    var q :| 0 <= q < |s.log| && s.log[q] == Entry(k, s.workers[k].pc.charge);
    assert SlotOk(cfg, s.log, p) && SlotOk(cfg, s.log, q);
    if p < q {
      CountBefore(s.log, p, q, s.workers[i].pc.charge.key);
    } else {
      CountBefore(s.log, q, p, s.workers[i].pc.charge.key);
    }
  }

  lemma {:induction false} CountBefore(log: seq<Entry>, m: nat, n: nat, key: RateKey)
    requires m <= n <= |log|
    ensures CountOf(log[..m], TakesRate(key)) <= CountOf(log[..n], TakesRate(key))
    ensures m < n && TakesRate(key)(log[m]) ==> CountOf(log[..m], TakesRate(key)) < CountOf(log[..n], TakesRate(key))
    decreases n
  {
    if m == n {
    } else {
      assert log[..n][..n - 1] == log[..n - 1];
      CountBefore(log, m, n - 1, key);
    }
  }

  /** The continuation exemption of a request is used at most once ever, counting a payment sent with its first pass. */
  lemma ContinuationUsedOnce(cfg: Config, t: seq<System>, n: nat, request: string)
    requires IsRun(cfg, t) && n < |t|
    ensures CountOf(t[n].log, UsesContinuation(request)) <= 1
  {
    hide IsRun, RatesOk, SlotsOk, WorkersOk, CountOf, Asked, RetriesOk, Tracks, AllBound;
    RunKeeps(cfg, t, n);
    assert GuardOk(cfg.retries, GuardRow(t[n].tables.guards, request), t[n].log, request);
  }

  /**
   * The retries a request is granted in a window are what the windows it asked for allow: for every contiguous block of
   * requests for the window, as many as it is long, up to retry_limit.
   */
  lemma RetriesAreBlocks(cfg: Config, t: seq<System>, n: nat, request: string, window: int)
    requires IsRun(cfg, t) && n < |t|
    ensures var blocks := Blocks(Asked(t[n].log, request), window);
            CountOf(t[n].log, TakesRetry(request, window)) == Capped(blocks, cfg.retries) <= cfg.retries * |blocks|
  {
    hide IsRun, RatesOk, SlotsOk, WorkersOk, CountOf, Asked, Tracks, Granted, AllBound, NoticesOk;
    RunKeeps(cfg, t, n);
    assert GuardOk(cfg.retries, GuardRow(t[n].tables.guards, request), t[n].log, request);
    assert RetriesOk(cfg.retries, t[n].log, request, window);
    GrantedIsCapped(UNCOUNTED, Asked(t[n].log, request), cfg.retries, window);
    CappedByBlocks(Blocks(Asked(t[n].log, request), window), cfg.retries);
  }

  /** A window that is asked for contiguously, in the order the guard commits, grants at most retry_limit retries. */
  lemma RetriesWithinLimit(cfg: Config, t: seq<System>, n: nat, request: string, window: int)
    requires IsRun(cfg, t) && n < |t| && Contiguous(Asked(t[n].log, request), window)
    ensures CountOf(t[n].log, TakesRetry(request, window)) <= cfg.retries
  {
    hide IsRun, CountOf, Contiguous, Asked, Blocks;
    var asked := Asked(t[n].log, request);
    RetriesAreBlocks(cfg, t, n, request, window);
    ContiguousIsOneBlock(asked, window);
    AtMostOnce(cfg.retries, |Blocks(asked, window)|);
  }

  /** When attempts commit in the order of the windows they observed, every window grants at most retry_limit. */
  lemma OrderedRetriesWithinLimit(cfg: Config, t: seq<System>, n: nat, request: string, window: int)
    requires IsRun(cfg, t) && n < |t|
    requires var asked := Asked(t[n].log, request); forall i, k :: 0 <= i <= k < |asked| ==> asked[i] <= asked[k]
    ensures CountOf(t[n].log, TakesRetry(request, window)) <= cfg.retries
  {
    hide IsRun, CountOf, Asked;
    assert Contiguous(Asked(t[n].log, request), window);
    RetriesWithinLimit(cfg, t, n, request, window);
  }

  // ---- requests and sources ----

  /** Between two moments of a run no request record and no source binding changes. */
  lemma {:induction false} RunBinds(cfg: Config, t: seq<System>, m: nat, n: nat)
    requires IsRun(cfg, t) && m <= n < |t|
    ensures Keeps(t[m].tables, t[n].tables)
    decreases n - m
  {
    hide IsRun, Inv, AllBound, Keeps, Follows;
    if m == n {
      RatesAside(t[m].tables, t[m].tables);
    } else {
      RunBinds(cfg, t, m, n - 1);
      RunKeeps(cfg, t, n - 1);
      RunNext(cfg, t, n - 1);
      FollowsKeeps(cfg, t[n - 1], t[n]);
      KeepsTransitive(t[m].tables, t[n - 1].tables, t[n].tables);
    }
  }

  /**
   * All passes of one request are for the same digest, subject, resource and source binding, and once a pass carried
   * payment its continuation is used for good, so no later pass of the request is exempt.
   */
  lemma PassesAgree(cfg: Config, t: seq<System>, n: nat, i: nat, k: nat)
    requires IsRun(cfg, t) && n < |t|
    requires var w := t[n].workers;
             i in w && k in w && w[i].pc.Passed? && w[k].pc.Passed? &&
             w[i].job.prepared.RequestId() == w[k].job.prepared.RequestId()
    ensures var s := t[n];
            s.workers[i].job.prepared == s.workers[k].job.prepared &&
            (s.workers[i].job.paid ==>
               s.workers[i].job.prepared.RequestId() in s.tables.guards &&
               s.tables.guards[s.workers[i].job.prepared.RequestId()].continuationUsed)
  {
    hide IsRun, Inv;
    RunKeeps(cfg, t, n);
    assert Bound(t[n].tables, t[n].workers[i].job, t[n].workers[i].pc);
    assert Bound(t[n].tables, t[n].workers[k].job, t[n].workers[k].pc);
  }

  /** A request's source binding never changes once made. */
  lemma SourceNeverChanges(cfg: Config, t: seq<System>, m: nat, n: nat, request: string)
    requires IsRun(cfg, t) && m <= n < |t| && request in t[m].tables.guards
    ensures request in t[n].tables.guards && t[n].tables.guards[request].source == t[m].tables.guards[request].source
  {
    hide IsRun;
    RunBinds(cfg, t, m, n);
  }

  /** From a moment where a request's continuation is used, the run never charges an exemption to it again. */
  lemma NoExemptionAfterUse(cfg: Config, t: seq<System>, m: nat, n: nat, request: string)
    requires IsRun(cfg, t) && m <= n < |t|
    requires request in t[m].tables.guards && t[m].tables.guards[request].continuationUsed
    ensures CountOf(t[n].log, UsesContinuation(request)) == CountOf(t[m].log, UsesContinuation(request)) == 1
  {
    hide IsRun, RatesOk, SlotsOk, WorkersOk, CountOf, Asked, RetriesOk, Tracks, AllBound;
    RunBinds(cfg, t, m, n);
    RunKeeps(cfg, t, m);
    RunKeeps(cfg, t, n);
    assert GuardOk(cfg.retries, GuardRow(t[m].tables.guards, request), t[m].log, request);
    assert GuardOk(cfg.retries, GuardRow(t[n].tables.guards, request), t[n].log, request);
  }

  // ---- what the audit says of admissions ----

  /**
   * Every pass on a rate slot has its admission in the audit, and every admission in the audit has its charged
   * slot.
   */
  lemma AdmissionsAreNoted(cfg: Config, t: seq<System>, n: nat)
    requires IsRun(cfg, t) && n < |t|
    ensures forall id :: id in t[n].workers && t[n].workers[id].pc.Passed? && t[n].workers[id].pc.charge.RateSlot? ==>
              GateNoted(t[n].tables, t[n].workers[id].job, PrePaymentAdmitted,
                Some(t[n].workers[id].job.prepared.resourceType), None)
    ensures forall k :: k in t[n].tables.events ==> Backed(cfg, t[n].log, t[n].tables.events[k])
  {
    hide IsRun, Inv, Registered, SourceBound, EventNoted, Backed;
    RunKeeps(cfg, t, n);
    var s := t[n];
    forall id | id in s.workers && s.workers[id].pc.Passed? && s.workers[id].pc.charge.RateSlot?
      ensures GateNoted(s.tables, s.workers[id].job, PrePaymentAdmitted, Some(s.workers[id].job.prepared.resourceType),
                None)
    {
      assert Bound(s.tables, s.workers[id].job, s.workers[id].pc);
      NotedLiterally(s.tables, s.workers[id].job);
    }
  }

  lemma NotedLiterally(t: Tables, j: Job)
    requires EventNoted(t, AdmittedEvent(j))
    ensures GateNoted(t, j, PrePaymentAdmitted, Some(j.prepared.resourceType), None)
  {
  }

  /** The audit holds an event of the gate about a job. */
  ghost predicate GateNoted(t: Tables, j: Job, kind: EventKind, resourceType: Option<string>, reason: Option<string>) {
    EventKey(j.at, kind, j.prepared.RequestId(), resourceType, None, reason) in t.events
  }

  /** The audit holds an incident of the gate about a job. */
  ghost predicate GateReported(t: Tables, j: Job, kind: IncidentKind, reason: string, details: Details) {
    Incident(j.at, kind, Some(j.prepared.RequestId()), Some(j.prepared.resourceType), None, reason, details) in
      t.incidents
  }

  /** Every denial the gate completes has its event in the audit, and its incident when it is one. */
  lemma DenialsAreReported(cfg: Config, t: seq<System>, n: nat, id: nat)
    requires IsRun(cfg, t) && n < |t| && id in t[n].workers && t[n].workers[id].pc.Denied?
    ensures var w, tables := t[n].workers[id], t[n].tables;
            var kind := Some(w.job.prepared.resourceType);
            match w.pc.denial
            case KillSwitch =>
              GateNoted(tables, w.job, ServiceDisabled, kind, Some("service_disabled")) &&
              GateReported(tables, w.job, KillSwitchActive, "service_disabled", NoDetails)
            case Unsupported => GateNoted(tables, w.job, PrePaymentDenied, None, Some("unsupported_resource"))
            case OverRate(count, limit) =>
              GateNoted(tables, w.job, RateLimitDenied, kind, Some("rate_limit_exceeded")) &&
              GateReported(tables, w.job, RatePressure, "rate_limit_exceeded", RateDetails(count, limit))
  {
    hide IsRun, Inv, DenialReported, NoticesOk;
    RunKeeps(cfg, t, n);
    assert Bound(t[n].tables, t[n].workers[id].job, t[n].workers[id].pc);
    ReportedLiterally(t[n].tables, t[n].workers[id].job, t[n].workers[id].pc.denial);
  }

  lemma ReportedLiterally(t: Tables, j: Job, d: Denial)
    requires DenialReported(t, j, d)
    ensures var kind := Some(j.prepared.resourceType);
            match d
            case KillSwitch =>
              GateNoted(t, j, ServiceDisabled, kind, Some("service_disabled")) &&
              GateReported(t, j, KillSwitchActive, "service_disabled", NoDetails)
            case Unsupported => GateNoted(t, j, PrePaymentDenied, None, Some("unsupported_resource"))
            case OverRate(count, limit) =>
              GateNoted(t, j, RateLimitDenied, kind, Some("rate_limit_exceeded")) &&
              GateReported(t, j, RatePressure, "rate_limit_exceeded", RateDetails(count, limit))
  {
  }
}
