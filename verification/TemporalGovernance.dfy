/** app.py: the sliding-window request log, per-family spacing, deny cooldown and halt quarantine of one API key. */
module TemporalGovernance {
  import opened Wrappers
  import opened Clock

  type Family = string

  datatype Config = Config(windowSeconds: nat, maxRequests: nat, denyCooldownSeconds: nat,
                           haltCooldownSeconds: nat, retrySpacingSeconds: nat, haltThreshold: nat)
  {
    function Window(): nat { windowSeconds * TICKS_PER_SECOND }
    function DenyCooldown(): nat { denyCooldownSeconds * TICKS_PER_SECOND }
    function HaltCooldown(): nat { haltCooldownSeconds * TICKS_PER_SECOND }
    function RetrySpacing(): nat { retrySpacingSeconds * TICKS_PER_SECOND }

    /** A zero threshold falls back to one more than the request maximum, or to no threshold at all. */
    function EffectiveHaltThreshold(): nat {
      if haltThreshold != 0 then haltThreshold
      else if maxRequests > 0 then maxRequests + 1
      else 0
    }
  }

  datatype Verdict =
    | Unconfigured
    | Admitted
    | QuarantineHalt   // HALT, post_halt_quarantine_active
    | SpacingDelay     // DELAY, retry_spacing_active
    | CooldownDeny     // DENY, deny_cooldown_active
    | PressureHalt     // HALT, request_pressure_halt
    | RateDeny         // DENY, request_rate_limit_exceeded

  datatype State = State(requests: seq<Instant>, families: map<Family, seq<Instant>>,
                         retryExpiry: map<Family, Instant>,
                         denyExpiry: Option<Instant>, haltExpiry: Option<Instant>)

  const INITIAL := State([], map[], map[], None, None)

  datatype Request = Request(at: Instant, family: Family)

  function Retained(ts: seq<Instant>, cutoff: Instant): seq<Instant> {
    if ts == [] then []
    else (if ts[0] >= cutoff then [ts[0]] else []) + Retained(ts[1..], cutoff)
  }

  function History(families: map<Family, seq<Instant>>, f: Family): seq<Instant> {
    if f in families then families[f] else []
  }

  function Pruned(c: Config, s: State, now: Instant): State {
    if c.Window() == 0 then s
    else
      var cutoff := now - c.Window();
      s.(requests := Retained(s.requests, cutoff),
         families := map f | f in s.families && Retained(s.families[f], cutoff) != []
                     :: Retained(s.families[f], cutoff))
  }

  function Unexpired(e: Option<Instant>, now: Instant): Option<Instant> {
    if e.Some? && e.value <= now then None else e
  }

  function Expired(c: Config, s: State, r: Request): State {
    var p := Pruned(c, s, r.at);
    p.(retryExpiry := if r.family in p.retryExpiry && p.retryExpiry[r.family] <= r.at
                      then p.retryExpiry - {r.family} else p.retryExpiry,
       denyExpiry := Unexpired(p.denyExpiry, r.at),
       haltExpiry := Unexpired(p.haltExpiry, r.at))
  }

  /** The verdict on a request once stale entries are gone, and the state it leaves. */
  function Judged(c: Config, s: State, r: Request): (State, Verdict) {
    var history := History(s.families, r.family);
    var projected := |s.requests| + 1;
    var threshold := c.EffectiveHaltThreshold();
    if s.haltExpiry.Some? then (s, QuarantineHalt)
    else if r.family in s.retryExpiry then (s, SpacingDelay)
    else if s.denyExpiry.Some? then (s, CooldownDeny)
    else if threshold > 0 && projected > threshold then
      (s.(haltExpiry := Some(r.at + c.HaltCooldown())), PressureHalt)
    else if c.RetrySpacing() > 0 && history != [] && history[|history| - 1] + c.RetrySpacing() > r.at then
      (s.(retryExpiry := s.retryExpiry[r.family := history[|history| - 1] + c.RetrySpacing()]), SpacingDelay)
    else if c.maxRequests > 0 && projected > c.maxRequests then
      (s.(denyExpiry := Some(r.at + c.DenyCooldown())), RateDeny)
    else
      (s.(requests := s.requests + [r.at],
          families := s.families[r.family := history + [r.at]],
          retryExpiry := if c.RetrySpacing() > 0 then s.retryExpiry[r.family := r.at + c.RetrySpacing()]
                         else s.retryExpiry),
       Admitted)
  }

  function Step(c: Config, s: State, r: Request): (State, Verdict) {
    Judged(c, Expired(c, s, r), r)
  }

  /** The state one API key keeps between calls, changed in place by each evaluation. */
  class TemporalGovernor {
    var requestTimestamps: seq<Instant>
    var familyTimestamps: map<Family, seq<Instant>>
    var retryCooldownExpiry: map<Family, Instant>
    var denyCooldownExpiry: Option<Instant>
    var postHaltQuarantineExpiry: Option<Instant>

    ghost function Contents(): State
      reads this
    {
      State(requestTimestamps, familyTimestamps, retryCooldownExpiry, denyCooldownExpiry, postHaltQuarantineExpiry)
    }

    constructor ()
      ensures Contents() == INITIAL
    {
      requestTimestamps, familyTimestamps, retryCooldownExpiry := [], map[], map[];
      denyCooldownExpiry, postHaltQuarantineExpiry := None, None;
    }

    method Prune(c: Config, now: Instant)
      modifies this`requestTimestamps, this`familyTimestamps
      ensures Contents() == Pruned(c, old(Contents()), now)
    {
      if c.windowSeconds == 0 { return; }
      var cutoff := now - c.Window();
      ghost var was := familyTimestamps;
      requestTimestamps := Retained(requestTimestamps, cutoff);
      var pending := familyTimestamps.Keys;
      while pending != {}
        invariant pending <= was.Keys
        invariant forall f :: f in familyTimestamps <==>
          f in was && (f in pending || Retained(was[f], cutoff) != [])
        invariant forall f :: f in familyTimestamps ==>
          familyTimestamps[f] == if f in pending then was[f] else Retained(was[f], cutoff)
        modifies this`familyTimestamps
      {
        var f :| f in pending;
        var retained := Retained(familyTimestamps[f], cutoff);
        if retained != [] {
          familyTimestamps := familyTimestamps[f := retained];
        } else {
          familyTimestamps := familyTimestamps - {f};
        }
        pending := pending - {f};
      }
    }

    method Evaluate(config: Option<Config>, r: Request) returns (verdict: Verdict)
      modifies this
      ensures config.None? ==> verdict == Unconfigured && Contents() == old(Contents())
      ensures config.Some? ==> (Contents(), verdict) == Step(config.value, old(Contents()), r)
    {
      if config.None? { return Unconfigured; }
      Expire(config.value, r);
      verdict := Judge(config.value, r);
    }

    method Expire(c: Config, r: Request)
      modifies this
      ensures Contents() == Expired(c, old(Contents()), r)
    {
      Prune(c, r.at);
      if r.family in retryCooldownExpiry && retryCooldownExpiry[r.family] <= r.at {
        retryCooldownExpiry := retryCooldownExpiry - {r.family};
      }
      if denyCooldownExpiry.Some? && denyCooldownExpiry.value <= r.at { denyCooldownExpiry := None; }
      if postHaltQuarantineExpiry.Some? && postHaltQuarantineExpiry.value <= r.at { postHaltQuarantineExpiry := None; }
    }

    method Judge(c: Config, r: Request) returns (verdict: Verdict)
      modifies this
      ensures (Contents(), verdict) == Judged(c, old(Contents()), r)
    {
      if postHaltQuarantineExpiry.Some? { return QuarantineHalt; }
      if r.family in retryCooldownExpiry { return SpacingDelay; }
      if denyCooldownExpiry.Some? { return CooldownDeny; }

      var history := History(familyTimestamps, r.family);
      var projected := |requestTimestamps| + 1;
      var threshold := c.EffectiveHaltThreshold();
      if threshold > 0 && projected > threshold {
        postHaltQuarantineExpiry := Some(r.at + c.HaltCooldown());
        return PressureHalt;
      }
      if c.RetrySpacing() > 0 && history != [] {
        var expiry := history[|history| - 1] + c.RetrySpacing();
        if expiry > r.at {
          retryCooldownExpiry := retryCooldownExpiry[r.family := expiry];
          return SpacingDelay;
        }
      }
      if c.maxRequests > 0 && projected > c.maxRequests {
        denyCooldownExpiry := Some(r.at + c.DenyCooldown());
        return RateDeny;
      }
      requestTimestamps := requestTimestamps + [r.at];
      familyTimestamps := familyTimestamps[r.family := history + [r.at]];
      if c.RetrySpacing() > 0 {
        retryCooldownExpiry := retryCooldownExpiry[r.family := r.at + c.RetrySpacing()];
      }
      return Admitted;
    }
  }

  // ---- whole runs under one configuration ----

  function After(c: Config, rs: seq<Request>): State {
    if rs == [] then INITIAL
    else Step(c, After(c, rs[..|rs| - 1]), rs[|rs| - 1]).0
  }

  function VerdictAt(c: Config, rs: seq<Request>, i: nat): Verdict
    requires i < |rs|
  {
    Step(c, After(c, rs[..i]), rs[i]).1
  }

  ghost predicate ClockNondecreasing(rs: seq<Request>) { Nondecreasing(rs, (r: Request) => r.at) }

  /** When the admitted requests of a run arrived, in order. */
  function AdmittedTimes(c: Config, rs: seq<Request>): seq<Instant> {
    if rs == [] then []
    else
      var n := |rs| - 1;
      AdmittedTimes(c, rs[..n]) + if VerdictAt(c, rs, n).Admitted? then [rs[n].at] else []
  }

  function CountWithin(ts: seq<Instant>, lo: Instant, hi: Instant): nat {
    if ts == [] then 0
    else CountWithin(ts[1..], lo, hi) + if lo <= ts[0] <= hi then 1 else 0
  }

  lemma {:induction false} RetainedAppend(a: seq<Instant>, b: seq<Instant>, cutoff: Instant)
    ensures Retained(a + b, cutoff) == Retained(a, cutoff) + Retained(b, cutoff)
  {
    if a == [] {
      assert a + b == b;
    } else {
      assert (a + b)[0] == a[0] && (a + b)[1..] == a[1..] + b;
      RetainedAppend(a[1..], b, cutoff);
      AppendAssociates(if a[0] >= cutoff then [a[0]] else [], Retained(a[1..], cutoff), Retained(b, cutoff));
    }
  }

  lemma AppendAssociates(a: seq<Instant>, b: seq<Instant>, c: seq<Instant>)
    ensures (a + b) + c == a + (b + c)
  {
  }

  lemma {:induction false} RetainedTwice(ts: seq<Instant>, early: Instant, late: Instant)
    requires early <= late
    ensures Retained(Retained(ts, early), late) == Retained(ts, late)
  {
    if ts == [] {
    } else {
      RetainedTwice(ts[1..], early, late);
      RetainedAppend(if ts[0] >= early then [ts[0]] else [], Retained(ts[1..], early), late);
    }
  }

  lemma {:induction false} CountBoundedByRetained(ts: seq<Instant>, lo: Instant, hi: Instant, cutoff: Instant)
    requires cutoff <= lo
    ensures CountWithin(ts, lo, hi) <= |Retained(ts, cutoff)|
  {
    if ts == [] {
    } else {
      CountBoundedByRetained(ts[1..], lo, hi, cutoff);
    }
  }

  lemma {:induction false} CountAppend(a: seq<Instant>, x: Instant, lo: Instant, hi: Instant)
    ensures CountWithin(a + [x], lo, hi) == CountWithin(a, lo, hi) + if lo <= x <= hi then 1 else 0
  {
    if a == [] {
    } else {
      assert (a + [x])[1..] == a[1..] + [x];
      CountAppend(a[1..], x, lo, hi);
    }
  }

  lemma StepLog(c: Config, s: State, r: Request)
    ensures Step(c, s, r).0.requests
         == Pruned(c, s, r.at).requests + if Step(c, s, r).1.Admitted? then [r.at] else []
  {
  }

  lemma AdmittedSnoc(c: Config, rs: seq<Request>)
    requires rs != []
    ensures var n := |rs| - 1;
      AdmittedTimes(c, rs) == AdmittedTimes(c, rs[..n]) + if VerdictAt(c, rs, n).Admitted? then [rs[n].at] else []
  {
  }

  /** The arrivals still inside the window at a given instant; without a window, all of them. */
  function InWindow(c: Config, ts: seq<Instant>, now: Instant): seq<Instant> {
    if c.Window() > 0 then Retained(ts, now - c.Window()) else ts
  }

  lemma WindowMoves(c: Config, s: State, r: Request, admitted: seq<Instant>, before: Instant)
    requires before <= r.at && s.requests == InWindow(c, admitted, before)
    ensures Step(c, s, r).0.requests
         == InWindow(c, admitted + if Step(c, s, r).1.Admitted? then [r.at] else [], r.at)
  {
    StepLog(c, s, r);
    hide Step;
    var cutoff := r.at - c.Window();
    var added := if Step(c, s, r).1.Admitted? then [r.at] else [];
    assert Retained(added, cutoff) == added;
    RetainedAppend(admitted, added, cutoff);
    RetainedTwice(admitted, before - c.Window(), cutoff);
  }

  /** Refused requests leave no trace in the log: it holds exactly the admitted arrivals still inside the window. */
  lemma {:induction false} LogIsAdmittedWindow(c: Config, rs: seq<Request>)
    requires ClockNondecreasing(rs) && rs != []
    ensures After(c, rs).requests == InWindow(c, AdmittedTimes(c, rs), rs[|rs| - 1].at)
  {
    hide Step, InWindow;
    var n := |rs| - 1;
    var init := rs[..n];
    AdmittedSnoc(c, rs);
    if init == [] {
      assert AdmittedTimes(c, init) == [] && After(c, init).requests == InWindow(c, [], rs[n].at) by {
        NothingInWindow(c, rs[n].at);
      }
      WindowMoves(c, After(c, init), rs[n], [], rs[n].at);
    } else {
      LogIsAdmittedWindow(c, init);
      WindowMoves(c, After(c, init), rs[n], AdmittedTimes(c, init), init[n - 1].at);
    }
  }

  lemma NothingInWindow(c: Config, now: Instant)
    ensures InWindow(c, [], now) == []
  {
  }

  lemma {:induction false} RetainedShrinks(ts: seq<Instant>, cutoff: Instant)
    ensures |Retained(ts, cutoff)| <= |ts|
  {
    if ts == [] {
    } else {
      RetainedShrinks(ts[1..], cutoff);
    }
  }

  /** The log never outgrows a positive request maximum, nor a positive halt threshold. */
  lemma {:induction false} LogBounded(c: Config, rs: seq<Request>)
    ensures c.maxRequests > 0 ==> |After(c, rs).requests| <= c.maxRequests
    ensures c.EffectiveHaltThreshold() > 0 ==> |After(c, rs).requests| <= c.EffectiveHaltThreshold()
  {
    hide Step;
    if rs == [] {
    } else {
      var n := |rs| - 1;
      LogBounded(c, rs[..n]);
      StepBounded(c, After(c, rs[..n]), rs[n]);
    }
  }

  lemma StepBounded(c: Config, s: State, r: Request)
    ensures var log := Step(c, s, r).0.requests;
      && (c.maxRequests > 0 ==> |log| <= c.maxRequests || |log| <= |s.requests|)
      && (c.EffectiveHaltThreshold() > 0 ==> |log| <= c.EffectiveHaltThreshold() || |log| <= |s.requests|)
  {
    StepLog(c, s, r);
    RetainedShrinks(s.requests, r.at - c.Window());
  }

  /** Sliding-window safety: no closed interval of window length ever holds more than the maximum. */
  lemma {:induction false} SlidingWindowSafety(c: Config, rs: seq<Request>, t: Instant)
    requires ClockNondecreasing(rs) && c.Window() > 0 && c.maxRequests > 0
    ensures CountWithin(AdmittedTimes(c, rs), t, t + c.Window()) <= c.maxRequests
  {
    hide Step;
    if rs == [] {
    } else {
      var n := |rs| - 1;
      var admitted := AdmittedTimes(c, rs[..n]);
      SlidingWindowSafety(c, rs[..n], t);
      CountAppend(admitted, rs[n].at, t, t + c.Window());
      AdmittedSnoc(c, rs);
      assert admitted + [] == admitted;
      if VerdictAt(c, rs, n).Admitted? && t <= rs[n].at <= t + c.Window() {
        var cutoff := rs[n].at - c.Window();
        assert |Retained(AdmittedTimes(c, rs), cutoff)| <= c.maxRequests by {
          LogIsAdmittedWindow(c, rs);
          LogBounded(c, rs);
        }
        CountBoundedByRetained(AdmittedTimes(c, rs), t, t + c.Window(), cutoff);
      }
    }
  }

  // ---- spacing between admitted requests of one family ----

  /** A family's spacing expiry is only forgotten once the clock has reached it, and bars admission until then. */
  lemma StepKeepsSpacing(c: Config, s: State, r: Request, f: Family, until: Instant)
    requires f in s.retryExpiry && s.retryExpiry[f] >= until
    ensures var s' := Step(c, s, r).0;
      r.at >= until || (f in s'.retryExpiry && s'.retryExpiry[f] >= until)
    ensures r.family == f && Step(c, s, r).1.Admitted? ==> r.at >= until
  {
  }

  lemma StepStartsSpacing(c: Config, s: State, r: Request)
    requires c.RetrySpacing() > 0 && Step(c, s, r).1.Admitted?
    ensures var s' := Step(c, s, r).0;
      r.family in s'.retryExpiry && s'.retryExpiry[r.family] == r.at + c.RetrySpacing()
  {
  }

  lemma {:induction false} SpacingRemembered(c: Config, rs: seq<Request>, i: nat, k: nat)
    requires ClockNondecreasing(rs) && i < k <= |rs| && c.RetrySpacing() > 0 && VerdictAt(c, rs, i).Admitted?
    ensures var s := After(c, rs[..k]);
      var f, until := rs[i].family, rs[i].at + c.RetrySpacing();
      rs[k - 1].at >= until || (f in s.retryExpiry && s.retryExpiry[f] >= until)
    decreases k
  {
    hide Step;
    var init := rs[..k - 1];
    assert rs[..k][..k - 1] == init;
    assert After(c, rs[..k]) == Step(c, After(c, init), rs[k - 1]).0;
    if k == i + 1 {
      StepStartsSpacing(c, After(c, init), rs[i]);
    } else {
      SpacingRemembered(c, rs, i, k - 1);
      if rs[k - 2].at < rs[i].at + c.RetrySpacing() {
        StepKeepsSpacing(c, After(c, init), rs[k - 1], rs[i].family, rs[i].at + c.RetrySpacing());
      }
    }
  }

  /** Two admitted requests of one family are at least the retry spacing apart, whatever was pruned in between. */
  lemma FamilySpacing(c: Config, rs: seq<Request>, i: nat, j: nat)
    requires ClockNondecreasing(rs) && i < j < |rs| && rs[i].family == rs[j].family
    requires VerdictAt(c, rs, i).Admitted? && VerdictAt(c, rs, j).Admitted?
    ensures rs[j].at - rs[i].at >= c.RetrySpacing()
  {
    if c.RetrySpacing() > 0 {
      SpacingRemembered(c, rs, i, j);
      if rs[j - 1].at < rs[i].at + c.RetrySpacing() {
        StepKeepsSpacing(c, After(c, rs[..j]), rs[j], rs[i].family, rs[i].at + c.RetrySpacing());
      }
    }
  }

  // ---- cooldowns ----

  ghost predicate CoolingUntil(s: State, until: Instant) {
    s.denyExpiry == Some(until) || s.haltExpiry == Some(until)
  }

  lemma StepKeepsCooldown(c: Config, s: State, r: Request, until: Instant)
    requires CoolingUntil(s, until) && r.at < until
    ensures CoolingUntil(Step(c, s, r).0, until)
    ensures Step(c, s, r).1 in {QuarantineHalt, SpacingDelay, CooldownDeny}
  {
  }

  lemma StepStartsCooldown(c: Config, s: State, r: Request)
    ensures Step(c, s, r).1.RateDeny? ==> CoolingUntil(Step(c, s, r).0, r.at + c.DenyCooldown())
    ensures Step(c, s, r).1.PressureHalt? ==> CoolingUntil(Step(c, s, r).0, r.at + c.HaltCooldown())
  {
  }

  function CooldownOf(c: Config, v: Verdict): nat {
    if v.RateDeny? then c.DenyCooldown() else if v.PressureHalt? then c.HaltCooldown() else 0
  }

  lemma {:induction false} CooldownRemembered(c: Config, rs: seq<Request>, i: nat, k: nat)
    requires ClockNondecreasing(rs) && i < k <= |rs|
    requires VerdictAt(c, rs, i) in {RateDeny, PressureHalt}
    requires k > i + 1 ==> rs[k - 1].at < rs[i].at + CooldownOf(c, VerdictAt(c, rs, i))
    ensures CoolingUntil(After(c, rs[..k]), rs[i].at + CooldownOf(c, VerdictAt(c, rs, i)))
    decreases k
  {
    hide Step;
    assert rs[..k][..k - 1] == rs[..k - 1];
    assert After(c, rs[..k]) == Step(c, After(c, rs[..k - 1]), rs[k - 1]).0;
    if k == i + 1 {
      StepStartsCooldown(c, After(c, rs[..i]), rs[i]);
    } else {
      assert rs[k - 2].at <= rs[k - 1].at;
      CooldownRemembered(c, rs, i, k - 1);
      StepKeepsCooldown(c, After(c, rs[..k - 1]), rs[k - 1], rs[i].at + CooldownOf(c, VerdictAt(c, rs, i)));
    }
  }

  /** After a fresh DENY or HALT nothing is admitted, and no new cooldown starts, until that cooldown has run out. */
  lemma CooldownAdmitsNothing(c: Config, rs: seq<Request>, i: nat, j: nat)
    requires ClockNondecreasing(rs) && i < j < |rs|
    requires VerdictAt(c, rs, i) in {RateDeny, PressureHalt}
    requires rs[j].at < rs[i].at + CooldownOf(c, VerdictAt(c, rs, i))
    ensures VerdictAt(c, rs, j) in {QuarantineHalt, SpacingDelay, CooldownDeny}
  {
    assert rs[j - 1].at <= rs[j].at;
    CooldownRemembered(c, rs, i, j);
    StepKeepsCooldown(c, After(c, rs[..j]), rs[j], rs[i].at + CooldownOf(c, VerdictAt(c, rs, i)));
  }

  // ---- which pressure verdict a configuration can produce ----

  lemma PressureNeedsFullLog(c: Config, s: State, r: Request)
    ensures Step(c, s, r).1.PressureHalt? ==> 0 < c.EffectiveHaltThreshold() <= |s.requests|
    ensures Step(c, s, r).1.RateDeny? ==> 0 < c.maxRequests <= |s.requests|
    ensures Step(c, s, r).1.RateDeny? && c.EffectiveHaltThreshold() > 0 && |s.requests| <= c.maxRequests ==>
      c.EffectiveHaltThreshold() > c.maxRequests
  {
    RetainedShrinks(s.requests, r.at - c.Window());
  }

  ghost predicate CanHalt(c: Config) {
    c.EffectiveHaltThreshold() > 0 && (c.maxRequests == 0 || c.EffectiveHaltThreshold() <= c.maxRequests)
  }

  ghost predicate CanDeny(c: Config) {
    c.maxRequests > 0 && c.EffectiveHaltThreshold() > c.maxRequests
  }

  ghost predicate Occurs(c: Config, v: Verdict, rs: seq<Request>, i: nat) {
    ClockNondecreasing(rs) && i < |rs| && VerdictAt(c, rs, i) == v
  }

  function Label(n: nat): Family { seq(n, _ => 'a') }

  /** n requests at one instant, each of its own family. */
  function Burst(n: nat): seq<Request> { seq(n, i requires 0 <= i => Request(0, Label(i))) }

  ghost predicate OnlyShorter(m: set<Family>, n: nat) { forall f :: f in m ==> |f| < n }

  lemma {:induction false} RetainedAll(ts: seq<Instant>, cutoff: Instant)
    requires forall i :: 0 <= i < |ts| ==> ts[i] >= cutoff
    ensures Retained(ts, cutoff) == ts
  {
    if ts == [] {
    } else {
      RetainedAll(ts[1..], cutoff);
    }
  }

  ghost predicate Bursting(s: State, n: nat) {
    && |s.requests| == n && (forall i :: 0 <= i < n ==> s.requests[i] == 0)
    && OnlyShorter(s.families.Keys, n) && OnlyShorter(s.retryExpiry.Keys, n)
    && s.denyExpiry.None? && s.haltExpiry.None?
  }

  lemma BurstStep(c: Config, s: State, n: nat)
    requires Bursting(s, n)
    ensures var (s', v) := Step(c, s, Request(0, Label(n)));
      v == (if 0 < c.EffectiveHaltThreshold() <= n then PressureHalt
            else if 0 < c.maxRequests <= n then RateDeny else Admitted)
      && (v.Admitted? ==> Bursting(s', n + 1))
  {
    RetainedAll(s.requests, 0 - c.Window());
    var r := Request(0, Label(n));
    var e := Expired(c, s, r);
    assert |Label(n)| == n;
    assert Label(n) !in s.families && Label(n) !in s.retryExpiry;
    assert Bursting(e, n);
  }

  lemma {:induction false} BurstAdmitted(c: Config, n: nat)
    requires c.EffectiveHaltThreshold() > 0 ==> n <= c.EffectiveHaltThreshold()
    requires c.maxRequests > 0 ==> n <= c.maxRequests
    ensures Bursting(After(c, Burst(n)), n)
  {
    hide Step;
    if n == 0 {
    } else {
      BurstAdmitted(c, n - 1);
      BurstStep(c, After(c, Burst(n - 1)), n - 1);
      assert Burst(n)[..n - 1] == Burst(n - 1);
    }
  }

  /**
   * The pressure HALT fires in some run exactly when the effective threshold is positive and not above the request
   * maximum (or there is no maximum). So with a maximum and the default threshold it never fires.
   */
  lemma PressureHaltReachable(c: Config)
    ensures (exists rs, i :: Occurs(c, PressureHalt, rs, i)) <==> CanHalt(c)
    ensures c.haltThreshold == 0 ==> !CanHalt(c)
  {
    if CanHalt(c) {
      var n := c.EffectiveHaltThreshold();
      BurstAdmitted(c, n);
      BurstStep(c, After(c, Burst(n)), n);
      assert Burst(n + 1)[..n] == Burst(n);
      assert Occurs(c, PressureHalt, Burst(n + 1), n);
    }
    forall rs, i | Occurs(c, PressureHalt, rs, i) ensures CanHalt(c) {
      LogBounded(c, rs[..i]);
      PressureNeedsFullLog(c, After(c, rs[..i]), rs[i]);
    }
  }

  /** The request-rate DENY is the other half: it fires in some run exactly when the threshold exceeds the maximum. */
  lemma RateDenyReachable(c: Config)
    ensures (exists rs, i :: Occurs(c, RateDeny, rs, i)) <==> CanDeny(c)
    ensures !(CanDeny(c) && CanHalt(c))
  {
    if CanDeny(c) {
      var n := c.maxRequests;
      BurstAdmitted(c, n);
      BurstStep(c, After(c, Burst(n)), n);
      assert Burst(n + 1)[..n] == Burst(n);
      assert Occurs(c, RateDeny, Burst(n + 1), n);
    }
    forall rs, i | Occurs(c, RateDeny, rs, i) ensures CanDeny(c) {
      LogBounded(c, rs[..i]);
      PressureNeedsFullLog(c, After(c, rs[..i]), rs[i]);
    }
  }

  // ---- clocks that step back ----

  /** The most entries the log can hold: an effective threshold is positive whenever the maximum is. */
  function Capacity(c: Config): nat
    requires c.maxRequests > 0
  {
    if c.maxRequests <= c.EffectiveHaltThreshold() then c.maxRequests else c.EffectiveHaltThreshold()
  }

  /** The configurations whose window bound does not rest on the clock. */
  predicate ClockProof(c: Config)
    requires c.maxRequests > 0
  {
    c.Window() == 0 || (Capacity(c) == 1 && c.RetrySpacing() <= c.Window())
  }

  /** How many admitted requests arrived in the closed window that starts at t. */
  ghost function AdmittedFrom(c: Config, rs: seq<Request>, t: Instant): nat {
    CountWithin(AdmittedTimes(c, rs), t, t + c.Window())
  }

  /** The window bound, for every run whatever its clock does. */
  ghost predicate SafeUnderAnyClock(c: Config) {
    forall rs, t :: AdmittedFrom(c, rs, t) <= c.maxRequests
  }

  lemma {:induction false} CountAtMostAll(ts: seq<Instant>, lo: Instant, hi: Instant)
    ensures CountWithin(ts, lo, hi) <= |ts|
  {
    if ts == [] {
    } else {
      CountAtMostAll(ts[1..], lo, hi);
    }
  }

  /** Without a window nothing is ever pruned, so the log is every admitted arrival. */
  lemma {:induction false} LogIsAllAdmitted(c: Config, rs: seq<Request>)
    requires c.Window() == 0
    ensures After(c, rs).requests == AdmittedTimes(c, rs)
  {
    if rs == [] {
    } else {
      LogIsAllAdmitted(c, rs[..|rs| - 1]);
      StepLog(c, After(c, rs[..|rs| - 1]), rs[|rs| - 1]);
    }
  }

  /** Admitted arrivals further apart than the window, in order. */
  ghost predicate Spread(ts: seq<Instant>, window: nat) {
    forall i, j :: 0 <= i < j < |ts| ==> ts[i] + window < ts[j]
  }

  lemma {:induction false} NoneWithin(ts: seq<Instant>, lo: Instant, hi: Instant)
    requires forall i :: 0 <= i < |ts| ==> ts[i] > hi
    ensures CountWithin(ts, lo, hi) == 0
  {
    if ts == [] {
    } else {
      NoneWithin(ts[1..], lo, hi);
    }
  }

  lemma {:induction false} SpreadCount(ts: seq<Instant>, window: nat, t: Instant)
    requires Spread(ts, window)
    ensures CountWithin(ts, t, t + window) <= 1
  {
    if ts == [] {
    } else {
      SpreadCount(ts[1..], window, t);
      if t <= ts[0] { NoneWithin(ts[1..], t, t + window); }
    }
  }

  ghost predicate AtMost(ts: seq<Instant>, x: Instant) { forall i :: 0 <= i < |ts| ==> ts[i] <= x }

  ghost predicate BarredPast(s: State, x: Instant) {
    (s.denyExpiry.Some? && s.denyExpiry.value > x) || (s.haltExpiry.Some? && s.haltExpiry.value > x)
  }

  /** The state of a log of capacity one whose last admitted arrival was x: the log is lost only behind a cooldown. */
  ghost predicate HoldsLast(c: Config, s: State, x: Instant) {
    && (s.requests == [x] || (s.requests == [] && BarredPast(s, x + c.Window())))
    && (forall f :: f in s.families ==> AtMost(s.families[f], x))
    && (forall f :: f in s.retryExpiry ==> s.retryExpiry[f] <= x + c.RetrySpacing())
  }

  lemma {:induction false} RetainedAtMost(ts: seq<Instant>, cutoff: Instant, x: Instant)
    requires AtMost(ts, x)
    ensures AtMost(Retained(ts, cutoff), x)
  {
    if ts == [] {
    } else {
      RetainedAtMost(ts[1..], cutoff, x);
    }
  }

  lemma RetainedOne(x: Instant, cutoff: Instant)
    ensures Retained([x], cutoff) == if x >= cutoff then [x] else []
  {
    assert [x][1..] == [] && Retained([], cutoff) == [];
  }

  /** Pruning and expiry before a request: the log is kept, or the request is past the window or still barred. */
  lemma ExpiredHoldsLast(c: Config, s: State, r: Request, x: Instant)
    requires HoldsLast(c, s, x) && c.Window() > 0
    ensures ReadyAfter(c, Expired(c, s, r), r, x)
  {
    RetainedOne(x, r.at - c.Window());
    forall f | f in s.families ensures AtMost(Retained(s.families[f], r.at - c.Window()), x) {
      RetainedAtMost(s.families[f], r.at - c.Window(), x);
    }
  }

  /** What an expired state promises the judgement of a request. */
  ghost predicate ReadyAfter(c: Config, e: State, r: Request, x: Instant) {
    && (e.requests == [x] || (e.requests == [] && (BarredPast(e, x + c.Window()) || r.at > x + c.Window())))
    && (forall f :: f in e.families ==> AtMost(e.families[f], x))
    && (forall f :: f in e.retryExpiry ==> e.retryExpiry[f] <= x + c.RetrySpacing())
    && (e.denyExpiry.Some? ==> e.denyExpiry.value > r.at) && (e.haltExpiry.Some? ==> e.haltExpiry.value > r.at)
    && (r.family in e.retryExpiry ==> e.retryExpiry[r.family] > r.at)
  }

  lemma JudgedHoldsLast(c: Config, e: State, r: Request, x: Instant)
    requires c.Window() > 0 && c.maxRequests > 0 && Capacity(c) == 1 && c.RetrySpacing() <= c.Window()
    requires ReadyAfter(c, e, r, x)
    ensures var (s', v) := Judged(c, e, r);
      if v.Admitted? then r.at > x + c.Window() && HoldsLast(c, s', r.at) else HoldsLast(c, s', x)
  {
    hide AtMost, BarredPast;
    var history := History(e.families, r.family);
    var s', v := Judged(c, e, r).0, Judged(c, e, r).1;
    HistoryAtMost(e.families, r.family, x);
    Bars(e, x + c.Window());
    if v.Admitted? { LaterAtMost(e.families, r, x); } else { Bars(s', x + c.Window()); }
  }

  lemma Bars(s: State, x: Instant)
    ensures BarredPast(s, x) <==>
              (s.denyExpiry.Some? && s.denyExpiry.value > x) || (s.haltExpiry.Some? && s.haltExpiry.value > x)
  {
  }

  lemma HistoryAtMost(families: map<Family, seq<Instant>>, f: Family, x: Instant)
    requires forall g :: g in families ==> AtMost(families[g], x)
    ensures var h := History(families, f); AtMost(h, x) && (h != [] ==> h[|h| - 1] <= x)
  {
  }

  lemma LaterAtMost(families: map<Family, seq<Instant>>, r: Request, x: Instant)
    requires forall g :: g in families ==> AtMost(families[g], x)
    ensures x <= r.at ==>
      var after := families[r.family := History(families, r.family) + [r.at]];
      forall g :: g in after ==> AtMost(after[g], r.at)
  {
  }

  /** With room for one and spacing within the window, an admission comes after the window of the last one. */
  lemma StepHoldsLast(c: Config, s: State, r: Request, x: Instant)
    requires c.Window() > 0 && c.maxRequests > 0 && Capacity(c) == 1 && c.RetrySpacing() <= c.Window()
    requires HoldsLast(c, s, x)
    ensures var (s', v) := Step(c, s, r);
      if v.Admitted? then r.at > x + c.Window() && HoldsLast(c, s', r.at) else HoldsLast(c, s', x)
  {
    hide Expired, Retained, Judged, HoldsLast, Capacity;
    var e := Expired(c, s, r);
    ExpiredHoldsLast(c, s, r, x);
    JudgedHoldsLast(c, e, r, x);
  }

  lemma FirstIsAdmitted(c: Config, r: Request)
    requires c.Window() > 0 && c.maxRequests > 0
    ensures Step(c, INITIAL, r).1.Admitted? && HoldsLast(c, Step(c, INITIAL, r).0, r.at)
  {
  }

  lemma {:induction false} RunHoldsLast(c: Config, rs: seq<Request>)
    requires c.Window() > 0 && c.maxRequests > 0 && Capacity(c) == 1 && c.RetrySpacing() <= c.Window() && rs != []
    ensures var ts := AdmittedTimes(c, rs);
      ts != [] && Spread(ts, c.Window()) && HoldsLast(c, After(c, rs), ts[|ts| - 1])
  {
    hide Step, HoldsLast, Capacity;
    var n := |rs| - 1;
    var init := rs[..n];
    AdmittedSnoc(c, rs);
    if init == [] {
      FirstIsAdmitted(c, rs[n]);
      assert AdmittedTimes(c, init) == [] && After(c, init) == INITIAL;
    } else {
      RunHoldsLast(c, init);
      var ts := AdmittedTimes(c, init);
      StepHoldsLast(c, After(c, init), rs[n], ts[|ts| - 1]);
    }
  }

  // Runs that overflow the window of every other configuration, round by round.

  /** A state in which a family of at least n letters is new. */
  ghost predicate Fresh(s: State, n: nat) {
    && OnlyShorter(s.families.Keys, n) && OnlyShorter(s.retryExpiry.Keys, n)
    && s.denyExpiry.None? && s.haltExpiry.None?
  }

  /** A new family is admitted whenever the log has room. */
  lemma NewFamilyAdmitted(c: Config, s: State, at: Instant, n: nat, live: seq<Instant>)
    requires c.Window() > 0 && c.maxRequests > 0 && Fresh(s, n)
    requires live == Retained(s.requests, at - c.Window()) && |live| < Capacity(c)
    ensures var (s', v) := Step(c, s, Request(at, Label(n)));
      && v.Admitted? && Fresh(s', n + 1) && s'.requests == live + [at]
      && (c.RetrySpacing() > 0 ==> Label(n) in s'.retryExpiry && s'.retryExpiry[Label(n)] == at + c.RetrySpacing())
  {
    hide Retained;
    assert |Label(n)| == n;
    assert Label(n) !in s.families && Label(n) !in s.retryExpiry;
  }

  /** Spacing beyond the window lets a refused request far ahead empty the log. */
  lemma DelayEmptiesLog(c: Config, s: State, n: nat)
    requires c.Window() > 0 && Fresh(s, n + 1) && s.requests == [0]
    requires Label(n) in s.retryExpiry && s.retryExpiry[Label(n)] > c.Window() + 1
    ensures var (s', v) := Step(c, s, Request(c.Window() + 1, Label(n)));
      v.SpacingDelay? && Fresh(s', n + 1) && s'.requests == []
  {
    RetainedOne(0, 1);
  }

  function Far(c: Config, k: nat): Instant { k * (c.Window() + 1) }

  /** Between rounds the log is empty, or holds one arrival far ahead of the window being filled. */
  ghost predicate Rounded(c: Config, rs: seq<Request>, k: nat)
    requires c.maxRequests > 0
  {
    && Fresh(After(c, rs), 2 * k)
    && After(c, rs).requests == (if k == 0 || Capacity(c) == 1 then [] else [Far(c, k)])
    && CountWithin(AdmittedTimes(c, rs), 0, c.Window()) == k
  }

  lemma OneMore(c: Config, rs: seq<Request>, r: Request)
    ensures After(c, rs + [r]) == Step(c, After(c, rs), r).0
    ensures CountWithin(AdmittedTimes(c, rs + [r]), 0, c.Window()) ==
            CountWithin(AdmittedTimes(c, rs), 0, c.Window()) +
            if Step(c, After(c, rs), r).1.Admitted? && 0 <= r.at <= c.Window() then 1 else 0
  {
    hide Step;
    assert (rs + [r])[..|rs|] == rs;
    AdmittedSnoc(c, rs + [r]);
    CountAppend(AdmittedTimes(c, rs), r.at, 0, c.Window());
    assert AdmittedTimes(c, rs) + [] == AdmittedTimes(c, rs);
  }

  lemma FarAhead(c: Config, k: nat)
    ensures Far(c, k + 1) == Far(c, k) + c.Window() + 1 && Far(c, k) >= 0
  {
  }

  lemma RetainedTwo(x: Instant, y: Instant, cutoff: Instant)
    ensures x < cutoff && y < cutoff ==> Retained([x, y], cutoff) == []
    ensures Retained([], cutoff) == []
  {
    assert [x, y][1..] == [y];
    RetainedOne(y, cutoff);
  }

  /** Between the two arrivals of a round trip both the far one before and the one just made are about to be pruned. */
  lemma RoundNow(c: Config, rs: seq<Request>, k: nat)
    requires c.Window() > 0 && c.maxRequests > 0 && Capacity(c) >= 2 && Rounded(c, rs, k)
    ensures var now := Request(0, Label(2 * k)); var u := After(c, rs + [now]);
      && Fresh(u, 2 * k + 1) && Retained(u.requests, Far(c, k + 1) - c.Window()) == []
      && CountWithin(AdmittedTimes(c, rs + [now]), 0, c.Window()) == k + 1
  {
    hide Step, Retained, Fresh, Capacity, Far;
    var s := After(c, rs);
    FarAhead(c, k);
    RetainedAll(s.requests, 0 - c.Window());
    NewFamilyAdmitted(c, s, 0, 2 * k, s.requests);
    OneMore(c, rs, Request(0, Label(2 * k)));
    RetainedOne(0, Far(c, k + 1) - c.Window());
    RetainedTwo(Far(c, k), 0, Far(c, k + 1) - c.Window());
    assert [] + [0] == [0] && [Far(c, k)] + [0] == [Far(c, k), 0];
  }

  /** Room for two: one arrival now, one far ahead that prunes it, and back again. */
  lemma RoundTrip(c: Config, rs: seq<Request>, k: nat)
    requires c.Window() > 0 && c.maxRequests > 0 && Capacity(c) >= 2 && Rounded(c, rs, k)
    ensures Rounded(c, rs + [Request(0, Label(2 * k))] + [Request(Far(c, k + 1), Label(2 * k + 1))], k + 1)
  {
    hide Step, Retained, Fresh, Capacity, Far, CountWithin, AdmittedTimes;
    var sofar := rs + [Request(0, Label(2 * k))];
    FarAhead(c, k);
    RoundNow(c, rs, k);
    NewFamilyAdmitted(c, After(c, sofar), Far(c, k + 1), 2 * k + 1, []);
    OneMore(c, sofar, Request(Far(c, k + 1), Label(2 * k + 1)));
  }

  lemma DelayNow(c: Config, rs: seq<Request>, k: nat)
    requires c.Window() > 0 && c.maxRequests > 0 && Capacity(c) == 1 && Rounded(c, rs, k)
    ensures var u := After(c, rs + [Request(0, Label(2 * k))]);
      && Fresh(u, 2 * k + 1) && u.requests == [0]
      && (c.RetrySpacing() > 0 ==> Label(2 * k) in u.retryExpiry && u.retryExpiry[Label(2 * k)] == c.RetrySpacing())
      && CountWithin(AdmittedTimes(c, rs + [Request(0, Label(2 * k))]), 0, c.Window()) == k + 1
  {
    hide Step, Retained, Fresh, Capacity, Far;
    RetainedTwo(0, 0, 0 - c.Window());
    NewFamilyAdmitted(c, After(c, rs), 0, 2 * k, []);
    OneMore(c, rs, Request(0, Label(2 * k)));
  }

  lemma FreshLater(s: State, n: nat)
    requires Fresh(s, n)
    ensures Fresh(s, n + 1)
  {
  }

  /** Room for one and spacing beyond the window: one arrival, its refused repeat far ahead, and back again. */
  lemma RoundDelay(c: Config, rs: seq<Request>, k: nat)
    requires c.Window() > 0 && c.maxRequests > 0 && Capacity(c) == 1 && c.RetrySpacing() > c.Window() &&
             Rounded(c, rs, k)
    ensures Rounded(c, rs + [Request(0, Label(2 * k))] + [Request(c.Window() + 1, Label(2 * k))], k + 1)
  {
    hide Step, Retained, Fresh, Capacity, Far, CountWithin, AdmittedTimes;
    var sofar := rs + [Request(0, Label(2 * k))];
    var ahead := Request(c.Window() + 1, Label(2 * k));
    DelayNow(c, rs, k);
    DelayEmptiesLog(c, After(c, sofar), 2 * k);
    OneMore(c, sofar, ahead);
    FreshLater(After(c, sofar + [ahead]), 2 * k + 1);
  }

  lemma {:induction false} Rounds(c: Config, k: nat) returns (rs: seq<Request>)
    requires c.maxRequests > 0 && !ClockProof(c)
    ensures Rounded(c, rs, k)
  {
    hide Rounded;
    if k == 0 {
      rs := [];
      NoRounds(c);
    } else {
      rs := Rounds(c, k - 1);
      if Capacity(c) >= 2 {
        RoundTrip(c, rs, k - 1);
        rs := rs + [Request(0, Label(2 * (k - 1)))] + [Request(Far(c, k), Label(2 * (k - 1) + 1))];
      } else {
        RoundDelay(c, rs, k - 1);
        rs := rs + [Request(0, Label(2 * (k - 1)))] + [Request(c.Window() + 1, Label(2 * (k - 1)))];
      }
    }
  }

  lemma NoRounds(c: Config)
    requires c.maxRequests > 0
    ensures Rounded(c, [], 0)
  {
  }

  /** Every other configuration has a run whose clock steps back and whose window overflows, by any number. */
  lemma BackwardClockBreaksWindow(c: Config, excess: nat) returns (rs: seq<Request>)
    requires c.maxRequests > 0 && !ClockProof(c)
    ensures CountWithin(AdmittedTimes(c, rs), 0, c.Window()) == c.maxRequests + excess
  {
    rs := Rounds(c, c.maxRequests + excess);
  }

  /**
   * Whether the window bound survives an arbitrary clock is decided by the configuration alone: it does exactly when
   * there is no window, or the log has room for one arrival only and the retry spacing does not exceed the window.
   */
  lemma SafeUnderAnyClockIff(c: Config)
    requires c.maxRequests > 0
    ensures SafeUnderAnyClock(c) <==> ClockProof(c)
  {
    hide ClockProof, CountWithin, AdmittedTimes;
    if ClockProof(c) {
      forall rs, t ensures AdmittedFrom(c, rs, t) <= c.maxRequests { ClockProofIsSafe(c, rs, t); }
    } else {
      var rs := BackwardClockBreaksWindow(c, 1);
      assert AdmittedFrom(c, rs, 0) == CountWithin(AdmittedTimes(c, rs), 0, 0 + c.Window());
      assert AdmittedFrom(c, rs, 0) > c.maxRequests;
    }
  }

  lemma ClockProofIsSafe(c: Config, rs: seq<Request>, t: Instant)
    requires c.maxRequests > 0 && ClockProof(c)
    ensures CountWithin(AdmittedTimes(c, rs), t, t + c.Window()) <= c.maxRequests
  {
    hide Step, HoldsLast, CountWithin;
    if c.Window() == 0 {
      LogIsAllAdmitted(c, rs);
      LogBounded(c, rs);
      CountAtMostAll(AdmittedTimes(c, rs), t, t + c.Window());
    } else if rs != [] {
      RunHoldsLast(c, rs);
      SpreadCount(AdmittedTimes(c, rs), c.Window(), t);
    } else {
      CountAtMostAll([], t, t + c.Window());
    }
  }

  // ---- the verdict, from the earlier verdicts and the clock alone ----

  /** Request i got this verdict before request n, and what it started then has not run out. */
  ghost predicate Running(c: Config, rs: seq<Request>, n: nat, i: nat, v: Verdict, seconds: nat)
    requires n < |rs|
  {
    i < n && VerdictAt(c, rs, i) == v && rs[n].at < rs[i].at + seconds * TICKS_PER_SECOND
  }

  ghost predicate Quarantined(c: Config, rs: seq<Request>, n: nat)
    requires n < |rs|
  {
    exists i: nat :: Running(c, rs, n, i, PressureHalt, c.haltCooldownSeconds)
  }

  ghost predicate CoolingDown(c: Config, rs: seq<Request>, n: nat)
    requires n < |rs|
  {
    exists i: nat :: Running(c, rs, n, i, RateDeny, c.denyCooldownSeconds)
  }

  /** An earlier admitted request of the same family is not yet the retry spacing old. */
  ghost predicate Younger(c: Config, rs: seq<Request>, n: nat, i: nat)
    requires n < |rs|
  {
    i < n && VerdictAt(c, rs, i).Admitted? && rs[i].family == rs[n].family &&
    rs[n].at - rs[i].at < c.retrySpacingSeconds * TICKS_PER_SECOND
  }

  ghost predicate TooSoon(c: Config, rs: seq<Request>, n: nat)
    requires n < |rs|
  {
    exists i: nat :: Younger(c, rs, n, i)
  }

  /** How many earlier admitted arrivals the closed window that ends now holds; without a window, all of them. */
  ghost function LiveArrivals(c: Config, rs: seq<Request>, n: nat): nat
    requires n < |rs|
  {
    var ts := AdmittedTimes(c, rs[..n]);
    if c.windowSeconds > 0 then CountWithin(ts, rs[n].at - c.windowSeconds * TICKS_PER_SECOND, rs[n].at) else |ts|
  }

  lemma StepExpiries(c: Config, s: State, r: Request)
    ensures var (t, v) := Step(c, s, r);
      t.haltExpiry == if v.PressureHalt? then Some(r.at + c.HaltCooldown()) else Unexpired(s.haltExpiry, r.at)
    ensures var (t, v) := Step(c, s, r);
      t.denyExpiry == if v.RateDeny? then Some(r.at + c.DenyCooldown()) else Unexpired(s.denyExpiry, r.at)
    ensures Step(c, s, r).1.PressureHalt? ==> Unexpired(s.haltExpiry, r.at).None?
    ensures Step(c, s, r).1.RateDeny? ==> Unexpired(s.denyExpiry, r.at).None?
  {
    hide Retained;
  }

  lemma {:induction false} RetainedMembers(ts: seq<Instant>, cutoff: Instant)
    ensures forall x :: x in Retained(ts, cutoff) ==> x in ts
  {
    if ts == [] {
    } else {
      RetainedMembers(ts[1..], cutoff);
    }
  }

  /** A family's remembered arrivals are old ones, or the one just admitted. */
  lemma StepFamilies(c: Config, s: State, r: Request, f: Family)
    ensures var (t, v) := Step(c, s, r);
      forall x :: x in History(t.families, f) ==>
        x in History(s.families, f) || (v.Admitted? && f == r.family && x == r.at)
  {
    hide Retained;
    RetainedMembers(History(s.families, f), r.at - c.Window());
  }

  /** A spacing expiry is an old one, or is counted from an arrival of the family. */
  lemma StepRetries(c: Config, s: State, r: Request, f: Family)
    ensures var (t, v) := Step(c, s, r);
      f in t.retryExpiry ==>
        (f in s.retryExpiry && t.retryExpiry[f] == s.retryExpiry[f]) ||
        (v.Admitted? && f == r.family && t.retryExpiry[f] == r.at + c.RetrySpacing()) ||
        (exists x :: x in History(s.families, f) && t.retryExpiry[f] == x + c.RetrySpacing())
  {
    hide Retained;
    RetainedMembers(History(s.families, f), r.at - c.Window());
    var history := History(Expired(c, s, r).families, r.family);
    assert f == r.family ==> forall x :: x in history ==> x in History(s.families, f);
    assert history != [] ==> history[|history| - 1] in history;
  }

  lemma AfterNext(c: Config, rs: seq<Request>, n: nat)
    requires n < |rs|
    ensures After(c, rs[..n + 1]) == Step(c, After(c, rs[..n]), rs[n]).0
    ensures VerdictAt(c, rs, n) == Step(c, After(c, rs[..n]), rs[n]).1
  {
    hide Step;
    assert rs[..n + 1][..n] == rs[..n];
  }

  ghost predicate Started(c: Config, rs: seq<Request>, n: nat, i: nat, v: Verdict, until: Instant, lasts: nat)
    requires n <= |rs|
  {
    i < n && VerdictAt(c, rs, i) == v && until == rs[i].at + lasts
  }

  lemma {:induction false} HaltOrigin(c: Config, rs: seq<Request>, n: nat)
    requires n <= |rs|
    ensures var e := After(c, rs[..n]).haltExpiry;
      e.Some? ==> exists i: nat :: Started(c, rs, n, i, PressureHalt, e.value, c.HaltCooldown())
  {
    hide Step;
    if n == 0 {
    } else {
      AfterNext(c, rs, n - 1);
      StepExpiries(c, After(c, rs[..n - 1]), rs[n - 1]);
      var e := After(c, rs[..n]).haltExpiry;
      if e.Some? {
        if VerdictAt(c, rs, n - 1).PressureHalt? {
          assert Started(c, rs, n, n - 1, PressureHalt, e.value, c.HaltCooldown());
        } else {
          HaltOrigin(c, rs, n - 1);
          var i: nat :| Started(c, rs, n - 1, i, PressureHalt, e.value, c.HaltCooldown());
          assert Started(c, rs, n, i, PressureHalt, e.value, c.HaltCooldown());
        }
      }
    }
  }

  lemma {:induction false} DenyOrigin(c: Config, rs: seq<Request>, n: nat)
    requires n <= |rs|
    ensures var e := After(c, rs[..n]).denyExpiry;
      e.Some? ==> exists i: nat :: Started(c, rs, n, i, RateDeny, e.value, c.DenyCooldown())
  {
    hide Step;
    if n == 0 {
    } else {
      AfterNext(c, rs, n - 1);
      StepExpiries(c, After(c, rs[..n - 1]), rs[n - 1]);
      var e := After(c, rs[..n]).denyExpiry;
      if e.Some? {
        if VerdictAt(c, rs, n - 1).RateDeny? {
          assert Started(c, rs, n, n - 1, RateDeny, e.value, c.DenyCooldown());
        } else {
          DenyOrigin(c, rs, n - 1);
          var i: nat :| Started(c, rs, n - 1, i, RateDeny, e.value, c.DenyCooldown());
          assert Started(c, rs, n, i, RateDeny, e.value, c.DenyCooldown());
        }
      }
    }
  }

  lemma {:induction false} FamilyOrigin(c: Config, rs: seq<Request>, n: nat, f: Family, x: Instant)
    requires n <= |rs| && x in History(After(c, rs[..n]).families, f)
    ensures exists i: nat :: Started(c, rs, n, i, Admitted, x, 0) && rs[i].family == f
  {
    hide Step;
    if n == 0 {
      assert false;
    } else {
      AfterNext(c, rs, n - 1);
      StepFamilies(c, After(c, rs[..n - 1]), rs[n - 1], f);
      if x in History(After(c, rs[..n - 1]).families, f) {
        FamilyOrigin(c, rs, n - 1, f, x);
        var i: nat :| Started(c, rs, n - 1, i, Admitted, x, 0) && rs[i].family == f;
        assert Started(c, rs, n, i, Admitted, x, 0);
      } else {
        assert Started(c, rs, n, n - 1, Admitted, x, 0);
      }
    }
  }

  lemma {:induction false} RetryOrigin(c: Config, rs: seq<Request>, n: nat, f: Family)
    requires n <= |rs| && f in After(c, rs[..n]).retryExpiry
    ensures exists i: nat ::
      Started(c, rs, n, i, Admitted, After(c, rs[..n]).retryExpiry[f], c.RetrySpacing()) && rs[i].family == f
  {
    hide Step, History;
    if n == 0 {
      assert false;
    } else {
      var s, until := After(c, rs[..n - 1]), After(c, rs[..n]).retryExpiry[f];
      AfterNext(c, rs, n - 1);
      StepRetries(c, s, rs[n - 1], f);
      if f in s.retryExpiry && until == s.retryExpiry[f] {
        RetryOrigin(c, rs, n - 1, f);
        var i: nat :| Started(c, rs, n - 1, i, Admitted, until, c.RetrySpacing()) && rs[i].family == f;
        assert Started(c, rs, n, i, Admitted, until, c.RetrySpacing());
      } else if x :| x in History(s.families, f) && until == x + c.RetrySpacing() {
        FamilyOrigin(c, rs, n - 1, f, x);
        var i: nat :| Started(c, rs, n - 1, i, Admitted, x, 0) && rs[i].family == f;
        assert Started(c, rs, n, i, Admitted, until, c.RetrySpacing());
      } else {
        assert Started(c, rs, n, n - 1, Admitted, until, c.RetrySpacing());
      }
    }
  }

  lemma {:induction false} HaltKept(c: Config, rs: seq<Request>, n: nat, i: nat)
    requires ClockNondecreasing(rs) && i < n <= |rs| && VerdictAt(c, rs, i).PressureHalt?
    ensures var until := rs[i].at + c.HaltCooldown();
      rs[n - 1].at >= until || After(c, rs[..n]).haltExpiry == Some(until)
    decreases n
  {
    hide Step;
    AfterNext(c, rs, n - 1);
    StepExpiries(c, After(c, rs[..n - 1]), rs[n - 1]);
    if n == i + 1 {
    } else {
      HaltKept(c, rs, n - 1, i);
      assert rs[n - 2].at <= rs[n - 1].at;
    }
  }

  lemma {:induction false} DenyKept(c: Config, rs: seq<Request>, n: nat, i: nat)
    requires ClockNondecreasing(rs) && i < n <= |rs| && VerdictAt(c, rs, i).RateDeny?
    ensures var until := rs[i].at + c.DenyCooldown();
      rs[n - 1].at >= until || After(c, rs[..n]).denyExpiry == Some(until)
    decreases n
  {
    hide Step;
    AfterNext(c, rs, n - 1);
    StepExpiries(c, After(c, rs[..n - 1]), rs[n - 1]);
    if n == i + 1 {
    } else {
      DenyKept(c, rs, n - 1, i);
      assert rs[n - 2].at <= rs[n - 1].at;
    }
  }

  lemma QuarantineIsRemembered(c: Config, rs: seq<Request>, n: nat)
    requires ClockNondecreasing(rs) && n < |rs|
    ensures Unexpired(After(c, rs[..n]).haltExpiry, rs[n].at).Some? <==> Quarantined(c, rs, n)
  {
    hide After, VerdictAt;
    var e := After(c, rs[..n]).haltExpiry;
    HaltOrigin(c, rs, n);
    if Unexpired(e, rs[n].at).Some? {
      var i: nat :| Started(c, rs, n, i, PressureHalt, e.value, c.HaltCooldown());
      assert Running(c, rs, n, i, PressureHalt, c.haltCooldownSeconds);
    }
    if i: nat :| Running(c, rs, n, i, PressureHalt, c.haltCooldownSeconds) {
      HaltKept(c, rs, n, i);
      assert rs[n - 1].at <= rs[n].at;
    }
  }

  lemma CooldownIsRemembered(c: Config, rs: seq<Request>, n: nat)
    requires ClockNondecreasing(rs) && n < |rs|
    ensures Unexpired(After(c, rs[..n]).denyExpiry, rs[n].at).Some? <==> CoolingDown(c, rs, n)
  {
    hide After, VerdictAt;
    var e := After(c, rs[..n]).denyExpiry;
    DenyOrigin(c, rs, n);
    if Unexpired(e, rs[n].at).Some? {
      var i: nat :| Started(c, rs, n, i, RateDeny, e.value, c.DenyCooldown());
      assert Running(c, rs, n, i, RateDeny, c.denyCooldownSeconds);
    }
    if i: nat :| Running(c, rs, n, i, RateDeny, c.denyCooldownSeconds) {
      DenyKept(c, rs, n, i);
      assert rs[n - 1].at <= rs[n].at;
    }
  }

  /** Spacing that applies to a request is remembered as such, and the remembered arrivals add nothing to it. */
  lemma SpacingIsRemembered(c: Config, rs: seq<Request>, n: nat)
    requires ClockNondecreasing(rs) && n < |rs|
    ensures var s, f := After(c, rs[..n]), rs[n].family;
      (f in s.retryExpiry && s.retryExpiry[f] > rs[n].at <==> TooSoon(c, rs, n)) &&
      ((exists x :: x in History(s.families, f) && x + c.RetrySpacing() > rs[n].at) ==> TooSoon(c, rs, n))
  {
    hide After, VerdictAt;
    var s, f := After(c, rs[..n]), rs[n].family;
    if f in s.retryExpiry && s.retryExpiry[f] > rs[n].at {
      RetryOrigin(c, rs, n, f);
      var i: nat :| Started(c, rs, n, i, Admitted, s.retryExpiry[f], c.RetrySpacing()) && rs[i].family == f;
      assert Younger(c, rs, n, i);
    }
    if i: nat :| Younger(c, rs, n, i) {
      assert rs[i].at <= rs[n].at && rs[n - 1].at <= rs[n].at;
      SpacingRemembered(c, rs, i, n);
    }
    if x :| x in History(s.families, f) && x + c.RetrySpacing() > rs[n].at {
      FamilyOrigin(c, rs, n, f, x);
      var i: nat :| Started(c, rs, n, i, Admitted, x, 0) && rs[i].family == f;
      assert Younger(c, rs, n, i);
    }
  }

  lemma {:induction false} RetainedIsCount(ts: seq<Instant>, lo: Instant, hi: Instant)
    requires AtMost(ts, hi)
    ensures |Retained(ts, lo)| == CountWithin(ts, lo, hi)
  {
    if ts == [] {
    } else {
      RetainedIsCount(ts[1..], lo, hi);
    }
  }

  lemma {:induction false} AdmittedAtMost(c: Config, rs: seq<Request>, hi: Instant)
    requires forall i :: 0 <= i < |rs| ==> rs[i].at <= hi
    ensures AtMost(AdmittedTimes(c, rs), hi)
  {
    hide VerdictAt;
    if rs == [] {
    } else {
      AdmittedAtMost(c, rs[..|rs| - 1], hi);
    }
  }

  /** What is left of the log when a request comes are the live arrivals. */
  lemma LogHoldsLiveArrivals(c: Config, rs: seq<Request>, n: nat)
    requires ClockNondecreasing(rs) && n < |rs|
    ensures |Pruned(c, After(c, rs[..n]), rs[n].at).requests| == LiveArrivals(c, rs, n)
  {
    hide After, VerdictAt, AdmittedTimes, Retained, CountWithin;
    var init, ts := rs[..n], AdmittedTimes(c, rs[..n]);
    assert forall i :: 0 <= i < n ==> rs[i].at <= rs[n].at;
    AdmittedAtMost(c, init, rs[n].at);
    if c.Window() > 0 { RetainedIsCount(ts, rs[n].at - c.Window(), rs[n].at); }
    if n == 0 {
      EmptyRun(c);
      assert init == [];
      NothingInWindow(c, rs[n].at);
    } else {
      LogIsAdmittedWindow(c, init);
      if c.Window() > 0 { RetainedTwice(ts, rs[n - 1].at - c.Window(), rs[n].at - c.Window()); }
    }
  }

  lemma EmptyRun(c: Config)
    ensures After(c, []) == INITIAL && AdmittedTimes(c, []) == []
  {
  }

  /** The verdict of a step, from what is left after pruning and expiry. */
  lemma VerdictOfStep(c: Config, s: State, r: Request, halted: bool, soon: bool, cooling: bool, live: nat)
    requires halted <==> Unexpired(s.haltExpiry, r.at).Some?
    requires cooling <==> Unexpired(s.denyExpiry, r.at).Some?
    requires soon <==> r.family in s.retryExpiry && s.retryExpiry[r.family] > r.at
    requires (exists x :: x in History(s.families, r.family) && x + c.RetrySpacing() > r.at) ==> soon
    requires live == |Pruned(c, s, r.at).requests|
    ensures Step(c, s, r).1 == VerdictFrom(c, halted, soon, cooling, live)
  {
    hide Retained;
    RetainedMembers(History(s.families, r.family), r.at - c.Window());
    var history := History(Expired(c, s, r).families, r.family);
    assert forall x :: x in history ==> x in History(s.families, r.family);
    assert history != [] ==> history[|history| - 1] in history;
  }

  /** Quarantine before spacing before cooldown before pressure before rate; a default threshold is never reached. */
  function VerdictFrom(c: Config, halted: bool, soon: bool, cooling: bool, live: nat): Verdict {
    if halted then QuarantineHalt
    else if soon then SpacingDelay
    else if cooling then CooldownDeny
    else if (if c.haltThreshold > 0 then live >= c.haltThreshold else 0 < c.maxRequests < live) then PressureHalt
    else if 0 < c.maxRequests <= live then RateDeny
    else Admitted
  }

  /**
   * Under a clock that never goes back the verdict on a request is decided by the earlier verdicts and times: it is
   * quarantined while a pressure HALT lasts, delayed while an admitted request of its family is too young, denied while
   * a rate DENY lasts, and otherwise halted, denied or admitted as the live arrivals leave room.
   */
  lemma VerdictIs(c: Config, rs: seq<Request>, n: nat)
    requires ClockNondecreasing(rs) && n < |rs|
    ensures VerdictAt(c, rs, n) ==
      VerdictFrom(c, Quarantined(c, rs, n), TooSoon(c, rs, n), CoolingDown(c, rs, n), LiveArrivals(c, rs, n))
  {
    hide Step, After, Quarantined, TooSoon, CoolingDown, LiveArrivals, VerdictFrom, Pruned;
    QuarantineIsRemembered(c, rs, n);
    SpacingIsRemembered(c, rs, n);
    CooldownIsRemembered(c, rs, n);
    LogHoldsLiveArrivals(c, rs, n);
    VerdictOfStep(c, After(c, rs[..n]), rs[n], Quarantined(c, rs, n), TooSoon(c, rs, n), CoolingDown(c, rs, n),
      LiveArrivals(c, rs, n));
  }

  /** So a request is admitted exactly when no cooldown runs, the window has room, and its family has waited. */
  lemma AdmittedIff(c: Config, rs: seq<Request>, n: nat)
    requires ClockNondecreasing(rs) && n < |rs|
    ensures VerdictAt(c, rs, n).Admitted? <==>
      && (forall i: nat :: !Running(c, rs, n, i, PressureHalt, c.haltCooldownSeconds))
      && (forall i: nat :: !Running(c, rs, n, i, RateDeny, c.denyCooldownSeconds))
      && (forall i: nat :: !Younger(c, rs, n, i))
      && (c.maxRequests > 0 ==> LiveArrivals(c, rs, n) < c.maxRequests)
      && (c.haltThreshold > 0 ==> LiveArrivals(c, rs, n) < c.haltThreshold)
  {
    hide VerdictAt, LiveArrivals;
    VerdictIs(c, rs, n);
  }
}
