/** What the limitations, gaps, contradictions and provenance of a state ping say, entry by entry. */
module PingReport {
  import opened Wrappers
  import opened Orders
  import opened Keyed
  import opened StatePing

  // ---- puts into a dictionary ----

  ghost predicate HasKey<V>(puts: seq<Put<V>>, k: GapKey) { exists p :: p in puts && p.key == k }

  /** What the puts leave under a key. */
  ghost function Found<V>(puts: seq<Put<V>>, k: GapKey): Option<V> {
    var m := PutAll(map[], puts);
    if k in m then Some(m[k]) else None
  }

  lemma {:induction false} PutKeys<V>(m: map<GapKey, V>, puts: seq<Put<V>>, k: GapKey)
    ensures k in PutAll(m, puts) <==> k in m || HasKey(puts, k)
  {
    if puts == [] {
    } else {
      var init, last := puts[..|puts| - 1], puts[|puts| - 1];
      PutKeys(m, init, k);
      assert puts == init + [last];
      if HasKey(puts, k) && last.key != k {
        var p :| p in puts && p.key == k;
        assert p in init;
      }
      if HasKey(init, k) {
        var p :| p in init && p.key == k;
        assert p in puts;
      }
    }
  }

  /** What was there before shows only where nothing is put. */
  lemma {:induction false} PutOver<V>(m: map<GapKey, V>, puts: seq<Put<V>>, k: GapKey)
    ensures HasKey(puts, k) ==> k in PutAll(m, puts) && Found(puts, k) == Some(PutAll(m, puts)[k])
    ensures !HasKey(puts, k) && k in m ==> k in PutAll(m, puts) && PutAll(m, puts)[k] == m[k]
  {
    if puts == [] {
    } else {
      var init, last := puts[..|puts| - 1], puts[|puts| - 1];
      PutOver(m, init, k);
      PutKeys(m, puts, k);
      PutKeys(map[], puts, k);
      assert last in puts && puts == init + [last];
      if HasKey(puts, k) && last.key != k {
        var p :| p in puts && p.key == k;
        assert p in init;
      }
      if HasKey(init, k) {
        var p :| p in init && p.key == k;
        assert p in puts;
      }
    }
  }

  /** Later puts win over earlier ones. */
  lemma PutBoth<V>(a: seq<Put<V>>, b: seq<Put<V>>, k: GapKey)
    ensures HasKey(a + b, k) <==> HasKey(a, k) || HasKey(b, k)
    ensures HasKey(b, k) ==> Found(a + b, k) == Found(b, k)
    ensures !HasKey(b, k) ==> Found(a + b, k) == Found(a, k)
  {
    PutAllAppend(map[], a, b);
    PutOver(PutAll(map[], a), b, k);
    PutKeys(map[], a, k);
    PutKeys(map[], a + b, k);
    if HasKey(a + b, k) {
      var p :| p in a + b && p.key == k;
      assert p in a || p in b;
    }
    if HasKey(a, k) { var p :| p in a && p.key == k; assert p in a + b; }
    if HasKey(b, k) { var p :| p in b && p.key == k; assert p in a + b; }
  }

  /** Puts under one key that all carry one value leave it there. */
  lemma {:induction false} PutSame<V>(puts: seq<Put<V>>, k: GapKey, v: V)
    requires HasKey(puts, k) && forall p :: p in puts && p.key == k ==> p.value == v
    ensures Found(puts, k) == Some(v)
  {
    var init, last := puts[..|puts| - 1], puts[|puts| - 1];
    assert puts == init + [last];
    if last.key != k {
      var p :| p in puts && p.key == k;
      assert p in init;
      PutSame(init, k, v);
    }
  }

  /** Of the elements of a list that put something under a key, the last one decides. */
  lemma {:induction false} LastPuts<X, V>(s: seq<X>, f: X -> seq<Put<V>>, i: nat, k: GapKey)
    requires i < |s| && HasKey(f(s[i]), k) && forall j :: i < j < |s| ==> !HasKey(f(s[j]), k)
    ensures HasKey(Each(s, f), k) && Found(Each(s, f), k) == Found(f(s[i]), k)
    decreases |s|
  {
    var last := |s| - 1;
    PutBoth(Each(s[..last], f), f(s[last]), k);
    PutKeys(map[], f(s[i]), k);
    PutKeys(map[], Each(s, f), k);
    if i < last {
      assert forall j :: i < j < |s[..last]| ==> s[..last][j] == s[j];
      LastPuts(s[..last], f, i, k);
    }
  }

  lemma EachHasKey<X, V>(s: seq<X>, f: X -> seq<Put<V>>, k: GapKey)
    ensures HasKey(Each(s, f), k) <==> exists x :: x in s && HasKey(f(x), k)
  {
    if HasKey(Each(s, f), k) {
      var p :| p in Each(s, f) && p.key == k;
      EachIs(s, f, p);
      var i :| 0 <= i < |s| && p in f(s[i]);
      assert s[i] in s && HasKey(f(s[i]), k);
    }
    if x :| x in s && HasKey(f(x), k) {
      var p :| p in f(x) && p.key == k;
      EachIs(s, f, p);
      var i :| 0 <= i < |s| && s[i] == x;
      assert p in Each(s, f);
    }
  }

  /** When only one element puts under a key, it decides. */
  lemma OnlyPuts<X, V>(s: seq<X>, f: X -> seq<Put<V>>, x: X, k: GapKey)
    requires x in s && HasKey(f(x), k) && forall y :: y in s && HasKey(f(y), k) ==> y == x
    ensures HasKey(Each(s, f), k) && Found(Each(s, f), k) == Found(f(x), k)
  {
    var i := LastIndex(s, x);
    forall j | i < j < |s| ensures !HasKey(f(s[j]), k) { assert s[j] in s; }
    LastPuts(s, f, i, k);
  }

  lemma {:induction false} LastIndex<X>(s: seq<X>, x: X) returns (i: nat)
    requires x in s
    ensures i < |s| && s[i] == x && forall j :: i < j < |s| ==> s[j] != x
  {
    var last := |s| - 1;
    if s[last] == x {
      i := last;
    } else {
      assert s == s[..last] + [s[last]];
      i := LastIndex(s[..last], x);
      assert forall j :: i < j < last ==> s[..last][j] == s[j];
    }
  }

  // ---- the words and tests the reports are made of ----

  lemma TermsAre(entries: map<string, SourceEntry>, o: Observation, impact: Impact)
    ensures Eligible(entries, o) <==>
              (o.status.Observed? || o.status.Stale?) && o.source in entries && entries[o.source].usable
    ensures Weighty(impact) <==> impact.Material? || impact.Indeterminate?
    ensures StatusText(o.status) == (match o.status
                                     case Observed => "observed"
                                     case Stale => "stale"
                                     case Unavailable => "unavailable"
                                     case Rejected => "rejected"
                                     case Unknown => "unknown")
    ensures VerificationText(o.verification) == (match o.verification
                                                 case Verified => "verified"
                                                 case Unverified => "unverified"
                                                 case VerificationFailed => "verification_failed"
                                                 case NotApplicable => "not_applicable")
  {
  }

  // ---- limitations ----

  /** A limitation an observation declares, under its own key. */
  ghost predicate Declares(all: seq<Observation>, o: Observation, i: nat, k: GapKey) {
    o in all && i < |o.limitations| && k == Parts([o.source, o.id, o.limitations[i].id])
  }

  ghost predicate Excluded(all: seq<Observation>, o: Observation, k: GapKey, text: string) {
    o in all && !o.status.Observed? && !o.status.Stale? && k == Parts(["excluded-source", o.id]) &&
    text == "Source " + o.source + " was excluded from positive evidence because its status is "
      + StatusText(o.status) + "."
  }

  ghost predicate Ineligible(entries: map<string, SourceEntry>, all: seq<Observation>, o: Observation, k: GapKey,
      text: string) {
    o in all && (o.status.Observed? || o.status.Stale?) && !Eligible(entries, o) &&
    k == Parts(["ineligible-source", o.id]) &&
    text == "Source " + o.source + " was excluded from positive evidence because " +
            (if o.source !in entries then "no matching RP3 source entry was supplied"
             else "the matching RP3 source entry is not configuration-eligible") + "."
  }

  ghost predicate ReportsStale(entries: map<string, SourceEntry>, all: seq<Observation>, o: Observation, k: GapKey,
      text: string) {
    o in all && Eligible(entries, o) && o.status.Stale? && k == Parts(["stale-source", o.id]) &&
    text == "Contributing source " + o.source + " explicitly reports stale status."
  }

  ghost predicate ReportsUnverified(entries: map<string, SourceEntry>, all: seq<Observation>, o: Observation, k: GapKey,
      text: string) {
    o in all && Eligible(entries, o) && !o.verification.Verified? &&
    k == Parts(["verification", o.id, VerificationText(o.verification)]) &&
    text == "Contributing source " + o.source + " retains verification status " + VerificationText(o.verification) + "."
  }

  /** A note about one observation: it was excluded, ineligible, stale or not verified. */
  ghost predicate NoteOf(entries: map<string, SourceEntry>, all: seq<Observation>, o: Observation, k: GapKey,
      text: string) {
    Excluded(all, o, k, text) || Ineligible(entries, all, o, k, text) || ReportsStale(entries, all, o, k, text) ||
    ReportsUnverified(entries, all, o, k, text)
  }

  ghost predicate IdsTell(all: seq<Observation>) { forall o, p :: o in all && p in all && o.id == p.id ==> o == p }

  lemma IdsTellApart(subject: string, all: seq<Observation>)
    requires Accepts(subject, all)
    ensures IdsTell(all)
  {
    forall o, p | o in all && p in all && o.id == p.id ensures o == p {
      var i :| 0 <= i < |all| && all[i] == o;
      var j :| 0 <= j < |all| && all[j] == p;
    }
  }

  lemma NoteWords()
    ensures "excluded-source" != "ineligible-source" && "excluded-source" != "stale-source"
    ensures "ineligible-source" != "stale-source"
  {
    assert "excluded-source"[0] == 'e' && "ineligible-source"[0] == 'i' && "stale-source"[0] == 's';
  }

  lemma KeyParts(k: GapKey, a: seq<string>)
    ensures k == Parts(a) ==> |k.parts| == |a| && forall i :: 0 <= i < |a| ==> k.parts[i] == a[i]
  {
  }

  /** A key has at most one note. */
  lemma NotesAgree(entries: map<string, SourceEntry>, all: seq<Observation>, o: Observation, p: Observation, k: GapKey,
      text: string, other: string)
    requires IdsTell(all) && NoteOf(entries, all, o, k, text) && NoteOf(entries, all, p, k, other)
    ensures o == p && text == other
  {
    NoteWords();
    KeyParts(k, ["excluded-source", o.id]);
    assert k.Parts? && k.parts[1] == o.id == p.id;
    assert k.parts[0] in {"excluded-source", "ineligible-source", "stale-source", "verification"};
    assert |k.parts| == 2 || |k.parts| == 3;
  }

  /** The puts of the note sections are the notes. */
  ghost function NotePuts(all: seq<Observation>, entries: map<string, SourceEntry>): seq<Put<Remark>> {
    Each(Select(all, ExcludedOnes()), ExcludedNotes)
      + Each(Select(all, IneligibleOnes(entries)), IneligibleNotes(entries)) +
    Each(Select(all, EligibleOnes(entries)), PositiveNotes)
  }

  lemma OwnNotes(entries: map<string, SourceEntry>, all: seq<Observation>, o: Observation, p: Put<Remark>)
    requires o in all
    ensures !Positive(o) ==>
              (p in ExcludedNotes(o) <==>
                exists text :: Excluded(all, o, p.key, text) && p.value == Remark(text, Material))
    ensures Positive(o) && !Eligible(entries, o) ==>
              (p in IneligibleNotes(entries)(o) <==>
                exists text :: Ineligible(entries, all, o, p.key, text) && p.value == Remark(text, Material))
    ensures Eligible(entries, o) ==>
              (p in PositiveNotes(o) <==>
                exists text :: (ReportsStale(entries, all, o, p.key, text) ||
                  ReportsUnverified(entries, all, o, p.key, text)) &&
                               p.value == Remark(text, Material))
  {
    hide StatusText, VerificationText;
    if !Positive(o) {
      assert Excluded(all, o, Parts(["excluded-source", o.id]), ExcludedReason(o));
    } else if !Eligible(entries, o) {
      assert Ineligible(entries, all, o, Parts(["ineligible-source", o.id]), IneligibleReason(entries, o));
    } else {
      if o.status.Stale? { assert ReportsStale(entries, all, o, Parts(["stale-source", o.id]), StaleReason(o)); }
      if !o.verification.Verified? {
        assert ReportsUnverified(entries, all, o, Parts(["verification", o.id, VerificationText(o.verification)]),
          VerificationReason(o));
      }
    }
  }

  /** The note sections put exactly the notes. */
  lemma NotePutsAre(entries: map<string, SourceEntry>, all: seq<Observation>, p: Put<Remark>)
    ensures p in NotePuts(all, entries) <==>
              exists o, text :: NoteOf(entries, all, o, p.key, text) && p.value == Remark(text, Material)
  {
    hide Each, Select, Eligible, Excluded, Ineligible, ReportsStale, ReportsUnverified, ExcludedNotes, IneligibleNotes,
      PositiveNotes;
    var excluded, ineligible, eligible := Select(all, ExcludedOnes()), Select(all, IneligibleOnes(entries)),
      Select(all, EligibleOnes(entries));
    SelectIs(all, ExcludedOnes());
    SelectIs(all, IneligibleOnes(entries));
    SelectIs(all, EligibleOnes(entries));
    EachIs(excluded, ExcludedNotes, p);
    EachIs(ineligible, IneligibleNotes(entries), p);
    EachIs(eligible, PositiveNotes, p);
    EligibleIsPositive(entries);
    forall o | o in all { OwnNotes(entries, all, o, p); }
    if p in NotePuts(all, entries) {
      NoteFrom(entries, all, p);
    }
    if o, text :| NoteOf(entries, all, o, p.key, text) && p.value == Remark(text, Material) {
      NoteIsOf(entries, all, o, p.key, text);
      if Excluded(all, o, p.key, text) { var i :| 0 <= i < |excluded| && excluded[i] == o; }
      else if Ineligible(entries, all, o, p.key, text) { var i :| 0 <= i < |ineligible| && ineligible[i] == o; }
      else { var i :| 0 <= i < |eligible| && eligible[i] == o; }
    }
  }

  lemma NoteIsOf(entries: map<string, SourceEntry>, all: seq<Observation>, o: Observation, k: GapKey, text: string)
    requires NoteOf(entries, all, o, k, text)
    ensures o in all
    ensures Excluded(all, o, k, text) ==> !Positive(o)
    ensures Ineligible(entries, all, o, k, text) ==> Positive(o) && !Eligible(entries, o)
    ensures ReportsStale(entries, all, o, k, text) || ReportsUnverified(entries, all, o, k, text) ==>
              Eligible(entries, o)
  {
    hide Eligible;
  }

  lemma NoteFrom(entries: map<string, SourceEntry>, all: seq<Observation>, p: Put<Remark>)
    requires p in NotePuts(all, entries)
    ensures exists o, text :: NoteOf(entries, all, o, p.key, text) && p.value == Remark(text, Material)
  {
    hide Each, Select, Eligible, Excluded, Ineligible, ReportsStale, ReportsUnverified, ExcludedNotes, IneligibleNotes,
      PositiveNotes;
    var excluded, ineligible, eligible := Select(all, ExcludedOnes()), Select(all, IneligibleOnes(entries)),
      Select(all, EligibleOnes(entries));
    SelectIs(all, ExcludedOnes());
    SelectIs(all, IneligibleOnes(entries));
    SelectIs(all, EligibleOnes(entries));
    EachIs(excluded, ExcludedNotes, p);
    EachIs(ineligible, IneligibleNotes(entries), p);
    EachIs(eligible, PositiveNotes, p);
    EligibleIsPositive(entries);
    if p in Each(excluded, ExcludedNotes) {
      var i :| 0 <= i < |excluded| && p in ExcludedNotes(excluded[i]);
      assert excluded[i] in excluded;
      OwnNotes(entries, all, excluded[i], p);
      var text :| Excluded(all, excluded[i], p.key, text) && p.value == Remark(text, Material);
      assert NoteOf(entries, all, excluded[i], p.key, text);
    } else if p in Each(ineligible, IneligibleNotes(entries)) {
      var i :| 0 <= i < |ineligible| && p in IneligibleNotes(entries)(ineligible[i]);
      assert ineligible[i] in ineligible;
      OwnNotes(entries, all, ineligible[i], p);
      var text :| Ineligible(entries, all, ineligible[i], p.key, text) && p.value == Remark(text, Material);
      assert NoteOf(entries, all, ineligible[i], p.key, text);
    } else {
      var i :| 0 <= i < |eligible| && p in PositiveNotes(eligible[i]);
      assert eligible[i] in eligible;
      OwnNotes(entries, all, eligible[i], p);
      var text :| (ReportsStale(entries, all, eligible[i], p.key, text) ||
        ReportsUnverified(entries, all, eligible[i], p.key, text)) &&
        p.value == Remark(text, Material);
      assert NoteOf(entries, all, eligible[i], p.key, text);
    }
  }

  /** No later limitation of the observation has the same id. */
  ghost predicate LastOfId(o: Observation, i: nat) {
    i < |o.limitations| && forall j :: i < j < |o.limitations| ==> o.limitations[j].id != o.limitations[i].id
  }

  function LimitPut(o: Observation, l: Limitation): Put<Remark> {
    Put(Parts([o.source, o.id, l.id]), Remark(l.description, l.impact))
  }

  lemma LimitPutsAre(o: Observation, k: GapKey)
    ensures HasKey(LimitPuts(o), k) <==>
              exists i: nat :: i < |o.limitations| && k == Parts([o.source, o.id, o.limitations[i].id])
    ensures forall i: nat :: LastOfId(o, i) && k == Parts([o.source, o.id, o.limitations[i].id]) ==>
              Found(LimitPuts(o), k) == Some(Remark(o.limitations[i].description, o.limitations[i].impact))
  {
    hide Each;
    var f := (l: Limitation) => [LimitPut(o, l)];
    assert LimitPuts(o) == Each(o.limitations, f) by { LimitPutsEach(o); }
    EachHasKey(o.limitations, f, k);
    forall l ensures HasKey(f(l), k) <==> k == Parts([o.source, o.id, l.id]) { assert LimitPut(o, l) in f(l); }
    if i: nat :| i < |o.limitations| && k == Parts([o.source, o.id, o.limitations[i].id]) {
      assert o.limitations[i] in o.limitations;
    }
    if x :| x in o.limitations && HasKey(f(x), k) { var i :| 0 <= i < |o.limitations| && o.limitations[i] == x; }
    forall i: nat | LastOfId(o, i) && k == Parts([o.source, o.id, o.limitations[i].id])
      ensures Found(LimitPuts(o), k) == Some(Remark(o.limitations[i].description, o.limitations[i].impact))
    {
      forall j | i < j < |o.limitations| ensures !HasKey(f(o.limitations[j]), k) {
        assert Parts([o.source, o.id, o.limitations[j].id]).parts[2] != k.parts[2];
      }
      LastPuts(o.limitations, f, i, k);
      OnePut(LimitPut(o, o.limitations[i]));
    }
  }

  lemma LimitPutsEach(o: Observation)
    ensures LimitPuts(o) == Each(o.limitations, (l: Limitation) => [LimitPut(o, l)])
  {
    EachSame(o.limitations, (l: Limitation) => [Put(Parts([o.source, o.id, l.id]), Remark(l.description, l.impact))],
      (l: Limitation) => [LimitPut(o, l)]);
  }

  lemma {:induction false} EachSame<X(!new), Y>(s: seq<X>, f: X -> seq<Y>, g: X -> seq<Y>)
    requires forall x :: f(x) == g(x)
    ensures Each(s, f) == Each(s, g)
  {
    if s == [] {
    } else {
      EachSame(s[..|s| - 1], f, g);
    }
  }

  lemma OnePut<V>(p: Put<V>)
    ensures Found([p], p.key) == Some(p.value)
  {
    assert [p][..0] == [];
  }

  /** A declared key belongs to one observation. */
  lemma DeclaredBy(all: seq<Observation>, o: Observation, p: Observation, i: nat, j: nat, k: GapKey)
    requires IdsTell(all) && Declares(all, o, i, k) && Declares(all, p, j, k)
    ensures o == p
  {
    assert k.parts[1] == o.id == p.id;
  }

  ghost predicate Noted(entries: map<string, SourceEntry>, all: seq<Observation>, k: GapKey) {
    exists o, text :: NoteOf(entries, all, o, k, text)
  }

  lemma NotesFound(entries: map<string, SourceEntry>, all: seq<Observation>, k: GapKey)
    requires IdsTell(all)
    ensures HasKey(NotePuts(all, entries), k) <==> Noted(entries, all, k)
    ensures forall o, text :: NoteOf(entries, all, o, k, text) ==>
              Found(NotePuts(all, entries), k) == Some(Remark(text, Material))
  {
    hide NotePuts, NoteOf, IdsTell;
    forall p { NotePutsAre(entries, all, p); }
    if Noted(entries, all, k) {
      var o, text :| NoteOf(entries, all, o, k, text);
      assert Put(k, Remark(text, Material)) in NotePuts(all, entries);
    }
    forall o, text | NoteOf(entries, all, o, k, text)
      ensures Found(NotePuts(all, entries), k) == Some(Remark(text, Material)) {
      assert Put(k, Remark(text, Material)) in NotePuts(all, entries);
      forall p | p in NotePuts(all, entries) && p.key == k ensures p.value == Remark(text, Material) {
        var q, other :| NoteOf(entries, all, q, k, other) && p.value == Remark(other, Material);
        NotesAgree(entries, all, o, q, k, text, other);
      }
      PutSame(NotePuts(all, entries), k, Remark(text, Material));
    }
  }

  lemma DeclaredKeys(all: seq<Observation>, k: GapKey)
    ensures HasKey(Each(all, LimitPuts), k) <==> exists o, i: nat :: Declares(all, o, i, k)
  {
    hide Each, LimitPuts, HasKey;
    EachHasKey(all, LimitPuts, k);
    forall o { LimitPutsAre(o, k); }
    if o :| o in all && HasKey(LimitPuts(o), k) {
      var i: nat :| i < |o.limitations| && k == Parts([o.source, o.id, o.limitations[i].id]);
      assert Declares(all, o, i, k);
    }
    if o, i: nat :| Declares(all, o, i, k) { assert HasKey(LimitPuts(o), k); }
  }

  lemma DeclaredFound(all: seq<Observation>, o: Observation, i: nat, k: GapKey)
    requires IdsTell(all) && Declares(all, o, i, k) && LastOfId(o, i)
    ensures Found(Each(all, LimitPuts), k) == Some(Remark(o.limitations[i].description, o.limitations[i].impact))
  {
    hide Each, LimitPuts, LastOfId, IdsTell, HasKey, Found;
    LimitPutsAre(o, k);
    forall p | p in all && HasKey(LimitPuts(p), k) ensures p == o {
      LimitPutsAre(p, k);
      var j: nat :| j < |p.limitations| && k == Parts([p.source, p.id, p.limitations[j].id]);
      DeclaredBy(all, o, p, i, j, k);
    }
    OnlyPuts(all, LimitPuts, o, k);
  }

  lemma NotesSplit(all: seq<Observation>, entries: map<string, SourceEntry>)
    ensures Notes(all, entries) == Each(all, LimitPuts) + NotePuts(all, entries)
  {
    hide Each, Select;
  }

  lemma NoteIgnoresOrder(entries: map<string, SourceEntry>, all: seq<Observation>, observations: seq<Observation>)
    requires forall o :: o in all <==> o in observations
    ensures forall o, k, text :: NoteOf(entries, all, o, k, text) <==> NoteOf(entries, observations, o, k, text)
    ensures forall o, i, k :: Declares(all, o, i, k) <==> Declares(observations, o, i, k)
    ensures IdsTell(all) <==> IdsTell(observations)
  {
    hide Eligible, StatusText, VerificationText;
  }

  /**
   * What a dictionary of limitations says of a key: it is there exactly for a declaration or a note; a note is material
   * and wins over a declaration of the same key; of the declarations of one id the last one stands.
   */
  ghost predicate LimitSays(entries: map<string, SourceEntry>, all: seq<Observation>, lims: map<GapKey, Remark>,
      k: GapKey) {
    (k in lims <==> Noted(entries, all, k) || exists o, i: nat :: Declares(all, o, i, k)) &&
    (forall o, text :: NoteOf(entries, all, o, k, text) ==> k in lims && lims[k] == Remark(text, Material)) &&
    (forall o, i: nat :: Declares(all, o, i, k) && LastOfId(o, i) && !Noted(entries, all, k) ==>
      k in lims && lims[k] == Remark(o.limitations[i].description, o.limitations[i].impact))
  }

  lemma OrderedLimitations(entries: map<string, SourceEntry>, all: seq<Observation>, k: GapKey)
    requires IdsTell(all)
    ensures LimitSays(entries, all, PutAll(map[], Notes(all, entries)), k)
  {
    hide Each, Select, Notes, NotePuts, NoteOf, IdsTell, HasKey, PutAll, LimitPuts;
    var lims := PutAll(map[], Notes(all, entries));
    NotesSplit(all, entries);
    NotesFound(entries, all, k);
    DeclaredKeys(all, k);
    PutBoth(Each(all, LimitPuts), NotePuts(all, entries), k);
    PutKeys(map[], Notes(all, entries), k);
    forall o, i: nat | Declares(all, o, i, k) && LastOfId(o, i) && !Noted(entries, all, k)
      ensures k in lims && lims[k] == Remark(o.limitations[i].description, o.limitations[i].impact)
    {
      DeclaredFound(all, o, i, k);
    }
  }

  lemma LimitsForgetOrder(entries: map<string, SourceEntry>, all: seq<Observation>, observations: seq<Observation>,
      lims: map<GapKey, Remark>, k: GapKey)
    requires forall o :: o in all <==> o in observations
    requires LimitSays(entries, all, lims, k)
    ensures LimitSays(entries, observations, lims, k)
  {
    hide NoteOf, Declares, IdsTell, LastOfId;
    NoteIgnoresOrder(entries, all, observations);
  }

  lemma ContextOf(le: (EvidenceKey, EvidenceKey) -> bool, subject: string, observations: seq<Observation>,
      entries: seq<SourceEntry>)
    requires StatePing.StatePing(le, subject, observations, entries).Some?
    ensures EntriesById(entries).Some? && IdsTell(observations) && IdsTell(InOrder(observations))
    ensures forall o :: o in InOrder(observations) <==> o in observations
    ensures StatePing.StatePing(le, subject, observations, entries).value ==
              Accumulated(le, InOrder(observations), EntriesById(entries).value)
  {
    hide Accumulated, IdsTell, Accepts, EntriesById, InOrder;
    OrderKeepsMembers(observations);
    IdsTellApart(subject, observations);
    NoteIgnoresOrder(map[], InOrder(observations), observations);
  }

  /** The limitations of a result are the declarations of its observations and the notes about them. */
  lemma LimitationsAre(le: (EvidenceKey, EvidenceKey) -> bool, subject: string, observations: seq<Observation>,
      entries: seq<SourceEntry>, k: GapKey)
    requires StatePing.StatePing(le, subject, observations, entries).Some?
    ensures EntriesById(entries).Some?
    ensures var lims := StatePing.StatePing(le, subject, observations, entries).value.limitations;
            LimitSays(EntriesById(entries).value, observations, lims, k)
  {
    hide StatePing.StatePing, LimitSays, EntriesById, InOrder, PutAll, Notes, Gaps, Each, Select, Contradictions,
      StatusOf, SortBy,
      FreshnessOf, Marked, LevelOf, IdsTell;
    ContextOf(le, subject, observations, entries);
    var byId, all := EntriesById(entries).value, InOrder(observations);
    OrderedLimitations(byId, all, k);
    LimitsForgetOrder(byId, all, observations, PutAll(map[], Notes(all, byId)), k);
  }

  // ---- gaps ----

  lemma {:induction false} FoundFrom<V>(puts: seq<Put<V>>, k: GapKey)
    requires HasKey(puts, k)
    ensures exists p :: p in puts && p.key == k && Found(puts, k) == Some(p.value)
  {
    var init, last := puts[..|puts| - 1], puts[|puts| - 1];
    assert puts == init + [last];
    if last.key != k {
      var p :| p in puts && p.key == k;
      assert p in init;
      FoundFrom(init, k);
      var q :| q in init && q.key == k && Found(init, k) == Some(q.value);
      assert q in puts;
    } else {
      assert last in puts;
    }
  }

  lemma ChosenIs<Y>(all: seq<Observation>, chosen: Observation -> bool, f: Observation -> seq<Y>, y: Y)
    ensures y in Each(Select(all, chosen), f) <==> exists o :: o in all && chosen(o) && y in f(o)
  {
    SelectIs(all, chosen);
    var s := Select(all, chosen);
    EachIs(s, f, y);
    if y in Each(s, f) {
      var i :| 0 <= i < |s| && y in f(s[i]);
      assert s[i] in s;
    }
    if o :| o in all && chosen(o) && y in f(o) {
      var i :| 0 <= i < |s| && s[i] == o;
      assert y in f(s[i]);
    }
  }

  lemma EachMember<Y>(all: seq<Observation>, f: Observation -> seq<Y>, y: Y)
    ensures y in Each(all, f) <==> exists o :: o in all && y in f(o)
  {
    EachIs(all, f, y);
    if i :| 0 <= i < |all| && y in f(all[i]) { assert all[i] in all; }
    if o :| o in all && y in f(o) { var i :| 0 <= i < |all| && all[i] == o; }
  }

  /** A declared limitation that weighs on the result. */
  ghost predicate LimitGap(o: Observation, l: Limitation, k: GapKey, g: Gap) {
    l in o.limitations && (l.impact.Material? || l.impact.Indeterminate?) &&
    k == Parts(["input-limitation", o.id, l.id]) &&
    g == Gap(GapUnresolved, "source limitation", l.description, {o.source})
  }

  /** A claim of an eligible observation that was not observed. */
  ghost predicate ClaimGap(o: Observation, c: Claim, k: GapKey, g: Gap) {
    c in o.claims && !c.status.ClaimObserved? && k == Parts(["claim-status", o.id, c.id]) &&
    g == Gap(GapUnresolved, c.id,
             "The normalized claim status is " + (if c.status.ClaimUnresolved? then "unresolved" else "rejected") + ".",
             {o.source})
  }

  /** A note about an observation leaves a gap too. */
  ghost predicate NoteGap(entries: map<string, SourceEntry>, all: seq<Observation>, o: Observation, text: string,
      k: GapKey, g: Gap) {
    (Excluded(all, o, k, text) &&
     g == Gap(if o.status.Unavailable? then GapUnavailable else GapUnresolved, "current subject context", text,
              {o.source})) ||
    (Ineligible(entries, all, o, k, text) && g == Gap(GapUnresolved, "source eligibility", text, {o.source})) ||
    (ReportsStale(entries, all, o, k, text) &&
     g == Gap(GapUnresolved, "current source observation", text, {o.source})) ||
    (ReportsUnverified(entries, all, o, k, text) && g == Gap(GapUnresolved, "source verification", text, {o.source}))
  }

  /** The evidence, statements and sources of the eligible claims under one id. */
  ghost function ClaimEvidence(entries: map<string, SourceEntry>, all: seq<Observation>, claim: string)
    : set<EvidenceKey> {
    set o, c | o in all && Eligible(entries, o) && c in o.claims && c.id == claim ::
      EvidenceKey(o.id, o.source, c.id, c.statement)
  }

  ghost function ClaimStatements(entries: map<string, SourceEntry>, all: seq<Observation>, claim: string)
    : set<string> {
    set o, c | o in all && Eligible(entries, o) && c in o.claims && c.id == claim :: c.statement
  }

  ghost function ClaimSources(entries: map<string, SourceEntry>, all: seq<Observation>, claim: string): set<string> {
    set o, c | o in all && Eligible(entries, o) && c in o.claims && c.id == claim :: o.source
  }

  ghost function ContestOf(entries: map<string, SourceEntry>, all: seq<Observation>, claim: string): ContradictionKey {
    ContradictionKey(claim, ClaimEvidence(entries, all, claim), ClaimStatements(entries, all, claim))
  }

  ghost predicate ContestGap(entries: map<string, SourceEntry>, all: seq<Observation>, claim: string, k: GapKey,
      g: Gap) {
    Contested(entries, all, claim) && k == OfContradiction(ContestOf(entries, all, claim)) &&
    g == Gap(GapUnresolved, claim, "The cross-source contradiction remains unresolved.",
             ClaimSources(entries, all, claim))
  }

  lemma OwnLimitGaps(o: Observation, p: Put<Gap>)
    ensures p in LimitGaps(o) <==> exists l :: LimitGap(o, l, p.key, p.value)
  {
    var f := (l: Limitation) =>
      if Weighty(l.impact)
      then [Put(Parts(["input-limitation", o.id, l.id]),
        Gap(GapUnresolved, "source limitation", l.description, {o.source}))]
      else [];
    EachIs(o.limitations, f, p);
    if i :| 0 <= i < |o.limitations| && p in f(o.limitations[i]) {
      assert LimitGap(o, o.limitations[i], p.key, p.value);
    }
    if l :| LimitGap(o, l, p.key, p.value) {
      var i :| 0 <= i < |o.limitations| && o.limitations[i] == l;
      assert p in f(o.limitations[i]);
    }
  }

  lemma OwnClaimGaps(o: Observation, p: Put<Gap>)
    ensures p in ClaimGaps(o) <==> exists c :: ClaimGap(o, c, p.key, p.value)
  {
    hide ClaimsInOrder;
    ClaimsMembers(o);
    var s := ClaimsInOrder(o);
    var f := (c: Claim) =>
      if c.status.ClaimObserved? then []
      else [Put(Parts(["claim-status", o.id, c.id]),
                Gap(GapUnresolved, c.id, "The normalized claim status is " + ClaimStatusText(c.status) + ".",
                  {o.source}))];
    EachIs(s, f, p);
    if i :| 0 <= i < |s| && p in f(s[i]) { assert s[i] in s && ClaimGap(o, s[i], p.key, p.value); }
    if c :| ClaimGap(o, c, p.key, p.value) {
      var i :| 0 <= i < |s| && s[i] == c;
      assert p in f(s[i]);
    }
  }

  lemma OwnNoteGaps(entries: map<string, SourceEntry>, all: seq<Observation>, o: Observation, p: Put<Gap>)
    requires o in all
    ensures !Positive(o) ==> (p in ExcludedGaps(o) <==> exists text :: NoteGap(entries, all, o, text, p.key, p.value))
    ensures Positive(o) && !Eligible(entries, o) ==>
              (p in IneligibleGaps(entries)(o) <==> exists text :: NoteGap(entries, all, o, text, p.key, p.value))
    ensures Eligible(entries, o) ==>
              (p in StaleGaps(o) + VerificationGaps(o) <==>
                exists text :: NoteGap(entries, all, o, text, p.key, p.value))
  {
    hide StatusText, VerificationText;
    if !Positive(o) {
      assert p in ExcludedGaps(o) ==> NoteGap(entries, all, o, ExcludedReason(o), p.key, p.value);
    } else if !Eligible(entries, o) {
      assert p in IneligibleGaps(entries)(o) ==>
          NoteGap(entries, all, o, IneligibleReason(entries, o), p.key, p.value);
    } else {
      assert p in StaleGaps(o) ==> NoteGap(entries, all, o, StaleReason(o), p.key, p.value);
      assert p in VerificationGaps(o) ==> NoteGap(entries, all, o, VerificationReason(o), p.key, p.value);
    }
  }

  lemma MetadataSets(entries: map<string, SourceEntry>, all: seq<Observation>, claim: string)
    ensures var metadata := Each(Select(all, EligibleOnes(entries)), MetadataOf);
            EvidenceIds(metadata, claim) == ClaimEvidence(entries, all, claim) &&
            Statements(metadata, claim) == ClaimStatements(entries, all, claim) &&
            SourceIds(metadata, claim) == ClaimSources(entries, all, claim)
  {
    hide Each, Select, MetadataOf, Eligible;
    var metadata := Each(Select(all, EligibleOnes(entries)), MetadataOf);
    forall m | m in metadata && m.claim == claim
      ensures m.evidence in ClaimEvidence(entries, all, claim) && m.statement in ClaimStatements(entries, all, claim) &&
              m.source in ClaimSources(entries, all, claim)
    {
      EligibleMetadata(entries, all, m);
      var o, c :| Comes(entries, all, m, o, c);
    }
    forall o, c | o in all && Eligible(entries, o) && c in o.claims && c.id == claim
      ensures KeyOf(o, c) in EvidenceIds(metadata, claim) && c.statement in Statements(metadata, claim) &&
              o.source in SourceIds(metadata, claim)
    {
      assert Comes(entries, all, MetaOf(o, c), o, c);
      EligibleMetadata(entries, all, MetaOf(o, c));
      assert MetaOf(o, c).claim == claim;
    }
  }

  lemma ContestGaps(entries: map<string, SourceEntry>, all: seq<Observation>, p: Put<Gap>)
    ensures p in ContradictionGaps(Each(Select(all, EligibleOnes(entries)), MetadataOf)) <==>
              exists claim :: ContestGap(entries, all, claim, p.key, p.value)
  {
    hide Each, Select, MetadataOf, Contested, Conflicting, ClaimScopes, ClaimEvidence, ClaimStatements, ClaimSources,
      EvidenceIds, Statements, SourceIds;
    var metadata := Each(Select(all, EligibleOnes(entries)), MetadataOf);
    var scopes := ClaimScopes(metadata);
    var f := (claim: string) => if Conflicting(metadata, claim) then [ContradictionGap(metadata, claim)] else [];
    EachIs(scopes, f, p);
    forall claim {
      MetadataSets(entries, all, claim);
    }
    forall claim { ConflictIsContest(entries, all, claim); }
    if i :| 0 <= i < |scopes| && p in f(scopes[i]) { assert ContestGap(entries, all, scopes[i], p.key, p.value); }
    if claim :| ContestGap(entries, all, claim, p.key, p.value) {
      ConflictIsScope(metadata, claim);
      var i :| 0 <= i < |scopes| && scopes[i] == claim;
      assert p in f(scopes[i]);
    }
  }

  /** Everything that leaves a gap under a key. */
  ghost predicate Leaving(entries: map<string, SourceEntry>, all: seq<Observation>, k: GapKey, g: Gap) {
    (exists o, l :: o in all && LimitGap(o, l, k, g)) ||
    (exists o, c :: o in all && Eligible(entries, o) && ClaimGap(o, c, k, g)) ||
    (exists o, text :: NoteGap(entries, all, o, text, k, g)) ||
    (exists claim :: ContestGap(entries, all, claim, k, g))
  }

  lemma LimitGapsFrom(all: seq<Observation>, p: Put<Gap>)
    ensures p in Each(all, LimitGaps) <==> exists o, l :: o in all && LimitGap(o, l, p.key, p.value)
  {
    hide Each, LimitGaps, LimitGap;
    EachMember(all, LimitGaps, p);
    forall o { OwnLimitGaps(o, p); }
  }

  lemma NoteGapIsOf(entries: map<string, SourceEntry>, all: seq<Observation>, o: Observation, text: string, k: GapKey,
      g: Gap)
    requires NoteGap(entries, all, o, text, k, g)
    ensures o in all
  {
  }

  /** The sections of an observation that was excluded, ineligible or eligible. */
  lemma NoteGapsFrom(entries: map<string, SourceEntry>, all: seq<Observation>, p: Put<Gap>)
    ensures (exists o, text :: NoteGap(entries, all, o, text, p.key, p.value)) <==>
              (exists o :: o in all && ExcludedOnes()(o) && p in ExcludedGaps(o)) ||
              (exists o :: o in all && IneligibleOnes(entries)(o) && p in IneligibleGaps(entries)(o)) ||
              (exists o :: o in all && EligibleOnes(entries)(o) && p in StaleGaps(o) + VerificationGaps(o))
  {
    hide Eligible, Positive, NoteGap, ExcludedGaps, IneligibleGaps, StaleGaps, VerificationGaps;
    EligibleIsPositive(entries);
    forall o | o in all { OwnNoteGaps(entries, all, o, p); }
    if o, text :| NoteGap(entries, all, o, text, p.key, p.value) {
      NoteGapIsOf(entries, all, o, text, p.key, p.value);
      if !Positive(o) { assert ExcludedOnes()(o) && p in ExcludedGaps(o); }
      else if !Eligible(entries, o) { assert IneligibleOnes(entries)(o) && p in IneligibleGaps(entries)(o); }
      else { assert EligibleOnes(entries)(o) && p in StaleGaps(o) + VerificationGaps(o); }
    }
  }

  lemma PositiveGapsFrom(entries: map<string, SourceEntry>, all: seq<Observation>, p: Put<Gap>)
    ensures p in Each(Select(all, EligibleOnes(entries)), PositiveGaps) <==>
              (exists o, c :: o in all && Eligible(entries, o) && ClaimGap(o, c, p.key, p.value)) ||
              (exists o :: o in all && EligibleOnes(entries)(o) && p in StaleGaps(o) + VerificationGaps(o))
  {
    hide Each, Select, ClaimGap, ClaimGaps, StaleGaps, VerificationGaps, Eligible;
    ChosenIs(all, EligibleOnes(entries), PositiveGaps, p);
    forall o { OwnClaimGaps(o, p); }
    forall o ensures p in PositiveGaps(o) <==> p in ClaimGaps(o) || p in StaleGaps(o) + VerificationGaps(o) {
      assert PositiveGaps(o) == ClaimGaps(o) + (StaleGaps(o) + VerificationGaps(o));
    }
    if o, c :| o in all && Eligible(entries, o) && ClaimGap(o, c, p.key, p.value) {
      assert EligibleOnes(entries)(o) && p in PositiveGaps(o);
    }
  }

  lemma GapPutsAre(entries: map<string, SourceEntry>, all: seq<Observation>, p: Put<Gap>)
    ensures p in Gaps(all, entries) <==> Leaving(entries, all, p.key, p.value)
  {
    hide Each, Select, LimitGaps, PositiveGaps, ContradictionGaps, LimitGap, ClaimGap, NoteGap, ContestGap, Eligible,
      ExcludedOnes, IneligibleOnes, EligibleOnes, ExcludedGaps, IneligibleGaps, StaleGaps, VerificationGaps;
    GapSections(entries, all, p);
    LimitGapsFrom(all, p);
    NoteGapsFrom(entries, all, p);
    PositiveGapsFrom(entries, all, p);
    ContestGaps(entries, all, p);
    ChosenIs(all, ExcludedOnes(), ExcludedGaps, p);
    ChosenIs(all, IneligibleOnes(entries), IneligibleGaps(entries), p);
  }

  lemma GapSections(entries: map<string, SourceEntry>, all: seq<Observation>, p: Put<Gap>)
    ensures p in Gaps(all, entries) <==>
              p in Each(all, LimitGaps) || p in Each(Select(all, ExcludedOnes()), ExcludedGaps) ||
              p in Each(Select(all, IneligibleOnes(entries)), IneligibleGaps(entries)) ||
              p in Each(Select(all, EligibleOnes(entries)), PositiveGaps) ||
              p in ContradictionGaps(Each(Select(all, EligibleOnes(entries)), MetadataOf))
  {
    hide Each, Select, LimitGaps, PositiveGaps, ContradictionGaps, ExcludedGaps, IneligibleGaps;
  }

  /** Of the weighty limitations of an observation with one id the last. */
  ghost predicate LastWeighty(o: Observation, i: nat) {
    i < |o.limitations| && Weighty(o.limitations[i].impact) &&
    forall j :: i < j < |o.limitations| && o.limitations[j].id == o.limitations[i].id ==>
      !Weighty(o.limitations[j].impact)
  }

  /** Of the unobserved claims of an observation with one id the one with the greatest statement. */
  ghost predicate GreatestClaim(o: Observation, c: Claim) {
    c in o.claims && !c.status.ClaimObserved? &&
    forall d :: d in o.claims && d.id == c.id && !d.status.ClaimObserved? ==>
      d == c || (d.statement != c.statement && TextLe()(d.statement, c.statement))
  }

  lemma LastLimitGap(o: Observation, i: nat, k: GapKey)
    requires LastWeighty(o, i) && k == Parts(["input-limitation", o.id, o.limitations[i].id])
    ensures HasKey(LimitGaps(o), k)
    ensures Found(LimitGaps(o), k) ==
              Some(Gap(GapUnresolved, "source limitation", o.limitations[i].description, {o.source}))
  {
    var f := (l: Limitation) =>
      if Weighty(l.impact)
      then [Put(Parts(["input-limitation", o.id, l.id]),
        Gap(GapUnresolved, "source limitation", l.description, {o.source}))]
      else [];
    var g := Gap(GapUnresolved, "source limitation", o.limitations[i].description, {o.source});
    forall j | i < j < |o.limitations| ensures !HasKey(f(o.limitations[j]), k) {
      assert Parts(["input-limitation", o.id, o.limitations[j].id]).parts[2] == o.limitations[j].id;
      assert k.parts[2] == o.limitations[i].id;
    }
    assert f(o.limitations[i]) == [Put(k, g)];
    assert Put(k, g) in f(o.limitations[i]);
    LastPuts(o.limitations, f, i, k);
    OnePut(Put(k, g));
  }

  lemma LastClaimGap(o: Observation, c: Claim, k: GapKey)
    requires GreatestClaim(o, c) && k == Parts(["claim-status", o.id, c.id])
    ensures HasKey(ClaimGaps(o), k)
    ensures Found(ClaimGaps(o), k) ==
              Some(Gap(GapUnresolved, c.id, "The normalized claim status is " + ClaimStatusText(c.status) + ".",
                {o.source}))
  {
    hide ClaimsInOrder, ClaimStatusText, LexLe;
    var s := ClaimsInOrder(o);
    ClaimsMembers(o);
    var f := (c: Claim) =>
      if c.status.ClaimObserved? then []
      else [Put(Parts(["claim-status", o.id, c.id]),
                Gap(GapUnresolved, c.id, "The normalized claim status is " + ClaimStatusText(c.status) + ".",
                  {o.source}))];
    var g := Gap(GapUnresolved, c.id, "The normalized claim status is " + ClaimStatusText(c.status) + ".", {o.source});
    var i := LastIndex(s, c);
    forall j | i < j < |s| ensures !HasKey(f(s[j]), k) {
      if HasKey(f(s[j]), k) {
        assert Parts(["claim-status", o.id, s[j].id]).parts[2] == s[j].id;
        assert k.parts[2] == c.id;
        assert s[j] in s && s[j] != c;
        LaterClaim(o, i, j);
        assert false;
      }
    }
    assert f(s[i]) == [Put(k, g)];
    assert Put(k, g) in f(s[i]);
    LastPuts(s, f, i, k);
    OnePut(Put(k, g));
  }

  /** In the order of the claims the statements of one id do not go down. */
  lemma LaterClaim(o: Observation, i: nat, j: nat)
    requires i < j < |ClaimsInOrder(o)| && ClaimsInOrder(o)[i].id == ClaimsInOrder(o)[j].id
    ensures TextLe()(ClaimsInOrder(o)[i].statement, ClaimsInOrder(o)[j].statement)
    ensures TextLe()(ClaimsInOrder(o)[j].statement, ClaimsInOrder(o)[i].statement) ==>
              ClaimsInOrder(o)[j].statement == ClaimsInOrder(o)[i].statement
  {
    hide SortBy, TextLe;
    TextTotal();
    KeyTotal();
    SortByIsSort(ClaimKey(), Lex(TextLe()), o.claims);
    var x, y := ClaimsInOrder(o)[i], ClaimsInOrder(o)[j];
    assert LexLe(TextLe(), [x.id, x.statement], [y.id, y.statement]);
    assert [x.id, x.statement][1..] == [x.statement] && [y.id, y.statement][1..] == [y.statement];
    assert LexLe(TextLe(), [x.statement], [y.statement]);
  }

  ghost predicate Worded(k: GapKey, word: string) { k.Parts? && k.parts != [] && k.parts[0] == word }

  lemma GapWords()
    ensures "input-limitation" != "excluded-source" && "input-limitation" != "ineligible-source" &&
            "input-limitation" != "claim-status" && "input-limitation" != "stale-source" &&
            "input-limitation" != "verification" && "claim-status" != "excluded-source" &&
            "claim-status" != "ineligible-source" && "claim-status" != "stale-source" &&
            "claim-status" != "verification"
  {
    assert "input-limitation"[0] == 'i' && "input-limitation"[1] == 'n' && "input-limitation"[2] == 'p';
    assert "ineligible-source"[2] == 'e' && "claim-status"[0] == 'c';
    assert "excluded-source"[0] == 'e' && "stale-source"[0] == 's' && "verification"[0] == 'v';
  }

  lemma NoteGapWords(entries: map<string, SourceEntry>, all: seq<Observation>, o: Observation, text: string, k: GapKey,
      g: Gap)
    requires NoteGap(entries, all, o, text, k, g)
    ensures !Worded(k, "input-limitation") && !Worded(k, "claim-status") && !k.NoPositive?
  {
    hide Eligible, StatusText, VerificationText;
    GapWords();
  }

  lemma LeavingWords(entries: map<string, SourceEntry>, all: seq<Observation>, k: GapKey, g: Gap)
    requires Leaving(entries, all, k, g)
    ensures !k.NoPositive?
    ensures Worded(k, "input-limitation") ==> exists o, l :: o in all && LimitGap(o, l, k, g)
    ensures Worded(k, "claim-status") ==> exists o, c :: o in all && Eligible(entries, o) && ClaimGap(o, c, k, g)
  {
    hide Eligible, NoteGap, Contested;
    GapWords();
    forall o, text | NoteGap(entries, all, o, text, k, g) { NoteGapWords(entries, all, o, text, k, g); }
  }

  /** What the gap sections put under the key of an unobserved claim or a declared limitation. */
  lemma LimitGapFound(entries: map<string, SourceEntry>, all: seq<Observation>, o: Observation, i: nat, k: GapKey)
    requires IdsTell(all) && o in all && LastWeighty(o, i) &&
             k == Parts(["input-limitation", o.id, o.limitations[i].id])
    ensures Found(Each(all, LimitGaps), k) ==
              Some(Gap(GapUnresolved, "source limitation", o.limitations[i].description, {o.source}))
  {
    hide Each, LimitGaps, LastWeighty, Found, HasKey;
    LastLimitGap(o, i, k);
    forall p | p in all && HasKey(LimitGaps(p), k) ensures p == o {
      SomePut(LimitGaps(p), k);
      var put :| put in LimitGaps(p) && put.key == k;
      OwnLimitGaps(p, put);
      var l :| LimitGap(p, l, k, put.value);
      assert k.parts[1] == p.id == o.id;
    }
    OnlyPuts(all, LimitGaps, o, k);
  }

  lemma SomePut<V>(puts: seq<Put<V>>, k: GapKey)
    requires HasKey(puts, k)
    ensures exists p :: p in puts && p.key == k
  {
  }

  lemma OwnClaimFound(entries: map<string, SourceEntry>, all: seq<Observation>, o: Observation, c: Claim, k: GapKey)
    requires o in all && Eligible(entries, o) && GreatestClaim(o, c) && k == Parts(["claim-status", o.id, c.id])
    ensures HasKey(PositiveGaps(o), k) && Found(PositiveGaps(o), k) == Found(ClaimGaps(o), k)
  {
    hide ClaimGaps, StaleGaps, VerificationGaps, GreatestClaim, Found, HasKey, Eligible, NoteGap;
    LastClaimGap(o, c, k);
    var rest := StaleGaps(o) + VerificationGaps(o);
    assert PositiveGaps(o) == ClaimGaps(o) + rest;
    PutBoth(ClaimGaps(o), rest, k);
    if HasKey(rest, k) {
      SomePut(rest, k);
      var put :| put in rest && put.key == k;
      OwnNoteGaps(entries, all, o, put);
      var text :| NoteGap(entries, all, o, text, k, put.value);
      NoteGapWords(entries, all, o, text, k, put.value);
      assert false;
    }
  }

  lemma ClaimGapFound(entries: map<string, SourceEntry>, all: seq<Observation>, o: Observation, c: Claim, k: GapKey)
    requires IdsTell(all) && o in all && Eligible(entries, o) && GreatestClaim(o, c)
    requires k == Parts(["claim-status", o.id, c.id])
    ensures var puts := Each(Select(all, EligibleOnes(entries)), PositiveGaps);
            HasKey(puts, k) && Found(puts, k) == Found(ClaimGaps(o), k)
  {
    hide Each, Select, PositiveGaps, ClaimGaps, GreatestClaim, Found, HasKey, Eligible;
    OwnClaimFound(entries, all, o, c, k);
    SelectIs(all, EligibleOnes(entries));
    var positive := Select(all, EligibleOnes(entries));
    forall p | p in positive && HasKey(PositiveGaps(p), k) ensures p == o {
      OnlyOwnClaims(entries, all, p, c.id, k, o.id);
    }
    OnlyPuts(positive, PositiveGaps, o, k);
  }

  lemma OnlyOwnClaims(entries: map<string, SourceEntry>, all: seq<Observation>, p: Observation, claim: string,
    k: GapKey,
      id: string)
    requires p in all && Eligible(entries, p) && k == Parts(["claim-status", id, claim]) && HasKey(PositiveGaps(p), k)
    ensures p.id == id
  {
    hide ClaimGaps, StaleGaps, VerificationGaps, Eligible, NoteGap;
    var put :| put in PositiveGaps(p) && put.key == k;
    if put in ClaimGaps(p) {
      OwnClaimGaps(p, put);
      var c :| ClaimGap(p, c, k, put.value);
      assert k.parts[1] == p.id;
    } else {
      OwnNoteGaps(entries, all, p, put);
      var text :| NoteGap(entries, all, p, text, k, put.value);
      NoteGapWords(entries, all, p, text, k, put.value);
      assert false;
    }
  }

  ghost function NoteSections(entries: map<string, SourceEntry>, all: seq<Observation>): seq<Put<Gap>> {
    Each(Select(all, ExcludedOnes()), ExcludedGaps)
      + Each(Select(all, IneligibleOnes(entries)), IneligibleGaps(entries))
  }

  ghost function ContestSection(entries: map<string, SourceEntry>, all: seq<Observation>): seq<Put<Gap>> {
    ContradictionGaps(Each(Select(all, EligibleOnes(entries)), MetadataOf))
  }

  lemma SectionWords(entries: map<string, SourceEntry>, all: seq<Observation>, p: Put<Gap>)
    ensures p in NoteSections(entries, all) ==> !Worded(p.key, "input-limitation")
    ensures p in Each(Select(all, EligibleOnes(entries)), PositiveGaps) ==> !Worded(p.key, "input-limitation")
    ensures p in ContestSection(entries, all) ==> p.key.OfContradiction?
  {
    hide Each, Select, PositiveGaps, ContradictionGaps, NoteGap, Worded, ExcludedGaps, IneligibleGaps, StaleGaps,
      VerificationGaps, ClaimGap, Eligible, Contested;
    ChosenIs(all, ExcludedOnes(), ExcludedGaps, p);
    ChosenIs(all, IneligibleOnes(entries), IneligibleGaps(entries), p);
    NoteGapsFrom(entries, all, p);
    PositiveGapsFrom(entries, all, p);
    ContestGaps(entries, all, p);
    forall o, text | NoteGap(entries, all, o, text, p.key, p.value) {
      NoteGapWords(entries, all, o, text, p.key, p.value);
    }
    forall o, c | ClaimGap(o, c, p.key, p.value) ensures !Worded(p.key, "input-limitation") {
      ClaimGapWord(o, c, p.key, p.value);
    }
  }

  lemma ClaimGapWord(o: Observation, c: Claim, k: GapKey, g: Gap)
    requires ClaimGap(o, c, k, g)
    ensures !Worded(k, "input-limitation")
  {
    GapWords();
  }

  lemma GapsSplit(entries: map<string, SourceEntry>, all: seq<Observation>)
    ensures Gaps(all, entries) ==
              Each(all, LimitGaps) + NoteSections(entries, all)
                + Each(Select(all, EligibleOnes(entries)), PositiveGaps) +
              ContestSection(entries, all)
  {
    hide Each, Select, LimitGaps, ExcludedGaps, IneligibleGaps, PositiveGaps, ContradictionGaps;
  }

  /** The sections after the limitations and after the claims leave their keys alone. */
  lemma SectionsFound(entries: map<string, SourceEntry>, all: seq<Observation>, k: GapKey)
    ensures Worded(k, "input-limitation") ==> Found(Gaps(all, entries), k) == Found(Each(all, LimitGaps), k)
    ensures var claims := Each(Select(all, EligibleOnes(entries)), PositiveGaps);
            k.Parts? && HasKey(claims, k) ==> Found(Gaps(all, entries), k) == Found(claims, k)
  {
    hide Each, Select, LimitGaps, PositiveGaps, ContestSection, NoteSections, Gaps, Found, Worded, HasKey;
    var a, b := Each(all, LimitGaps), NoteSections(entries, all);
    var c, d := Each(Select(all, EligibleOnes(entries)), PositiveGaps), ContestSection(entries, all);
    GapsSplit(entries, all);
    PutBoth(a + b + c, d, k);
    PutBoth(a + b, c, k);
    PutBoth(a, b, k);
    forall p { SectionWords(entries, all, p); }
    if k.Parts? && HasKey(d, k) { SomePut(d, k); }
    if Worded(k, "input-limitation") {
      IsParts(k);
      if HasKey(b, k) { SomePut(b, k); }
      if HasKey(c, k) { SomePut(c, k); }
    }
  }

  lemma IsParts(k: GapKey)
    requires Worded(k, "input-limitation")
    ensures k.Parts?
  {
  }

  /**
   * What a dictionary of gaps says of a key: it is there exactly for a cause, and says what a cause of that key says;
   * of the limitations of one id the last one does, of the claims of one id the one with the greatest statement.
   */
  ghost predicate GapSays(entries: map<string, SourceEntry>, all: seq<Observation>, gaps: map<GapKey, Gap>, k: GapKey) {
    (k in gaps <==>
      (exists g :: Leaving(entries, all, k, g)) ||
      (k == NoPositive && forall o :: o in all ==> !Eligible(entries, o))) &&
    (k in gaps && k != NoPositive ==> Leaving(entries, all, k, gaps[k])) &&
    (k in gaps && k == NoPositive ==>
      gaps[k] == Gap(GapMissing, "current subject context",
        "No eligible positive retail source observation was available.", {})) &&
    (forall o, i: nat ::
      o in all && LastWeighty(o, i) && k == Parts(["input-limitation", o.id, o.limitations[i].id]) ==>
        k in gaps && gaps[k].reason == o.limitations[i].description) &&
    (forall o, c ::
      o in all && Eligible(entries, o) && GreatestClaim(o, c) && k == Parts(["claim-status", o.id, c.id]) ==>
        k in gaps && gaps[k].reason == "The normalized claim status is " + ClaimStatusText(c.status) + ".")
  }

  lemma GapTold(entries: map<string, SourceEntry>, all: seq<Observation>, k: GapKey)
    ensures HasKey(Gaps(all, entries), k) <==> exists g :: Leaving(entries, all, k, g)
    ensures HasKey(Gaps(all, entries), k) ==>
              Found(Gaps(all, entries), k).Some? && Leaving(entries, all, k, Found(Gaps(all, entries), k).value)
  {
    hide Gaps, Leaving, Found;
    forall p { GapPutsAre(entries, all, p); }
    if HasKey(Gaps(all, entries), k) { FoundFrom(Gaps(all, entries), k); }
    if g :| Leaving(entries, all, k, g) { assert Put(k, g) in Gaps(all, entries); }
  }

  ghost predicate NoPositiveLeft(entries: map<string, SourceEntry>, all: seq<Observation>, gaps: map<GapKey, Gap>) {
    gaps == if Select(all, EligibleOnes(entries)) == []
      then PutAll(map[], Gaps(all, entries))[NoPositive := NO_POSITIVE_GAP]
      else PutAll(map[], Gaps(all, entries))
  }

  lemma NoneSelected(entries: map<string, SourceEntry>, all: seq<Observation>)
    ensures Select(all, EligibleOnes(entries)) == [] <==> forall o :: o in all ==> !Eligible(entries, o)
  {
    hide Eligible, Select;
    SelectIs(all, EligibleOnes(entries));
    EmptySelection(Select(all, EligibleOnes(entries)));
  }

  lemma OrderedGaps(entries: map<string, SourceEntry>, all: seq<Observation>, gaps: map<GapKey, Gap>, k: GapKey)
    requires IdsTell(all) && NoPositiveLeft(entries, all, gaps)
    ensures GapSays(entries, all, gaps, k)
  {
    hide Gaps, Leaving, PutAll, Select, Eligible, HasKey, Each, IdsTell, GreatestClaim, ClaimStatusText,
      PositiveGaps, LimitGaps, ClaimGaps;
    NoneSelected(entries, all);
    GapTold(entries, all, k);
    PutKeys(map[], Gaps(all, entries), k);
    forall g | Leaving(entries, all, k, g) { LeavingWords(entries, all, k, g); }
    forall o, i: nat |
        o in all && LastWeighty(o, i) && k == Parts(["input-limitation", o.id, o.limitations[i].id])
      ensures k in gaps && gaps[k].reason == o.limitations[i].description
    {
      assert Worded(k, "input-limitation");
      LimitGapFound(entries, all, o, i, k);
      SectionsFound(entries, all, k);
    }
    forall o, c | o in all && Eligible(entries, o) && GreatestClaim(o, c) && k == Parts(["claim-status", o.id, c.id])
      ensures k in gaps && gaps[k].reason == "The normalized claim status is " + ClaimStatusText(c.status) + "."
    {
      ClaimGapFound(entries, all, o, c, k);
      LastClaimGap(o, c, k);
      SectionsFound(entries, all, k);
    }
  }

  lemma ContestsForgetOrder(entries: map<string, SourceEntry>, all: seq<Observation>, observations: seq<Observation>)
    requires forall o :: o in all <==> o in observations
    ensures forall claim ::
              Contested(entries, all, claim) <==> Contested(entries, observations, claim)
    ensures forall claim ::
              ContestOf(entries, all, claim) == ContestOf(entries, observations, claim) &&
              ClaimSources(entries, all, claim) == ClaimSources(entries, observations, claim)
  {
    hide Eligible;
    forall claim ensures Contested(entries, all, claim) <==> Contested(entries, observations, claim) {
      forall o, c, p, d ensures Shares(entries, all, o, c, p, d, claim) <==>
        Shares(entries, observations, o, c, p, d, claim) {}
    }
    forall claim
      ensures ClaimEvidence(entries, all, claim) == ClaimEvidence(entries, observations, claim) &&
              ClaimStatements(entries, all, claim) == ClaimStatements(entries, observations, claim) &&
              ClaimSources(entries, all, claim) == ClaimSources(entries, observations, claim) {}
  }

  lemma KindsForgetOrder(entries: map<string, SourceEntry>, all: seq<Observation>, observations: seq<Observation>,
      o: Observation, text: string, k: GapKey)
    requires forall o :: o in all <==> o in observations
    ensures Excluded(all, o, k, text) <==> Excluded(observations, o, k, text)
    ensures Ineligible(entries, all, o, k, text) <==> Ineligible(entries, observations, o, k, text)
    ensures ReportsStale(entries, all, o, k, text) <==> ReportsStale(entries, observations, o, k, text)
    ensures ReportsUnverified(entries, all, o, k, text) <==> ReportsUnverified(entries, observations, o, k, text)
  {
    hide Eligible, StatusText, VerificationText;
  }

  lemma NoteGapsForgetOrder(entries: map<string, SourceEntry>, all: seq<Observation>, observations: seq<Observation>,
      k: GapKey)
    requires forall o :: o in all <==> o in observations
    ensures forall o, text, g ::
              NoteGap(entries, all, o, text, k, g) <==> NoteGap(entries, observations, o, text, k, g)
  {
    hide Excluded, Ineligible, ReportsStale, ReportsUnverified;
    forall o, text { KindsForgetOrder(entries, all, observations, o, text, k); }
  }

  lemma ContestGapsForgetOrder(entries: map<string, SourceEntry>, all: seq<Observation>, observations: seq<Observation>,
      k: GapKey)
    requires forall o :: o in all <==> o in observations
    ensures forall claim, g ::
              ContestGap(entries, all, claim, k, g) <==> ContestGap(entries, observations, claim, k, g)
  {
    hide Eligible, Contested, ContestOf, ClaimSources;
    ContestsForgetOrder(entries, all, observations);
  }

  lemma LeavingForgetsOrder(entries: map<string, SourceEntry>, all: seq<Observation>, observations: seq<Observation>,
      k: GapKey)
    requires forall o :: o in all <==> o in observations
    ensures forall g :: Leaving(entries, all, k, g) <==> Leaving(entries, observations, k, g)
  {
    hide Eligible, LimitGap, ClaimGap, NoteGap, ContestGap;
    NoteGapsForgetOrder(entries, all, observations, k);
    ContestGapsForgetOrder(entries, all, observations, k);
  }

  lemma GapsForgetOrder(entries: map<string, SourceEntry>, all: seq<Observation>, observations: seq<Observation>,
      gaps: map<GapKey, Gap>, k: GapKey)
    requires forall o :: o in all <==> o in observations
    requires GapSays(entries, all, gaps, k)
    ensures GapSays(entries, observations, gaps, k)
  {
    hide Eligible, Leaving, GreatestClaim, LastWeighty, ClaimStatusText;
    LeavingForgetsOrder(entries, all, observations, k);
    assert (forall o :: o in all ==> !Eligible(entries, o)) <==>
      (forall o :: o in observations ==> !Eligible(entries, o));
  }

  lemma AccumulatedGaps(le: (EvidenceKey, EvidenceKey) -> bool, all: seq<Observation>, entries: map<string,
    SourceEntry>)
    ensures NoPositiveLeft(entries, all, Accumulated(le, all, entries).gaps)
  {
    hide Gaps, Notes, Each, Select, Contradictions, StatusOf, SortBy, FreshnessOf, Marked, LevelOf, Contradicted,
      PutAll;
  }

  /** The gaps of a result are exactly what its observations, claims and contested claim ids leave. */
  lemma GapsAre(le: (EvidenceKey, EvidenceKey) -> bool, subject: string, observations: seq<Observation>,
      entries: seq<SourceEntry>, k: GapKey)
    requires StatePing.StatePing(le, subject, observations, entries).Some?
    ensures EntriesById(entries).Some?
    ensures var gaps := StatePing.StatePing(le, subject, observations, entries).value.gaps;
            GapSays(EntriesById(entries).value, observations, gaps, k)
  {
    hide StatePing.StatePing, GapSays, EntriesById, InOrder, Accumulated, IdsTell, NoPositiveLeft;
    ContextOf(le, subject, observations, entries);
    var byId, all := EntriesById(entries).value, InOrder(observations);
    AccumulatedGaps(le, all, byId);
    OrderedGaps(byId, all, Accumulated(le, all, byId).gaps, k);
    GapsForgetOrder(byId, all, observations, Accumulated(le, all, byId).gaps, k);
  }

  // ---- contradictions ----

  lemma ContradictionIs(entries: map<string, SourceEntry>, all: seq<Observation>, x: ContradictionKey)
    ensures x in Contradictions(Each(Select(all, EligibleOnes(entries)), MetadataOf)) <==>
              exists claim :: Contested(entries, all, claim) && x == ContestOf(entries, all, claim)
  {
    hide Each, Select, MetadataOf, Contested, Conflicting, ClaimScopes, ClaimEvidence, ClaimStatements, ClaimSources,
      EvidenceIds, Statements, SourceIds;
    var metadata := Each(Select(all, EligibleOnes(entries)), MetadataOf);
    var scopes := ClaimScopes(metadata);
    var f := (claim: string) => if Conflicting(metadata, claim) then [ContradictionOf(metadata, claim)] else [];
    EachIs(scopes, f, x);
    forall claim { MetadataSets(entries, all, claim); }
    forall claim { ConflictIsContest(entries, all, claim); }
    if claim :| Contested(entries, all, claim) && x == ContestOf(entries, all, claim) {
      ConflictIsScope(metadata, claim);
      var i :| 0 <= i < |scopes| && scopes[i] == claim;
      assert x in f(scopes[i]);
    }
  }

  ghost predicate Rising(s: seq<string>) { forall i, j :: 0 <= i < j < |s| ==> TextLe()(s[i], s[j]) && s[i] != s[j] }

  ghost predicate RisingClaims(s: seq<ContradictionKey>) {
    forall i, j :: 0 <= i < j < |s| ==> TextLe()(s[i].claim, s[j].claim) && s[i].claim != s[j].claim
  }

  lemma {:induction false} EachRises(s: seq<string>, f: string -> seq<ContradictionKey>)
    requires Rising(s) && forall claim :: |f(claim)| <= 1 && forall x :: x in f(claim) ==> x.claim == claim
    ensures RisingClaims(Each(s, f))
  {
    hide TextLe;
    if s == [] {
    } else {
      var init, last := s[..|s| - 1], s[|s| - 1];
      EachRises(init, f);
      var before, more := Each(init, f), f(last);
      forall i | 0 <= i < |before| ensures exists k :: 0 <= k < |init| && before[i].claim == init[k] {
        EachIs(init, f, before[i]);
        var k :| 0 <= k < |init| && before[i] in f(init[k]);
      }
      forall i, j | 0 <= i < j < |before + more|
        ensures TextLe()((before + more)[i].claim, (before + more)[j].claim) &&
                (before + more)[i].claim != (before + more)[j].claim
      {
        if j == |before| { assert more[0] in more; }
      }
    }
  }

  lemma {:induction false} DedupeOnce(s: seq<string>)
    ensures forall i, j :: 0 <= i < j < |Dedupe(s)| ==> Dedupe(s)[i] != Dedupe(s)[j]
  {
    if s == [] {
    } else {
      DedupeOnce(s[..|s| - 1]);
    }
  }

  lemma ScopesRise(metadata: seq<Metadata>)
    ensures Rising(ClaimScopes(metadata))
  {
    hide TotalOrder, SortBy, Dedupe, TextLe;
    var ids := Dedupe(seq(|metadata|, i requires 0 <= i < |metadata| => metadata[i].claim));
    DedupeOnce(seq(|metadata|, i requires 0 <= i < |metadata| => metadata[i].claim));
    TextTotal();
    SortByIsSort(Itself(), TextLe(), ids);
    var s := ClaimScopes(metadata);
    forall i, j | 0 <= i < j < |s| ensures TextLe()(s[i], s[j]) && s[i] != s[j] {
      RepeatCount(s, i, j);
      DistinctCount(ids, s[j]);
      assert TextLe()(Itself()(s[i]), Itself()(s[j]));
    }
  }

  lemma ContradictionsRise(metadata: seq<Metadata>)
    ensures RisingClaims(Contradictions(metadata))
  {
    hide Rising, ClaimScopes, Conflicting, EvidenceIds, Statements;
    ScopesRise(metadata);
    EachRises(ClaimScopes(metadata), (claim: string) => if Conflicting(metadata, claim) then
      [ContradictionOf(metadata, claim)] else []);
  }

  /**
   * The contradictions of a result: one for each contested claim id, in the order of the ids, with all evidence and all
   * statements of the eligible claims under that id.
   */
  lemma ContradictionsAre(le: (EvidenceKey, EvidenceKey) -> bool, subject: string, observations: seq<Observation>,
      entries: seq<SourceEntry>)
    requires StatePing.StatePing(le, subject, observations, entries).Some?
    ensures EntriesById(entries).Some?
    ensures RisingClaims(StatePing.StatePing(le, subject, observations, entries).value.contradictions)
    ensures forall x :: x in StatePing.StatePing(le, subject, observations, entries).value.contradictions <==>
              exists claim :: Contested(EntriesById(entries).value, observations, claim) &&
                              x == ContestOf(EntriesById(entries).value, observations, claim)
  {
    hide StatePing.StatePing, EntriesById, InOrder, IdsTell, RisingClaims, Contested, ContestOf, Gaps, Notes, Each,
      Select,
      Contradictions, StatusOf, SortBy, FreshnessOf, Marked, LevelOf, Contradicted, PutAll;
    ContextOf(le, subject, observations, entries);
    var byId, all := EntriesById(entries).value, InOrder(observations);
    ContradictionsRise(Each(Select(all, EligibleOnes(byId)), MetadataOf));
    forall x { ContradictionIs(byId, all, x); }
    ContestsForgetOrder(byId, all, observations);
  }

  // ---- provenance, evidence and freshness ----

  lemma {:induction false} SortedStays<T, K>(key: T -> K, le: (K, K) -> bool, s: seq<T>)
    requires SortedBy(key, le, s)
    ensures SortBy(key, le, s) == s
  {
    if s == [] {
    } else {
      TailSorted(key, le, s);
      SortedStays(key, le, s[1..]);
      if |s| > 1 { assert s[1..][0] == s[1]; }
    }
  }

  /** The eligible observations, each once, by source and then id. */
  ghost predicate EligibleByName(entries: map<string, SourceEntry>, all: seq<Observation>, os: seq<Observation>) {
    (forall o :: o in os <==> o in all && Eligible(entries, o)) &&
    forall i, j :: 0 <= i < j < |os| ==>
      os[i].id != os[j].id && Lex(TextLe())([os[i].source, os[i].id], [os[j].source, os[j].id])
  }

  lemma {:induction false} SelectKeepsOrder(s: seq<Observation>, p: Observation -> bool, i: nat, j: nat)
      returns (u: nat, v: nat)
    requires i < j < |Select(s, p)|
    ensures u < v < |s| && s[u] == Select(s, p)[i] && s[v] == Select(s, p)[j]
  {
    var init, last := s[..|s| - 1], |s| - 1;
    if j < |Select(init, p)| {
      u, v := SelectKeepsOrder(init, p, i, j);
    } else {
      SelectIs(init, p);
      assert Select(init, p)[i] in init;
      u :| 0 <= u < |init| && init[u] == Select(init, p)[i];
      v := last;
    }
  }

  lemma OrderTells(subject: string, observations: seq<Observation>, u: nat, v: nat)
    requires Accepts(subject, observations) && u < v < |InOrder(observations)|
    ensures var s := InOrder(observations);
            s[u].id != s[v].id && Lex(TextLe())([s[u].source, s[u].id], [s[v].source, s[v].id])
  {
    hide TotalOrder, SortBy, LexLe;
    KeyTotal();
    SortByIsSort(ObservationKey(), Lex(TextLe()), observations);
    IdsStayApart(subject, observations, InOrder(observations), u, v);
    var s := InOrder(observations);
    assert Lex(TextLe())(ObservationKey()(s[u]), ObservationKey()(s[v]));
  }

  lemma SelectedByName(entries: map<string, SourceEntry>, subject: string, observations: seq<Observation>)
    requires Accepts(subject, observations)
    ensures EligibleByName(entries, observations, Select(InOrder(observations), EligibleOnes(entries)))
  {
    hide Accepts, InOrder, Select, Eligible, Lex;
    var s := InOrder(observations);
    var os := Select(s, EligibleOnes(entries));
    OrderKeepsMembers(observations);
    SelectIs(s, EligibleOnes(entries));
    forall i, j | 0 <= i < j < |os|
      ensures os[i].id != os[j].id && Lex(TextLe())([os[i].source, os[i].id], [os[j].source, os[j].id])
    {
      var u, v := SelectKeepsOrder(s, EligibleOnes(entries), i, j);
      OrderTells(subject, observations, u, v);
    }
  }

  /** What a provenance entry says of its observation. */
  ghost predicate Vouches(entries: map<string, SourceEntry>, all: seq<Observation>, o: Observation, p: Provenance) {
    p.source == o.source && p.mode == o.mode && p.observedAt == o.observedAt && p.verification == o.verification &&
    Reconciles(entries, all, o, p.reconciliation) && p.scope == set c | c in o.claims :: c.id
  }

  lemma ProvenanceVouches(entries: map<string, SourceEntry>, all: seq<Observation>, o: Observation, p: Provenance)
    requires IdsTell(all) && o in all && Eligible(entries, o)
    requires var metadata := Each(Select(all, EligibleOnes(entries)), MetadataOf);
             [p] == ProvenanceOf(metadata, Contradicted(metadata))(o)
    ensures Vouches(entries, all, o, p)
  {
    hide Each, Select, MetadataOf, Eligible, Contradicted, Reconciled, Reconciles;
    var metadata := Each(Select(all, EligibleOnes(entries)), MetadataOf);
    ReconciledIs(entries, all, o);
    forall m { OwnClaims(entries, all, o, m); }
    forall c | c in o.claims ensures c.id in p.scope {
      assert MetaOf(o, c) in metadata && MetaOf(o, c).observation == o.id && MetaOf(o, c).claim == c.id;
    }
  }

  lemma {:induction false} EachSingle<X, Y>(s: seq<X>, f: X -> seq<Y>)
    requires forall x :: x in s ==> |f(x)| == 1
    ensures |Each(s, f)| == |s| && forall i :: 0 <= i < |s| ==> f(s[i]) == [Each(s, f)[i]]
  {
    if s == [] {
    } else {
      assert forall x :: x in s[..|s| - 1] ==> x in s;
      EachSingle(s[..|s| - 1], f);
    }
  }

  ghost predicate ProvenanceSays(entries: map<string, SourceEntry>, all: seq<Observation>, os: seq<Observation>,
      ps: seq<Provenance>) {
    EligibleByName(entries, all, os) && |ps| == |os| && forall i :: 0 <= i < |os| ==>
      Vouches(entries, all, os[i], ps[i])
  }

  lemma BySource(a: string, x: string, b: string, y: string)
    requires Lex(TextLe())([a, x], [b, y])
    ensures TextLe()(a, b)
  {
    hide TextLe;
    TextTotal();
    assert LexLe(TextLe(), [a, x], [b, y]);
  }

  lemma ProvenanceInOrder(entries: map<string, SourceEntry>, all: seq<Observation>, os: seq<Observation>,
      f: Observation -> seq<Provenance>)
    requires EligibleByName(entries, all, os)
    requires forall o :: |f(o)| == 1 && f(o)[0].source == o.source
    ensures SortBy(ProvenanceKey(), TextLe(), Each(os, f)) == Each(os, f)
  {
    hide Each, SortBy, Eligible, Lex, TextLe;
    var ps := Each(os, f);
    EachSingle(os, f);
    forall i, j | 0 <= i < j < |ps| ensures TextLe()(ProvenanceKey()(ps[i]), ProvenanceKey()(ps[j])) {
      BySource(os[i].source, os[i].id, os[j].source, os[j].id);
      assert f(os[i])[0] == ps[i] && f(os[j])[0] == ps[j];
    }
    SortedStays(ProvenanceKey(), TextLe(), ps);
  }

  lemma OrderedProvenance(entries: map<string, SourceEntry>, all: seq<Observation>, os: seq<Observation>)
    requires IdsTell(all) && EligibleByName(entries, all, os) && os == Select(all, EligibleOnes(entries))
    ensures var metadata := Each(os, MetadataOf);
            ProvenanceSays(entries, all, os,
              SortBy(ProvenanceKey(), TextLe(), Each(os, ProvenanceOf(metadata, Contradicted(metadata)))))
  {
    hide Each, Select, SortBy, MetadataOf, Eligible, Contradicted, Reconciled, Vouches, Lex, TextLe, IdsTell;
    var metadata := Each(os, MetadataOf);
    var f := ProvenanceOf(metadata, Contradicted(metadata));
    ProvenanceInOrder(entries, all, os, f);
    EachSingle(os, f);
    forall i | 0 <= i < |os| ensures Vouches(entries, all, os[i], Each(os, f)[i]) {
      assert os[i] in os;
      ProvenanceVouches(entries, all, os[i], Each(os, f)[i]);
    }
  }

  lemma ProvenanceForgetsOrder(entries: map<string, SourceEntry>, all: seq<Observation>, observations: seq<Observation>,
      os: seq<Observation>, ps: seq<Provenance>)
    requires forall o :: o in all <==> o in observations
    requires ProvenanceSays(entries, all, os, ps)
    ensures ProvenanceSays(entries, observations, os, ps)
  {
    hide Eligible, Contested, Lex, TextLe;
    ContestsForgetOrder(entries, all, observations);
  }

  /** The provenance of a result: one entry for each eligible observation, by source and then id. */
  lemma ProvenanceIs(le: (EvidenceKey, EvidenceKey) -> bool, subject: string, observations: seq<Observation>,
      entries: seq<SourceEntry>)
    requires StatePing.StatePing(le, subject, observations, entries).Some?
    ensures EntriesById(entries).Some?
    ensures exists os :: ProvenanceSays(EntriesById(entries).value, observations, os,
        StatePing.StatePing(le, subject, observations, entries).value.provenance)
  {
    hide Accepts, EntriesById, InOrder, IdsTell, EligibleByName, ProvenanceSays, Gaps, Notes, Each, Select,
      Contradictions,
      StatusOf, SortBy, FreshnessOf, Marked, LevelOf, Contradicted, PutAll;
    ContextOf(le, subject, observations, entries);
    var byId, all := EntriesById(entries).value, InOrder(observations);
    var os := Select(all, EligibleOnes(byId));
    SelectedByName(byId, subject, observations);
    ByNameForgetsOrder(byId, observations, all, os);
    OrderedProvenance(byId, all, os);
    ProvenanceForgetsOrder(byId, all, observations, os,
      StatePing.StatePing(le, subject, observations, entries).value.provenance);
  }

  lemma ByNameForgetsOrder(entries: map<string, SourceEntry>, all: seq<Observation>, observations: seq<Observation>,
      os: seq<Observation>)
    requires forall o :: o in all <==> o in observations
    requires EligibleByName(entries, all, os)
    ensures EligibleByName(entries, observations, os)
  {
    hide Eligible, Lex, TextLe;
  }

  /** Of the eligible observations the one with the greatest age, source and id. */
  ghost predicate Eldest(entries: map<string, SourceEntry>, all: seq<Observation>, o: Observation) {
    o in all && Eligible(entries, o) &&
    forall p :: p in all && Eligible(entries, p) ==>
      p.age < o.age || (p.age == o.age && Lex(TextLe())([p.source, p.id], [o.source, o.id]))
  }

  lemma {:induction false} OldestIsGreatest(s: seq<Observation>)
    requires s != []
    ensures Oldest(s) in s
    ensures forall p :: p in s ==>
              p.age < Oldest(s).age ||
              (p.age == Oldest(s).age && Lex(TextLe())([p.source, p.id], [Oldest(s).source, Oldest(s).id]))
  {
    hide TotalOrder;
    if |s| == 1 {
      LexReflexive(TextLe(), [s[0].source, s[0].id]);
    } else {
      hide LexLe;
      var init, last, before := s[..|s| - 1], s[|s| - 1], Oldest(s[..|s| - 1]);
      OldestIsGreatest(init);
      assert s == init + [last];
      forall p | p in init ensures PairLe(p, before, last) { PairOrder(p, before, last); }
      PairOrder(last, before, last);
    }
  }

  ghost predicate PairLe(p: Observation, q: Observation, r: Observation) {
    Lex(TextLe())([r.source, r.id], [r.source, r.id]) &&
    (Lex(TextLe())([q.source, q.id], [r.source, r.id]) || Lex(TextLe())([r.source, r.id], [q.source, q.id])) &&
    (Lex(TextLe())([p.source, p.id], [q.source, q.id]) && Lex(TextLe())([q.source, q.id], [r.source, r.id]) ==>
      Lex(TextLe())([p.source, p.id], [r.source, r.id]))
  }

  lemma PairOrder(p: Observation, q: Observation, r: Observation)
    ensures PairLe(p, q, r)
  {
    hide Lex;
    KeyTotal();
  }

  /** The freshness of a result: the age and time of the eldest eligible observation, stale when any of them is. */
  ghost predicate FreshnessTells(entries: map<string, SourceEntry>, all: seq<Observation>, freshness: Freshness) {
    ((forall o :: o in all ==> !Eligible(entries, o)) ==> freshness == Freshness(None, None, false)) &&
    ((exists o :: o in all && Eligible(entries, o)) ==> exists o ::
      Eldest(entries, all, o) && freshness.observedAt == Some(o.observedAt) && freshness.age == Some(o.age)) &&
    (freshness.stale <==> exists o :: o in all && Eligible(entries, o) && o.status.Stale?)
  }

  lemma OrderedFreshness(entries: map<string, SourceEntry>, all: seq<Observation>)
    ensures FreshnessTells(entries, all, FreshnessOf(Select(all, EligibleOnes(entries))))
  {
    hide Eligible, Select, Oldest, Lex;
    var os := Select(all, EligibleOnes(entries));
    SelectIs(all, EligibleOnes(entries));
    EmptySelection(os);
    if os != [] {
      OldestIsGreatest(os);
      assert Eldest(entries, all, Oldest(os));
    }
  }

  lemma FreshnessForgetsOrder(entries: map<string, SourceEntry>, all: seq<Observation>, observations: seq<Observation>,
      freshness: Freshness)
    requires forall o :: o in all <==> o in observations
    requires FreshnessTells(entries, all, freshness)
    ensures FreshnessTells(entries, observations, freshness)
  {
    hide Eligible, Lex;
    forall o ensures Eldest(entries, all, o) <==> Eldest(entries, observations, o) {}
  }

  ghost function ClaimCount(os: seq<Observation>): nat {
    if os == [] then 0 else ClaimCount(os[..|os| - 1]) + |os[|os| - 1].claims|
  }

  lemma {:induction false} EvidenceLength(os: seq<Observation>)
    ensures |Each(os, EvidenceOf)| == ClaimCount(os)
  {
    hide SortBy, TotalOrder;
    if os == [] {
    } else {
      EvidenceLength(os[..|os| - 1]);
      var o := os[|os| - 1];
      EachSingle(ClaimsInOrder(o), (c: Claim) => [RawEvidence(o, c)]);
      SortByPermutes(ClaimKey(), Lex(TextLe()), o.claims);
      SameMembers(o.claims, ClaimsInOrder(o));
    }
  }

  /** As many pieces of evidence as the eligible observations have claims, in the order of their ids. */
  lemma EvidenceInOrder(le: (EvidenceKey, EvidenceKey) -> bool, subject: string, observations: seq<Observation>,
      entries: seq<SourceEntry>)
    requires StatePing.StatePing(le, subject, observations, entries).Some?
    ensures EntriesById(entries).Some?
    ensures var evidence := StatePing.StatePing(le, subject, observations, entries).value.evidence;
            (exists os :: EligibleByName(EntriesById(entries).value, observations, os) &&
                          |evidence| == ClaimCount(os)) &&
            (TotalOrder(le) ==> forall i, j :: 0 <= i < j < |evidence| ==> le(evidence[i].key, evidence[j].key))
  {
    hide Accepts, EntriesById, InOrder, IdsTell, EligibleByName, Gaps, Notes, Each, Select, Contradictions, TotalOrder,
      StatusOf, SortBy, FreshnessOf, LevelOf, Contradicted, PutAll;
    ContextOf(le, subject, observations, entries);
    var byId, all := EntriesById(entries).value, InOrder(observations);
    var os := Select(all, EligibleOnes(byId));
    SelectedByName(byId, subject, observations);
    EvidenceLength(os);
    var marked := Marked(Each(os, EvidenceOf), Contradicted(Each(os, MetadataOf)));
    SortByPermutes(EvidenceId(), le, marked);
    SameMembers(marked, SortBy(EvidenceId(), le, marked));
    if TotalOrder(le) { SortByIsSort(EvidenceId(), le, marked); IdsInOrder(le, SortBy(EvidenceId(), le, marked)); }
  }

  lemma IdsInOrder(le: (EvidenceKey, EvidenceKey) -> bool, s: seq<Evidence>)
    requires SortedBy(EvidenceId(), le, s)
    ensures forall i, j :: 0 <= i < j < |s| ==> le(s[i].key, s[j].key)
  {
    forall i, j | 0 <= i < j < |s| ensures le(s[i].key, s[j].key) { assert le(EvidenceId()(s[i]), EvidenceId()(s[j])); }
  }

  /** Freshness, and confidence beyond the medium case. */
  lemma FreshnessIs(le: (EvidenceKey, EvidenceKey) -> bool, subject: string, observations: seq<Observation>,
      entries: seq<SourceEntry>)
    requires StatePing.StatePing(le, subject, observations, entries).Some?
    ensures EntriesById(entries).Some?
    ensures var ping := StatePing.StatePing(le, subject, observations, entries).value;
            FreshnessTells(EntriesById(entries).value, observations, ping.freshness) &&
            (ping.level == NoLevel <==> ping.status == InsufficientEvidence)
  {
    hide StatePing.StatePing, EntriesById, InOrder, IdsTell, FreshnessTells, Gaps, Notes, Each, Select, Contradictions,
      StatusOf, SortBy, FreshnessOf, Marked, Contradicted, PutAll;
    ContextOf(le, subject, observations, entries);
    var byId, all := EntriesById(entries).value, InOrder(observations);
    OrderedFreshness(byId, all);
    FreshnessForgetsOrder(byId, all, observations, FreshnessOf(Select(all, EligibleOnes(byId))));
  }

  // ---- when there is a result ----

  lemma {:induction false} NamedIs(entries: seq<SourceEntry>)
    ensures forall e :: e in Named(entries) <==> e in entries && e.source.Some?
  {
    if entries == [] {
    } else {
      NamedIs(entries[..|entries| - 1]);
      assert entries == entries[..|entries| - 1] + [entries[|entries| - 1]];
    }
  }

  ghost predicate NamesOnce(entries: seq<SourceEntry>) {
    forall i, j :: 0 <= i < j < |entries| && entries[i].source.Some? ==> entries[i].source != entries[j].source
  }

  /** No entry of the list names the source of the last one. */
  ghost predicate NewName(init: seq<SourceEntry>, last: SourceEntry) {
    last.source.Some? ==> forall e :: e in init ==> e.source != last.source
  }

  lemma {:induction false} NamedOnce(entries: seq<SourceEntry>)
    ensures EntriesById(entries).Some? <==> NamesOnce(entries)
  {
    hide EntriesById, NamesOnce, NewName;
    if entries == [] {
      NoEntries();
    } else {
      var init, last := entries[..|entries| - 1], entries[|entries| - 1];
      NamedOnce(init);
      assert entries == init + [last];
      OnceMore(init, last);
      NamedStep(init, last);
    }
  }

  lemma NoEntries()
    ensures EntriesById([]).Some? && NamesOnce([])
  {
  }

  lemma NamedStep(init: seq<SourceEntry>, last: SourceEntry)
    ensures EntriesById(init + [last]).Some? <==> EntriesById(init).Some? && NewName(init, last)
  {
    hide Index, Named;
    NamedIs(init);
    assert (init + [last])[..|init|] == init && (init + [last])[..|init| + 1] == init + [last];
    NamedNext(init + [last], |init|);
    OneMoreNamed(Named(init), last);
  }

  lemma OnceMore(init: seq<SourceEntry>, last: SourceEntry)
    ensures NamesOnce(init + [last]) <==> NamesOnce(init) && NewName(init, last)
  {
    var s := init + [last];
    if NamesOnce(s) {
      forall i, j | 0 <= i < j < |init| && init[i].source.Some? ensures init[i].source != init[j].source {
        assert s[i] == init[i] && s[j] == init[j];
      }
      if last.source.Some? {
        forall e | e in init ensures e.source != last.source {
          var i :| 0 <= i < |init| && init[i] == e;
          assert s[i] == e && s[|init|] == last;
        }
      }
    } else {
      var i, j :| 0 <= i < j < |s| && s[i].source.Some? && s[i].source == s[j].source;
      assert s[i] in init;
    }
  }

  lemma OneMoreNamed(named: seq<SourceEntry>, last: SourceEntry)
    requires forall e :: e in named ==> e.source.Some?
    ensures last.source.Some? ==> (Index(named + [last], EntryId()).Some? <==>
              Index(named, EntryId()).Some? && forall e :: e in named ==> e.source != last.source)
  {
    hide Index;
    IndexIs(named, EntryId());
    if Index(named, EntryId()).Some? {
      IndexNext(named, last, Index(named, EntryId()).value);
      if last.source.Some? {
        assert EntryId()(last) in Index(named, EntryId()).value <==>
          exists e :: e in named && EntryId()(e) == EntryId()(last);
      }
    } else {
      assert (named + [last])[..|named|] == named;
      NoIndexOfMore(named + [last], EntryId(), |named|);
    }
  }

  /**
   * There is a result exactly when there are observations, all of the subject, all with claims exactly when observed or
   * stale, no id repeats, and no two source entries name one source.
   */
  lemma PingExistsIff(le: (EvidenceKey, EvidenceKey) -> bool, subject: string, observations: seq<Observation>,
      entries: seq<SourceEntry>)
    ensures StatePing.StatePing(le, subject, observations, entries).Some? <==>
              observations != [] &&
              (forall o :: o in observations ==>
                o.subject == subject && (o.claims != [] <==> o.status.Observed? || o.status.Stale?)) &&
              (forall i, j :: 0 <= i < j < |observations| ==> observations[i].id != observations[j].id) &&
              NamesOnce(entries)
  {
    hide EntriesById, Accumulated, InOrder, NamesOnce;
    NamedOnce(entries);
    if forall o :: o in observations ==> o.subject == subject && (o.claims != [] <==> Positive(o)) {
      forall i | 0 <= i < |observations| ensures WellFormed(observations[i]) && observations[i].subject == subject {
        assert observations[i] in observations;
      }
    }
  }

  /** An observation is eligible exactly when it is observed or stale and an entry names its source as usable. */
  lemma EligibleIs(entries: seq<SourceEntry>, o: Observation)
    requires EntriesById(entries).Some?
    ensures var byId := EntriesById(entries).value;
            (o.source in byId <==> exists e :: e in entries && e.source == Some(o.source)) &&
            (Eligible(byId, o) <==>
              (o.status.Observed? || o.status.Stale?) &&
              exists e :: e in entries && e.source == Some(o.source) && e.usable)
  {
    hide Named, Index;
    NamedIs(entries);
    IndexIs(Named(entries), EntryId());
    var byId := EntriesById(entries).value;
    if e :| e in entries && e.source == Some(o.source) { assert EntryId()(e) == o.source; }
    if o.source in byId {
      var e := byId[o.source];
      assert e in Named(entries) && EntryId()(e) == o.source;
    }
  }

  /** What the resource says beside its context. */
  lemma ResourceIs(le: (EvidenceKey, EvidenceKey) -> bool, subject: string, observations: seq<Observation>,
      entries: seq<SourceEntry>, generatedAt: string)
    ensures var r := Resourced(le, subject, observations, entries, generatedAt);
            (r.Some? <==> StatePing.StatePing(le, subject, observations, entries).Some?) &&
            (r.Some? ==>
               r.value.subject == subject && r.value.generatedAt == generatedAt &&
               Some(r.value.context) == StatePing.StatePing(le, subject, observations, entries) &&
               r.value.id.subject == subject && r.value.id.generatedAt == generatedAt &&
               multiset(r.value.id.observations) == multiset(observations) &&
               multiset(r.value.id.entries) == multiset(Named(entries)))
  {
    hide StatePing.StatePing, InOrder, Named, EntriesInOrder;
    OrdersKeepAll(observations, Named(entries));
  }
}
