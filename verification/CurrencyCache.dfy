// The converter's cache when handlers overlap: a lookup finds a document and
// stores it in two steps, and a write saves and invalidates in two.

module CurrencyCache {
  import opened Options
  import opened CurrencyRates

  datatype Write = SetRate(rate: nat) | SetActive(active: bool) | Create(rate: nat, active: bool) | Delete

  datatype Pc =
    | Finding(code: string)
    | Storing(code: string, rate: nat)
    | Invalidating(code: string)
    | Answered(result: RateResult)
    | Invalidated

  datatype Sys = Sys(currencies: Currencies, cache: Cache, hs: seq<Pc>)

  datatype Step =
    | StartLookup(code: string, now: int)
    | Find(h: nat)
    | Store(h: nat, now: int)
    | Save(code: string, w: Write)
    | Invalidate(h: nat)

  // -------------------------------------------------------------------------
  // Steps
  // -------------------------------------------------------------------------

  // Market rate, name, symbol and markup play no part here.
  function Plain(rate: nat, active: bool): Currency { Currency(rate, None, active, Details("X", "X", 0.0)) }

  function Written(doc: Option<Currency>, w: Write): Option<Currency> {
    match w
    case SetRate(rate) => if doc.Some? && rate > 0 then Some(doc.value.(platformRate := rate)) else doc
    case SetActive(active) => if doc.Some? then Some(doc.value.(active := active)) else doc
    case Create(rate, active) => if doc.None? && rate > 0 then Some(Plain(rate, active)) else doc
    case Delete => None
  }

  function DocOf(currencies: Currencies, code: string): Option<Currency> {
    if code in currencies then Some(currencies[code]) else None
  }

  function WithDoc(currencies: Currencies, code: string, doc: Option<Currency>): Currencies {
    if doc.Some? then currencies[code := doc.value] else currencies - {code}
  }

  function Goto(s: Sys, h: nat, pc: Pc): Sys
    requires h < |s.hs|
  {
    s.(hs := s.hs[h := pc])
  }

  // _getCurrency up to its database read.
  function Started(s: Sys, code: string, now: int): Pc {
    if code == "" then Answered(NoRate(MissingCode))
    else if code == "USD" then Answered(Rate(USD_RATE))
    else if code in s.cache && now - s.cache[code].at < CACHE_TTL_MS then Answered(Rate(s.cache[code].rate))
    else Finding(code)
  }

  // What the read makes of the document.
  function Found(doc: Option<Currency>, code: string): Pc {
    if doc.None? then Answered(NoRate(UnknownCurrency))
    else if !doc.value.active then Answered(NoRate(Inactive))
    else Storing(code, doc.value.platformRate)
  }

  // createCurrency saves without invalidating.
  function Next(s: Sys, step: Step): Sys {
    match step
    case StartLookup(code, now) => s.(hs := s.hs + [Started(s, code, now)])
    case Find(h) =>
      if h < |s.hs| && s.hs[h].Finding?
      then Goto(s, h, Found(DocOf(s.currencies, s.hs[h].code), s.hs[h].code)) else s
    case Store(h, now) =>
      if h < |s.hs| && s.hs[h].Storing?
      then Goto(s.(cache := s.cache[s.hs[h].code := Cached(s.hs[h].rate, now)]), h, Answered(Rate(s.hs[h].rate)))
      else s
    case Save(code, w) =>
      if code == "USD" then s
      else s.(currencies := WithDoc(s.currencies, code, Written(DocOf(s.currencies, code), w)),
              hs := s.hs + [if w.Create? then Invalidated else Invalidating(code)])
    case Invalidate(h) =>
      if h < |s.hs| && s.hs[h].Invalidating? then Goto(s.(cache := s.cache - {s.hs[h].code}), h, Invalidated) else s
  }

  function Run(s: Sys, steps: seq<Step>): Sys {
    if steps == [] then s else Next(Run(s, steps[..|steps| - 1]), steps[|steps| - 1])
  }

  ghost predicate Opening(s: Sys) { s.cache == map[] && s.hs == [] }

  predicate AgreesAt(s: Sys, code: string) {
    code in s.cache ==> StoredRate(s.currencies, code) == Rate(s.cache[code].rate)
  }

  // -------------------------------------------------------------------------
  // A late store
  // -------------------------------------------------------------------------

  // A document after the writes to its code among the steps.
  function AfterWrites(doc: Option<Currency>, steps: seq<Step>, code: string): Option<Currency> {
    if steps == [] then doc
    else
      var before, last := AfterWrites(doc, steps[..|steps| - 1], code), steps[|steps| - 1];
      if last.Save? && last.code == code then Written(before, last.w) else before
  }

  predicate Untouched(steps: seq<Step>, code: string) {
    forall i :: 0 <= i < |steps| ==> !(steps[i].Save? && steps[i].code == code)
  }

  // Whatever else runs, a document is changed by the writes to its code alone.
  lemma {:induction false} DocumentsAreLocal(s: Sys, steps: seq<Step>, code: string)
    requires code != "USD"
    ensures DocOf(Run(s, steps).currencies, code) == AfterWrites(DocOf(s.currencies, code), steps, code)
  {
    if steps != [] { DocumentsAreLocal(s, steps[..|steps| - 1], code); }
  }

  lemma {:induction false} UntouchedStays(doc: Option<Currency>, steps: seq<Step>, code: string)
    requires Untouched(steps, code)
    ensures AfterWrites(doc, steps, code) == doc
  {
    if steps != [] {
      UntouchedStays(doc, steps[..|steps| - 1], code);
      assert !(steps[|steps| - 1].Save? && steps[|steps| - 1].code == code);
    }
  }

  predicate LeavesAlone(steps: seq<Step>, h: nat) {
    forall i :: 0 <= i < |steps| ==> !(steps[i].Store? && steps[i].h == h)
  }

  lemma {:induction false} HandlerWaits(s: Sys, steps: seq<Step>, h: nat)
    requires h < |s.hs| && s.hs[h].Storing? && LeavesAlone(steps, h)
    ensures h < |Run(s, steps).hs| && Run(s, steps).hs[h] == s.hs[h]
  {
    if steps != [] {
      HandlerWaits(s, steps[..|steps| - 1], h);
      assert !(steps[|steps| - 1].Store? && steps[|steps| - 1].h == h);
    }
  }

  // A lookup found an active currency; between its find and its store any other
  // handlers ran.  The cache is right after the store exactly when the writes to
  // that code in between leave it active at the rate that was found.
  lemma LateStoreAgreesExactlyWhen(s: Sys, h: nat, between: seq<Step>, now: int)
    requires h < |s.hs| && s.hs[h].Finding? && s.hs[h].code !in {"USD", ""} && LeavesAlone(between, h)
    requires DocOf(s.currencies, s.hs[h].code).Some? && s.currencies[s.hs[h].code].active
    ensures var code := s.hs[h].code;
            var found, n := s.currencies[code], Next(Run(Next(s, Find(h)), between), Store(h, now));
            var doc := AfterWrites(Some(found), between, code);
            && code in n.cache && n.cache[code] == Cached(found.platformRate, now)
            && (AgreesAt(n, code) <==>
                  doc.Some? && doc.value.active && doc.value.platformRate == found.platformRate)
            && (Untouched(between, code) ==> AgreesAt(n, code))
  {
    var code, s1 := s.hs[h].code, Next(s, Find(h));
    HandlerWaits(s1, between, h);
    DocumentsAreLocal(s1, between, code);
    if Untouched(between, code) { UntouchedStays(Some(s.currencies[code]), between, code); }
  }

  // -------------------------------------------------------------------------
  // Every interleaving
  // -------------------------------------------------------------------------

  // A store of a rate that is still the stored one.
  predicate CleanAt(s: Sys, step: Step) {
    step.Store? && step.h < |s.hs| && s.hs[step.h].Storing? ==>
      StoredRate(s.currencies, s.hs[step.h].code) == Rate(s.hs[step.h].rate)
  }

  predicate CleanRun(start: Sys, steps: seq<Step>) {
    steps == [] || (CleanRun(start, steps[..|steps| - 1])
                    && CleanAt(Run(start, steps[..|steps| - 1]), steps[|steps| - 1]))
  }

  ghost predicate Pending(s: Sys, code: string) {
    exists h :: 0 <= h < |s.hs| && s.hs[h] == Invalidating(code)
  }

  ghost predicate CacheInv(s: Sys) {
    && (forall code :: code in s.cache ==> code !in {"", "USD"} && (AgreesAt(s, code) || Pending(s, code)))
    && (forall h :: 0 <= h < |s.hs| && (s.hs[h].Finding? || s.hs[h].Storing?) ==> s.hs[h].code !in {"", "USD"})
  }

  lemma PendingStays(s: Sys, step: Step, code: string)
    requires Pending(s, code)
    ensures Pending(Next(s, step), code) || code !in Next(s, step).cache
  {
    var n := Next(s, step);
    var h :| 0 <= h < |s.hs| && s.hs[h] == Invalidating(code);
    if h < |n.hs| && n.hs[h] == s.hs[h] { assert Pending(n, code); }
  }

  lemma CacheStep(s: Sys, step: Step)
    requires CacheInv(s) && CleanAt(s, step)
    ensures CacheInv(Next(s, step))
  {
    var n := Next(s, step);
    forall code | code in n.cache ensures code !in {"", "USD"} && (AgreesAt(n, code) || Pending(n, code)) {
      if code in s.cache && Pending(s, code) { PendingStays(s, step, code); }
      if step.Save? && step.code == code && !step.w.Create? && code != "USD" {
        assert n.hs[|s.hs|] == Invalidating(code);
      }
    }
  }

  // Cached rates are right in every run in which each store writes the rate the
  // database still holds, except for a code whose invalidation is still to come.
  lemma {:induction false} CacheIsRight(start: Sys, steps: seq<Step>)
    requires Opening(start) && CleanRun(start, steps)
    ensures CacheInv(Run(start, steps))
  {
    if steps != [] {
      CacheIsRight(start, steps[..|steps| - 1]);
      CacheStep(Run(start, steps[..|steps| - 1]), steps[|steps| - 1]);
    }
  }

  // No currency is written between a lookup's find of it and that lookup's store.
  ghost predicate QuietAt(s: Sys, step: Step) {
    step.Save? ==> forall h :: 0 <= h < |s.hs| && s.hs[h].Storing? ==> s.hs[h].code != step.code
  }

  ghost predicate QuietRun(start: Sys, steps: seq<Step>) {
    steps == [] || (QuietRun(start, steps[..|steps| - 1])
                    && QuietAt(Run(start, steps[..|steps| - 1]), steps[|steps| - 1]))
  }

  // What waits to be stored is what the database holds.
  ghost predicate FoundIsStored(s: Sys) {
    forall h :: 0 <= h < |s.hs| && (s.hs[h].Finding? || s.hs[h].Storing?) ==>
      && s.hs[h].code !in {"", "USD"}
      && (s.hs[h].Storing? ==> StoredRate(s.currencies, s.hs[h].code) == Rate(s.hs[h].rate))
  }

  lemma QuietStep(s: Sys, step: Step)
    requires FoundIsStored(s) && QuietAt(s, step)
    ensures FoundIsStored(Next(s, step))
  {
    var n := Next(s, step);
    forall h | 0 <= h < |n.hs| && n.hs[h].Storing?
      ensures n.hs[h].code !in {"", "USD"} && StoredRate(n.currencies, n.hs[h].code) == Rate(n.hs[h].rate)
    {
      if h < |s.hs| && n.hs[h] == s.hs[h] { assert step.Save? ==> s.hs[h].code != step.code; }
    }
  }

  // In such runs every store writes the rate still stored, so the cache is right.
  lemma {:induction false} QuietRunsCacheRight(start: Sys, steps: seq<Step>)
    requires Opening(start) && QuietRun(start, steps)
    ensures CleanRun(start, steps) && CacheInv(Run(start, steps)) && FoundIsStored(Run(start, steps))
  {
    if steps != [] {
      QuietRunsCacheRight(start, steps[..|steps| - 1]);
      QuietStep(Run(start, steps[..|steps| - 1]), steps[|steps| - 1]);
      CacheStep(Run(start, steps[..|steps| - 1]), steps[|steps| - 1]);
    }
  }

  // A cached rate is served for a minute after it was stored and never later; a
  // lookup that finds none in the cache goes to the database.
  lemma ServedForAMinute(s: Sys, code: string, now: int)
    requires code !in {"", "USD"}
    ensures Started(s, code, now) ==
            if code in s.cache && now < s.cache[code].at + 60000 then Answered(Rate(s.cache[code].rate))
            else Finding(code)
  {}

  // No write stores a rate of nothing.
  ghost predicate RatesPositive(s: Sys) {
    forall c :: c in s.currencies && c != "USD" ==> s.currencies[c].platformRate > 0
  }

  lemma {:induction false} RatesStayPositive(start: Sys, steps: seq<Step>)
    requires RatesPositive(start)
    ensures RatesPositive(Run(start, steps))
  {
    if steps != [] { RatesStayPositive(start, steps[..|steps| - 1]); }
  }

  // -------------------------------------------------------------------------
  // A rate that is served after it was replaced
  // -------------------------------------------------------------------------

  const STALE: seq<Step> :=
    [StartLookup("SAR", 0), Find(0), Save("SAR", SetRate(4100000)), Invalidate(1), Store(0, 5),
     StartLookup("SAR", 1000)]

  lemma Prefix(s: Sys, n: nat)
    requires n < |STALE|
    ensures Run(s, STALE[..n + 1]) == Next(Run(s, STALE[..n]), STALE[n])
  {
    assert STALE[..n + 1][..n] == STALE[..n];
  }

  const OLD := Plain(3750000, true)
  const NEW := Plain(4100000, true)

  lemma FoundThenReplaced(start: Sys)
    requires start == Sys(map["SAR" := OLD], map[], [])
    ensures Run(start, STALE[..3]) ==
            Sys(map["SAR" := NEW], map[], [Storing("SAR", 3750000), Invalidating("SAR")])
  {
    assert STALE[..0] == [];
    Prefix(start, 0);
    assert Run(start, STALE[..1]) == Sys(map["SAR" := OLD], map[], [Finding("SAR")]);
    Prefix(start, 1);
    assert Run(start, STALE[..2]) == Sys(map["SAR" := OLD], map[], [Storing("SAR", 3750000)]);
    Prefix(start, 2);
  }

  lemma StoredAfterwards(start: Sys)
    requires Run(start, STALE[..3]) ==
             Sys(map["SAR" := NEW], map[], [Storing("SAR", 3750000), Invalidating("SAR")])
    ensures Run(start, STALE[..5]) ==
            Sys(map["SAR" := NEW], map["SAR" := Cached(3750000, 5)], [Answered(Rate(3750000)), Invalidated])
  {
    Prefix(start, 3);
    assert Run(start, STALE[..4]) == Sys(map["SAR" := NEW], map[], [Storing("SAR", 3750000), Invalidated]);
    Prefix(start, 4);
  }

  // A lookup finds 3.75, the rate is set to 4.10 and the cache invalidated, the
  // lookup stores 3.75, and the next lookup within the minute answers 3.75.
  lemma OldRateIsServed(start: Sys)
    requires Opening(start) && start.currencies == map["SAR" := OLD]
    ensures var s := Run(start, STALE);
            |s.hs| == 3 && s.hs[2] == Answered(Rate(3750000)) && StoredRate(s.currencies, "SAR") == Rate(4100000)
  {
    FoundThenReplaced(start);
    StoredAfterwards(start);
    Prefix(start, 5);
    assert STALE[..6] == STALE;
  }
}
