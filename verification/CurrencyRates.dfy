// Currencies, the in-process cache of the converter, and rate updates that
// re-peg debts.  Rates are in millionths, as stored; codes are upper-case.

module CurrencyRates {
  import opened Options
  import opened Rounding
  import opened DebtArithmetic
  import opened AdminWallet

  // Display only; the markup enters no conversion.
  datatype Details = Details(name: string, symbol: string, markup: real)

  datatype Currency = Currency(platformRate: nat, marketRate: Option<real>, active: bool, details: Details)

  datatype Cached = Cached(rate: nat, at: int)

  datatype CurrencyError =
    | MissingCode | UnknownCurrency | Inactive | ImmutableUsd | InvalidRate | InvalidMarkup | InvalidDocument
    | CannotDisableUsd | InvalidCode | AlreadyExists | CannotDeleteUsd | InUse

  datatype RateResult = Rate(rate: nat) | NoRate(error: CurrencyError)

  const USD_RATE: nat := 1000000
  const CACHE_TTL_MS := 60000

  type Currencies = map<string, Currency>
  type Cache = map<string, Cached>

  // What the database alone says of a code.
  function StoredRate(currencies: Currencies, code: string): RateResult {
    if code == "" then NoRate(MissingCode)
    else if code == "USD" then Rate(USD_RATE)
    else if code !in currencies then NoRate(UnknownCurrency)
    else if !currencies[code].active then NoRate(Inactive)
    else Rate(currencies[code].platformRate)
  }

  ghost predicate CacheAgrees(currencies: Currencies, cache: Cache) {
    forall c :: c in cache ==> c != "USD" && StoredRate(currencies, c) == Rate(cache[c].rate)
  }

  predicate ValidCode(code: string) {
    |code| == 3 && forall i :: 0 <= i < 3 ==> 'A' <= code[i] <= 'Z'
  }

  // The schema's validation, at every save.
  predicate ValidDetails(d: Details) { 0 < |d.name| <= 64 && 0 < |d.symbol| <= 8 && d.markup >= 0.0 }

  predicate ValidDoc(c: Currency) {
    c.platformRate > 0 && (c.marketRate.Some? ==> c.marketRate.value >= 0.0) && ValidDetails(c.details)
  }

  // The fields of an update that are given.
  datatype Update = Update(platformRate: Option<real>, markup: Option<real>, name: Option<string>, symbol: Option<string>)

  function OrElse<T>(x: Option<T>, y: T): T { if x.Some? then x.value else y }

  function DetailsAfter(d: Details, u: Update): Details {
    Details(OrElse(u.name, d.name), OrElse(u.symbol, d.symbol), OrElse(u.markup, d.markup))
  }

  function UpdateError(currencies: Currencies, code: string, u: Update): Option<CurrencyError> {
    if code !in currencies then Some(UnknownCurrency)
    else if code == "USD" && u.platformRate.Some? && u.platformRate.value != 1.0 then Some(ImmutableUsd)
    else if u.platformRate.Some? && u.platformRate.value <= 0.0 then Some(InvalidRate)
    else if u.markup.Some? && u.markup.value < 0.0 then Some(InvalidMarkup)
    else if u.platformRate.Some? && ToMillionths(u.platformRate.value) <= 0 then Some(InvalidDocument)
    else if !ValidDetails(DetailsAfter(currencies[code].details, u)) then Some(InvalidDocument)
    else None
  }

  // parseFloat(rate.toFixed(6)), in millionths.
  function ToMillionths(rate: real): int { RoundHalfUp(rate * 1000000.0) }

  // A stored rate is the given one to six decimals, halves up.
  lemma StoredRateIsRounded(rate: real)
    ensures 2.0 * rate * 1000000.0 - 1.0 < 2.0 * (ToMillionths(rate) as real) <= 2.0 * rate * 1000000.0 + 1.0
  {}

  // An update goes through exactly when the currency exists, the rate of USD is
  // not given as anything but 1, a rate that is given is positive to six
  // decimals, a markup not negative, and the names within their limits.
  lemma UpdatedExactlyWhen(currencies: Currencies, code: string, u: Update)
    ensures UpdateError(currencies, code, u).None? <==>
            && code in currencies
            && (u.platformRate.Some? ==>
                  && 2.0 * u.platformRate.value * 1000000.0 >= 1.0
                  && (code == "USD" ==> u.platformRate.value == 1.0))
            && (u.markup.Some? ==> u.markup.value >= 0.0)
            && (u.markup.None? ==> currencies[code].details.markup >= 0.0)
            && 0 < |if u.name.Some? then u.name.value else currencies[code].details.name| <= 64
            && 0 < |if u.symbol.Some? then u.symbol.value else currencies[code].details.symbol| <= 8
  {
    if u.platformRate.Some? { StoredRateIsRounded(u.platformRate.value); }
  }

  // The dollar's own document.
  predicate UsdIsOne(currencies: Currencies) {
    "USD" in currencies && currencies["USD"].active && currencies["USD"].platformRate == 1000000
  }

  // platformRate || 1
  function OrOne(rate: Option<real>): real { if rate.Some? && rate.value != 0.0 then rate.value else 1.0 }

  // A user after one rate update that applies the debt adjustment.
  function RepeggedUser(u: User, code: string, oldRate: nat, newRate: nat, fate: Fate): User
    requires oldRate > 0
  {
    if newRate == oldRate || !ValidPercent(Percent(oldRate, newRate)) then u
    else AfterAdjustment(u, Some(code), Percent(oldRate, newRate), newRate > oldRate, fate)
  }

  // Only users who owe in this currency are re-pegged, by the percentage that
  // the rate changed, and none by a change of nothing or of more than 100 percent.
  lemma RepegTouches(u: User, code: string, oldRate: nat, newRate: nat, fate: Fate)
    requires oldRate > 0
    ensures var n, p := RepeggedUser(u, code, oldRate, newRate, fate), Percent(oldRate, newRate);
            && (u.balance >= 0 || u.deleted || u.currency != code ==> n == u)
            && (newRate == oldRate || p == 0 || p > WHOLE ==> n == u)
            && (newRate != oldRate && 0 < p <= WHOLE ==> AdjustedAs(u, n, Some(code), p, newRate > oldRate, fate))
            && 2 * (oldRate * p) <= 2 * (Abs(newRate - oldRate) * WHOLE) + oldRate < 2 * (oldRate * p) + 2 * oldRate
  {
    AdjustmentMeans(u, Some(code), Percent(oldRate, newRate), newRate > oldRate, fate);
  }

  lemma RepeggedUserOwes(u: User, code: string, oldRate: nat, newRate: nat)
    requires oldRate > 0 && InDebt(Some(code))(u)
    ensures RepeggedUser(u, code, oldRate, newRate, Fine).balance == -(Repegged(-u.balance, oldRate, newRate) as int)
    ensures var n := RepeggedUser(u, code, oldRate, newRate, Fine); n.currency == u.currency && n.deleted == u.deleted
  {}

  lemma NothingLeftToRepeg(oldRate: nat, newRate: nat)
    requires oldRate > 0
    ensures Repegged(0, oldRate, newRate) == 0
  {}

  lemma UserOwesAfterRoundTrip(u: User, code: string, a: nat, b: nat)
    requires a > 0 && b > 0 && InDebt(Some(code))(u)
    ensures var n := RepeggedUser(RepeggedUser(u, code, a, b, Fine), code, b, a, Fine);
            n.balance == -(RoundTrip(-u.balance, a, b) as int)
  {
    var m := RepeggedUser(u, code, a, b, Fine);
    RepeggedUserOwes(u, code, a, b);
    if m.balance < 0 { RepeggedUserOwes(m, code, b, a); } else { NothingLeftToRepeg(b, a); }
  }

  // There and back: every user's balance returns to within a cent and a half and
  // 1.5 millionths of the debt.
  lemma UserRoundTrip(u: User, code: string, a: nat, b: nat)
    requires a > 0 && b > 0 && Percent(Low(a, b), High(a, b)) <= WHOLE
    ensures var n := RepeggedUser(RepeggedUser(u, code, a, b, Fine), code, b, a, Fine);
            if InDebt(Some(code))(u) then n.balance <= 0 && Restored(-u.balance, -n.balance) else n == u
  {
    if InDebt(Some(code))(u) {
      UserOwesAfterRoundTrip(u, code, a, b);
      WithinLimitRestores(-u.balance, a, b);
    }
  }

  class CurrencyService {
    var currencies: Currencies
    var cache: Cache

    ghost predicate Valid()
      reads this
    {
      CacheAgrees(currencies, cache) && forall c :: c in currencies ==> ValidDoc(currencies[c])
    }

    constructor (currencies: Currencies)
      requires forall c :: c in currencies ==> ValidDoc(currencies[c])
      ensures Valid() && this.currencies == currencies && cache == map[]
    {
      this.currencies, cache := currencies, map[];
    }

    // Whatever is cached, and for however long, the answer is the stored rate.
    method GetConversionRate(code: string, now: int) returns (r: RateResult)
      requires Valid()
      modifies this`cache
      ensures Valid() && r == StoredRate(currencies, code)
    {
      if code == "" { return NoRate(MissingCode); }
      if code == "USD" { return Rate(USD_RATE); }
      if code in cache && now - cache[code].at < CACHE_TTL_MS { return Rate(cache[code].rate); }
      if code !in currencies { return NoRate(UnknownCurrency); }
      var doc := currencies[code];
      if !doc.active { return NoRate(Inactive); }
      cache := cache[code := Cached(doc.platformRate, now)];
      return Rate(doc.platformRate);
    }

    method InvalidateCurrencyCache(code: string)
      modifies this`cache
      ensures cache == old(cache) - {code}
    {
      cache := cache - {code};
    }

    // A new rate is stored, dropped from the cache, and - when asked for - passed
    // on to every debt in that currency.  A refused percentage leaves the debts.
    method UpdateCurrencyRate(code: string, u: Update, apply: bool, admin: WalletAdmin, fates: nat -> Fate)
      returns (error: Option<CurrencyError>)
      requires Valid()
      modifies this, admin
      ensures Valid() && (UsdIsOne(old(currencies)) ==> UsdIsOne(currencies))
      ensures error == UpdateError(old(currencies), code, u)
      ensures error.Some? ==> currencies == old(currencies) && admin.users == old(admin.users)
      ensures error.None? ==>
                && code in currencies && code !in cache
                && currencies == old(currencies)[code := old(currencies)[code].(
                     platformRate := if u.platformRate.Some? then ToMillionths(u.platformRate.value)
                                     else old(currencies)[code].platformRate,
                     details := DetailsAfter(old(currencies)[code].details, u))]
                && |admin.users| == |old(admin.users)|
                && forall i :: 0 <= i < |admin.users| ==>
                     admin.users[i] ==
                     if apply
                     then RepeggedUser(old(admin.users)[i], code, old(currencies)[code].platformRate,
                                       currencies[code].platformRate, fates(i))
                     else old(admin.users)[i]
    {
      if code !in currencies { return Some(UnknownCurrency); }
      var oldRate := currencies[code].platformRate;
      error := SaveUpdate(code, u);
      if error.Some? { return; }
      var newRate := currencies[code].platformRate;
      if apply && u.platformRate.Some? && newRate != oldRate && oldRate > 0 {
        var refused, bulk;
        ghost var found;
        refused, bulk, found :=
          admin.AdjustNegativeBalances(Percent(oldRate, newRate), Some(code), newRate > oldRate, fates);
      }
    }

    // The document up to its save, and the invalidation.
    method SaveUpdate(code: string, u: Update) returns (error: Option<CurrencyError>)
      requires Valid() && code in currencies
      modifies this
      ensures Valid() && (UsdIsOne(old(currencies)) ==> UsdIsOne(currencies))
      ensures error == UpdateError(old(currencies), code, u)
      ensures error.Some? ==> currencies == old(currencies)
      ensures error.None? ==>
                && code !in cache
                && currencies == old(currencies)[code := old(currencies)[code].(
                     platformRate := if u.platformRate.Some? then ToMillionths(u.platformRate.value)
                                     else old(currencies)[code].platformRate,
                     details := DetailsAfter(old(currencies)[code].details, u))]
    {
      var doc := currencies[code];
      if code == "USD" && u.platformRate.Some? && u.platformRate.value != 1.0 { return Some(ImmutableUsd); }
      var newRate := doc.platformRate as int;
      if u.platformRate.Some? {
        if u.platformRate.value <= 0.0 { return Some(InvalidRate); }
        newRate := ToMillionths(u.platformRate.value);
      }
      var details := doc.details;
      if u.markup.Some? {
        if u.markup.value < 0.0 { return Some(InvalidMarkup); }
        details := details.(markup := u.markup.value);
      }
      if u.name.Some? { details := details.(name := u.name.value); }
      if u.symbol.Some? { details := details.(symbol := u.symbol.value); }
      if newRate <= 0 || !ValidDetails(details) { return Some(InvalidDocument); }
      currencies := currencies[code := doc.(platformRate := newRate, details := details)];
      InvalidateCurrencyCache(code);
      return None;
    }

    method SetCurrencyStatus(code: string, active: bool) returns (error: Option<CurrencyError>)
      requires Valid()
      modifies this
      ensures Valid() && (UsdIsOne(old(currencies)) ==> UsdIsOne(currencies))
      ensures error == if code == "USD" && !active then Some(CannotDisableUsd)
                       else if code !in old(currencies) then Some(UnknownCurrency) else None
      ensures currencies == if error.None? then old(currencies)[code := old(currencies)[code].(active := active)]
                            else old(currencies)
    {
      if code == "USD" && !active { return Some(CannotDisableUsd); }
      if code !in currencies { return Some(UnknownCurrency); }
      currencies := currencies[code := currencies[code].(active := active)];
      InvalidateCurrencyCache(code);
      return None;
    }

    // Nothing to invalidate: an unknown currency cannot be cached.
    method CreateCurrency(code: string, name: string, symbol: string, platformRate: Option<real>,
                          marketRate: Option<real>, markup: Option<real>)
      returns (error: Option<CurrencyError>)
      requires Valid()
      modifies this`currencies
      ensures Valid() && (UsdIsOne(old(currencies)) ==> UsdIsOne(currencies))
      ensures error.Some? ==> currencies == old(currencies)
      ensures error.None? <==> ValidCode(code) && code !in old(currencies)
                               && ToMillionths(OrOne(platformRate)) > 0
                               && (marketRate.Some? ==> marketRate.value >= 0.0)
                               && ValidDetails(Details(name, symbol, OrElse(markup, 0.0)))
      ensures error.None? ==>
                currencies == old(currencies)[code := Currency(
                  ToMillionths(OrOne(platformRate)), marketRate, true, Details(name, symbol, OrElse(markup, 0.0)))]
    {
      if !ValidCode(code) { return Some(InvalidCode); }
      if code in currencies { return Some(AlreadyExists); }
      var rate := ToMillionths(OrOne(platformRate));
      if rate <= 0 { return Some(InvalidDocument); }
      var doc := Currency(rate, marketRate, true, Details(name, symbol, OrElse(markup, 0.0)));
      if !ValidDoc(doc) { return Some(InvalidDocument); }
      currencies := currencies[code := doc];
      return None;
    }

    // Not while any user's wallet is in it.
    method DeleteCurrency(code: string, users: seq<User>) returns (error: Option<CurrencyError>)
      requires Valid()
      modifies this
      ensures Valid() && (UsdIsOne(old(currencies)) ==> UsdIsOne(currencies))
      ensures error.None? <==> code in old(currencies) && code != "USD"
                               && forall i :: 0 <= i < |users| ==> users[i].currency != code
      ensures currencies == if error.None? then old(currencies) - {code} else old(currencies)
    {
      if code !in currencies { return Some(UnknownCurrency); }
      if code == "USD" { return Some(CannotDeleteUsd); }
      if exists i :: 0 <= i < |users| && users[i].currency == code { return Some(InUse); }
      currencies := currencies - {code};
      InvalidateCurrencyCache(code);
      return None;
    }

    // The feed refreshes market rates and adds inactive currencies; a stored
    // platform rate or status is never its business.
    // defaults: the names and symbols new currencies start with.
    method SyncRates(rates: seq<(string, real)>, defaults: string -> Details)
      returns (synced: nat, created: nat, skipped: nat)
      requires Valid() && forall c :: ValidCode(c) ==> ValidDetails(defaults(c))
      modifies this
      ensures Valid() && (UsdIsOne(old(currencies)) ==> UsdIsOne(currencies))
      ensures synced + created + skipped <= |rates| + 1
      ensures old(currencies).Keys <= currencies.Keys
      ensures forall c :: c in old(currencies) ==>
                currencies[c].platformRate == old(currencies)[c].platformRate
                && currencies[c].active == old(currencies)[c].active
                && currencies[c].details == old(currencies)[c].details
      ensures forall c :: c in currencies && c !in old(currencies) ==> !currencies[c].active && ValidCode(c)
      ensures forall c :: StoredRate(old(currencies), c).Rate? ==>
                StoredRate(currencies, c) == StoredRate(old(currencies), c)
    {
      var feed := rates + [("USD", 1.0)];
      synced, created, skipped := 0, 0, 0;
      for n := 0 to |feed|
        invariant Valid()
        invariant synced + created + skipped <= n
        invariant old(currencies).Keys <= currencies.Keys
        invariant forall c :: c in old(currencies) ==>
                    currencies[c].platformRate == old(currencies)[c].platformRate
                    && currencies[c].active == old(currencies)[c].active
                    && currencies[c].details == old(currencies)[c].details
        invariant forall c :: c in currencies && c !in old(currencies) ==> !currencies[c].active && ValidCode(c)
      {
        var (code, marketRate) := feed[n];
        if !ValidCode(code) || marketRate <= 0.0 {
          skipped := skipped + 1;
        } else if code in currencies {
          currencies := currencies[code := currencies[code].(marketRate := Some(marketRate))];
          InvalidateCurrencyCache(code);
          synced := synced + 1;
        } else if ToMillionths(marketRate) > 0 {
          currencies := currencies[code := Currency(ToMillionths(marketRate), Some(marketRate), false, defaults(code))];
          created := created + 1;
        }
      }
    }
  }
}
