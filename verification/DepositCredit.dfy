// What an approved deposit is worth in the wallet's currency.  Amounts are in
// cents; a rate is how many units of a currency one USD buys, in millionths.

module DepositCredit {
  import opened Options
  import opened Rounding

  type Rates = map<string, nat>

  const ONE: nat := 1000000

  // getConversionRate: 1 for USD, None when the currency is missing or inactive.
  function RateOf(rates: Rates, currency: string): Option<nat> {
    if currency == "USD" then Some(ONE)
    else if currency in rates && rates[currency] > 0 then Some(rates[currency])
    else None
  }

  // A cent is 10^4 millionths of a unit, and a rate is scaled by 10^6.
  const SCALE: nat := 10000000000

  // Number((amount / fromRate).toFixed(6)), in millionths of a dollar.
  function UsdMicros(amount: nat, fromRate: nat): nat
    requires fromRate > 0
  {
    RoundDiv(SCALE * amount, fromRate)
  }

  // Number((amountInUsd * toRate).toFixed(2)), in cents.
  function Converted(amount: nat, fromRate: nat, toRate: nat): nat
    requires fromRate > 0
  {
    RoundDiv(toRate * UsdMicros(amount, fromRate), SCALE)
  }

  function WalletCredit(amount: nat, currency: string, walletCurrency: string, rates: Rates): Option<nat> {
    if currency == walletCurrency then Some(amount)
    else if RateOf(rates, currency) == None || RateOf(rates, walletCurrency) == None then None
    else Some(Converted(amount, RateOf(rates, currency).value, RateOf(rates, walletCurrency).value))
  }

  // Off amount * toRate / fromRate by at most half a cent plus half of 10^-10
  // times the target rate in millionths, which is half a millionth of a dollar at
  // that rate: written without division.
  predicate IsClose(credit: nat, amount: nat, fromRate: nat, toRate: nat) {
    Abs(2 * (SCALE * (fromRate * credit)) - 2 * (SCALE * (toRate * amount))) <= fromRate * SCALE + toRate * fromRate
  }

  lemma ConvertedIsClose(amount: nat, fromRate: nat, toRate: nat)
    requires fromRate > 0
    ensures IsClose(Converted(amount, fromRate, toRate), amount, fromRate, toRate)
  {
    TwoErrors(SCALE, fromRate, Converted(amount, fromRate, toRate), toRate, UsdMicros(amount, fromRate), amount);
  }

  // A credit is refused exactly when a conversion is needed and a rate missing;
  // it is exact without conversion, and close with the deposit's rate as source
  // and the wallet's as target otherwise.
  lemma CreditIsClose(amount: nat, currency: string, walletCurrency: string, rates: Rates)
    ensures var c := WalletCredit(amount, currency, walletCurrency, rates);
            && (c.None? <==> currency != walletCurrency
                             && (RateOf(rates, currency).None? || RateOf(rates, walletCurrency).None?))
            && RateOf(rates, "USD") == Some(1000000)
            && (currency != "USD" ==>
                  RateOf(rates, currency) ==
                  (if currency in rates && rates[currency] > 0 then Some(rates[currency]) else None))
            && (currency == walletCurrency ==> c == Some(amount))
            && (currency != walletCurrency && c.Some? ==>
                  IsClose(c.value, amount, RateOf(rates, currency).value, RateOf(rates, walletCurrency).value))
  {
    if currency != walletCurrency && RateOf(rates, currency).Some? && RateOf(rates, walletCurrency).Some? {
      ConvertedIsClose(amount, RateOf(rates, currency).value, RateOf(rates, walletCurrency).value);
    }
  }

  lemma RoundDivMonotone(a: nat, b: nat, d: nat)
    requires a <= b && d > 0
    ensures RoundDiv(a, d) <= RoundDiv(b, d)
  {
    NextMultiple(d, RoundDiv(b, d));
    RefundAmounts.CancelFactor(RoundDiv(b, d) + 1, RoundDiv(a, d), d);
  }

  // A larger deposit is never credited less than a smaller one.
  lemma CreditIsMonotone(amount: nat, more: nat, currency: string, walletCurrency: string, rates: Rates)
    requires amount <= more && WalletCredit(amount, currency, walletCurrency, rates).Some?
    ensures WalletCredit(more, currency, walletCurrency, rates).Some?
    ensures WalletCredit(amount, currency, walletCurrency, rates).value
         <= WalletCredit(more, currency, walletCurrency, rates).value
  {
    if currency != walletCurrency {
      var fromRate, toRate := RateOf(rates, currency).value, RateOf(rates, walletCurrency).value;
      RoundDivMonotone(SCALE * amount, SCALE * more, fromRate);
      Scale(toRate, UsdMicros(amount, fromRate), UsdMicros(more, fromRate));
      RoundDivMonotone(toRate * UsdMicros(amount, fromRate), toRate * UsdMicros(more, fromRate), SCALE);
    }
  }
}
