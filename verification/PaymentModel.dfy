// Deposits, SMS payment events, and how one is matched to the other.

module PaymentModel {
  import opened Filters
  import opened Options

  type UserId = nat

  datatype DepositStatus = Pending | Approved | Rejected

  datatype ReviewSource = ByAdmin | BySms

  // amount in cents; txn and phone normalized, "" when absent; vodafone when the
  // payment method passes the filter of the matcher.
  datatype Deposit = Deposit(user: UserId, vodafone: bool, amount: int, currency: string, txn: string,
                             phone: string, status: DepositStatus, event: Option<nat>,
                             source: Option<ReviewSource>)

  datatype SourceType = VodafoneWallet | Instapay

  // A parsed SMS with the fingerprint of its delivery.
  datatype Sms = Sms(source: Option<SourceType>, parsed: bool, txn: string, amount: int, currency: string,
                     phone: string, fingerprint: string)

  datatype MatchStatus = Unmatched | Matched | Ambiguous | Mismatch | Processed

  datatype PaymentEvent = PaymentEvent(sms: Sms, status: MatchStatus, deposit: Option<nat>, error: bool)

  datatype Wallet = Wallet(currency: string, balance: int)

  // One CREDIT transaction of the wallet ledger, referring to its deposit.
  datatype Credit = Credit(user: UserId, deposit: nat, amount: nat)

  datatype Settings = Settings(autoApprove: bool, instapayAutoApprove: bool)

  // -------------------------------------------------------------------------
  // Matching
  // -------------------------------------------------------------------------

  function CurrencyOf(code: string): string { if code == "" then "EGP" else code }

  // A phone missing on either side is compatible with any.
  predicate PhoneCompatible(dep: Deposit, sms: Sms) {
    dep.phone == "" || sms.phone == "" || dep.phone == sms.phone
  }

  // What the comparison says of the fields that do not change while pending.
  predicate SamePayment(dep: Deposit, sms: Sms) {
    && CurrencyOf(dep.currency) == CurrencyOf(sms.currency) && PhoneCompatible(dep, sms)
    && dep.txn == sms.txn
  }

  predicate Candidate(dep: Deposit, sms: Sms) {
    dep.status == Pending && dep.vodafone && dep.txn == sms.txn
  }

  predicate Exact(dep: Deposit, sms: Sms) {
    Candidate(dep, sms) && SamePayment(dep, sms) && dep.amount == sms.amount
  }

  predicate Usable(sms: Sms) { sms.parsed && sms.txn != "" }

  datatype MatchResult = MatchedTo(deposit: nat) | NotOne(status: MatchStatus)

  function MatchParsed(deposits: seq<Deposit>, sms: Sms): MatchResult {
    if !Usable(sms) then NotOne(Unmatched)
    else if Where(deposits, Candidates(sms)) == [] then NotOne(Unmatched)
    else
      var exact := Where(deposits, Exacts(sms));
      if |exact| == 1 then MatchedTo(exact[0])
      else if |exact| > 1 then NotOne(Ambiguous)
      else NotOne(Mismatch)
  }

  function Candidates(sms: Sms): Deposit -> bool { (dep: Deposit) => Candidate(dep, sms) }

  function Exacts(sms: Sms): Deposit -> bool { (dep: Deposit) => Exact(dep, sms) }

  // A deposit is matched exactly when it is the only pending Vodafone deposit
  // that carries this payment.
  lemma MatchedExactlyWhenUnique(deposits: seq<Deposit>, sms: Sms, i: nat)
    ensures MatchParsed(deposits, sms) == MatchedTo(i) <==> Usable(sms) && Only(deposits, Exacts(sms), i)
  {
    HowMany(deposits, Candidates(sms));
    WhichOne(deposits, Exacts(sms), i);
    if Only(deposits, Exacts(sms), i) { assert Candidates(sms)(deposits[i]); }
  }

  // The other three answers: nothing with this transaction, several deposits
  // that all fit, or some with the transaction and none that fits.
  lemma UnmatchedExactlyWhen(deposits: seq<Deposit>, sms: Sms)
    ensures MatchParsed(deposits, sms) == NotOne(Unmatched) <==>
            !Usable(sms) || !Any(deposits, Candidates(sms))
    ensures MatchParsed(deposits, sms) == NotOne(Ambiguous) <==> Usable(sms) && Two(deposits, Exacts(sms))
    ensures MatchParsed(deposits, sms) == NotOne(Mismatch) <==>
            Usable(sms) && Any(deposits, Candidates(sms)) && !Any(deposits, Exacts(sms))
  {
    HowMany(deposits, Candidates(sms));
    HowMany(deposits, Exacts(sms));
    if Any(deposits, Exacts(sms)) {
      var j :| 0 <= j < |deposits| && Exacts(sms)(deposits[j]);
      assert Candidates(sms)(deposits[j]);
    }
    if Two(deposits, Exacts(sms)) { TwoAreSome(deposits, Exacts(sms)); }
  }

  predicate AutoApprovable(sms: Sms, settings: Settings, tooOld: bool) {
    && settings.autoApprove && !tooOld
    && match sms.source
       case None => false
       case Some(VodafoneWallet) => true
       case Some(Instapay) => settings.instapayAutoApprove
  }
}
