// A deposit and its SMS may arrive in either order.

module PaymentOrder {
  import opened Filters
  import opened Options
  import opened DepositCredit
  import opened PaymentModel
  import opened PaymentMachine
  import opened PaymentArrival

  // No stored deposit or event carries this transaction, if it is one.
  ghost predicate Alone(d: Desk, txn: string) {
    txn != "" ==>
      && (forall i :: 0 <= i < |d.deposits| ==> d.deposits[i].txn != txn)
      && (forall e :: 0 <= e < |d.events| ==> d.events[e].sms.txn != txn)
  }

  predicate SameMoney(a: Desk, b: Desk) {
    a.deposits == b.deposits && a.wallets == b.wallets && a.ledger == b.ledger
  }

  function AutoReview(e: nat): Review { Review(None, None, BySms, Some(e)) }

  // What an event does to the last deposit, whichever came first.
  function Meeting(d: Desk, i: nat, e: nat, sms: Sms, c: Circumstances): Desk {
    if i < |d.deposits| && Usable(sms) && Exact(d.deposits[i], sms) && AutoApprovable(sms, c.settings, c.tooOld)
    then
      var a := TryApprove(d, i, AutoReview(e), c.rates, c.commits);
      if a.Committed? then a.desk else d
    else d
  }

  lemma ApprovalReadsMoney(a: Desk, b: Desk, i: nat, r: Review, rates: Rates, commits: bool)
    requires SameMoney(a, b)
    ensures var x, y := TryApprove(a, i, r, rates, commits), TryApprove(b, i, r, rates, commits);
            if x.Committed? then y.Committed? && SameMoney(x.desk, y.desk) else x == y
  {}

  // Finishing a job that is over, or does not exist, does nothing.
  lemma NothingToFinish(d: Desk, j: nat, c: Circumstances)
    requires j >= |d.jobs| || d.jobs[j] == Over
    ensures Finish(d, j, c) == d
  {}

  // Finishing a job on an event that can only mean deposit i.
  lemma FinishMeets(d: Desk, j: nat, c: Circumstances, i: nat)
    requires j < |d.jobs| && d.jobs[j].Matching? && d.jobs[j].event < |d.events|
    requires Usable(d.events[d.jobs[j].event].sms) ==>
               forall k :: 0 <= k < |d.deposits| && k != i ==> d.deposits[k].txn != d.events[d.jobs[j].event].sms.txn
    ensures var e := d.jobs[j].event;
            SameMoney(Finish(d, j, c), Meeting(d, i, e, d.events[e].sms, c))
  {
    var e := d.jobs[j].event;
    var sms := d.events[e].sms;
    MatchedExactlyWhenUnique(d.deposits, sms, i);
    var n := ApplyMatch(d, j, c.settings, c.tooOld);
    if MatchParsed(d.deposits, sms) == MatchedTo(i) {
      if AutoApprovable(sms, c.settings, c.tooOld) {
        ApprovalReadsMoney(d, n, i, AutoReview(e), c.rates, c.commits);
        assert n.jobs[j] == Approving(e, i);
      }
    } else {
      NoOtherMatch(d.deposits, sms, i);
      assert n.jobs[j] == Over;
    }
  }

  lemma NoOtherMatch(deposits: seq<Deposit>, sms: Sms, i: nat)
    requires Usable(sms) ==> forall k :: 0 <= k < |deposits| && k != i ==> deposits[k].txn != sms.txn
    requires MatchParsed(deposits, sms) != MatchedTo(i)
    ensures MatchParsed(deposits, sms).NotOne?
    ensures !(i < |deposits| && Usable(sms) && Exact(deposits[i], sms))
  {
    match MatchParsed(deposits, sms) {
      case MatchedTo(k) => MatchedExactlyWhenUnique(deposits, sms, k);
      case NotOne(_) =>
    }
    if i < |deposits| && Usable(sms) && Exact(deposits[i], sms) {
      assert Only(deposits, Exacts(sms), i);
      MatchedExactlyWhenUnique(deposits, sms, i);
    }
  }

  lemma Nothing(deposits: seq<Deposit>, sms: Sms)
    requires Usable(sms) ==> forall k :: 0 <= k < |deposits| ==> deposits[k].txn != sms.txn
    ensures MatchParsed(deposits, sms) == NotOne(Unmatched)
  {
    UnmatchedExactlyWhen(deposits, sms);
  }

  function Waiting(sms: Sms): PaymentEvent { PaymentEvent(sms, Unmatched, None, false) }

  // An SMS nobody asked for yet is stored and left unmatched.
  lemma SmsWaits(d: Desk, sms: Sms, c: Circumstances)
    requires !Duplicate(d.events, sms)
    requires Usable(sms) ==> forall k :: 0 <= k < |d.deposits| ==> d.deposits[k].txn != sms.txn
    ensures Handle(d, SmsArrives(sms, c)) ==
            d.(events := d.events + [Waiting(sms)], jobs := if sms.parsed then d.jobs + [Over] else d.jobs)
  {
    var r := Received(d, sms);
    Nothing(d.deposits, sms);
    if sms.parsed {
      assert (d.jobs + [Matching(|d.events|)])[|d.jobs| := Over] == d.jobs + [Over];
    } else {
      NothingToFinish(r, |d.jobs|, c);
    }
  }

  lemma SmsMeets(d: Desk, sms: Sms, c: Circumstances, i: nat)
    requires !Duplicate(d.events, sms)
    requires Usable(sms) ==> forall k :: 0 <= k < |d.deposits| && k != i ==> d.deposits[k].txn != sms.txn
    ensures SameMoney(Handle(d, SmsArrives(sms, c)), Meeting(d, i, |d.events|, sms, c))
  {
    var r := Received(d, sms);
    MeetingReadsMoney(r, d, i, |d.events|, sms, c);
    if sms.parsed {
      FinishMeets(r, |d.jobs|, c, i);
    } else {
      NothingToFinish(r, |d.jobs|, c);
    }
  }

  // A deposit that no stored event fits just waits.
  lemma DepositWaits(d: Desk, form: Deposit, c: Circumstances)
    requires FirstFit(Next(d, Submit(form)), |d.deposits|) == None
    ensures Handle(d, DepositMade(form, c)) == Next(d, Submit(form))
  {
    NothingToFinish(Next(d, Submit(form)), |d.jobs|, c);
  }

  lemma DepositMeets(d: Desk, form: Deposit, c: Circumstances, e: nat)
    requires forall k :: 0 <= k < |d.deposits| ==> d.deposits[k].txn != form.txn
    requires e < |d.events| && FirstFit(Next(d, Submit(form)), |d.deposits|) == Some(e)
    requires |Next(d, Submit(form)).deposits| == |d.deposits| + 1 && d.events[e].sms.txn == form.txn
    ensures SameMoney(Handle(d, DepositMade(form, c)),
                      Meeting(Next(d, Submit(form)), |d.deposits|, e, d.events[e].sms, c))
  {
    var i, s := |d.deposits|, Next(d, Submit(form));
    var r := Next(s, Rematch(i));
    FinishMeets(r, |d.jobs|, c, i);
    MeetingReadsMoney(r, s, i, e, d.events[e].sms, c);
  }

  // The only event a deposit can fit is the one with its transaction.
  lemma OnlyItsEvent(d: Desk, i: nat, e: nat)
    requires i < |d.deposits|
    requires forall k :: 0 <= k < |d.events| && k != e ==> d.events[k].sms.txn != d.deposits[i].txn
    ensures FirstFit(d, i) ==
            if d.deposits[i].status == Pending && d.deposits[i].txn != ""
               && e < |d.events| && Fits(d.deposits[i], d.events[e])
            then Some(e) else None
  {
    var fits := (ev: PaymentEvent) => Fits(d.deposits[i], ev);
    WhichOne(d.events, fits, e);
    HowMany(d.events, fits);
  }

  lemma MeetingReadsMoney(a: Desk, b: Desk, i: nat, e: nat, sms: Sms, c: Circumstances)
    requires SameMoney(a, b)
    ensures SameMoney(Meeting(a, i, e, sms, c), Meeting(b, i, e, sms, c))
  {
    ApprovalReadsMoney(a, b, i, AutoReview(e), c.rates, c.commits);
  }

  // Event first or deposit first: the same deposits, wallets and ledger, namely
  // those of the deposit meeting the event.
  lemma ArrivalOrderIsIrrelevant(d: Desk, form: Deposit, sms: Sms, c: Circumstances)
    requires Alone(d, form.txn) && Alone(d, sms.txn) && !Duplicate(d.events, sms)
    ensures var met := Meeting(Next(d, Submit(form)), |d.deposits|, |d.events|, sms, c);
            && SameMoney(Handle(Handle(d, SmsArrives(sms, c)), DepositMade(form, c)), met)
            && SameMoney(Handle(Handle(d, DepositMade(form, c)), SmsArrives(sms, c)), met)
  {
    SmsThenDeposit(d, form, sms, c);
    DepositThenSms(d, form, sms, c);
  }

  lemma SmsThenDeposit(d: Desk, form: Deposit, sms: Sms, c: Circumstances)
    requires Alone(d, form.txn) && Alone(d, sms.txn) && !Duplicate(d.events, sms)
    ensures SameMoney(Handle(Handle(d, SmsArrives(sms, c)), DepositMade(form, c)),
                      Meeting(Next(d, Submit(form)), |d.deposits|, |d.events|, sms, c))
  {
    var i, e := |d.deposits|, |d.events|;
    SmsWaits(d, sms, c);
    EventFirst(Handle(d, SmsArrives(sms, c)), form, c, e);
    MeetingReadsMoney(Next(Handle(d, SmsArrives(sms, c)), Submit(form)), Next(d, Submit(form)), i, e, sms, c);
  }

  lemma DepositThenSms(d: Desk, form: Deposit, sms: Sms, c: Circumstances)
    requires Alone(d, form.txn) && Alone(d, sms.txn) && !Duplicate(d.events, sms)
    ensures SameMoney(Handle(Handle(d, DepositMade(form, c)), SmsArrives(sms, c)),
                      Meeting(Next(d, Submit(form)), |d.deposits|, |d.events|, sms, c))
  {
    var s, i, e := Next(d, Submit(form)), |d.deposits|, |d.events|;
    if i < |s.deposits| && form.txn != "" { OnlyItsEvent(s, i, e); }
    DepositWaits(d, form, c);
    SmsMeets(s, sms, c, i);
  }

  lemma EventFirst(d: Desk, form: Deposit, c: Circumstances, e: nat)
    requires form.txn != "" ==> forall k :: 0 <= k < |d.deposits| ==> d.deposits[k].txn != form.txn
    requires form.txn != "" ==> forall k :: 0 <= k < |d.events| && k != e ==> d.events[k].sms.txn != form.txn
    requires e < |d.events| && d.events[e].status == Unmatched
    ensures SameMoney(Handle(d, DepositMade(form, c)),
                      Meeting(Next(d, Submit(form)), |d.deposits|, e, d.events[e].sms, c))
  {
    var i, s := |d.deposits|, Next(d, Submit(form));
    if i < |s.deposits| && form.txn != "" {
      OnlyItsEvent(s, i, e);
      if FirstFit(s, i) == Some(e) { DepositMeets(d, form, c, e); } else { DepositWaits(d, form, c); }
    } else {
      DepositWaits(d, form, c);
    }
  }

  // -------------------------------------------------------------------------
  // When the deposit is approved, and what it pays
  // -------------------------------------------------------------------------

  // A currency that is missing counts as EGP.
  function OrEgp(code: string): string { if code == "" then "EGP" else code }

  // The message is about this very payment.
  predicate SamePaymentAs(form: Deposit, sms: Sms) {
    && sms.parsed && sms.txn != "" && form.txn == sms.txn && form.vodafone && form.amount == sms.amount
    && OrEgp(form.currency) == OrEgp(sms.currency)
    && (form.phone == "" || sms.phone == "" || form.phone == sms.phone)
  }

  predicate MayApprove(sms: Sms, c: Circumstances) {
    && c.settings.autoApprove && !c.tooOld && c.commits
    && (sms.source == Some(VodafoneWallet) || (sms.source == Some(Instapay) && c.settings.instapayAutoApprove))
  }

  function CreditFor(d: Desk, form: Deposit, rates: Rates): Option<nat>
    requires form.user in d.wallets && form.amount > 0
  {
    WalletCredit(form.amount, BillingCurrency(form.currency), d.wallets[form.user].currency, rates)
  }

  predicate IsApproved(d: Desk, form: Deposit, sms: Sms, c: Circumstances) {
    && form.user in d.wallets && form.amount > 0
    && SamePaymentAs(form, sms) && MayApprove(sms, c)
    && CreditFor(d, form, c.rates).Some? && CreditFor(d, form, c.rates).value > 0
  }

  ghost predicate PaysExactly(d: Desk, form: Deposit, sms: Sms, c: Circumstances, n: Desk) {
    var i := |d.deposits|;
    && (i < |n.deposits| <==> form.user in d.wallets && form.amount > 0)
    && (i < |n.deposits| && n.deposits[i].status == Approved <==> IsApproved(d, form, sms, c))
    && if IsApproved(d, form, sms, c)
       then
         var credit := CreditFor(d, form, c.rates).value;
         && n.deposits[i].event == Some(|d.events|) && n.ledger == d.ledger + [Credit(form.user, i, credit)]
         && n.wallets == d.wallets[form.user :=
              d.wallets[form.user].(balance := d.wallets[form.user].balance + credit)]
       else n.ledger == d.ledger && n.wallets == d.wallets
  }

  lemma MeetingPays(d: Desk, form: Deposit, sms: Sms, c: Circumstances)
    ensures PaysExactly(d, form, sms, c, Meeting(Next(d, Submit(form)), |d.deposits|, |d.events|, sms, c))
  {
    var s, i := Next(d, Submit(form)), |d.deposits|;
    if form.user in d.wallets && form.amount > 0 {
      var dep := Reviewed(s.deposits[i], AutoReview(|d.events|));
      assert CreditOf(s, dep, c.rates) == CreditFor(d, form, c.rates);
      MeetsExactlyWhen(s.deposits[i], form, sms, c);
      assert TryApprove(s, i, AutoReview(|d.events|), c.rates, c.commits).Committed? <==>
             c.commits && CreditFor(d, form, c.rates).Some? && CreditFor(d, form, c.rates).value > 0;
    } else {
      assert s == d;
    }
  }

  lemma MeetsExactlyWhen(dep: Deposit, form: Deposit, sms: Sms, c: Circumstances)
    requires dep == form.(status := Pending, event := None, source := None)
    ensures Usable(sms) && Exact(dep, sms) <==> SamePaymentAs(form, sms)
    ensures AutoApprovable(sms, c.settings, c.tooOld) && c.commits <==> MayApprove(sms, c)
  {}

  // Whichever of the two handlers runs first: the deposit ends up approved
  // exactly when its user exists, the message is about this very payment, the
  // settings and the message's age and source allow it, the rates are there
  // and the credit is positive, and the transaction commits.  Its user is then
  // credited exactly once, by that much; otherwise no money moves.
  lemma ApprovedExactlyWhen(d: Desk, form: Deposit, sms: Sms, c: Circumstances)
    requires Alone(d, form.txn) && Alone(d, sms.txn) && !Duplicate(d.events, sms)
    ensures PaysExactly(d, form, sms, c, Handle(Handle(d, SmsArrives(sms, c)), DepositMade(form, c)))
    ensures PaysExactly(d, form, sms, c, Handle(Handle(d, DepositMade(form, c)), SmsArrives(sms, c)))
  {
    ArrivalOrderIsIrrelevant(d, form, sms, c);
    MeetingPays(d, form, sms, c);
  }
}
