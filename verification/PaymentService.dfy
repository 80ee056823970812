// deposit.service.js and paymentEvent.service.js as sequential code over shared
// collections.  Between two steps of one handler all others may run; each step
// of the code is proved to be a step of the state machine.

module PaymentService {
  import opened Filters
  import opened Options
  import opened DepositCredit
  import opened PaymentModel
  import opened PaymentMachine
  import opened PaymentSafety

  datatype Reply = Reply(duplicate: bool, parsed: bool, autoApproved: bool)

  // What an approval makes of the document: the overrides where they are given,
  // and nothing else of what was requested changed.
  predicate ApprovedAs(was: Deposit, now: Deposit, r: Review) {
    && now.status == Approved && now.source == Some(r.source)
    && now.amount == (if r.amount.Some? then r.amount.value else was.amount)
    && now.currency == (if r.currency.Some? then r.currency.value else was.currency)
    && now.event == (if r.event.Some? then r.event else was.event)
    && now.user == was.user && now.txn == was.txn && now.phone == was.phone && now.vodafone == was.vodafone
  }

  // What is credited: the final amount itself, or its exchange value.
  function Worth(was: Deposit, wallet: Wallet, r: Review, rates: Rates): Option<nat> {
    var amount := if r.amount.Some? then r.amount.value else was.amount;
    var code := if r.currency.Some? then r.currency.value else was.currency;
    if amount <= 0 then None
    else WalletCredit(amount, if code == "" then "USD" else code, wallet.currency, rates)
  }

  // The deposit is pending, its user exists, and the final amount is worth
  // something at the rates there are.
  predicate Approvable(d: Desk, i: nat, r: Review, rates: Rates) {
    && i < |d.deposits| && d.deposits[i].status == Pending && d.deposits[i].user in d.wallets
    && var worth := Worth(d.deposits[i], d.wallets[d.deposits[i].user], r, rates); worth.Some? && worth.value > 0
  }

  // Deposit i approved as reviewed, its worth credited once with its entry.
  ghost predicate ApprovalPaid(d: Desk, n: Desk, i: nat, r: Review, rates: Rates)
    requires Approvable(d, i, r, rates)
  {
    var u := d.deposits[i].user;
    var credit := Worth(d.deposits[i], d.wallets[u], r, rates).value;
    && |n.deposits| == |d.deposits| && ApprovedAs(d.deposits[i], n.deposits[i], r)
    && (forall j :: 0 <= j < |d.deposits| && j != i ==> n.deposits[j] == d.deposits[j])
    && n.wallets == d.wallets[u := Wallet(d.wallets[u].currency, d.wallets[u].balance + credit)]
    && n.ledger == d.ledger + [Credit(u, i, credit)]
    && n.events == d.events && n.jobs == d.jobs
  }

  // What a refusal says.
  predicate RefusedFor(error: DepositError, d: Desk, i: nat, r: Review, commits: bool) {
    match error
    case NotFound => i >= |d.deposits|
    case AlreadyApproved => i < |d.deposits| && d.deposits[i].status == Approved
    case AlreadyRejected => i < |d.deposits| && d.deposits[i].status == Rejected
    case UserNotFound => i < |d.deposits| && d.deposits[i].status == Pending && d.deposits[i].user !in d.wallets
    case Aborted => i < |d.deposits| && d.deposits[i].status == Pending && d.deposits[i].user in d.wallets && !commits
    case _ => i < |d.deposits| && d.deposits[i].status == Pending
  }

  lemma ApprovalMeans(d: Desk, i: nat, r: Review, rates: Rates, commits: bool)
    ensures var a := TryApprove(d, i, r, rates, commits);
            && (a.Committed? <==> commits && Approvable(d, i, r, rates))
            && (a.Committed? ==> ApprovalPaid(d, a.desk, i, r, rates))
  {}

  predicate OwnStep(s: Step, j: nat) { (s.Match? || s.Settle?) && s.job == j }

  lemma JobsStay(d: Desk, s: Step, j: nat)
    requires j < |d.jobs| && !OwnStep(s, j)
    ensures j < |Next(d, s).jobs| && Next(d, s).jobs[j] == d.jobs[j]
  {}

  class PaymentDesk {
    var deposits: seq<Deposit>
    var events: seq<PaymentEvent>
    var wallets: map<UserId, Wallet>
    var ledger: seq<Credit>
    var jobs: seq<Job>
    ghost const origin: Desk
    ghost var history: seq<Step>

    ghost function View(): Desk
      reads this
    {
      Desk(deposits, events, wallets, ledger, jobs)
    }

    ghost predicate Valid()
      reads this
    {
      View() == Run(origin, history)
    }

    constructor (wallets: map<UserId, Wallet>)
      ensures Valid() && Opening(View()) && origin == View() && this.wallets == wallets
    {
      deposits, events, this.wallets, ledger, jobs := [], [], wallets, [], [];
      history := [];
      origin := Desk([], [], wallets, [], []);
    }

    ghost method Record(s: Step)
      requires View() == Next(Run(origin, history), s)
      modifies this`history
      ensures Valid() && history == old(history) + [s]
    {
      ghost var more, now := history + [s], View();
      assert Run(origin, more) == now by { assert more[..|history|] == history; }
      history := more;
      assert View() == now;
    }

    // Anything the other handlers do while the one holding job j waits.
    method Interleave(j: nat)
      requires Valid() && j < |jobs|
      modifies this
      ensures Valid() && old(history) <= history
      ensures j < |jobs| && jobs[j] == old(jobs[j]) && EventsGrow(old(View()), View())
    {
      var steps: int := *;
      while steps > 0
        invariant Valid() && old(history) <= history
        invariant j < |jobs| && jobs[j] == old(jobs[j]) && EventsGrow(old(View()), View())
      {
        var s: Step := *;
        if !OwnStep(s, j) {
          JobsStay(View(), s, j);
          StepsKeepMessages(View(), s);
          var n := Next(Desk(deposits, events, wallets, ledger, jobs), s);
          deposits, events, wallets, ledger, jobs := n.deposits, n.events, n.wallets, n.ledger, n.jobs;
          Record(s);
        }
        steps := steps - 1;
      }
    }

    // -----------------------------------------------------------------------
    // deposit.service.js
    // -----------------------------------------------------------------------

    method CreditWalletDirect(u: UserId, amount: nat, reference: nat) returns (error: Option<DepositError>)
      modifies this`wallets, this`ledger
      ensures error == if amount == 0 then Some(InvalidAmount)
                       else if u !in old(wallets) then Some(UserNotFound) else None
      ensures error.Some? ==> wallets == old(wallets) && ledger == old(ledger)
      ensures error.None? ==>
                && wallets == old(wallets)[u := old(wallets)[u].(balance := old(wallets)[u].balance + amount)]
                && ledger == old(ledger) + [Credit(u, reference, amount)]
    {
      if amount == 0 { return Some(InvalidAmount); }
      if u !in wallets { return Some(UserNotFound); }
      var wallet := wallets[u];
      wallets := wallets[u := wallet.(balance := wallet.balance + amount)];
      ledger := ledger + [Credit(u, reference, amount)];
      return None;
    }

    // One transaction: every refusal and every throw leaves nothing behind.
    method ApproveDeposit(i: nat, r: Review, rates: Rates, commits: bool) returns (error: Option<DepositError>)
      modifies this`deposits, this`wallets, this`ledger
      ensures error.None? <==> commits && Approvable(old(View()), i, r, rates)
      ensures error.None? ==> ApprovalPaid(old(View()), View(), i, r, rates)
      ensures error.Some? ==> RefusedFor(error.value, old(View()), i, r, commits)
      ensures match TryApprove(old(View()), i, r, rates, commits)
              case Committed(d) => error.None? && View() == d
              case Refused(e) => error == Some(e) && View() == old(View())
    {
      ApprovalMeans(View(), i, r, rates, commits);
      if i >= |deposits| { return Some(NotFound); }
      var existing := deposits[i];
      if existing.status == Approved { return Some(AlreadyApproved); }
      if existing.status == Rejected { return Some(AlreadyRejected); }
      var dep := Reviewed(existing, r);
      if dep.amount <= 0 { return Some(InvalidAmount); }
      var deposits0, wallets0, ledger0 := deposits, wallets, ledger;
      deposits := deposits[i := dep];
      var walletCurrency := if dep.user in wallets then wallets[dep.user].currency else "USD";
      var amount := WalletCredit(dep.amount, BillingCurrency(dep.currency), walletCurrency, rates);
      if amount.None? {
        deposits := deposits0;
        return Some(RateUnavailable);
      }
      error := CreditWalletDirect(dep.user, amount.value, i);
      if error.None? && !commits { error := Some(Aborted); }
      if error.Some? { deposits, wallets, ledger := deposits0, wallets0, ledger0; }
    }

    method AdminApprove(i: nat, r: Review, rates: Rates, commits: bool) returns (error: Option<DepositError>)
      requires Valid()
      modifies this
      ensures Valid() && history == old(history) + [Approve(i, r, rates, commits)]
      ensures error.None? <==> commits && Approvable(old(View()), i, r, rates)
      ensures error.None? ==> ApprovalPaid(old(View()), View(), i, Review(r.amount, r.currency, ByAdmin, None), rates)
      ensures error.Some? ==> View() == old(View())
    {
      error := ApproveDeposit(i, r.(event := None, source := ByAdmin), rates, commits);
      Record(Approve(i, r, rates, commits));
    }

    method RejectDeposit(i: nat) returns (error: Option<DepositError>)
      requires Valid()
      modifies this
      ensures Valid() && history == old(history) + [Reject(i)]
      ensures wallets == old(wallets) && ledger == old(ledger) && events == old(events) && jobs == old(jobs)
      ensures error == if i >= |old(deposits)| then Some(NotFound)
                       else match old(deposits)[i].status
                            case Pending => None
                            case Approved => Some(AlreadyApproved)
                            case Rejected => Some(AlreadyRejected)
      ensures deposits == if error.None? then old(deposits)[i := old(deposits)[i].(status := Rejected)]
                          else old(deposits)
    {
      error := None;
      if i >= |deposits| {
        error := Some(NotFound);
      } else if deposits[i].status == Rejected {
        error := Some(AlreadyRejected);
      } else if deposits[i].status == Approved {
        error := Some(AlreadyApproved);
      } else {
        deposits := deposits[i := deposits[i].(status := Rejected)];
      }
      Record(Reject(i));
    }

    // createDepositRequest, with the matching it sets off.
    method CreateDeposit(form: Deposit) returns (created: bool, approved: bool)
      requires Valid()
      modifies this
      ensures Valid() && old(history) + [Submit(form)] <= history
      ensures created == (form.user in old(wallets) && form.amount > 0)
      ensures approved ==> created && exists e, i :: AutoApproved(View(), e, i)
    {
      created := form.user in wallets && form.amount > 0;
      approved := false;
      var i := |deposits|;
      if created { deposits := deposits + [form.(status := Pending, event := None, source := None)]; }
      Record(Submit(form));
      if created { approved := MatchExisting(i); }
    }

    // -----------------------------------------------------------------------
    // paymentEvent.service.js
    // -----------------------------------------------------------------------

    // matchExistingUnmatchedPaymentForDeposit: the first fitting event, in
    // creation order, is matched and applied; without one nothing happens.
    method MatchExisting(i: nat) returns (approved: bool)
      requires Valid()
      modifies this
      ensures Valid()
      ensures FirstFit(old(View()), i).None? ==>
                !approved && View() == old(View()) && history == old(history)
      ensures FirstFit(old(View()), i).Some? ==>
                && old(history) + [Rematch(i)] <= history
                && |old(jobs)| < |jobs| && jobs[|old(jobs)|] == Over
                && (approved ==> exists k :: AutoApproved(View(), FirstFit(old(View()), i).value, k))
    {
      approved := false;
      if i >= |deposits| || deposits[i].status != Pending || deposits[i].txn == "" { return; }
      var dep := deposits[i];
      ghost var fits := (ev: PaymentEvent) => Fits(dep, ev);
      for e := 0 to |events|
        invariant View() == old(View()) && history == old(history)
        invariant forall k :: 0 <= k < e ==> !Fits(dep, events[k])
      {
        var event := events[e];
        if event.sms.parsed && event.status == Unmatched && event.sms.txn == dep.txn {
          if dep.amount == event.sms.amount
             && CurrencyOf(dep.currency) == CurrencyOf(event.sms.currency) && PhoneCompatible(dep, event.sms)
          {
            FirstIs(events, fits, e);
            WhereAgrees(View(), i, e, fits);
            var j := OpenMatch(i, e);
            approved := MatchAndApply(j, e);
            return;
          }
        }
      }
      NothingFits(View(), i);
    }

    method OpenMatch(i: nat, e: nat) returns (j: nat)
      requires Valid() && FirstFit(View(), i) == Some(e)
      modifies this`jobs, this`history
      ensures Valid() && history == old(history) + [Rematch(i)]
      ensures j == |old(jobs)| && jobs == old(jobs) + [Matching(e)]
    {
      j := |jobs|;
      jobs := jobs + [Matching(e)];
      Record(Rematch(i));
    }

    // matchParsedPaymentEvent, then applyMatchResult.
    method MatchAndApply(j: nat, e: nat) returns (approved: bool)
      requires Valid() && j < |jobs| && jobs[j] == Matching(e) && e < |events|
      modifies this
      ensures Valid() && old(history) <= history
      ensures j < |jobs| && jobs[j] == Over && e < |events|
      ensures approved ==> exists i :: AutoApproved(View(), e, i)
    {
      Interleave(j);
      var settings: Settings := *;
      var tooOld: bool := *;
      var matched := SaveMatch(j, e, settings, tooOld);
      if matched.None? { return false; }
      Interleave(j);
      var rates: Rates := *;
      var commits: bool := *;
      var throwsAfter: bool := *;
      approved := AutoApprove(j, e, matched.value, rates, commits, throwsAfter);
    }

    // The deposit to approve, when the event matched one and may approve it.
    method SaveMatch(j: nat, e: nat, settings: Settings, tooOld: bool) returns (matched: Option<nat>)
      requires Valid() && j < |jobs| && jobs[j] == Matching(e) && e < |events|
      modifies this
      ensures Valid() && history == old(history) + [Match(j, settings, tooOld)]
      ensures View() == ApplyMatch(old(View()), j, settings, tooOld)
      ensures jobs[j] == if matched.Some? then Approving(e, matched.value) else Over
      ensures matched.Some? <==>
              MatchParsed(deposits, events[e].sms).MatchedTo? && AutoApprovable(events[e].sms, settings, tooOld)
    {
      matched := None;
      var event := events[e];
      var result := MatchParsed(deposits, event.sms);
      match result {
        case MatchedTo(i) =>
          events := events[e := event.(status := Matched, deposit := Some(i))];
          if AutoApprovable(event.sms, settings, tooOld) { matched := Some(i); }
        case NotOne(status) =>
          if status != Unmatched { events := events[e := event.(status := status)]; }
      }
      jobs := jobs[j := if matched.Some? then Approving(e, matched.value) else Over];
      Record(Match(j, settings, tooOld));
    }

    method AutoApprove(j: nat, e: nat, i: nat, rates: Rates, commits: bool, throwsAfter: bool) returns (approved: bool)
      requires Valid() && j < |jobs| && jobs[j] == Approving(e, i) && e < |events|
      modifies this
      ensures Valid() && history == old(history) + [Settle(j, rates, commits, throwsAfter)]
      ensures View() == SettleMatch(old(View()), j, rates, commits, throwsAfter)
      ensures approved ==> AutoApproved(View(), e, i)
    {
      SettleStep(View(), j, rates, commits, throwsAfter);
      var error := ApproveDeposit(i, Review(None, None, BySms, Some(e)), rates, commits);
      approved := error.None? && !throwsAfter;
      events := events[e := if approved then events[e].(status := Processed, error := false)
                            else events[e].(error := true)];
      jobs := jobs[j := Over];
      Record(Settle(j, rates, commits, throwsAfter));
    }

    // processVodafoneCashWebhook, once the delivery is authenticated and parsed.
    method ProcessWebhook(sms: Sms) returns (reply: Reply)
      requires Valid()
      modifies this
      ensures Valid() && old(history) + [Receive(sms)] <= history
      ensures reply.duplicate == Duplicate(old(events), sms)
      ensures reply.duplicate ==>
                && View() == old(View())
                && exists e :: 0 <= e < |events| && SameEvent(events[e], sms)
                               && reply.parsed == events[e].sms.parsed
                               && reply.autoApproved == (events[e].status == Processed)
      ensures !reply.duplicate && reply.autoApproved ==>
                sms.parsed && exists i :: AutoApproved(View(), |old(events)|, i)
    {
      var seen := FindDuplicate(events, sms);
      DuplicateIsFound(events, sms);
      if seen.Some? {
        var event := events[seen.value];
        Record(Receive(sms));
        return Reply(true, event.sms.parsed, event.status == Processed);
      }
      var e := |events|;
      events := events + [PaymentEvent(sms, Unmatched, None, false)];
      if sms.parsed { jobs := jobs + [Matching(e)]; }
      Record(Receive(sms));
      if !sms.parsed { return Reply(false, false, false); }
      var approved := MatchAndApply(|jobs| - 1, e);
      return Reply(false, true, approved);
    }
  }

  lemma SettleStep(d: Desk, j: nat, rates: Rates, commits: bool, throwsAfter: bool)
    requires j < |d.jobs| && d.jobs[j].Approving? && d.jobs[j].event < |d.events|
    ensures Next(d, Settle(j, rates, commits, throwsAfter)) == SettleMatch(d, j, rates, commits, throwsAfter)
  {}

  // findDuplicateEvent: by fingerprint first, then by source and transaction.
  function FindDuplicate(events: seq<PaymentEvent>, sms: Sms): Option<nat> {
    var delivered := Where(events, (e: PaymentEvent) => e.sms.fingerprint == sms.fingerprint);
    if delivered != [] then Some(delivered[0])
    else if !Usable(sms) then None
    else
      var paid := Where(events, (e: PaymentEvent) => e.sms.source == sms.source && e.sms.txn == sms.txn);
      if paid != [] then Some(paid[0]) else None
  }

  lemma DuplicateIsFound(events: seq<PaymentEvent>, sms: Sms)
    ensures FindDuplicate(events, sms).Some? <==> Duplicate(events, sms)
    ensures FindDuplicate(events, sms).Some? ==>
              var e := FindDuplicate(events, sms).value; e < |events| && SameEvent(events[e], sms)
  {
    var byPrint := (e: PaymentEvent) => e.sms.fingerprint == sms.fingerprint;
    var byTxn := (e: PaymentEvent) => e.sms.source == sms.source && e.sms.txn == sms.txn;
    WhereMembers(events, byPrint);
    WhereMembers(events, byTxn);
    var delivered, paid := Where(events, byPrint), Where(events, byTxn);
    if delivered != [] { assert delivered[0] in delivered; }
    if paid != [] { assert paid[0] in paid; }
    if Duplicate(events, sms) {
      var e :| 0 <= e < |events| && SameEvent(events[e], sms);
      assert e in delivered || (Usable(sms) && e in paid);
    }
  }

  // Event e is processed and deposit i was approved by it.
  ghost predicate AutoApproved(d: Desk, e: nat, i: nat) {
    && e < |d.events| && d.events[e].status == Processed
    && i < |d.deposits| && d.deposits[i].status == Approved && d.deposits[i].event == Some(e)
  }

  lemma NothingFits(d: Desk, i: nat)
    requires i < |d.deposits| && forall k :: 0 <= k < |d.events| ==> !Fits(d.deposits[i], d.events[k])
    ensures FirstFit(d, i) == None
  {
    HowMany(d.events, (ev: PaymentEvent) => Fits(d.deposits[i], ev));
  }

  lemma WhereAgrees(d: Desk, i: nat, e: nat, fits: PaymentEvent -> bool)
    requires i < |d.deposits| && d.deposits[i].status == Pending && d.deposits[i].txn != ""
    requires forall ev :: fits(ev) == Fits(d.deposits[i], ev)
    requires Where(d.events, fits) != [] && Where(d.events, fits)[0] == e
    ensures FirstFit(d, i) == Some(e)
  {
    WhereSame(d.events, fits, (ev: PaymentEvent) => Fits(d.deposits[i], ev));
  }
}
