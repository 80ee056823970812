// The properties of deposits and SMS events: over every interleaving, over the
// runs in which no handler matches an event another one has taken, and over
// runs of whole handlers.

module PaymentTheorems {
  import opened Filters
  import opened Options
  import opened DepositCredit
  import opened PaymentModel
  import opened PaymentMachine
  import opened PaymentSafety
  import PaymentService

  // -------------------------------------------------------------------------
  // Every interleaving
  // -------------------------------------------------------------------------

  // Every deposit is credited once if it is approved and never otherwise, each
  // entry to its own user and, without conversion, for its own amount; wallets
  // hold their opening balance plus their entries; no payment is stored twice;
  // and a deposit approved by an event carries that event's transaction.
  lemma {:induction false} CreditedExactlyOnce(start: Desk, steps: seq<Step>)
    requires Opening(start)
    ensures var d := Run(start, steps);
            MoneyInv(d, start.wallets) && UniqueInv(d) && LinkInv(d)
  {
    if steps != [] {
      var init, last := steps[..|steps| - 1], steps[|steps| - 1];
      CreditedExactlyOnce(start, init);
      MoneyStep(Run(start, init), last, start.wallets);
      UniqueStep(Run(start, init), last);
      LinkStep(Run(start, init), last);
    }
  }

  // An approval raises its user's wallet by the deposit's amount, or by an amount
  // close to its exchange value, writes one ledger entry for it, and touches no
  // other wallet and no other deposit.
  lemma ApprovalPaysTheDeposit(d: Desk, i: nat, r: Review, rates: Rates, commits: bool)
    requires TryApprove(d, i, r, rates, commits).Committed?
    ensures var n := TryApprove(d, i, r, rates, commits).desk;
            && i < |d.deposits| == |n.deposits| && d.deposits[i].status == Pending
            && PaymentService.ApprovedAs(d.deposits[i], n.deposits[i], r)
            && (forall j :: 0 <= j < |d.deposits| && j != i ==> n.deposits[j] == d.deposits[j])
            && var dep := n.deposits[i];
               var u, from_, to_ := dep.user, BillingCurrency(dep.currency), WalletCurrency(d, dep.user);
               && u in d.wallets && dep.amount > 0 && n.ledger[..|d.ledger|] == d.ledger && |n.ledger| == |d.ledger| + 1
               && var c := n.ledger[|d.ledger|].amount;
                  && n.ledger[|d.ledger|] == Credit(u, i, c) && c > 0
                  && n.wallets == d.wallets[u := d.wallets[u].(balance := d.wallets[u].balance + c)]
                  && (from_ == to_ ==> c == dep.amount)
                  && (from_ != to_ ==>
                        && RateOf(rates, from_).Some? && RateOf(rates, to_).Some?
                        && IsClose(c, dep.amount, RateOf(rates, from_).value, RateOf(rates, to_).value))
  {
    var dep := Reviewed(d.deposits[i], r);
    CreditIsClose(dep.amount, BillingCurrency(dep.currency), WalletCurrency(d, dep.user), rates);
  }

  // An unmatched event carries the deposit's payment: transaction, amount,
  // currency - EGP where it is missing - and, where both have one, phone.
  predicate Carries(e: PaymentEvent, dep: Deposit) {
    && e.sms.parsed && e.status == Unmatched && e.sms.txn == dep.txn && e.sms.amount == dep.amount
    && (if e.sms.currency == "" then "EGP" else e.sms.currency) == (if dep.currency == "" then "EGP" else dep.currency)
    && (e.sms.phone == dep.phone || e.sms.phone == "" || dep.phone == "")
  }

  // A new deposit is matched with the oldest event that carries its payment.
  lemma OldestFittingEvent(d: Desk, i: nat, e: nat)
    requires i < |d.deposits| && d.deposits[i].status == Pending && d.deposits[i].txn != ""
    ensures FirstFit(d, i) == Some(e) <==>
            e < |d.events| && Carries(d.events[e], d.deposits[i])
            && forall k :: 0 <= k < e ==> !Carries(d.events[k], d.deposits[i])
  {
    forall ev ensures Fits(d.deposits[i], ev) == Carries(ev, d.deposits[i]) {}
    FirstIs(d.events, (ev: PaymentEvent) => Fits(d.deposits[i], ev), e);
  }

  // What matching makes of an event: matched to the one pending deposit that
  // carries its payment; ambiguous with several; a mismatch when some deposit
  // waits for its transaction and none fits; otherwise unmatched still.  A match
  // goes on to the approval exactly when it may approve by itself.
  lemma MatchMeans(d: Desk, j: nat, settings: Settings, tooOld: bool)
    requires j < |d.jobs| && d.jobs[j].Matching? && d.jobs[j].event < |d.events|
    ensures var e, n := d.jobs[j].event, Next(d, Match(j, settings, tooOld));
            var event := d.events[e];
            && n.deposits == d.deposits && n.wallets == d.wallets && n.ledger == d.ledger
            && (forall i :: Usable(event.sms) && Only(d.deposits, Exacts(event.sms), i) ==>
                  && n.events == d.events[e := event.(status := Matched, deposit := Some(i))]
                  && n.jobs == d.jobs[j := if AutoApprovable(event.sms, settings, tooOld) then Approving(e, i) else Over])
            && (Usable(event.sms) && Two(d.deposits, Exacts(event.sms)) ==>
                  n.events == d.events[e := event.(status := Ambiguous)] && n.jobs == d.jobs[j := Over])
            && (Usable(event.sms) && Any(d.deposits, Candidates(event.sms)) && !Any(d.deposits, Exacts(event.sms)) ==>
                  n.events == d.events[e := event.(status := Mismatch)] && n.jobs == d.jobs[j := Over])
            && (!Usable(event.sms) || !Any(d.deposits, Candidates(event.sms)) ==>
                  n.events == d.events && n.jobs == d.jobs[j := Over])
  {
    var sms := d.events[d.jobs[j].event].sms;
    UnmatchedExactlyWhen(d.deposits, sms);
    forall i | Usable(sms) && Only(d.deposits, Exacts(sms), i) ensures MatchParsed(d.deposits, sms) == MatchedTo(i) {
      MatchedExactlyWhenUnique(d.deposits, sms, i);
    }
  }

  // What the approval by an event comes to: with the transaction committed and
  // the deposit approvable, its worth is paid and the event is processed, or
  // marked in error when what follows throws; otherwise the event alone is
  // marked in error.
  lemma SettlementMeans(d: Desk, j: nat, rates: Rates, commits: bool, throwsAfter: bool)
    requires j < |d.jobs| && d.jobs[j].Approving? && d.jobs[j].event < |d.events|
    ensures var e, i, n := d.jobs[j].event, d.jobs[j].deposit, Next(d, Settle(j, rates, commits, throwsAfter));
            var r, paid := Review(None, None, BySms, Some(e)), n.(events := d.events, jobs := d.jobs);
            && n.jobs == d.jobs[j := Over]
            && if commits && PaymentService.Approvable(d, i, r, rates)
               then
                 && PaymentService.ApprovalPaid(d, paid, i, r, rates)
                 && n.events == d.events[e := if throwsAfter then d.events[e].(error := true)
                                              else d.events[e].(status := Processed, error := false)]
               else paid == d && n.events == d.events[e := d.events[e].(error := true)]
  {
    PaymentService.ApprovalMeans(d, d.jobs[j].deposit, Review(None, None, BySms, Some(d.jobs[j].event)), rates, commits);
  }

  // The code's state always satisfies all of it.
  lemma DeskStatesAreSafe(p: PaymentService.PaymentDesk)
    requires p.Valid() && Opening(p.origin)
    ensures MoneyInv(p.View(), p.origin.wallets) && UniqueInv(p.View()) && LinkInv(p.View())
    ensures FreshRun(p.origin, p.history) ==> forall e: nat :: Approvals(p.View(), e) <= 1
  {
    CreditedExactlyOnce(p.origin, p.history);
    if FreshRun(p.origin, p.history) { EventApprovesOnce(p.origin, p.history); }
  }

  lemma {:induction false} RunOn(start: Desk, before: seq<Step>, after: seq<Step>)
    ensures Run(start, before + after) == Run(Run(start, before), after)
  {
    if after == [] {
      assert before + after == before;
    } else {
      RunOn(start, before, after[..|after| - 1]);
      assert (before + after)[..|before + after| - 1] == before + after[..|after| - 1];
    }
  }

  lemma {:induction false} ReviewedStaysOver(d: Desk, steps: seq<Step>, i: nat)
    requires i < |d.deposits| && d.deposits[i].status != Pending
    ensures i < |Run(d, steps).deposits| && Run(d, steps).deposits[i] == d.deposits[i]
  {
    if steps != [] {
      var init := steps[..|steps| - 1];
      ReviewedStaysOver(d, init, i);
      ReviewedStays(Run(d, init), steps[|steps| - 1], i);
    }
  }

  // A reviewed deposit is never touched again.
  lemma ReviewIsFinal(start: Desk, before: seq<Step>, after: seq<Step>, i: nat)
    requires i < |Run(start, before).deposits|
    requires Run(start, before).deposits[i].status != Pending
    ensures i < |Run(start, before + after).deposits|
    ensures Run(start, before + after).deposits[i] == Run(start, before).deposits[i]
  {
    RunOn(start, before, after);
    ReviewedStaysOver(Run(start, before), after, i);
  }

  lemma ReviewedStays(d: Desk, s: Step, i: nat)
    requires i < |d.deposits| && d.deposits[i].status != Pending
    ensures i < |Next(d, s).deposits| && Next(d, s).deposits[i] == d.deposits[i]
  {
    EveryStepMoves(d, s);
  }

  // -------------------------------------------------------------------------
  // Edits between match and approval
  // -------------------------------------------------------------------------

  // An edit is accepted when its amount is positive.
  predicate Edits(s: Step, i: nat) { s.Edit? && s.deposit == i && s.amount > 0 }

  // The amount the last accepted edit of deposit i left.
  function AmountAfter(amount: int, i: nat, steps: seq<Step>): int {
    if steps == [] then amount
    else
      var last := steps[|steps| - 1];
      if Edits(last, i) then last.amount
      else AmountAfter(amount, i, steps[..|steps| - 1])
  }

  lemma AmountStep(d: Desk, s: Step, i: nat)
    requires i < |d.deposits|
    ensures i < |Next(d, s).deposits|
    ensures Next(d, s).deposits[i].status == Pending ==>
              && d.deposits[i].status == Pending
              && Next(d, s).deposits[i].amount
                 == if Edits(s, i) then s.amount else d.deposits[i].amount
  {
    if s.Settle? { SettleAmount(d, s, i); } else if s.Approve? { ApproveAmount(d, s, i); }
  }

  lemma SettleAmount(d: Desk, s: Step, i: nat)
    requires i < |d.deposits| && s.Settle?
    ensures i < |Next(d, s).deposits|
    ensures Next(d, s).deposits[i].status == Pending ==> Next(d, s).deposits[i] == d.deposits[i]
  {
    if s.job < |d.jobs| && d.jobs[s.job].Approving? && d.jobs[s.job].event < |d.events| {
      SettleMoves(d, s.job, s.rates, s.commits, s.throwsAfter);
      var e, k := d.jobs[s.job].event, d.jobs[s.job].deposit;
      ApprovalEffect(d, k, Review(None, None, BySms, Some(e)), s.rates, s.commits);
    }
  }

  lemma ApproveAmount(d: Desk, s: Step, i: nat)
    requires i < |d.deposits| && s.Approve?
    ensures i < |Next(d, s).deposits|
    ensures Next(d, s).deposits[i].status == Pending ==> Next(d, s).deposits[i] == d.deposits[i]
  {
    ApprovalEffect(d, s.deposit, s.review.(event := None, source := ByAdmin), s.rates, s.commits);
  }

  lemma {:induction false} PendingAmount(d: Desk, steps: seq<Step>, i: nat)
    requires i < |d.deposits|
    ensures i < |Run(d, steps).deposits|
    ensures Run(d, steps).deposits[i].status == Pending ==>
              Run(d, steps).deposits[i].amount == AmountAfter(d.deposits[i].amount, i, steps)
  {
    if steps != [] {
      var init, last := steps[..|steps| - 1], steps[|steps| - 1];
      PendingAmount(d, init, i);
      AmountStep(Run(d, init), last, i);
    }
  }

  lemma {:induction false} JobWaits(d: Desk, steps: seq<Step>, j: nat)
    requires j < |d.jobs| && forall k :: 0 <= k < |steps| ==> !PaymentService.OwnStep(steps[k], j)
    ensures j < |Run(d, steps).jobs| && Run(d, steps).jobs[j] == d.jobs[j]
  {
    if steps != [] {
      var init, last := steps[..|steps| - 1], steps[|steps| - 1];
      JobWaits(d, init, j);
      PaymentService.JobsStay(Run(d, init), last, j);
    }
  }

  // The k-th step is the last edit of deposit i.
  ghost predicate LastEdit(steps: seq<Step>, i: nat, k: nat) {
    k < |steps| && Edits(steps[k], i) && forall l :: k < l < |steps| ==> !Edits(steps[l], i)
  }

  ghost predicate Unedited(steps: seq<Step>, i: nat) {
    forall l :: 0 <= l < |steps| ==> !Edits(steps[l], i)
  }

  lemma {:induction false} AmountIsLastEdit(amount: int, i: nat, steps: seq<Step>)
    ensures forall k: nat :: LastEdit(steps, i, k) ==> AmountAfter(amount, i, steps) == steps[k].amount
    ensures Unedited(steps, i) ==> AmountAfter(amount, i, steps) == amount
  {
    if steps != [] {
      var init, last := steps[..|steps| - 1], |steps| - 1;
      AmountIsLastEdit(amount, i, init);
      if Unedited(steps, i) { assert Unedited(init, i) && !Edits(steps[last], i); }
      forall k: nat | LastEdit(steps, i, k) ensures AmountAfter(amount, i, steps) == steps[k].amount {
        if k < last { assert LastEdit(init, i, k) && init[k] == steps[k]; }
      }
    }
  }

  // A job has matched its event to a deposit of the same amount.  Whatever runs
  // before it settles, what it approves and pays is the amount of the last edit
  // in between, and the message's own amount when there was none.
  lemma EditedAmountIsPaid(d: Desk, steps: seq<Step>, j: nat, rates: Rates, throwsAfter: bool)
    requires j < |d.jobs| && d.jobs[j].Approving? && d.jobs[j].deposit < |d.deposits|
    requires d.jobs[j].event < |d.events| && d.events[d.jobs[j].event].sms.amount == d.deposits[d.jobs[j].deposit].amount
    requires forall k :: 0 <= k < |steps| ==> !PaymentService.OwnStep(steps[k], j)
    requires var i, e := d.jobs[j].deposit, d.jobs[j].event;
             TryApprove(Run(d, steps), i, Review(None, None, BySms, Some(e)), rates, true).Committed?
    requires d.jobs[j].event < |Run(d, steps).events|
    ensures var i, m, n := d.jobs[j].deposit, Run(d, steps), Next(Run(d, steps), Settle(j, rates, true, throwsAfter));
            && i < |n.deposits| && n.deposits[i].status == Approved
            && (forall k: nat :: LastEdit(steps, i, k) ==> n.deposits[i].amount == steps[k].amount)
            && (Unedited(steps, i) ==> n.deposits[i].amount == d.events[d.jobs[j].event].sms.amount)
            && |n.ledger| == |m.ledger| + 1 && n.ledger[|m.ledger|].deposit == i
            && (SameCurrency(m, n.deposits[i]) ==> n.ledger[|m.ledger|].amount == n.deposits[i].amount)
  {
    var i, m := d.jobs[j].deposit, Run(d, steps);
    PendingAmount(d, steps, i);
    AmountIsLastEdit(d.deposits[i].amount, i, steps);
    JobWaits(d, steps, j);
    ApprovalPaysTheDeposit(m, i, Review(None, None, BySms, Some(d.jobs[j].event)), rates, true);
  }

  // -------------------------------------------------------------------------
  // One approval for one event
  // -------------------------------------------------------------------------

  function CountIf<T>(xs: seq<T>, p: T -> bool): nat {
    if xs == [] then 0 else CountIf(xs[..|xs| - 1], p) + if p(xs[|xs| - 1]) then 1 else 0
  }

  lemma CountAppend<T>(xs: seq<T>, x: T, p: T -> bool)
    ensures CountIf(xs + [x], p) == CountIf(xs, p) + if p(x) then 1 else 0
  {
    assert (xs + [x])[..|xs|] == xs;
  }

  lemma {:induction false} CountUpdate<T>(xs: seq<T>, i: nat, x: T, p: T -> bool)
    requires i < |xs|
    ensures CountIf(xs[i := x], p) == CountIf(xs, p) - (if p(xs[i]) then 1 else 0) + if p(x) then 1 else 0
  {
    var init := xs[..|xs| - 1];
    if i == |xs| - 1 {
      assert xs[i := x][..|xs| - 1] == init;
    } else {
      assert xs[i := x][..|xs| - 1] == init[i := x];
      CountUpdate(init, i, x, p);
    }
  }

  function ApprovedFor(e: nat): Deposit -> bool { (dep: Deposit) => dep.event == Some(e) }

  function ApprovingFor(e: nat): Job -> bool { (job: Job) => job.Approving? && job.event == e }

  function Approvals(d: Desk, e: nat): nat { CountIf(d.deposits, ApprovedFor(e)) }

  // Approvals by event e, made or about to be made.
  function Uses(d: Desk, e: nat): nat { Approvals(d, e) + CountIf(d.jobs, ApprovingFor(e)) }

  predicate Taken(d: Desk, e: nat) { e < |d.events| && d.events[e].status != Unmatched }

  ghost predicate OnceInv(d: Desk) {
    forall e: nat :: Uses(d, e) <= if Taken(d, e) then 1 else 0
  }

  // A handler matches its event while that is still unmatched.
  predicate FreshAt(d: Desk, s: Step) {
    s.Match? && s.job < |d.jobs| && d.jobs[s.job].Matching? ==> !Taken(d, d.jobs[s.job].event)
  }

  predicate FreshRun(start: Desk, steps: seq<Step>) {
    steps == [] || (FreshRun(start, steps[..|steps| - 1])
                    && FreshAt(Run(start, steps[..|steps| - 1]), steps[|steps| - 1]))
  }

  lemma MatchUses(d: Desk, j: nat, settings: Settings, tooOld: bool, e: nat)
    requires j < |d.jobs| && d.jobs[j].Matching? && d.jobs[j].event < |d.events|
    ensures var n := ApplyMatch(d, j, settings, tooOld);
            Uses(n, e) == Uses(d, e) + if n.jobs[j].Approving? && e == d.jobs[j].event then 1 else 0
  {
    var n := ApplyMatch(d, j, settings, tooOld);
    CountUpdate(d.jobs, j, n.jobs[j], ApprovingFor(e));
  }

  lemma SettleUses(d: Desk, j: nat, rates: Rates, commits: bool, throwsAfter: bool, e: nat)
    requires LinkInv(d) && j < |d.jobs| && d.jobs[j].Approving? && d.jobs[j].event < |d.events|
    ensures Uses(SettleMatch(d, j, rates, commits, throwsAfter), e) <= Uses(d, e)
  {
    var n := SettleMatch(d, j, rates, commits, throwsAfter);
    var i := d.jobs[j].deposit;
    CountUpdate(d.jobs, j, Over, ApprovingFor(e));
    if TryApprove(d, i, Review(None, None, BySms, Some(d.jobs[j].event)), rates, commits).Committed? {
      CountUpdate(d.deposits, i, n.deposits[i], ApprovedFor(e));
    }
  }

  lemma AdminUses(d: Desk, s: Step, e: nat)
    requires !s.Match? && !s.Settle?
    ensures Uses(Next(d, s), e) == Uses(d, e)
  {
    var n := Next(d, s);
    match s {
      case Submit(form) =>
        CountAppend(d.deposits, form.(status := Pending, event := None, source := None), ApprovedFor(e));
      case Receive(sms) => CountAppend(d.jobs, Matching(|d.events|), ApprovingFor(e));
      case Rematch(i) =>
        if FirstFit(d, i).Some? { CountAppend(d.jobs, Matching(FirstFit(d, i).value), ApprovingFor(e)); }
      case Approve(i, _, _, _) => if i < |d.deposits| { CountUpdate(d.deposits, i, n.deposits[i], ApprovedFor(e)); }
      case Reject(i) => if i < |d.deposits| { CountUpdate(d.deposits, i, n.deposits[i], ApprovedFor(e)); }
      case Edit(i, _) => if i < |d.deposits| { CountUpdate(d.deposits, i, n.deposits[i], ApprovedFor(e)); }
    }
  }

  lemma TakenStaysTaken(d: Desk, s: Step, e: nat)
    requires Taken(d, e)
    ensures Taken(Next(d, s), e)
  {}

  lemma OtherStepsKeepOnce(d: Desk, s: Step)
    requires OnceInv(d) && LinkInv(d) && !s.Match?
    ensures OnceInv(Next(d, s))
  {
    forall e: nat ensures Uses(Next(d, s), e) <= if Taken(Next(d, s), e) then 1 else 0 {
      assert Uses(d, e) <= if Taken(d, e) then 1 else 0;
      if Taken(d, e) { TakenStaysTaken(d, s, e); }
      if s.Settle? {
        if s.job < |d.jobs| && d.jobs[s.job].Approving? && d.jobs[s.job].event < |d.events| {
          SettleUses(d, s.job, s.rates, s.commits, s.throwsAfter, e);
        }
      } else {
        AdminUses(d, s, e);
      }
    }
  }

  // A match breaks the guarantee exactly when its event is already used and the
  // match finds another deposit to approve with it.
  lemma MatchKeepsOnceExactlyWhen(d: Desk, j: nat, settings: Settings, tooOld: bool)
    requires OnceInv(d) && j < |d.jobs| && d.jobs[j].Matching? && d.jobs[j].event < |d.events|
    ensures var sms := d.events[d.jobs[j].event].sms;
            OnceInv(Next(d, Match(j, settings, tooOld))) <==>
            !(Uses(d, d.jobs[j].event) == 1 && MatchParsed(d.deposits, sms).MatchedTo?
              && AutoApprovable(sms, settings, tooOld))
  {
    var n, used := ApplyMatch(d, j, settings, tooOld), d.jobs[j].event;
    MatchUses(d, j, settings, tooOld, used);
    assert Uses(d, used) <= if Taken(d, used) then 1 else 0;
    if Uses(n, used) > 1 {
      assert !OnceInv(n);
    } else {
      forall e: nat ensures Uses(n, e) <= if Taken(n, e) then 1 else 0 {
        assert Uses(d, e) <= if Taken(d, e) then 1 else 0;
        MatchUses(d, j, settings, tooOld, e);
        if Taken(d, e) { TakenStaysTaken(d, Match(j, settings, tooOld), e); }
      }
    }
  }

  // When every match is fresh, an event approves at most one deposit.
  lemma {:induction false} EventApprovesOnce(start: Desk, steps: seq<Step>)
    requires Opening(start) && FreshRun(start, steps)
    ensures OnceInv(Run(start, steps))
    ensures forall e: nat :: Approvals(Run(start, steps), e) <= 1
  {
    if steps == [] {
      forall e: nat ensures Uses(start, e) == 0 {}
    } else {
      var init, last := steps[..|steps| - 1], steps[|steps| - 1];
      var d := Run(start, init);
      EventApprovesOnce(start, init);
      CreditedExactlyOnce(start, init);
      if last.Match? && last.job < |d.jobs| && d.jobs[last.job].Matching? && d.jobs[last.job].event < |d.events| {
        assert Uses(d, d.jobs[last.job].event) <= 0;
        MatchKeepsOnceExactlyWhen(d, last.job, last.settings, last.tooOld);
      } else if last.Match? {
      } else {
        OtherStepsKeepOnce(d, last);
      }
    }
    forall e: nat ensures Approvals(Run(start, steps), e) <= 1 {
      assert Uses(Run(start, steps), e) <= 1;
    }
  }
}
