// Payments under whole handlers, the order in which a deposit and its SMS
// arrive, and the interleaving in which one SMS approves two deposits.

module PaymentArrival {
  import opened Filters
  import opened Options
  import opened DepositCredit
  import opened PaymentModel
  import opened PaymentMachine
  import opened PaymentSafety
  import opened PaymentTheorems

  // What a handler that matches finds: the settings, the event's age, the
  // rates, and how the approval transaction and its follow-up read end.
  datatype Circumstances = Circumstances(settings: Settings, tooOld: bool, rates: Rates, commits: bool,
                                         throwsAfter: bool)

  datatype Op =
    | SmsArrives(sms: Sms, c: Circumstances)
    | DepositMade(form: Deposit, c: Circumstances)
    | AdminApproves(deposit: nat, review: Review, rates: Rates, commits: bool)
    | AdminRejects(deposit: nat)
    | AdminEdits(deposit: nat, amount: int)

  // The rest of a handler holding job j.
  function Finish(d: Desk, j: nat, c: Circumstances): Desk {
    Next(Next(d, Match(j, c.settings, c.tooOld)), Settle(j, c.rates, c.commits, c.throwsAfter))
  }

  // One handler run from start to finish with no other in between.
  function Handle(d: Desk, op: Op): Desk {
    match op
    case SmsArrives(sms, c) => Finish(Next(d, Receive(sms)), |d.jobs|, c)
    case DepositMade(form, c) => Finish(Next(Next(d, Submit(form)), Rematch(|d.deposits|)), |d.jobs|, c)
    case AdminApproves(i, r, rates, commits) => Next(d, Approve(i, r, rates, commits))
    case AdminRejects(i) => Next(d, Reject(i))
    case AdminEdits(i, amount) => Next(d, Edit(i, amount))
  }

  function HandleAll(d: Desk, ops: seq<Op>): Desk {
    if ops == [] then d else Handle(HandleAll(d, ops[..|ops| - 1]), ops[|ops| - 1])
  }

  function FinishSteps(j: nat, c: Circumstances): seq<Step> {
    [Match(j, c.settings, c.tooOld), Settle(j, c.rates, c.commits, c.throwsAfter)]
  }

  function StepsOf(d: Desk, op: Op): seq<Step> {
    match op
    case SmsArrives(sms, c) => [Receive(sms)] + FinishSteps(|d.jobs|, c)
    case DepositMade(form, c) => [Submit(form), Rematch(|d.deposits|)] + FinishSteps(|d.jobs|, c)
    case AdminApproves(i, r, rates, commits) => [Approve(i, r, rates, commits)]
    case AdminRejects(i) => [Reject(i)]
    case AdminEdits(i, amount) => [Edit(i, amount)]
  }

  function AllSteps(d: Desk, ops: seq<Op>): seq<Step> {
    if ops == [] then []
    else AllSteps(d, ops[..|ops| - 1]) + StepsOf(HandleAll(d, ops[..|ops| - 1]), ops[|ops| - 1])
  }

  lemma RunOneMore(d: Desk, steps: seq<Step>, s: Step)
    ensures Run(d, steps + [s]) == Next(Run(d, steps), s)
    ensures FreshRun(d, steps + [s]) == (FreshRun(d, steps) && FreshAt(Run(d, steps), s))
  {
    assert (steps + [s])[..|steps|] == steps;
  }

  // The event in a handler's hands is one it stored or read as unmatched.
  lemma RematchIsFresh(d: Desk, i: nat)
    ensures FirstFit(d, i).Some? ==> FirstFit(d, i).value < |d.events| && !Taken(d, FirstFit(d, i).value)
  {
    if FirstFit(d, i).Some? {
      var fits := (e: PaymentEvent) => Fits(d.deposits[i], e);
      WhereMembers(d.events, fits);
      assert FirstFit(d, i).value in Where(d.events, fits);
    }
  }

  lemma FinishIsFresh(start: Desk, steps: seq<Step>, j: nat, c: Circumstances)
    requires FreshRun(start, steps)
    requires var d := Run(start, steps);
             j < |d.jobs| && d.jobs[j].Matching? ==> !Taken(d, d.jobs[j].event)
    ensures Run(start, steps + FinishSteps(j, c)) == Finish(Run(start, steps), j, c)
    ensures FreshRun(start, steps + FinishSteps(j, c))
  {
    var all := FinishSteps(j, c);
    RunOneMore(start, steps, all[0]);
    RunOneMore(start, steps + [all[0]], all[1]);
    assert steps + all == steps + [all[0]] + [all[1]];
  }

  lemma SmsIsFresh(start: Desk, steps: seq<Step>, sms: Sms, c: Circumstances)
    requires FreshRun(start, steps)
    ensures var d, op := Run(start, steps), SmsArrives(sms, c);
            Run(start, steps + StepsOf(d, op)) == Handle(d, op) && FreshRun(start, steps + StepsOf(d, op))
  {
    var d := Run(start, steps);
    RunOneMore(start, steps, Receive(sms));
    FinishIsFresh(start, steps + [Receive(sms)], |d.jobs|, c);
    assert steps + ([Receive(sms)] + FinishSteps(|d.jobs|, c)) == steps + [Receive(sms)] + FinishSteps(|d.jobs|, c);
  }

  // The job a rematch opens, if it opens one.
  lemma RematchOpensFresh(d: Desk, i: nat)
    ensures var n, j := Next(d, Rematch(i)), |d.jobs|;
            j < |n.jobs| && n.jobs[j].Matching? ==> !Taken(n, n.jobs[j].event)
  {
    RematchIsFresh(d, i);
  }

  lemma SubmitThenRematch(start: Desk, steps: seq<Step>, form: Deposit, i: nat)
    requires FreshRun(start, steps)
    ensures Run(start, steps + [Submit(form), Rematch(i)]) == Next(Next(Run(start, steps), Submit(form)), Rematch(i))
    ensures FreshRun(start, steps + [Submit(form), Rematch(i)])
  {
    RunOneMore(start, steps, Submit(form));
    RunOneMore(start, steps + [Submit(form)], Rematch(i));
    assert steps + [Submit(form), Rematch(i)] == steps + [Submit(form)] + [Rematch(i)];
  }

  lemma SubmitKeepsJobs(d: Desk, form: Deposit)
    ensures Next(d, Submit(form)).jobs == d.jobs
  {}

  lemma DepositIsFresh(start: Desk, steps: seq<Step>, form: Deposit, c: Circumstances)
    requires FreshRun(start, steps)
    ensures var d, op := Run(start, steps), DepositMade(form, c);
            Run(start, steps + StepsOf(d, op)) == Handle(d, op) && FreshRun(start, steps + StepsOf(d, op))
  {
    var d := Run(start, steps);
    var i, j, s := |d.deposits|, |d.jobs|, Next(d, Submit(form));
    var both := steps + [Submit(form), Rematch(i)];
    SubmitThenRematch(start, steps, form, i);
    SubmitKeepsJobs(d, form);
    RematchOpensFresh(s, i);
    assert Run(start, both) == Next(s, Rematch(i));
    FinishIsFresh(start, both, j, c);
    Regrouped(steps, [Submit(form), Rematch(i)], FinishSteps(j, c));
  }

  lemma Regrouped(a: seq<Step>, b: seq<Step>, c: seq<Step>)
    ensures a + (b + c) == a + b + c
  {}

  lemma HandlerIsFresh(start: Desk, steps: seq<Step>, op: Op)
    requires FreshRun(start, steps)
    ensures var d := Run(start, steps);
            Run(start, steps + StepsOf(d, op)) == Handle(d, op) && FreshRun(start, steps + StepsOf(d, op))
  {
    var d := Run(start, steps);
    match op {
      case SmsArrives(sms, c) => SmsIsFresh(start, steps, sms, c);
      case DepositMade(form, c) => DepositIsFresh(start, steps, form, c);
      case AdminApproves(i, r, rates, commits) => RunOneMore(start, steps, Approve(i, r, rates, commits));
      case AdminRejects(i) => RunOneMore(start, steps, Reject(i));
      case AdminEdits(i, amount) => RunOneMore(start, steps, Edit(i, amount));
    }
  }

  lemma {:induction false} HandlersAreFresh(start: Desk, ops: seq<Op>)
    ensures Run(start, AllSteps(start, ops)) == HandleAll(start, ops) && FreshRun(start, AllSteps(start, ops))
  {
    if ops != [] {
      var init, last := ops[..|ops| - 1], ops[|ops| - 1];
      HandlersAreFresh(start, init);
      HandlerIsFresh(start, AllSteps(start, init), last);
    }
  }

  // Under whole handlers, every guarantee holds, including one approval for one
  // event.
  lemma AtomicHandlersApproveOnce(start: Desk, ops: seq<Op>)
    requires Opening(start)
    ensures var d := HandleAll(start, ops);
            && MoneyInv(d, start.wallets) && UniqueInv(d) && LinkInv(d)
            && forall e: nat :: Approvals(d, e) <= 1
  {
    HandlersAreFresh(start, ops);
    CreditedExactlyOnce(start, AllSteps(start, ops));
    EventApprovesOnce(start, AllSteps(start, ops));
  }

  // -------------------------------------------------------------------------
  // One SMS, two deposits
  // -------------------------------------------------------------------------

  const TWICE_SMS := Sms(Some(VodafoneWallet), true, "7", 500, "EGP", "", "f")
  const TWICE_FORM := Deposit(0, true, 500, "EGP", "7", "", Pending, None, None)
  const TWICE_PAID := TWICE_FORM.(status := Approved, event := Some(0), source := Some(BySms))
  const ON := Settings(true, false)

  // The webhook stores its event; the deposit's own rematch takes it and is
  // approved; a second deposit with the same transaction arrives before the
  // webhook matches, and is approved by the same event.
  const TWICE: seq<Step> := [
    Receive(TWICE_SMS), Submit(TWICE_FORM), Rematch(0), Match(1, ON, false), Settle(1, map[], true, false),
    Submit(TWICE_FORM), Match(0, ON, false), Settle(0, map[], true, false)]

  function TwiceDesk(deposits: seq<Deposit>, event: PaymentEvent, jobs: seq<Job>): Desk {
    Desk(deposits, [event], map[0 := Wallet("EGP", 0)], [], jobs)
  }

  lemma WebhookThenDeposit(start: Desk)
    requires Opening(start) && start.wallets == map[0 := Wallet("EGP", 0)]
    ensures var d1 := Next(start, TWICE[0]); var d2 := Next(d1, TWICE[1]);
            Next(d2, TWICE[2]) ==
            TwiceDesk([TWICE_FORM], PaymentEvent(TWICE_SMS, Unmatched, None, false), [Matching(0), Matching(0)])
  {
    var d2 := Next(Next(start, TWICE[0]), TWICE[1]);
    assert d2 == TwiceDesk([TWICE_FORM], PaymentEvent(TWICE_SMS, Unmatched, None, false), [Matching(0)]);
    WhichOne(d2.events, (e: PaymentEvent) => Fits(TWICE_FORM, e), 0);
    assert FirstFit(d2, 0) == Some(0);
  }

  lemma OneMatch(d: Desk, i: nat, j: nat)
    requires j < |d.jobs| && d.jobs[j] == Matching(0) && |d.events| == 1 && d.events[0].sms == TWICE_SMS
    requires i < |d.deposits| && d.deposits[i] == TWICE_FORM
    requires forall k :: 0 <= k < |d.deposits| && k != i ==> d.deposits[k].status != Pending
    ensures Next(d, Match(j, ON, false)) ==
            d.(events := [d.events[0].(status := Matched, deposit := Some(i))], jobs := d.jobs[j := Approving(0, i)])
  {
    assert Only(d.deposits, Exacts(TWICE_SMS), i);
    MatchedExactlyWhenUnique(d.deposits, TWICE_SMS, i);
  }

  lemma OneSettle(d: Desk, i: nat, j: nat)
    requires j < |d.jobs| && d.jobs[j] == Approving(0, i) && |d.events| == 1
    requires i < |d.deposits| && d.deposits[i] == TWICE_FORM
    requires 0 in d.wallets && d.wallets[0].currency == "EGP"
    ensures var n := Next(d, Settle(j, map[], true, false));
            && n.deposits == d.deposits[i := TWICE_PAID] && n.jobs == d.jobs[j := Over]
            && n.events == [d.events[0].(status := Processed, error := false)]
            && n.wallets == d.wallets[0 := Wallet("EGP", d.wallets[0].balance + 500)]
  {
    var dep := Reviewed(TWICE_FORM, Review(None, None, BySms, Some(0)));
    assert dep == TWICE_PAID && CreditOf(d, dep, map[]) == Some(500);
  }

  // Job j takes the only pending deposit to approval.
  lemma OneApproval(d: Desk, i: nat, j: nat)
    requires j < |d.jobs| && d.jobs[j] == Matching(0) && |d.events| == 1 && d.events[0].sms == TWICE_SMS
    requires i < |d.deposits| && d.deposits[i] == TWICE_FORM
    requires forall k :: 0 <= k < |d.deposits| && k != i ==> d.deposits[k].status != Pending
    requires 0 in d.wallets && d.wallets[0].currency == "EGP"
    ensures var n := Next(Next(d, Match(j, ON, false)), Settle(j, map[], true, false));
            && n.deposits == d.deposits[i := TWICE_PAID] && n.jobs == d.jobs[j := Over]
            && |n.events| == 1 && n.events[0].sms == TWICE_SMS
            && n.wallets == d.wallets[0 := Wallet("EGP", d.wallets[0].balance + 500)]
  {
    OneMatch(d, i, j);
    OneSettle(Next(d, Match(j, ON, false)), i, j);
    assert d.jobs[j := Approving(0, i)][j := Over] == d.jobs[j := Over];
  }

  lemma BothApproved(d3: Desk)
    requires d3 == TwiceDesk([TWICE_FORM], PaymentEvent(TWICE_SMS, Unmatched, None, false),
                             [Matching(0), Matching(0)])
    ensures var d5 := Next(Next(d3, TWICE[3]), TWICE[4]);
            var d8 := Next(Next(Next(d5, TWICE[5]), TWICE[6]), TWICE[7]);
            d8.deposits == [TWICE_PAID, TWICE_PAID] && |d8.events| == 1
            && d8.wallets == map[0 := Wallet("EGP", 1000)]
  {
    OneApproval(d3, 0, 1);
    SecondApproved(Next(Next(d3, TWICE[3]), TWICE[4]));
  }

  lemma SecondApproved(d5: Desk)
    requires d5.deposits == [TWICE_PAID] && d5.jobs == [Matching(0), Over]
    requires |d5.events| == 1 && d5.events[0].sms == TWICE_SMS && d5.wallets == map[0 := Wallet("EGP", 500)]
    ensures var d8 := Next(Next(Next(d5, TWICE[5]), TWICE[6]), TWICE[7]);
            d8.deposits == [TWICE_PAID, TWICE_PAID] && |d8.events| == 1
            && d8.wallets == map[0 := Wallet("EGP", 1000)]
  {
    var d6 := Next(d5, TWICE[5]);
    assert d6 == d5.(deposits := [TWICE_PAID] + [TWICE_FORM]);
    OneApproval(d6, 1, 0);
  }

  lemma EventCanApproveTwice(start: Desk)
    requires Opening(start) && start.wallets == map[0 := Wallet("EGP", 0)]
    ensures var d := Run(start, TWICE);
            Approvals(d, 0) == 2 && |d.events| == 1 && d.wallets == map[0 := Wallet("EGP", 1000)]
  {
    WebhookThenDeposit(start);
    var d3 := Next(Next(Next(start, TWICE[0]), TWICE[1]), TWICE[2]);
    BothApproved(d3);
    TwoApprovals();
    RunsInOrder(start);
  }

  lemma TwoApprovals()
    ensures CountIf([TWICE_PAID, TWICE_PAID], ApprovedFor(0)) == 2
  {
    CountAppend([TWICE_PAID], TWICE_PAID, ApprovedFor(0));
    assert [TWICE_PAID] + [TWICE_PAID] == [TWICE_PAID, TWICE_PAID];
  }

  lemma RunsInOrder(d: Desk)
    ensures var d3 := Next(Next(Next(d, TWICE[0]), TWICE[1]), TWICE[2]);
            var d5 := Next(Next(d3, TWICE[3]), TWICE[4]);
            Run(d, TWICE) == Next(Next(Next(d5, TWICE[5]), TWICE[6]), TWICE[7])
  {
    Prefix(d, 0); Prefix(d, 1); Prefix(d, 2); Prefix(d, 3);
    Prefix(d, 4); Prefix(d, 5); Prefix(d, 6); Prefix(d, 7);
    assert TWICE[..0] == [] && TWICE[..8] == TWICE;
  }

  lemma Prefix(d: Desk, n: nat)
    requires n < |TWICE|
    ensures Run(d, TWICE[..n + 1]) == Next(Run(d, TWICE[..n]), TWICE[n])
  {
    assert TWICE[..n + 1][..n] == TWICE[..n];
  }
}
