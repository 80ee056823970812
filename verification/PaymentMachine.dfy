// Deposits and SMS events as a state machine.  A step is one handler's work up
// to its next await that matters: reading an event, matching and saving it, the
// approval transaction, or one admin operation.

module PaymentMachine {
  import opened Filters
  import opened Options
  import opened DepositCredit
  import opened PaymentModel

  // A handler holding an event it read as UNMATCHED, then its match.
  datatype Job = Matching(event: nat) | Approving(event: nat, deposit: nat) | Over

  datatype Desk = Desk(deposits: seq<Deposit>, events: seq<PaymentEvent>, wallets: map<UserId, Wallet>,
                       ledger: seq<Credit>, jobs: seq<Job>)

  // An approval's overrides.
  datatype Review = Review(amount: Option<int>, currency: Option<string>, source: ReviewSource,
                           event: Option<nat>)

  datatype DepositError =
    | NotFound | AlreadyApproved | AlreadyRejected | InvalidAmount | RateUnavailable | UserNotFound | Aborted

  datatype Approval = Committed(desk: Desk) | Refused(error: DepositError)

  datatype Step =
    | Submit(form: Deposit)
    | Receive(sms: Sms)
    | Rematch(deposit: nat)
    | Match(job: nat, settings: Settings, tooOld: bool)
    | Settle(job: nat, rates: Rates, commits: bool, throwsAfter: bool)
    | Approve(deposit: nat, review: Review, rates: Rates, commits: bool)
    | Reject(deposit: nat)
    | Edit(deposit: nat, amount: int)

  // -------------------------------------------------------------------------
  // approveDeposit
  // -------------------------------------------------------------------------

  function BillingCurrency(code: string): string { if code == "" then "USD" else code }

  function WalletCurrency(d: Desk, u: UserId): string {
    if u in d.wallets then d.wallets[u].currency else "USD"
  }

  function Reviewed(dep: Deposit, r: Review): Deposit {
    dep.(status := Approved, source := Some(r.source),
         amount := if r.amount.Some? then r.amount.value else dep.amount,
         currency := if r.currency.Some? then r.currency.value else dep.currency,
         event := if r.event.Some? then r.event else dep.event)
  }

  function CreditOf(d: Desk, dep: Deposit, rates: Rates): Option<nat>
    requires dep.amount > 0
  {
    WalletCredit(dep.amount, BillingCurrency(dep.currency), WalletCurrency(d, dep.user), rates)
  }

  // The transaction: status swap, wallet credit and ledger entry, or nothing.
  function TryApprove(d: Desk, i: nat, r: Review, rates: Rates, commits: bool): Approval {
    if i >= |d.deposits| then Refused(NotFound)
    else if d.deposits[i].status == Approved then Refused(AlreadyApproved)
    else if d.deposits[i].status == Rejected then Refused(AlreadyRejected)
    else
      var dep := Reviewed(d.deposits[i], r);
      if dep.amount <= 0 then Refused(InvalidAmount)
      else if CreditOf(d, dep, rates).None? then Refused(RateUnavailable)
      else if CreditOf(d, dep, rates).value == 0 then Refused(InvalidAmount)
      else if dep.user !in d.wallets then Refused(UserNotFound)
      else if !commits then Refused(Aborted)
      else Committed(Credited(d.(deposits := d.deposits[i := dep]), i, CreditOf(d, dep, rates).value))
  }

  function Credited(d: Desk, i: nat, amount: nat): Desk
    requires i < |d.deposits| && d.deposits[i].user in d.wallets
  {
    var u := d.deposits[i].user;
    var wallet := d.wallets[u];
    d.(wallets := d.wallets[u := wallet.(balance := wallet.balance + amount)],
       ledger := d.ledger + [Credit(u, i, amount)])
  }

  // -------------------------------------------------------------------------
  // Events
  // -------------------------------------------------------------------------

  predicate SameEvent(e: PaymentEvent, sms: Sms) {
    || e.sms.fingerprint == sms.fingerprint
    || (Usable(sms) && e.sms.source == sms.source && e.sms.txn == sms.txn)
  }

  // The duplicate check, which the two unique indexes repeat at the insert.
  predicate Duplicate(events: seq<PaymentEvent>, sms: Sms) {
    exists e :: 0 <= e < |events| && SameEvent(events[e], sms)
  }

  // An event that the new deposit could have been waiting for.
  predicate Fits(dep: Deposit, e: PaymentEvent) {
    && e.sms.parsed && e.status == Unmatched && SamePayment(dep, e.sms) && dep.amount == e.sms.amount
  }

  // The oldest fitting event; none for a deposit that is not pending or carries
  // no transaction id.
  function FirstFit(d: Desk, i: nat): Option<nat> {
    if i >= |d.deposits| || d.deposits[i].status != Pending || d.deposits[i].txn == "" then None
    else
      var fitting := Where(d.events, (e: PaymentEvent) => Fits(d.deposits[i], e));
      if fitting == [] then None else Some(fitting[0])
  }

  // -------------------------------------------------------------------------
  // Steps
  // -------------------------------------------------------------------------

  function Next(d: Desk, s: Step): Desk {
    match s
    case Submit(form) =>
      if form.user in d.wallets && form.amount > 0
      then d.(deposits := d.deposits + [form.(status := Pending, event := None, source := None)])
      else d
    case Receive(sms) => if Duplicate(d.events, sms) then d else Received(d, sms)
    case Rematch(i) =>
      if FirstFit(d, i).Some? then d.(jobs := d.jobs + [Matching(FirstFit(d, i).value)]) else d
    case Match(j, settings, tooOld) =>
      if j < |d.jobs| && d.jobs[j].Matching? && d.jobs[j].event < |d.events|
      then ApplyMatch(d, j, settings, tooOld) else d
    case Settle(j, rates, commits, throwsAfter) =>
      if j < |d.jobs| && d.jobs[j].Approving? && d.jobs[j].event < |d.events|
      then SettleMatch(d, j, rates, commits, throwsAfter) else d
    case Approve(i, r, rates, commits) =>
      var a := TryApprove(d, i, r.(event := None, source := ByAdmin), rates, commits);
      if a.Committed? then a.desk else d
    case Reject(i) =>
      if i < |d.deposits| && d.deposits[i].status == Pending
      then d.(deposits := d.deposits[i := d.deposits[i].(status := Rejected)]) else d
    case Edit(i, amount) =>
      if i < |d.deposits| && d.deposits[i].status == Pending && amount > 0
      then d.(deposits := d.deposits[i := d.deposits[i].(amount := amount)]) else d
  }

  function Received(d: Desk, sms: Sms): Desk {
    d.(events := d.events + [PaymentEvent(sms, Unmatched, None, false)],
       jobs := if sms.parsed then d.jobs + [Matching(|d.events|)] else d.jobs)
  }

  function SetEvent(d: Desk, e: nat, event: PaymentEvent): Desk
    requires e < |d.events|
  {
    d.(events := d.events[e := event])
  }

  function SetJob(d: Desk, j: nat, job: Job): Desk
    requires j < |d.jobs|
  {
    d.(jobs := d.jobs[j := job])
  }

  // matchParsedPaymentEvent and the first save of applyMatchResult.  A document
  // read as UNMATCHED that stays UNMATCHED has nothing to save.
  function ApplyMatch(d: Desk, j: nat, settings: Settings, tooOld: bool): Desk
    requires j < |d.jobs| && d.jobs[j].Matching? && d.jobs[j].event < |d.events|
  {
    var e := d.jobs[j].event;
    var event := d.events[e];
    match MatchParsed(d.deposits, event.sms)
    case MatchedTo(i) =>
      SetJob(SetEvent(d, e, event.(status := Matched, deposit := Some(i))), j,
             if AutoApprovable(event.sms, settings, tooOld) then Approving(e, i) else Over)
    case NotOne(Unmatched) => SetJob(d, j, Over)
    case NotOne(status) => SetJob(SetEvent(d, e, event.(status := status)), j, Over)
  }

  // The automatic approval and the save after it.
  function SettleMatch(d: Desk, j: nat, rates: Rates, commits: bool, throwsAfter: bool): Desk
    requires j < |d.jobs| && d.jobs[j].Approving? && d.jobs[j].event < |d.events|
  {
    var e, i := d.jobs[j].event, d.jobs[j].deposit;
    match TryApprove(d, i, Review(None, None, BySms, Some(e)), rates, commits)
    case Refused(_) => SetJob(SetEvent(d, e, d.events[e].(error := true)), j, Over)
    case Committed(n) =>
      SetJob(SetEvent(n, e, if throwsAfter then n.events[e].(error := true)
                            else n.events[e].(status := Processed, error := false)), j, Over)
  }

  function Run(d: Desk, steps: seq<Step>): Desk {
    if steps == [] then d else Next(Run(d, steps[..|steps| - 1]), steps[|steps| - 1])
  }

  ghost predicate Opening(d: Desk) {
    d.deposits == [] && d.events == [] && d.ledger == [] && d.jobs == []
  }
}
