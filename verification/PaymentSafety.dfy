// Invariants of deposits and payment events over every run.

module PaymentSafety {
  import opened Filters
  import opened Options
  import opened DepositCredit
  import opened PaymentModel
  import opened PaymentMachine

  // -------------------------------------------------------------------------
  // The ledger
  // -------------------------------------------------------------------------

  function Entries(ledger: seq<Credit>, i: nat): nat {
    if ledger == [] then 0
    else Entries(ledger[..|ledger| - 1], i) + if ledger[|ledger| - 1].deposit == i then 1 else 0
  }

  function Paid(ledger: seq<Credit>, u: UserId): nat {
    if ledger == [] then 0
    else
      var last := ledger[|ledger| - 1];
      Paid(ledger[..|ledger| - 1], u) + if last.user == u then last.amount else 0
  }

  lemma LedgerAppend(ledger: seq<Credit>, c: Credit, i: nat, u: UserId)
    ensures Entries(ledger + [c], i) == Entries(ledger, i) + if c.deposit == i then 1 else 0
    ensures Paid(ledger + [c], u) == Paid(ledger, u) + if c.user == u then c.amount else 0
  {
    assert (ledger + [c])[..|ledger|] == ledger;
  }

  lemma {:induction false} EntriesBeyond(ledger: seq<Credit>, i: nat)
    requires forall k :: 0 <= k < |ledger| ==> ledger[k].deposit < i
    ensures Entries(ledger, i) == 0
  {
    if ledger != [] { EntriesBeyond(ledger[..|ledger| - 1], i); }
  }

  predicate SameCurrency(d: Desk, dep: Deposit) {
    BillingCurrency(dep.currency) == WalletCurrency(d, dep.user)
  }

  // A ledger entry belongs to an approved deposit of its user, and is that
  // deposit's amount when no conversion was needed.
  predicate EntryOf(d: Desk, c: Credit) {
    && c.deposit < |d.deposits| && d.deposits[c.deposit].user == c.user && c.user in d.wallets && c.amount > 0
    && d.deposits[c.deposit].status == Approved
    && (SameCurrency(d, d.deposits[c.deposit]) ==> c.amount == d.deposits[c.deposit].amount)
  }

  ghost predicate MoneyInv(d: Desk, opening: map<UserId, Wallet>) {
    && (forall i :: 0 <= i < |d.deposits| ==>
          Entries(d.ledger, i) == if d.deposits[i].status == Approved then 1 else 0)
    && (forall k :: 0 <= k < |d.ledger| ==> EntryOf(d, d.ledger[k]))
    && d.wallets.Keys == opening.Keys
    && (forall u :: u in opening ==>
          d.wallets[u] == opening[u].(balance := opening[u].balance + Paid(d.ledger, u)))
  }

  // No money moved: pending deposits may have been edited or rejected.
  ghost predicate NoCredit(d: Desk, n: Desk) {
    && n.ledger == d.ledger && n.wallets == d.wallets && |n.deposits| >= |d.deposits|
    && (forall i :: 0 <= i < |d.deposits| ==>
          || n.deposits[i] == d.deposits[i]
          || (d.deposits[i].status == Pending && n.deposits[i].status != Approved))
    && (forall i :: |d.deposits| <= i < |n.deposits| ==> n.deposits[i].status == Pending)
  }

  predicate CreditedWith(d: Desk, n: Desk, i: nat, dep: Deposit, amount: nat)
    requires i < |d.deposits| && dep.user in d.wallets
  {
    && amount > 0 && (SameCurrency(d, dep) ==> amount == dep.amount)
    && Credited(d.(deposits := d.deposits[i := dep]), i, amount) == n.(events := d.events, jobs := d.jobs)
  }

  // Deposit i was approved and credited.
  ghost predicate OneCredit(d: Desk, n: Desk, i: nat, r: Review) {
    && i < |d.deposits| && d.deposits[i].status == Pending && d.deposits[i].user in d.wallets
    && exists amount: nat :: CreditedWith(d, n, i, Reviewed(d.deposits[i], r), amount)
  }

  lemma ApprovalEffect(d: Desk, i: nat, r: Review, rates: Rates, commits: bool)
    ensures var a := TryApprove(d, i, r, rates, commits);
            a.Committed? ==> OneCredit(d, a.desk, i, r) && a.desk.events == d.events && a.desk.jobs == d.jobs
  {
    var a := TryApprove(d, i, r, rates, commits);
    if a.Committed? {
      var dep := Reviewed(d.deposits[i], r);
      assert CreditedWith(d, a.desk, i, dep, CreditOf(d, dep, rates).value);
    }
  }

  ghost predicate Moves(d: Desk, n: Desk, s: Step) {
    || NoCredit(d, n)
    || (s.Approve? && OneCredit(d, n, s.deposit, s.review.(event := None, source := ByAdmin)))
    || (s.Settle? && s.job < |d.jobs| && d.jobs[s.job].Approving?
        && OneCredit(d, n, d.jobs[s.job].deposit, Review(None, None, BySms, Some(d.jobs[s.job].event))))
  }

  lemma EveryStepMoves(d: Desk, s: Step)
    ensures Moves(d, Next(d, s), s)
  {
    match s {
      case Approve(i, r, rates, commits) =>
        ApprovalEffect(d, i, r.(event := None, source := ByAdmin), rates, commits);
      case Settle(j, rates, commits, throwsAfter) =>
        if j < |d.jobs| && d.jobs[j].Approving? && d.jobs[j].event < |d.events| {
          SettleMoves(d, j, rates, commits, throwsAfter);
        }
      case _ =>
    }
  }

  lemma SettleMoves(d: Desk, j: nat, rates: Rates, commits: bool, throwsAfter: bool)
    requires j < |d.jobs| && d.jobs[j].Approving? && d.jobs[j].event < |d.events|
    ensures var n := SettleMatch(d, j, rates, commits, throwsAfter);
            || NoCredit(d, n)
            || OneCredit(d, n, d.jobs[j].deposit, Review(None, None, BySms, Some(d.jobs[j].event)))
  {
    var i, r, n := d.jobs[j].deposit, Review(None, None, BySms, Some(d.jobs[j].event)),
                   SettleMatch(d, j, rates, commits, throwsAfter);
    ApprovalEffect(d, i, r, rates, commits);
    var a := TryApprove(d, i, r, rates, commits);
    if a.Committed? {
      var dep := Reviewed(d.deposits[i], r);
      var amount: nat :| CreditedWith(d, a.desk, i, dep, amount);
      assert CreditedWith(d, n, i, dep, amount);
    }
  }

  lemma MoneyStaysPut(d: Desk, n: Desk, opening: map<UserId, Wallet>)
    requires MoneyInv(d, opening) && NoCredit(d, n)
    ensures MoneyInv(n, opening)
  {
    forall i | |d.deposits| <= i < |n.deposits| ensures Entries(n.ledger, i) == 0 {
      forall k | 0 <= k < |d.ledger| ensures d.ledger[k].deposit < i { assert EntryOf(d, d.ledger[k]); }
      EntriesBeyond(d.ledger, i);
    }
    forall k | 0 <= k < |n.ledger| ensures EntryOf(n, n.ledger[k]) { assert EntryOf(d, d.ledger[k]); }
  }

  lemma MoneyIsCredited(d: Desk, n: Desk, i: nat, r: Review, opening: map<UserId, Wallet>)
    requires MoneyInv(d, opening) && OneCredit(d, n, i, r)
    ensures MoneyInv(n, opening)
  {
    var dep := Reviewed(d.deposits[i], r);
    var amount: nat :| CreditedWith(d, n, i, dep, amount);
    EntriesCredited(d, n, i, dep, amount, opening);
    WalletsCredited(d, n, i, dep, amount, opening);
  }

  lemma EntriesCredited(d: Desk, n: Desk, i: nat, dep: Deposit, amount: nat, opening: map<UserId, Wallet>)
    requires MoneyInv(d, opening) && i < |d.deposits| && dep.user in d.wallets && CreditedWith(d, n, i, dep, amount)
    requires d.deposits[i].status == Pending && dep.status == Approved && dep.user == d.deposits[i].user
    ensures forall j :: 0 <= j < |n.deposits| ==>
              Entries(n.ledger, j) == if n.deposits[j].status == Approved then 1 else 0
    ensures forall k :: 0 <= k < |n.ledger| ==> EntryOf(n, n.ledger[k])
  {
    var entry := Credit(dep.user, i, amount);
    assert n.deposits == d.deposits[i := dep] && n.ledger == d.ledger + [entry];
    forall j | 0 <= j < |n.deposits|
      ensures Entries(n.ledger, j) == if n.deposits[j].status == Approved then 1 else 0
    {
      LedgerAppend(d.ledger, entry, j, 0);
    }
    forall k | 0 <= k < |n.ledger| ensures EntryOf(n, n.ledger[k]) {
      if k < |d.ledger| { assert EntryOf(d, d.ledger[k]) && n.ledger[k] == d.ledger[k]; }
    }
  }

  lemma WalletsCredited(d: Desk, n: Desk, i: nat, dep: Deposit, amount: nat, opening: map<UserId, Wallet>)
    requires MoneyInv(d, opening) && i < |d.deposits| && dep.user in d.wallets && CreditedWith(d, n, i, dep, amount)
    ensures n.wallets.Keys == opening.Keys
    ensures forall u :: u in opening ==>
              n.wallets[u] == opening[u].(balance := opening[u].balance + Paid(n.ledger, u))
  {
    forall u | u in opening
      ensures n.wallets[u] == opening[u].(balance := opening[u].balance + Paid(n.ledger, u))
    {
      LedgerAppend(d.ledger, Credit(dep.user, i, amount), 0, u);
    }
  }

  lemma MoneyStep(d: Desk, s: Step, opening: map<UserId, Wallet>)
    requires MoneyInv(d, opening)
    ensures MoneyInv(Next(d, s), opening)
  {
    var n := Next(d, s);
    EveryStepMoves(d, s);
    if NoCredit(d, n) {
      MoneyStaysPut(d, n, opening);
    } else if s.Approve? {
      MoneyIsCredited(d, n, s.deposit, s.review.(event := None, source := ByAdmin), opening);
    } else {
      MoneyIsCredited(d, n, d.jobs[s.job].deposit, Review(None, None, BySms, Some(d.jobs[s.job].event)), opening);
    }
  }

  // -------------------------------------------------------------------------
  // Events are stored once, and approve only their own payment
  // -------------------------------------------------------------------------

  predicate SamePaymentEvent(a: PaymentEvent, b: PaymentEvent) {
    || a.sms.fingerprint == b.sms.fingerprint
    || (Usable(a.sms) && Usable(b.sms) && a.sms.source == b.sms.source && a.sms.txn == b.sms.txn)
  }

  ghost predicate UniqueInv(d: Desk) {
    forall a, b :: 0 <= a < b < |d.events| ==> !SamePaymentEvent(d.events[a], d.events[b])
  }

  // The payment of event e is the one deposit dep asked for, up to its amount,
  // which an admin may edit while it is pending.
  predicate Confirms(d: Desk, e: nat, dep: Deposit) {
    && e < |d.events| && Usable(d.events[e].sms) && dep.vodafone && SamePayment(dep, d.events[e].sms)
  }

  ghost predicate LinkInv(d: Desk) {
    && (forall i :: 0 <= i < |d.deposits| ==>
          && (d.deposits[i].event.Some? <==> d.deposits[i].source == Some(BySms))
          && (d.deposits[i].event.Some? ==>
                d.deposits[i].status == Approved && Confirms(d, d.deposits[i].event.value, d.deposits[i])))
    && (forall j :: 0 <= j < |d.jobs| ==> JobInv(d, d.jobs[j]))
  }

  predicate JobInv(d: Desk, job: Job) {
    match job
    case Matching(e) => e < |d.events| && d.events[e].sms.parsed
    case Approving(e, i) =>
      && e < |d.events| && i < |d.deposits|
      && (d.deposits[i].status == Pending ==> Confirms(d, e, d.deposits[i]))
    case Over => true
  }

  // Same messages, perhaps one more.
  ghost predicate EventsGrow(d: Desk, n: Desk) {
    && |d.events| <= |n.events|
    && forall e :: 0 <= e < |d.events| ==> n.events[e].sms == d.events[e].sms
  }

  lemma StepsKeepMessages(d: Desk, s: Step)
    ensures EventsGrow(d, Next(d, s))
    ensures var n := Next(d, s);
            |n.events| > |d.events| ==> s.Receive? && !Duplicate(d.events, s.sms)
                                        && |n.events| == |d.events| + 1 && n.events[|d.events|].sms == s.sms
  {
    match s {
      case Approve(i, r, rates, commits) =>
        ApprovalEffect(d, i, r.(event := None, source := ByAdmin), rates, commits);
      case Settle(j, rates, commits, throwsAfter) =>
        if j < |d.jobs| && d.jobs[j].Approving? && d.jobs[j].event < |d.events| {
          ApprovalEffect(d, d.jobs[j].deposit, Review(None, None, BySms, Some(d.jobs[j].event)), rates, commits);
        }
      case _ =>
    }
  }

  lemma UniqueStep(d: Desk, s: Step)
    requires UniqueInv(d)
    ensures UniqueInv(Next(d, s))
  {
    var n := Next(d, s);
    StepsKeepMessages(d, s);
    forall a, b | 0 <= a < b < |n.events| ensures !SamePaymentEvent(n.events[a], n.events[b]) {
      if b < |d.events| {
        assert !SamePaymentEvent(d.events[a], d.events[b]);
      } else {
        assert !SameEvent(d.events[a], s.sms);
      }
    }
  }

  // How the deposits and jobs of a step relate to the events.
  ghost predicate Linked(d: Desk, n: Desk) {
    && |d.deposits| <= |n.deposits|
    && (forall i :: 0 <= i < |d.deposits| ==> DepositLink(d, d.deposits[i], n.deposits[i], i))
    && (forall i :: |d.deposits| <= i < |n.deposits| ==>
          n.deposits[i].status == Pending && n.deposits[i].event.None? && n.deposits[i].source.None?)
    && (forall j :: 0 <= j < |n.jobs| ==> n.jobs[j] in d.jobs || JobInv(n, n.jobs[j]))
  }

  // A pending deposit was edited or rejected, approved by an admin, or approved
  // by a handler that had matched an event to it.
  ghost predicate DepositLink(d: Desk, before: Deposit, after: Deposit, i: nat) {
    || after == before
    || (before.status == Pending && after == before.(status := after.status, amount := after.amount))
    || (before.status == Pending && after.event == before.event && after.source == Some(ByAdmin)
        && after.status == Approved)
    || (before.status == Pending
        && exists e :: Approving(e, i) in d.jobs
                       && after == before.(status := Approved, event := Some(e), source := Some(BySms)))
  }

  lemma LinkedKeeps(d: Desk, n: Desk)
    requires LinkInv(d) && EventsGrow(d, n) && Linked(d, n)
    ensures LinkInv(n)
  {
    forall i | 0 <= i < |n.deposits|
      ensures n.deposits[i].event.Some? <==> n.deposits[i].source == Some(BySms)
      ensures n.deposits[i].event.Some? ==>
                n.deposits[i].status == Approved && Confirms(n, n.deposits[i].event.value, n.deposits[i])
    {
      if i < |d.deposits| {
        assert DepositLink(d, d.deposits[i], n.deposits[i], i);
        if n.deposits[i] != d.deposits[i] && n.deposits[i].source == Some(BySms) {
          var e :| Approving(e, i) in d.jobs
                   && n.deposits[i] == d.deposits[i].(status := Approved, event := Some(e), source := Some(BySms));
          assert JobInv(d, Approving(e, i));
        }
      }
    }
    forall j | 0 <= j < |n.jobs| ensures JobInv(n, n.jobs[j]) {
      if n.jobs[j] in d.jobs {
        assert JobInv(d, n.jobs[j]);
        if n.jobs[j].Approving? {
          var i := n.jobs[j].deposit;
          assert DepositLink(d, d.deposits[i], n.deposits[i], i);
        }
      }
    }
  }

  lemma MatchLinks(d: Desk, j: nat, settings: Settings, tooOld: bool)
    requires LinkInv(d) && j < |d.jobs| && d.jobs[j].Matching? && d.jobs[j].event < |d.events|
    ensures Linked(d, ApplyMatch(d, j, settings, tooOld))
  {
    var e := d.jobs[j].event;
    var n := ApplyMatch(d, j, settings, tooOld);
    match MatchParsed(d.deposits, d.events[e].sms) {
      case MatchedTo(i) => MatchedExactlyWhenUnique(d.deposits, d.events[e].sms, i);
      case NotOne(_) =>
    }
    assert JobInv(n, n.jobs[j]);
    forall k | 0 <= k < |n.jobs| ensures n.jobs[k] in d.jobs || JobInv(n, n.jobs[k]) {
      if k != j { assert n.jobs[k] == d.jobs[k]; }
    }
  }

  lemma SettleLinks(d: Desk, j: nat, rates: Rates, commits: bool, throwsAfter: bool)
    requires j < |d.jobs| && d.jobs[j].Approving? && d.jobs[j].event < |d.events|
    ensures Linked(d, SettleMatch(d, j, rates, commits, throwsAfter))
  {
    var e, i := d.jobs[j].event, d.jobs[j].deposit;
    var n := SettleMatch(d, j, rates, commits, throwsAfter);
    assert d.jobs[j] == Approving(e, i) && d.jobs[j] in d.jobs;
    forall k | 0 <= k < |n.jobs| ensures n.jobs[k] in d.jobs || JobInv(n, n.jobs[k]) {
      if k != j { assert n.jobs[k] == d.jobs[k]; }
    }
    if i < |d.deposits| { assert DepositLink(d, d.deposits[i], n.deposits[i], i); }
  }

  lemma RematchLinks(d: Desk, i: nat)
    ensures Linked(d, Next(d, Rematch(i)))
  {
    var n := Next(d, Rematch(i));
    if FirstFit(d, i).Some? {
      var fits := (e: PaymentEvent) => Fits(d.deposits[i], e);
      WhereMembers(d.events, fits);
      assert FirstFit(d, i).value in Where(d.events, fits);
    }
  }

  lemma LinkStep(d: Desk, s: Step)
    requires LinkInv(d)
    ensures LinkInv(Next(d, s))
  {
    var n := Next(d, s);
    StepsKeepMessages(d, s);
    match s {
      case Match(j, settings, tooOld) =>
        if j < |d.jobs| && d.jobs[j].Matching? && d.jobs[j].event < |d.events| { MatchLinks(d, j, settings, tooOld); }
      case Settle(j, rates, commits, throwsAfter) =>
        if j < |d.jobs| && d.jobs[j].Approving? && d.jobs[j].event < |d.events| {
          SettleLinks(d, j, rates, commits, throwsAfter);
        }
      case Rematch(i) => RematchLinks(d, i);
      case _ =>
    }
    LinkedKeeps(d, n);
  }
}
