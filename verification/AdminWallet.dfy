// Manual wallet operations and the bulk re-pegging of debts.  Money is in cents;
// percentages in millionths.

module AdminWallet {
  import opened Options
  import opened Filters
  import opened DebtArithmetic
  import opened Rounding

  datatype User = User(balance: int, limit: int, creditUsed: nat, currency: string, deleted: bool)

  datatype TxnKind = CreditTxn | DebitTxn | DebtAdjustmentTxn

  datatype WalletTxn = WalletTxn(user: nat, kind: TxnKind, amount: nat, before: int, after: int)

  datatype WalletError = UserNotFound | InvalidAmount | InsufficientBalance | InvalidPercentage

  const MAX_ADJUSTMENT := 10000000

  // recalculateCreditUsed
  function CreditUsed(balance: int, limit: int): nat {
    if balance >= 0 || limit == 0 then 0
    else if Abs(balance) < Abs(limit) then Abs(balance) else Abs(limit)
  }

  // The user's debt is drawn from credit first, and credit never exceeds its
  // limit; paying in never draws more of it.
  lemma CreditCoversDebt(balance: int, more: int, limit: int)
    requires balance <= more
    ensures CreditUsed(balance, limit) <= Abs(limit)
    ensures CreditUsed(more, limit) <= CreditUsed(balance, limit)
    ensures balance + Abs(limit) >= 0 ==> balance + CreditUsed(balance, limit) >= 0
    ensures balance + CreditUsed(balance, limit) <= 0 || CreditUsed(balance, limit) == 0
  {}

  // -------------------------------------------------------------------------
  // Bulk adjustment
  // -------------------------------------------------------------------------

  // How the two writes for one user go.
  datatype Fate = Fine | UpdateThrows | RecordThrows

  // { walletBalance: { $lt: 0 }, deletedAt: null }, and the currency if one is given
  function InDebt(code: Option<string>): User -> bool {
    (u: User) => u.balance < 0 && !u.deleted && (code.None? || u.currency == code.value)
  }

  function WithBalance(u: User, balance: int): User {
    u.(balance := balance, creditUsed := CreditUsed(balance, u.limit))
  }

  // The cents a user is adjusted by.
  function CentsFor(u: User, code: Option<string>, p: nat): nat {
    if InDebt(code)(u) then Adjustment(-u.balance, p) else 0
  }

  function AfterAdjustment(u: User, code: Option<string>, p: nat, up: bool, fate: Fate): User {
    var cents := CentsFor(u, code, p);
    if cents == 0 || fate == UpdateThrows then u
    else WithBalance(u, if up then u.balance - cents else u.balance + cents)
  }

  // cents is p percent of the debt, to the nearest cent, halves up.
  predicate IsShareOf(cents: int, debt: nat, p: nat) {
    2 * (WHOLE * cents) <= 2 * (debt * p) + WHOLE < 2 * (WHOLE * cents) + 2 * WHOLE
  }

  // What one bulk adjustment makes of a user: nothing of one who owes nothing, is
  // deleted or has another currency than the one asked for.  Anyone else, unless
  // the update throws, owes that share of the debt more, or less.
  predicate AdjustedAs(u: User, n: User, code: Option<string>, p: nat, up: bool, fate: Fate) {
    if u.balance >= 0 || u.deleted || (code.Some? && u.currency != code.value) || fate == UpdateThrows then n == u
    else
      && n.limit == u.limit && n.currency == u.currency && n.deleted == u.deleted
      && IsShareOf(if up then u.balance - n.balance else n.balance - u.balance, -u.balance, p)
      && n.creditUsed == if n.balance == u.balance then u.creditUsed else CreditUsed(n.balance, u.limit)
  }

  lemma AdjustmentMeans(u: User, code: Option<string>, p: nat, up: bool, fate: Fate)
    ensures AdjustedAs(u, AfterAdjustment(u, code, p, up, fate), code, p, up, fate)
  {
    if u.balance < 0 { assert IsShareOf(Adjustment(-u.balance, p), -u.balance, p); }
  }

  // Deflation never makes a debt positive; inflation at most doubles it; no
  // other user is touched.
  lemma AdjustedDebtStaysADebt(u: User, code: Option<string>, p: nat, up: bool, fate: Fate)
    requires ValidPercent(p)
    ensures var n := AfterAdjustment(u, code, p, up, fate);
            && (InDebt(code)(u) ==> 2 * u.balance <= n.balance <= 0)
            && (InDebt(code)(u) && up ==> n.balance <= u.balance)
            && (InDebt(code)(u) && !up ==> u.balance <= n.balance)
            && (!InDebt(code)(u) ==> n == u)
  {
    if InDebt(code)(u) { AdjustmentBounds(-u.balance, p); }
  }

  function Moved(before: seq<User>, after: seq<User>): nat
    requires |before| == |after|
  {
    if before == [] then 0
    else
      var n := |before| - 1;
      Moved(before[..n], after[..n]) + Abs(after[n].balance - before[n].balance)
  }

  lemma {:induction false} MovedAfter(before: seq<User>, after: seq<User>, i: nat, x: User)
    requires |before| == |after| && i < |before| && after[i] == before[i]
    ensures Moved(before, after[i := x]) == Moved(before, after) + Abs(x.balance - before[i].balance)
  {
    var n := |before| - 1;
    if i == n {
      assert after[i := x][..n] == after[..n];
    } else {
      assert after[i := x][..n] == after[..n][i := x];
      MovedAfter(before[..n], after[..n], i, x);
    }
  }

  lemma {:induction false} NothingMoved(users: seq<User>)
    ensures Moved(users, users) == 0
  {
    if users != [] { NothingMoved(users[..|users| - 1]); }
  }

  predicate Known(users: seq<User>, ids: seq<nat>) { forall k :: 0 <= k < |ids| ==> ids[k] < |users| }

  // The cents of the listed users whose writes went a given way, and how many
  // such users have any.
  function CentsOver(users: seq<User>, ids: seq<nat>, code: Option<string>, p: nat, fates: nat -> Fate, fate: Fate): nat
    requires Known(users, ids)
  {
    if ids == [] then 0
    else
      var last := ids[|ids| - 1];
      CentsOver(users, ids[..|ids| - 1], code, p, fates, fate)
      + if fates(last) == fate then CentsFor(users[last], code, p) else 0
  }

  function UsersOver(users: seq<User>, ids: seq<nat>, code: Option<string>, p: nat, fates: nat -> Fate, fate: Fate): nat
    requires Known(users, ids)
  {
    if ids == [] then 0
    else
      var last := ids[|ids| - 1];
      UsersOver(users, ids[..|ids| - 1], code, p, fates, fate)
      + if fates(last) == fate && CentsFor(users[last], code, p) > 0 then 1 else 0
  }

  // The ledger entries of the listed users adjusted and recorded, in order.
  function EntriesOver(users: seq<User>, ids: seq<nat>, code: Option<string>, p: nat, up: bool,
                       fates: nat -> Fate): seq<WalletTxn>
    requires Known(users, ids)
  {
    if ids == [] then []
    else
      var last := ids[|ids| - 1];
      EntriesOver(users, ids[..|ids| - 1], code, p, up, fates)
      + EntryOf(last, users[last], CentsFor(users[last], code, p), up, fates(last))
  }

  function EntryOf(id: nat, u: User, cents: nat, up: bool, fate: Fate): seq<WalletTxn> {
    if cents == 0 || fate != Fine then []
    else [WalletTxn(id, DebtAdjustmentTxn, cents, u.balance, if up then u.balance - cents else u.balance + cents)]
  }

  datatype BulkResult = BulkResult(usersAdjusted: nat, totalAdjustment: nat, totalUsersInDebt: nat, errors: nat)

  class WalletAdmin {
    var users: seq<User>
    var transactions: seq<WalletTxn>

    constructor (users: seq<User>)
      ensures this.users == users && transactions == []
    {
      this.users, transactions := users, [];
    }

    // Every ledger entry says how its user's balance moved, in order.
    method Write(id: nat, balance: int, kind: TxnKind, amount: nat)
      requires id < |users|
      modifies this
      ensures users == old(users)[id := WithBalance(old(users)[id], balance)]
      ensures transactions == old(transactions) + [WalletTxn(id, kind, amount, old(users)[id].balance, balance)]
    {
      var user := users[id];
      users := users[id := WithBalance(user, balance)];
      transactions := transactions + [WalletTxn(id, kind, amount, user.balance, balance)];
    }

    method AddFunds(id: nat, amount: int) returns (error: Option<WalletError>)
      modifies this
      ensures error == if amount <= 0 || amount > MAX_ADJUSTMENT then Some(InvalidAmount)
                       else if id >= |old(users)| then Some(UserNotFound) else None
      ensures error.Some? ==> users == old(users) && transactions == old(transactions)
      ensures error.None? ==>
                && users == old(users)[id := WithBalance(old(users)[id], old(users)[id].balance + amount)]
                && transactions == old(transactions)
                     + [WalletTxn(id, CreditTxn, amount, old(users)[id].balance, old(users)[id].balance + amount)]
    {
      if amount <= 0 || amount > MAX_ADJUSTMENT { return Some(InvalidAmount); }
      if id >= |users| { return Some(UserNotFound); }
      Write(id, users[id].balance + amount, CreditTxn, amount);
      return None;
    }

    // The balance may go down to minus the credit limit and no further.
    method DeductFunds(id: nat, amount: int) returns (error: Option<WalletError>)
      modifies this
      ensures error == if amount <= 0 || amount > MAX_ADJUSTMENT then Some(InvalidAmount)
                       else if id >= |old(users)| then Some(UserNotFound)
                       else if amount > old(users)[id].balance + Abs(old(users)[id].limit)
                       then Some(InsufficientBalance) else None
      ensures error.Some? ==> users == old(users) && transactions == old(transactions)
      ensures error.None? ==>
                && users == old(users)[id := WithBalance(old(users)[id], old(users)[id].balance - amount)]
                && users[id].balance + Abs(users[id].limit) >= 0 && users[id].balance + users[id].creditUsed >= 0
                && transactions == old(transactions)
                     + [WalletTxn(id, DebitTxn, amount, old(users)[id].balance, old(users)[id].balance - amount)]
    {
      if amount <= 0 || amount > MAX_ADJUSTMENT { return Some(InvalidAmount); }
      if id >= |users| { return Some(UserNotFound); }
      if amount > users[id].balance + Abs(users[id].limit) { return Some(InsufficientBalance); }
      CreditCoversDebt(users[id].balance - amount, users[id].balance, users[id].limit);
      Write(id, users[id].balance - amount, DebitTxn, amount);
      return None;
    }

    method SetBalance(id: nat, target: int) returns (error: Option<WalletError>)
      modifies this
      ensures error == if Abs(target) > MAX_ADJUSTMENT * 10 then Some(InvalidAmount)
                       else if id >= |old(users)| then Some(UserNotFound) else None
      ensures error.Some? ==> users == old(users) && transactions == old(transactions)
      ensures error.None? ==>
                && users == old(users)[id := WithBalance(old(users)[id], target)]
                && var delta := target - old(users)[id].balance;
                   transactions == old(transactions)
                     + [WalletTxn(id, if delta >= 0 then CreditTxn else DebitTxn, Abs(delta),
                                  old(users)[id].balance, target)]
    {
      if Abs(target) > MAX_ADJUSTMENT * 10 { return Some(InvalidAmount); }
      if id >= |users| { return Some(UserNotFound); }
      var delta := target - users[id].balance;
      Write(id, target, if delta >= 0 then CreditTxn else DebitTxn, Abs(delta));
      return None;
    }

    // One user of a bulk adjustment.  Less than a cent is skipped.
    method AdjustOne(id: nat, p: nat, code: Option<string>, up: bool, fate: Fate, r0: BulkResult) returns (r: BulkResult)
      requires id < |users| && InDebt(code)(users[id]) && ValidPercent(p)
      modifies this
      ensures users == old(users)[id := AfterAdjustment(old(users)[id], code, p, up, fate)]
      ensures r == Counted(r0, CentsFor(old(users)[id], code, p), fate)
      ensures transactions ==
              old(transactions) + EntryOf(id, old(users)[id], CentsFor(old(users)[id], code, p), up, fate)
    {
      r := r0;
      var user := users[id];
      var cents := Adjustment(-user.balance, p);
      if cents < 1 { return; }
      var balance := if up then user.balance - cents else user.balance + cents;
      match fate {
        case UpdateThrows => r := r.(errors := r.errors + 1);
        case Fine =>
          Write(id, balance, DebtAdjustmentTxn, cents);
          r := r.(usersAdjusted := r.usersAdjusted + 1, totalAdjustment := r.totalAdjustment + cents);
        case RecordThrows =>
          users := users[id := WithBalance(user, balance)];
          r := r.(errors := r.errors + 1);
      }
    }

    // The users found, one by one.
    method AdjustFound(found: seq<nat>, p: int, code: Option<string>, up: bool, fates: nat -> Fate)
      returns (r: BulkResult)
      requires ValidPercent(p) && found == Where(users, InDebt(code))
      modifies this
      ensures Underway(old(users), users, found, |found|, code, p, up, fates, r)
      ensures Entered(old(transactions), transactions, old(users), found, |found|, code, p, up, fates)
    {
      r := BulkResult(0, 0, |found|, 0);
      Starts(users, found, code, p, up, fates, transactions);
      for n := 0 to |found|
        invariant Underway(old(users), users, found, n, code, p, up, fates, r)
        invariant Entered(old(transactions), transactions, old(users), found, n, code, p, up, fates)
      {
        MovesOn(old(users), users, found, n, code, p, up, fates, r);
        EntriesNext(old(transactions), transactions, old(users), found, n, code, p, up, fates);
        r := AdjustOne(found[n], p, code, up, fates(found[n]), r);
      }
    }

    // adjustNegativeBalancesForInflation (up) and ForDeflation: found are the
    // users in debt, of the given currency if one is given.  Of every one of
    // them the adjusted cents were moved, unless the update threw.  The total
    // counts those recorded, so the balances moved by the total plus the cents
    // of exactly the users whose record could not be written.
    method AdjustNegativeBalances(p: int, code: Option<string>, up: bool, fates: nat -> Fate)
      returns (error: Option<WalletError>, r: BulkResult, ghost found: seq<nat>)
      modifies this
      ensures error == if ValidPercent(p) then None else Some(InvalidPercentage)
      ensures error.Some? ==> users == old(users) && transactions == old(transactions)
      ensures Known(old(users), found)
      ensures forall i :: i in found <==>
                && 0 <= i < |old(users)| && old(users)[i].balance < 0 && !old(users)[i].deleted
                && (code.Some? ==> old(users)[i].currency == code.value)
      ensures error.None? ==>
                && |users| == |old(users)|
                && (forall i :: 0 <= i < |users| ==>
                      && AdjustedAs(old(users)[i], users[i], code, p, up, fates(i))
                      && users[i] == AfterAdjustment(old(users)[i], code, p, up, fates(i)))
                && Summed(r, old(users), found, |found|, code, p, fates)
                && transactions == old(transactions) + EntriesOver(old(users), found, code, p, up, fates)
                && Moved(old(users), users) ==
                   r.totalAdjustment + CentsOver(old(users), found, code, p, fates, RecordThrows)
    {
      var ids := Where(users, InDebt(code));
      found := ids;
      FoundAreInDebt(users, code);
      if !ValidPercent(p) { return Some(InvalidPercentage), BulkResult(0, 0, 0, 0), found; }
      error := None;
      r := AdjustFound(ids, p, code, up, fates);
      assert found[..|found|] == found;
      Ends(old(users), users, found, code, p, up, fates, r);
    }
  }

  lemma FoundAreInDebt(users: seq<User>, code: Option<string>)
    ensures Known(users, Where(users, InDebt(code)))
    ensures forall i :: i in Where(users, InDebt(code)) <==>
              && 0 <= i < |users| && users[i].balance < 0 && !users[i].deleted
              && (code.Some? ==> users[i].currency == code.value)
  {
    var found := Where(users, InDebt(code));
    WhereMembers(users, InDebt(code));
    forall k | 0 <= k < |found| ensures found[k] < |users| { assert found[k] in found; }
  }

  // The entries of the first n users found have been added.
  ghost predicate Entered(before: seq<WalletTxn>, now: seq<WalletTxn>, users: seq<User>, found: seq<nat>, n: nat,
                          code: Option<string>, p: int, up: bool, fates: nat -> Fate) {
    && Known(users, found) && n <= |found| && p >= 0
    && now == before + EntriesOver(users, found[..n], code, p, up, fates)
  }

  lemma EntriesNext(before: seq<WalletTxn>, now: seq<WalletTxn>, users: seq<User>, found: seq<nat>, n: nat,
                    code: Option<string>, p: nat, up: bool, fates: nat -> Fate)
    requires Entered(before, now, users, found, n, code, p, up, fates) && n < |found|
    ensures var id := found[n];
            Entered(before, now + EntryOf(id, users[id], CentsFor(users[id], code, p), up, fates(id)),
                    users, found, n + 1, code, p, up, fates)
  {
    assert found[..n + 1][..n] == found[..n];
  }

  function Counted(r: BulkResult, cents: nat, fate: Fate): BulkResult {
    if cents == 0 then r
    else if fate == Fine then r.(usersAdjusted := r.usersAdjusted + 1, totalAdjustment := r.totalAdjustment + cents)
    else r.(errors := r.errors + 1)
  }

  // What the result says of the first n users found.
  ghost predicate Summed(r: BulkResult, before: seq<User>, found: seq<nat>, n: nat, code: Option<string>, p: nat,
                         fates: nat -> Fate)
    requires Known(before, found) && n <= |found|
  {
    && r.totalUsersInDebt == |found|
    && r.totalAdjustment == CentsOver(before, found[..n], code, p, fates, Fine)
    && r.usersAdjusted == UsersOver(before, found[..n], code, p, fates, Fine)
    && r.errors == UsersOver(before, found[..n], code, p, fates, UpdateThrows)
                   + UsersOver(before, found[..n], code, p, fates, RecordThrows)
  }

  // Where the loop stands.
  ghost predicate Underway(before: seq<User>, now: seq<User>, found: seq<nat>, n: nat, code: Option<string>, p: nat,
                           up: bool, fates: nat -> Fate, r: BulkResult) {
    && Known(before, found) && n <= |found|
    && Adjusting(before, now, found, n, code, p, up, fates)
    && Summed(r, before, found, n, code, p, fates)
    && Moved(before, now) == r.totalAdjustment + CentsOver(before, found[..n], code, p, fates, RecordThrows)
  }

  lemma Starts(users: seq<User>, found: seq<nat>, code: Option<string>, p: nat, up: bool, fates: nat -> Fate,
               txns: seq<WalletTxn>)
    requires found == Where(users, InDebt(code))
    ensures Entered(txns, txns, users, found, 0, code, p, up, fates)
    ensures Underway(users, users, found, 0, code, p, up, fates, BulkResult(0, 0, |found|, 0))
  {
    WhereMembers(users, InDebt(code));
    forall k | 0 <= k < |found| ensures found[k] < |users| { assert found[k] in found; }
    NothingMoved(users);
  }

  lemma MovesOn(before: seq<User>, now: seq<User>, found: seq<nat>, n: nat, code: Option<string>, p: nat, up: bool,
                fates: nat -> Fate, r: BulkResult)
    requires Underway(before, now, found, n, code, p, up, fates, r) && n < |found|
    requires found == Where(before, InDebt(code))
    ensures var id := found[n];
            && id < |now| && now[id] == before[id] && InDebt(code)(now[id])
            && Underway(before, now[id := AfterAdjustment(now[id], code, p, up, fates(id))], found, n + 1, code, p,
                        up, fates, Counted(r, CentsFor(now[id], code, p), fates(id)))
  {
    var id := found[n];
    AdjustingNext(before, now, found, n, code, p, up, fates);
    MovedAfter(before, now, id, AfterAdjustment(before[id], code, p, up, fates(id)));
    SummedNext(r, before, found, n, code, p, fates);
  }

  lemma Ends(before: seq<User>, now: seq<User>, found: seq<nat>, code: Option<string>, p: nat, up: bool,
             fates: nat -> Fate, r: BulkResult)
    requires Underway(before, now, found, |found|, code, p, up, fates, r) && found == Where(before, InDebt(code))
    ensures forall i :: 0 <= i < |now| ==> now[i] == AfterAdjustment(before[i], code, p, up, fates(i))
    ensures forall i :: 0 <= i < |now| ==> AdjustedAs(before[i], now[i], code, p, up, fates(i))
    ensures Moved(before, now) == r.totalAdjustment + CentsOver(before, found, code, p, fates, RecordThrows)
  {
    AllAdjusted(before, now, found, code, p, up, fates);
    assert found[..|found|] == found;
    forall i | 0 <= i < |now| ensures AdjustedAs(before[i], now[i], code, p, up, fates(i)) {
      AdjustmentMeans(before[i], code, p, up, fates(i));
    }
  }

  lemma SummedNext(r: BulkResult, before: seq<User>, found: seq<nat>, n: nat, code: Option<string>, p: nat,
                   fates: nat -> Fate)
    requires Known(before, found) && n < |found| && Summed(r, before, found, n, code, p, fates)
    ensures Summed(Counted(r, CentsFor(before[found[n]], code, p), fates(found[n])),
                   before, found, n + 1, code, p, fates)
    ensures CentsOver(before, found[..n + 1], code, p, fates, RecordThrows) ==
            CentsOver(before, found[..n], code, p, fates, RecordThrows)
            + if fates(found[n]) == RecordThrows then CentsFor(before[found[n]], code, p) else 0
  {
    assert found[..n + 1][..n] == found[..n];
  }

  // The first n of the users found have been dealt with, no other user has.
  ghost predicate Adjusting(before: seq<User>, now: seq<User>, found: seq<nat>, n: nat, code: Option<string>, p: int,
                            up: bool, fates: nat -> Fate) {
    && |now| == |before| && n <= |found| && p >= 0
    && forall i :: 0 <= i < |now| ==>
         now[i] == if i in found[..n] then AfterAdjustment(before[i], code, p, up, fates(i)) else before[i]
  }

  lemma AdjustingNext(before: seq<User>, now: seq<User>, found: seq<nat>, n: nat, code: Option<string>, p: int,
                      up: bool, fates: nat -> Fate)
    requires Adjusting(before, now, found, n, code, p, up, fates) && n < |found|
    requires found == Where(before, InDebt(code))
    ensures var id := found[n];
            && id < |now| && now[id] == before[id] && InDebt(code)(before[id])
            && Adjusting(before, now[id := AfterAdjustment(before[id], code, p, up, fates(id))],
                         found, n + 1, code, p, up, fates)
  {
    WhereNext(before, InDebt(code), n);
    TakeOneMore(found, n);
  }

  lemma AllAdjusted(before: seq<User>, now: seq<User>, found: seq<nat>, code: Option<string>, p: int, up: bool,
                    fates: nat -> Fate)
    requires found == Where(before, InDebt(code)) && Adjusting(before, now, found, |found|, code, p, up, fates)
    ensures forall i :: 0 <= i < |now| ==> now[i] == AfterAdjustment(before[i], code, p, up, fates(i))
  {
    WhereMembers(before, InDebt(code));
    assert found[..|found|] == found;
  }
}
