// Many orders and many wallets: the product of the per-order machines, and one
// poll of one order run step by step against it.

module OrderWorld {
  import opened OrderModel
  import opened FulfillmentMachine

  type OrderId = nat
  type UserId = nat

  // The database operations of a poll that can throw.
  datatype Fault = AtSwap | AtFlag | AtSession | AtMoney | AtUndo | AtLastUndo

  // What a poll hears about one order, which of its operations throw, and
  // whether the customer is billed by quantity when it is refunded.
  datatype Answer = Answer(ps: ProviderStatus, remains: nat, faults: set<Fault>, quantityBilled: bool)

  // Every order's documents and handlers, whose wallet it is paid from, and the
  // shared wallets.
  datatype World = World(orders: map<OrderId, Sys>, owner: map<OrderId, UserId>, wallets: map<UserId, int>)

  predicate WellFormed(w: World) {
    && w.orders.Keys <= w.owner.Keys
    && forall id :: id in w.orders ==> w.owner[id] in w.wallets
  }

  // A step of one order, with its effect on the shared wallet.
  function WorldNext(w: World, id: OrderId, s: Sys): (n: World)
    requires WellFormed(w) && id in w.orders
    ensures WellFormed(n)
  {
    var u := w.owner[id];
    w.(orders := w.orders[id := s],
       wallets := w.wallets[u := w.wallets[u] + s.balance - w.orders[id].balance])
  }

  // -------------------------------------------------------------------------
  // One poll of one order
  // -------------------------------------------------------------------------

  // How the poll's handler resolves its next step.
  function PollChoice(pc: Pc, a: Answer): Choice {
    match pc
    case PollCheck(_) => Report(a.ps, a.remains)
    case ApplyStatus(_, _, _) => if AtSwap in a.faults then Throw else Ok
    case ShareTxn(_, _) => if AtMoney in a.faults then Throw else Commit(a.quantityBilled)
    case RefundSwap(_) => if AtFlag in a.faults then Throw else Ok
    case RefundSession(_) => if AtSession in a.faults then Throw else Ok
    case RefundCredit(_) => if AtMoney in a.faults then Throw else Commit(a.quantityBilled)
    case RefundUndo(_, again) => if (if again then AtUndo else AtLastUndo) in a.faults then Throw else Ok
    case _ => Ok
  }

  // The h-th handler is this poll; its first tick reads the order.
  function Tick(s: Sys, h: nat, a: Answer): Sys {
    if h == |s.hs| then Next(s, h, SpawnStatusPoll)
    else if h < |s.hs| then Next(s, h, PollChoice(s.hs[h], a))
    else s
  }

  function Iterate<T>(f: T -> T, x: T, n: nat): T {
    if n == 0 then x else f(Iterate(f, x, n - 1))
  }

  function Ticker(h: nat, a: Answer): Sys -> Sys { (s: Sys) => Tick(s, h, a) }

  function Ticks(s: Sys, h: nat, a: Answer, n: nat): Sys { Iterate(Ticker(h, a), s, n) }

  lemma OneMoreTick(s: Sys, h: nat, a: Answer, n: nat)
    ensures Ticks(s, h, a, 0) == s
    ensures Ticks(s, h, a, n + 1) == Tick(Ticks(s, h, a, n), h, a)
  {}

  datatype Stage =
    | ReadOrder | HearStatus | SwapStatus | RaiseFlag | OpenSession | CreditWallet | ClearFlag | ClearFlagAgain

  // The operations of the longest poll: a refund that finds nothing to pay, and
  // whose first undo throws.
  const POLL_STAGES: seq<Stage> :=
    [ReadOrder, HearStatus, SwapStatus, RaiseFlag, OpenSession, CreditWallet, ClearFlag, ClearFlagAgain]

  // A poll run alone from start to finish.
  function Settle(s: Sys, a: Answer): Sys { Ticks(s, |s.hs|, a, |POLL_STAGES|) }

  function Rank(pc: Pc): nat {
    match pc
    case PollCheck(_) => 7
    case ApplyStatus(_, _, _) => 6
    case RefundSwap(_) => 5
    case ShareTxn(_, _) => 5
    case RefundSession(_) => 4
    case RefundCredit(_) => 3
    case RefundUndo(_, again) => if again then 2 else 1
    case _ => 0
  }

  predicate PollPc(pc: Pc) { Rank(pc) > 0 || pc.Done? }

  lemma TickDescends(s: Sys, h: nat, a: Answer)
    requires h < |s.hs| && PollPc(s.hs[h])
    ensures var n := Tick(s, h, a);
            |n.hs| == |s.hs| && PollPc(n.hs[h])
            && (if s.hs[h].Done? then n == s else Rank(n.hs[h]) < Rank(s.hs[h]))
  {
    var c := PollChoice(s.hs[h], a);
    if InRefund(s.hs[h]) { RefundDescends(s, h, c); } else { PollDescends(s, h, c); }
  }

  lemma RefundDescends(s: Sys, h: nat, c: Choice)
    requires h < |s.hs| && InRefund(s.hs[h])
    requires c.Throw? || (if s.hs[h].ShareTxn? || s.hs[h].RefundCredit? then c.Commit? else c.Ok?)
    ensures var n := AdvanceRefund(s, h, c);
            |n.hs| == |s.hs| && PollPc(n.hs[h]) && Rank(n.hs[h]) < Rank(s.hs[h])
  {}

  lemma PollDescends(s: Sys, h: nat, c: Choice)
    requires h < |s.hs| && (s.hs[h].PollCheck? || s.hs[h].ApplyStatus? || s.hs[h].Done?)
    requires (s.hs[h].PollCheck? ==> c.Report?) && (s.hs[h].ApplyStatus? ==> c.Ok? || c.Throw?)
    ensures var n := AdvancePoll(s, h, c);
            |n.hs| == |s.hs| && PollPc(n.hs[h])
            && (if s.hs[h].Done? then n == s else Rank(n.hs[h]) < Rank(s.hs[h]))
  {}

  lemma FirstTick(s: Sys, h: nat, a: Answer)
    requires h == |s.hs|
    ensures |Tick(s, h, a).hs| == h + 1 && (Tick(s, h, a).hs[h].PollCheck? || Tick(s, h, a).hs[h].Done?)
  {}

  lemma {:induction false} TicksDescend(s: Sys, h: nat, a: Answer, n: nat)
    requires h == |s.hs| && n > 0
    ensures var t := Ticks(s, h, a, n);
            |t.hs| == h + 1 && PollPc(t.hs[h]) && (t.hs[h].Done? || Rank(t.hs[h]) + n <= 8)
  {
    OneMoreTick(s, h, a, n - 1);
    if n == 1 {
      FirstTick(s, h, a);
    } else {
      TicksDescend(s, h, a, n - 1);
      TickDescends(Ticks(s, h, a, n - 1), h, a);
    }
  }

  lemma DoneIsFixed(t: Sys, h: nat, a: Answer)
    requires h < |t.hs| && t.hs[h].Done?
    ensures Tick(t, h, a) == t
  {}

  lemma {:induction false} FixedPointStays<T>(f: T -> T, x: T, k: nat, n: nat)
    requires k <= n && f(Iterate(f, x, k)) == Iterate(f, x, k)
    ensures Iterate(f, x, n) == Iterate(f, x, k)
  {
    if n > k { FixedPointStays(f, x, k, n - 1); }
  }

  // A finished poll takes no more steps, so running it longer changes nothing.
  lemma SettleIsFinal(s: Sys, a: Answer, n: nat)
    requires n >= |POLL_STAGES|
    ensures Ticks(s, |s.hs|, a, n) == Settle(s, a)
    ensures |Settle(s, a).hs| == |s.hs| + 1 && Settle(s, a).hs[|s.hs|].Done?
  {
    var k := |POLL_STAGES|;
    TicksDescend(s, |s.hs|, a, k);
    var t := Ticks(s, |s.hs|, a, k);
    DoneIsFixed(t, |s.hs|, a);
    FixedPointStays(Ticker(|s.hs|, a), s, k, n);
  }

  // -------------------------------------------------------------------------
  // Many polls at once
  // -------------------------------------------------------------------------

  ghost predicate Pollable(w: World, answers: map<OrderId, Answer>, ids: seq<OrderId>) {
    WellFormed(w) && forall i :: 0 <= i < |ids| ==> ids[i] in w.orders && ids[i] in answers
  }

  predicate Distinct(ids: seq<OrderId>) {
    forall i, j :: 0 <= i < j < |ids| ==> ids[i] != ids[j]
  }

  function Occurrences(schedule: seq<OrderId>, id: OrderId): nat {
    if schedule == [] then 0
    else Occurrences(schedule[..|schedule| - 1], id) + if schedule[|schedule| - 1] == id then 1 else 0
  }

  // Each entry of the schedule is one database operation or provider call of
  // that order's poll: what workers polling different orders interleave.
  ghost function RunPolls(w: World, answers: map<OrderId, Answer>, schedule: seq<OrderId>): (n: World)
    requires Pollable(w, answers, schedule)
    ensures WellFormed(n) && n.orders.Keys == w.orders.Keys && n.owner == w.owner
    ensures n.wallets.Keys == w.wallets.Keys
  {
    if schedule == [] then w
    else
      var init, id := schedule[..|schedule| - 1], schedule[|schedule| - 1];
      var before := RunPolls(w, answers, init);
      assert id in w.orders;
      WorldNext(before, id, Tick(before.orders[id], |w.orders[id].hs|, answers[id]))
  }

  // The plain loop: one order after the other, each polled to completion.
  ghost function PollEach(w: World, answers: map<OrderId, Answer>, ids: seq<OrderId>): (n: World)
    requires Pollable(w, answers, ids)
    ensures WellFormed(n) && n.orders.Keys == w.orders.Keys && n.owner == w.owner
    ensures n.wallets.Keys == w.wallets.Keys
  {
    if ids == [] then w
    else
      var init, id := ids[..|ids| - 1], ids[|ids| - 1];
      var before := PollEach(w, answers, init);
      assert id in w.orders;
      WorldNext(before, id, Settle(before.orders[id], answers[id]))
  }

  // Orders do not disturb each other: an order's state depends only on how many
  // of its own steps have run.
  lemma {:induction false} PollsAreLocal(w: World, answers: map<OrderId, Answer>, schedule: seq<OrderId>, id: OrderId)
    requires Pollable(w, answers, schedule) && id in w.orders
    ensures RunPolls(w, answers, schedule).orders[id] ==
            if id in answers
            then Ticks(w.orders[id], |w.orders[id].hs|, answers[id], Occurrences(schedule, id))
            else w.orders[id]
  {
    if schedule != [] {
      var init, last := schedule[..|schedule| - 1], schedule[|schedule| - 1];
      PollsAreLocal(w, answers, init, id);
      assert last in answers;
      if last == id { OneMoreTick(w.orders[id], |w.orders[id].hs|, answers[id], Occurrences(init, id)); }
    }
  }

  lemma {:induction false} LoopIsLocal(w: World, answers: map<OrderId, Answer>, ids: seq<OrderId>, id: OrderId)
    requires Pollable(w, answers, ids) && Distinct(ids) && id in w.orders
    ensures PollEach(w, answers, ids).orders[id] ==
            if id in ids then Settle(w.orders[id], answers[id]) else w.orders[id]
  {
    if ids != [] {
      var init, last := ids[..|ids| - 1], ids[|ids| - 1];
      LoopIsLocal(w, answers, init, id);
      LastIsNew(ids);
      if id == last { assert PollEach(w, answers, init).orders[id] == w.orders[id]; }
    }
  }

  lemma LastIsNew(ids: seq<OrderId>)
    requires ids != [] && Distinct(ids)
    ensures var init, last := ids[..|ids| - 1], ids[|ids| - 1];
            && Distinct(init) && last !in init
            && forall id :: id in ids <==> id in init || id == last
  {
    assert ids == ids[..|ids| - 1] + [ids[|ids| - 1]];
  }

  // -------------------------------------------------------------------------
  // The shared wallets
  // -------------------------------------------------------------------------

  // What the orders in ids have paid into wallet u between two worlds.
  function PaidInto(w: World, n: World, ids: seq<OrderId>, u: UserId): int
    requires forall i :: 0 <= i < |ids| ==> ids[i] in w.orders && ids[i] in n.orders && ids[i] in w.owner
  {
    if ids == [] then 0
    else
      var init, id := ids[..|ids| - 1], ids[|ids| - 1];
      assert id in w.orders && id in n.orders && id in w.owner;
      assert forall i :: 0 <= i < |init| ==> init[i] == ids[i];
      PaidInto(w, n, init, u)
      + if w.owner[id] == u then n.orders[id].balance - w.orders[id].balance else 0
  }

  lemma {:induction false} PaidAfter(w: World, a: World, b: World, ids: seq<OrderId>, id: OrderId, u: UserId)
    requires forall i :: 0 <= i < |ids| ==> ids[i] in w.orders && ids[i] in w.owner
    requires w.orders.Keys == a.orders.Keys == b.orders.Keys && Distinct(ids) && id in w.orders && id in w.owner
    requires forall k :: k in w.orders && k != id ==> b.orders[k] == a.orders[k]
    ensures PaidInto(w, b, ids, u) ==
            PaidInto(w, a, ids, u) +
            if id in ids && w.owner[id] == u then b.orders[id].balance - a.orders[id].balance else 0
  {
    if ids != [] {
      var init, last := ids[..|ids| - 1], ids[|ids| - 1];
      assert ids == init + [last];
      assert last in w.orders && last in w.owner;
      PaidAfter(w, a, b, init, id, u);
      assert id == last ==> id !in init;
    }
  }

  lemma {:induction false} NothingPaid(w: World, ids: seq<OrderId>, u: UserId)
    requires forall i :: 0 <= i < |ids| ==> ids[i] in w.orders && ids[i] in w.owner
    ensures PaidInto(w, w, ids, u) == 0
  {
    if ids != [] { NothingPaid(w, ids[..|ids| - 1], u); }
  }

  lemma {:induction false} PaidDependsOnOrders(w: World, a: World, b: World, ids: seq<OrderId>, u: UserId)
    requires forall i :: 0 <= i < |ids| ==> ids[i] in w.orders && ids[i] in w.owner
    requires w.orders.Keys == a.orders.Keys == b.orders.Keys && a.orders == b.orders
    ensures PaidInto(w, a, ids, u) == PaidInto(w, b, ids, u)
  {
    if ids != [] { PaidDependsOnOrders(w, a, b, ids[..|ids| - 1], u); }
  }

  // Every wallet holds its opening balance plus what its orders were paid back.
  lemma {:induction false} WalletsUnderPolls(w: World, answers: map<OrderId, Answer>, schedule: seq<OrderId>,
                                             ids: seq<OrderId>, u: UserId)
    requires Pollable(w, answers, schedule) && Distinct(ids) && u in w.wallets
    requires forall i :: 0 <= i < |ids| ==> ids[i] in w.orders
    requires forall i :: 0 <= i < |schedule| ==> schedule[i] in ids
    ensures RunPolls(w, answers, schedule).wallets[u] ==
            w.wallets[u] + PaidInto(w, RunPolls(w, answers, schedule), ids, u)
  {
    if schedule == [] {
      NothingPaid(w, ids, u);
    } else {
      var init, id := schedule[..|schedule| - 1], schedule[|schedule| - 1];
      WalletsUnderPolls(w, answers, init, ids, u);
      assert id in ids && id in w.orders;
      PaidAfter(w, RunPolls(w, answers, init), RunPolls(w, answers, schedule), ids, id, u);
    }
  }

  lemma {:induction false} WalletsUnderLoop(w: World, answers: map<OrderId, Answer>, done: seq<OrderId>,
                                            ids: seq<OrderId>, u: UserId)
    requires Pollable(w, answers, done) && Distinct(ids) && u in w.wallets
    requires forall i :: 0 <= i < |ids| ==> ids[i] in w.orders
    requires forall i :: 0 <= i < |done| ==> done[i] in ids
    ensures PollEach(w, answers, done).wallets[u] ==
            w.wallets[u] + PaidInto(w, PollEach(w, answers, done), ids, u)
  {
    if done == [] {
      NothingPaid(w, ids, u);
    } else {
      var init, id := done[..|done| - 1], done[|done| - 1];
      WalletsUnderLoop(w, answers, init, ids, u);
      assert id in ids && id in w.orders;
      PaidAfter(w, PollEach(w, answers, init), PollEach(w, answers, done), ids, id, u);
    }
  }

  // Whatever the workers' interleaving, polling every answered order to the end
  // leaves the orders and the wallets as the plain loop does, in any order.
  lemma InterleavedEqualsLoop(w: World, answers: map<OrderId, Answer>, schedule: seq<OrderId>, ids: seq<OrderId>)
    requires Pollable(w, answers, schedule) && Pollable(w, answers, ids) && Distinct(ids)
    requires forall i :: 0 <= i < |schedule| ==> schedule[i] in ids
    requires forall i :: 0 <= i < |ids| ==> Occurrences(schedule, ids[i]) >= |POLL_STAGES|
    ensures RunPolls(w, answers, schedule) == PollEach(w, answers, ids)
  {
    var a, b := RunPolls(w, answers, schedule), PollEach(w, answers, ids);
    SameOrders(w, answers, schedule, ids);
    assert a.orders == b.orders;
    forall u | u in w.wallets ensures a.wallets[u] == b.wallets[u] { SameWallet(w, answers, schedule, ids, u); }
    assert a.wallets == b.wallets;
  }

  lemma SameWallet(w: World, answers: map<OrderId, Answer>, schedule: seq<OrderId>, ids: seq<OrderId>, u: UserId)
    requires Pollable(w, answers, schedule) && Pollable(w, answers, ids) && Distinct(ids) && u in w.wallets
    requires forall i :: 0 <= i < |schedule| ==> schedule[i] in ids
    requires RunPolls(w, answers, schedule).orders == PollEach(w, answers, ids).orders
    ensures RunPolls(w, answers, schedule).wallets[u] == PollEach(w, answers, ids).wallets[u]
  {
    WalletsUnderPolls(w, answers, schedule, ids, u);
    WalletsUnderLoop(w, answers, ids, ids, u);
    PaidDependsOnOrders(w, RunPolls(w, answers, schedule), PollEach(w, answers, ids), ids, u);
  }

  lemma SameOrders(w: World, answers: map<OrderId, Answer>, schedule: seq<OrderId>, ids: seq<OrderId>)
    requires Pollable(w, answers, schedule) && Pollable(w, answers, ids) && Distinct(ids)
    requires forall i :: 0 <= i < |schedule| ==> schedule[i] in ids
    requires forall i :: 0 <= i < |ids| ==> Occurrences(schedule, ids[i]) >= |POLL_STAGES|
    ensures forall id :: id in w.orders ==>
              RunPolls(w, answers, schedule).orders[id] == PollEach(w, answers, ids).orders[id]
  {
    forall id | id in w.orders
      ensures RunPolls(w, answers, schedule).orders[id] == PollEach(w, answers, ids).orders[id]
    {
      PollsAreLocal(w, answers, schedule, id);
      LoopIsLocal(w, answers, ids, id);
      if id in ids {
        SettleIsFinal(w.orders[id], answers[id], Occurrences(schedule, id));
      } else {
        NeverScheduled(schedule, ids, id);
      }
    }
  }

  lemma {:induction false} NeverScheduled(schedule: seq<OrderId>, ids: seq<OrderId>, id: OrderId)
    requires forall i :: 0 <= i < |schedule| ==> schedule[i] in ids
    requires id !in ids
    ensures Occurrences(schedule, id) == 0
  {
    if schedule != [] {
      NeverScheduled(schedule[..|schedule| - 1], ids, id);
      assert schedule[|schedule| - 1] in ids;
    }
  }

  // In particular the loop itself may visit the orders in any order.
  lemma LoopOrderIsIrrelevant(w: World, answers: map<OrderId, Answer>, ids: seq<OrderId>, others: seq<OrderId>)
    requires Pollable(w, answers, ids) && Pollable(w, answers, others)
    requires Distinct(ids) && Distinct(others)
    requires forall id :: id in ids <==> id in others
    ensures PollEach(w, answers, ids) == PollEach(w, answers, others)
  {
    var a, b := PollEach(w, answers, ids), PollEach(w, answers, others);
    forall id | id in w.orders ensures a.orders[id] == b.orders[id] {
      LoopIsLocal(w, answers, ids, id);
      LoopIsLocal(w, answers, others, id);
    }
    assert a.orders == b.orders;
    forall u | u in w.wallets ensures a.wallets[u] == b.wallets[u] {
      forall i | 0 <= i < |others| ensures others[i] in ids {
        assert others[i] in others;
      }
      WalletsUnderLoop(w, answers, ids, ids, u);
      WalletsUnderLoop(w, answers, others, ids, u);
      PaidDependsOnOrders(w, a, b, ids, u);
    }
    assert a.wallets == b.wallets;
  }
}
