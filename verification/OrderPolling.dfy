// The multi-provider poller: chunking, grouping, the bounded worker pool, and
// one provider's batches.

module OrderPolling {
  import opened Options
  import opened OrderWorld

  // -------------------------------------------------------------------------
  // chunk
  // -------------------------------------------------------------------------

  function Flatten<T>(chunks: seq<seq<T>>): seq<T> {
    if chunks == [] then [] else Flatten(chunks[..|chunks| - 1]) + chunks[|chunks| - 1]
  }

  lemma FlattenAppend<T>(chunks: seq<seq<T>>, c: seq<T>)
    ensures Flatten(chunks + [c]) == Flatten(chunks) + c
  {
    assert (chunks + [c])[..|chunks|] == chunks;
  }

  // Nothing lost, nothing repeated, no chunk empty or over size, and all but
  // the last exactly of that size.
  method Chunk<T>(arr: seq<T>, size: nat) returns (chunks: seq<seq<T>>)
    requires size > 0
    ensures Flatten(chunks) == arr
    ensures forall i :: 0 <= i < |chunks| ==> 0 < |chunks[i]| <= size
    ensures forall i :: 0 <= i < |chunks| - 1 ==> |chunks[i]| == size
  {
    chunks := [];
    var i := 0;
    while i < |arr|
      invariant 0 <= i
      invariant Flatten(chunks) == arr[..if i < |arr| then i else |arr|]
      invariant forall k :: 0 <= k < |chunks| ==> 0 < |chunks[k]| <= size
      invariant forall k :: 0 <= k < |chunks| - 1 ==> |chunks[k]| == size
      invariant i < |arr| && chunks != [] ==> |chunks[|chunks| - 1]| == size
    {
      var end := if i + size < |arr| then i + size else |arr|;
      FlattenAppend(chunks, arr[i..end]);
      assert arr[..end] == arr[..i] + arr[i..end];
      chunks := chunks + [arr[i..end]];
      i := i + size;
    }
    assert arr[..|arr|] == arr;
  }

  // -------------------------------------------------------------------------
  // groupOrdersByProvider
  // -------------------------------------------------------------------------

  function Select(ids: seq<OrderId>, providerOf: map<OrderId, Option<string>>, p: Option<string>): seq<OrderId> {
    if ids == [] then []
    else
      var init, last := ids[..|ids| - 1], ids[|ids| - 1];
      Select(init, providerOf, p) + if last in providerOf && providerOf[last] == p then [last] else []
  }

  lemma {:induction false} SelectMembers(ids: seq<OrderId>, providerOf: map<OrderId, Option<string>>, p: Option<string>)
    ensures forall id :: id in Select(ids, providerOf, p) <==> id in ids && id in providerOf && providerOf[id] == p
    ensures Distinct(ids) ==> Distinct(Select(ids, providerOf, p))
  {
    if ids != [] {
      var init, last := ids[..|ids| - 1], ids[|ids| - 1];
      SelectMembers(init, providerOf, p);
      assert ids == init + [last];
    }
  }

  type Groups = map<Option<string>, seq<OrderId>>

  function AddTo(groups: Groups, key: Option<string>, id: OrderId): Groups {
    groups[key := (if key in groups then groups[key] else []) + [id]]
  }

  function GroupsOf(ids: seq<OrderId>, providerOf: map<OrderId, Option<string>>): Groups
    requires forall i :: 0 <= i < |ids| ==> ids[i] in providerOf
  {
    if ids == [] then map[]
    else AddTo(GroupsOf(ids[..|ids| - 1], providerOf), providerOf[ids[|ids| - 1]], ids[|ids| - 1])
  }

  // Each group holds exactly its provider's orders, in load order; None is the
  // bucket of orders without a provider.
  lemma {:induction false} GroupsPartition(ids: seq<OrderId>, providerOf: map<OrderId, Option<string>>)
    requires forall i :: 0 <= i < |ids| ==> ids[i] in providerOf
    ensures forall k :: (if k in GroupsOf(ids, providerOf) then GroupsOf(ids, providerOf)[k] else []) ==
                        Select(ids, providerOf, k)
    ensures forall k :: k in GroupsOf(ids, providerOf) <==> Select(ids, providerOf, k) != []
  {
    if ids != [] { GroupsPartition(ids[..|ids| - 1], providerOf); }
  }

  method GroupOrdersByProvider(ids: seq<OrderId>, providerOf: map<OrderId, Option<string>>)
    returns (keys: seq<Option<string>>, groups: Groups)
    requires forall i :: 0 <= i < |ids| ==> ids[i] in providerOf
    ensures groups == GroupsOf(ids, providerOf)
    ensures forall i, j :: 0 <= i < j < |keys| ==> keys[i] != keys[j]
    ensures forall k :: k in keys <==> k in groups
  {
    keys, groups := [], map[];
    for n := 0 to |ids|
      invariant groups == GroupsOf(ids[..n], providerOf)
      invariant forall i, j :: 0 <= i < j < |keys| ==> keys[i] != keys[j]
      invariant forall k :: k in keys <==> k in groups
    {
      var id := ids[n];
      assert ids[..n + 1][..n] == ids[..n];
      var key := providerOf[id];
      if key !in groups {
        keys := keys + [key];
        groups := groups[key := []];
      }
      groups := groups[key := groups[key] + [id]];
    }
    assert ids[..|ids|] == ids;
  }

  // -------------------------------------------------------------------------
  // runWithConcurrency
  // -------------------------------------------------------------------------

  datatype Settlement<R> = Fulfilled(value: R) | FailedWith(reason: string)

  datatype Worker = Ready | Busy(task: nat) | Stopped

  function CountBusy(ws: seq<Worker>): nat {
    if ws == [] then 0 else CountBusy(ws[..|ws| - 1]) + if ws[|ws| - 1].Busy? then 1 else 0
  }

  function CountLive(ws: seq<Worker>): nat {
    if ws == [] then 0 else CountLive(ws[..|ws| - 1]) + if ws[|ws| - 1].Stopped? then 0 else 1
  }

  lemma {:induction false} CountsAfter(ws: seq<Worker>, w: nat, x: Worker)
    requires w < |ws|
    ensures CountBusy(ws[w := x]) ==
            CountBusy(ws) - (if ws[w].Busy? then 1 else 0) + (if x.Busy? then 1 else 0)
    ensures CountLive(ws[w := x]) ==
            CountLive(ws) - (if ws[w].Stopped? then 0 else 1) + (if x.Stopped? then 0 else 1)
  {
    var init := ws[..|ws| - 1];
    if w == |ws| - 1 {
      assert ws[w := x][..|ws| - 1] == init;
    } else {
      assert ws[w := x][..|ws| - 1] == init[w := x];
      CountsAfter(init, w, x);
    }
  }

  lemma {:induction false} CountsOf(ws: seq<Worker>)
    ensures CountBusy(ws) <= |ws| && CountLive(ws) <= |ws|
    ensures CountLive(ws) > 0 ==> exists w :: 0 <= w < |ws| && !ws[w].Stopped?
    ensures CountLive(ws) == 0 ==> forall w :: 0 <= w < |ws| ==> ws[w].Stopped?
    ensures (forall w :: 0 <= w < |ws| ==> ws[w].Ready?) ==> CountBusy(ws) == 0
  {
    if ws != [] {
      var init := ws[..|ws| - 1];
      CountsOf(init);
      assert forall w :: 0 <= w < |init| ==> ws[w] == init[w];
    }
  }

  ghost predicate InFlight(ws: seq<Worker>, i: nat) {
    exists w :: 0 <= w < |ws| && ws[w] == Busy(i)
  }

  // Where a pool of workers stands: the next index, the workers, the outcomes.
  datatype Pool<R> = Pool(index: nat, workers: seq<Worker>, results: seq<Option<Settlement<R>>>)

  ghost predicate PoolInv<R>(p: Pool<R>, n: nat, outcome: nat -> Settlement<R>) {
    && p.index <= n && |p.results| == n
    && (forall w :: 0 <= w < |p.workers| && p.workers[w].Busy? ==>
          p.workers[w].task < p.index && p.results[p.workers[w].task] == None)
    && (forall v, w :: 0 <= v < w < |p.workers| && p.workers[v].Busy? && p.workers[w].Busy? ==>
          p.workers[v].task != p.workers[w].task)
    && (forall i :: 0 <= i < p.index ==> p.results[i] == Some(outcome(i)) || InFlight(p.workers, i))
    && (forall i :: p.index <= i < n ==> p.results[i] == None)
    && (forall w :: 0 <= w < |p.workers| && p.workers[w].Stopped? ==> p.index == n)
  }

  lemma Starting<R>(p: Pool<R>, n: nat, outcome: nat -> Settlement<R>, w: nat)
    requires PoolInv(p, n, outcome) && w < |p.workers| && p.workers[w].Ready? && p.index < n
    ensures PoolInv(p.(index := p.index + 1, workers := p.workers[w := Busy(p.index)]), n, outcome)
  {
    var ws := p.workers[w := Busy(p.index)];
    assert ws[w] == Busy(p.index);
    forall i | 0 <= i < p.index && InFlight(p.workers, i) ensures InFlight(ws, i) {
      var v :| 0 <= v < |p.workers| && p.workers[v] == Busy(i);
      assert ws[v] == Busy(i);
    }
  }

  lemma Stopping<R>(p: Pool<R>, n: nat, outcome: nat -> Settlement<R>, w: nat)
    requires PoolInv(p, n, outcome) && w < |p.workers| && p.workers[w].Ready? && p.index == n
    ensures PoolInv(p.(workers := p.workers[w := Stopped]), n, outcome)
  {
    var ws := p.workers[w := Stopped];
    forall i | 0 <= i < p.index && InFlight(p.workers, i) ensures InFlight(ws, i) {
      var v :| 0 <= v < |p.workers| && p.workers[v] == Busy(i);
      assert ws[v] == Busy(i);
    }
  }

  lemma Landing<R>(p: Pool<R>, n: nat, outcome: nat -> Settlement<R>, w: nat)
    requires PoolInv(p, n, outcome) && w < |p.workers| && p.workers[w].Busy?
    ensures p.workers[w].task < n
    ensures PoolInv(p.(workers := p.workers[w := Ready],
                       results := p.results[p.workers[w].task := Some(outcome(p.workers[w].task))]), n, outcome)
  {
    var task := p.workers[w].task;
    var ws := p.workers[w := Ready];
    forall i | 0 <= i < p.index && i != task && InFlight(p.workers, i) ensures InFlight(ws, i) {
      var v :| 0 <= v < |p.workers| && p.workers[v] == Busy(i);
      assert ws[v] == Busy(i);
    }
  }

  function Measure<R>(p: Pool<R>, n: nat): int { 2 * (n - p.index) + CountBusy(p.workers) }

  // One worker moves: takes the next index, finds none left, or settles its task.
  method AdvanceWorker<R>(p: Pool<R>, n: nat, outcome: nat -> Settlement<R>, w: nat) returns (q: Pool<R>)
    requires PoolInv(p, n, outcome) && w < |p.workers| && !p.workers[w].Stopped?
    ensures PoolInv(q, n, outcome) && |q.workers| == |p.workers|
    ensures q.index == p.index || (q.index == p.index + 1 && q.workers[w] == Busy(p.index))
    ensures Measure(q, n) < Measure(p, n)
            || (Measure(q, n) == Measure(p, n) && CountLive(q.workers) < CountLive(p.workers))
  {
    match p.workers[w] {
      case Ready =>
        if p.index < n {
          CountsAfter(p.workers, w, Busy(p.index));
          Starting(p, n, outcome, w);
          q := p.(index := p.index + 1, workers := p.workers[w := Busy(p.index)]);
        } else {
          CountsAfter(p.workers, w, Stopped);
          Stopping(p, n, outcome, w);
          q := p.(workers := p.workers[w := Stopped]);
        }
      case Busy(task) =>
        CountsAfter(p.workers, w, Ready);
        Landing(p, n, outcome, w);
        q := p.(workers := p.workers[w := Ready], results := p.results[task := Some(outcome(task))]);
    }
  }

  // Workers advance in any order.  Every task is started exactly once, in order;
  // its outcome - a rejection like any other - lands at its own index; and no
  // more than limit tasks are ever in flight.  Without a worker nothing runs.
  method RunWithConcurrency<R>(n: nat, limit: int, outcome: nat -> Settlement<R>)
    returns (results: seq<Option<Settlement<R>>>, started: seq<nat>, peak: nat)
    ensures |results| == n
    ensures limit > 0 ==> forall i :: 0 <= i < n ==> results[i] == Some(outcome(i))
    ensures limit > 0 ==> started == seq(n, i => i)
    ensures limit <= 0 ==> started == [] && forall i :: 0 <= i < n ==> results[i] == None
    ensures peak <= if limit > 0 then limit else 0
  {
    started, peak := [], 0;
    var size := if limit <= 0 then 0 else if limit < n then limit else n;
    var pool := Opened<R>(size, n);
    OpenedWorks<R>(size, n, outcome);
    while CountLive(pool.workers) > 0
      invariant Working(pool, size, n, outcome, started, peak)
      decreases Measure(pool, n), CountLive(pool.workers)
    {
      CountsOf(pool.workers);
      var w :| 0 <= w < |pool.workers| && !pool.workers[w].Stopped?;
      pool, started, peak := Work(pool, size, n, outcome, started, peak, w);
    }
    AllLanded(pool, size, n, outcome, started, peak);
    results := pool.results;
  }

  function Opened<R>(size: nat, n: nat): Pool<R> { Pool(0, seq(size, i => Ready), seq(n, i => None)) }

  lemma OpenedWorks<R>(size: nat, n: nat, outcome: nat -> Settlement<R>)
    ensures Working(Opened<R>(size, n), size, n, outcome, [], 0)
  {
    CountsOf(Opened<R>(size, n).workers);
  }

  // Tasks are started in order and once, at most size of them are in flight.
  ghost predicate Working<R>(p: Pool<R>, size: nat, n: nat, outcome: nat -> Settlement<R>, started: seq<nat>,
                                   peak: nat) {
    && |p.workers| == size && PoolInv(p, n, outcome)
    && started == seq(p.index, i => i) && (size == 0 ==> p.index == 0) && peak <= size
  }

  method Work<R>(p: Pool<R>, size: nat, n: nat, outcome: nat -> Settlement<R>, started: seq<nat>, peak: nat,
                       w: nat) returns (q: Pool<R>, started1: seq<nat>, peak1: nat)
    requires Working(p, size, n, outcome, started, peak) && w < size && !p.workers[w].Stopped?
    ensures Working(q, size, n, outcome, started1, peak1)
    ensures Measure(q, n) < Measure(p, n)
            || (Measure(q, n) == Measure(p, n) && CountLive(q.workers) < CountLive(p.workers))
  {
    q := AdvanceWorker(p, n, outcome, w);
    started1 := if q.index > p.index then started + [p.index] else started;
    CountsOf(q.workers);
    peak1 := if CountBusy(q.workers) > peak then CountBusy(q.workers) else peak;
  }

  lemma AllLanded<R>(p: Pool<R>, size: nat, n: nat, outcome: nat -> Settlement<R>, started: seq<nat>, peak: nat)
    requires Working(p, size, n, outcome, started, peak) && CountLive(p.workers) == 0
    ensures size > 0 || n == 0 ==> started == seq(n, i => i) && forall i :: 0 <= i < n ==> p.results[i] == Some(outcome(i))
    ensures size == 0 ==> started == [] && forall i :: 0 <= i < n ==> p.results[i] == None
  {
    CountsOf(p.workers);
    if size > 0 { assert p.workers[0].Stopped?; }
  }
}
