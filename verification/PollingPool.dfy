// The worker pool polling its providers' groups, operation by operation: every
// interleaving of the workers leaves the orders and wallets as the plain loop.

module PollingPool {
  import opened Options
  import opened OrderWorld
  import opened OrderPolling
  import opened ProviderPoll
  import opened PollingRun

  // One await of a task: asking the provider about a batch, or one operation of
  // one order's poll.
  datatype Op = Ask(batch: seq<OrderId>) | OneTick(id: OrderId)

  // One provider's task: its adapter, and its orders in batches.
  datatype Task = Task(adapter: Adapter, batches: seq<seq<OrderId>>)

  // -------------------------------------------------------------------------
  // What a task does
  // -------------------------------------------------------------------------

  // The orders of a batch that the provider's answer lists.
  ghost function ListedOf(batch: seq<OrderId>, key: OrderId -> string, items: seq<(string, Answer)>): seq<OrderId> {
    if batch == [] then []
    else
      var last := batch[|batch| - 1];
      ListedOf(batch[..|batch| - 1], key, items) + if Lists(items, key(last)) then [last] else []
  }

  // Their polls, one order after the other.
  function PollsOf(ids: seq<OrderId>): seq<Op> {
    if ids == [] then []
    else PollsOf(ids[..|ids| - 1]) + seq(|POLL_STAGES|, _ => OneTick(ids[|ids| - 1]))
  }

  // Ask about a batch, then poll what the answer lists; a batch whose call
  // throws is left alone.
  ghost function BatchOps(batch: seq<OrderId>, adapter: Adapter, key: OrderId -> string): seq<Op> {
    [Ask(batch)] + match adapter(KeysOf(batch, key))
                   case None => []
                   case Some(items) => PollsOf(ListedOf(batch, key, items))
  }

  // The batches in turn.
  ghost function Program(task: Task, key: OrderId -> string): seq<Op> { Flatten(OpsOf(task, key)) }

  ghost function OpsOf(task: Task, key: OrderId -> string): (ops: seq<seq<Op>>)
    ensures |ops| == |task.batches|
    ensures forall b :: 0 <= b < |ops| ==> ops[b] == BatchOps(task.batches[b], task.adapter, key)
  {
    seq(|task.batches|, b requires 0 <= b < |task.batches| => BatchOps(task.batches[b], task.adapter, key))
  }

  ghost function Programs(tasks: seq<Task>, key: OrderId -> string): (programs: seq<seq<Op>>)
    ensures |programs| == |tasks| && forall t :: 0 <= t < |tasks| ==> programs[t] == Program(tasks[t], key)
  {
    seq(|tasks|, t requires 0 <= t < |tasks| => Program(tasks[t], key))
  }

  // -------------------------------------------------------------------------
  // The pool
  // -------------------------------------------------------------------------

  // The next task to take, the workers, and how far each task has come.
  datatype Exec = Exec(world: World, index: nat, workers: seq<Worker>, at: seq<nat>)

  function Started(w: World, size: nat, n: nat): Exec { Exec(w, 0, seq(size, _ => Ready), seq(n, _ => 0)) }

  // Worker w has an operation to perform.
  predicate Acts(e: Exec, programs: seq<seq<Op>>, w: nat) {
    && w < |e.workers| && e.workers[w].Busy? && e.workers[w].task < |programs| && e.workers[w].task < |e.at|
    && e.at[e.workers[w].task] < |programs[e.workers[w].task]|
  }

  function OpOf(e: Exec, programs: seq<seq<Op>>, w: nat): Op
    requires Acts(e, programs, w)
  {
    programs[e.workers[w].task][e.at[e.workers[w].task]]
  }

  function Perform(w: World, w0: World, answers: map<OrderId, Answer>, op: Op): World {
    if op.OneTick? && WellFormed(w) && op.id in w.orders && op.id in w0.orders && op.id in answers
    then WorldNext(w, op.id, Tick(w.orders[op.id], |w0.orders[op.id].hs|, answers[op.id]))
    else w
  }

  // A ready worker takes the next task or stops; a busy one performs its task's
  // next operation, or is ready again when there is none.
  function Move(e: Exec, programs: seq<seq<Op>>, w0: World, answers: map<OrderId, Answer>, w: nat): Exec {
    if w >= |e.workers| || e.workers[w].Stopped? then e
    else if Acts(e, programs, w) then
      var t := e.workers[w].task;
      e.(world := Perform(e.world, w0, answers, OpOf(e, programs, w)), at := e.at[t := e.at[t] + 1])
    else if e.workers[w].Busy? then e.(workers := e.workers[w := Ready])
    else if e.index < |programs| then e.(index := e.index + 1, workers := e.workers[w := Busy(e.index)])
    else e.(workers := e.workers[w := Stopped])
  }

  // The workers advance in the order of the schedule.
  function Execution(start: Exec, programs: seq<seq<Op>>, w0: World, answers: map<OrderId, Answer>,
                     schedule: seq<nat>): Exec {
    if schedule == [] then start
    else Move(Execution(start, programs, w0, answers, schedule[..|schedule| - 1]), programs, w0, answers,
              schedule[|schedule| - 1])
  }

  // The order whose poll the move of worker w advances, if it does.
  function Entry(e: Exec, programs: seq<seq<Op>>, w: nat): seq<OrderId> {
    if Acts(e, programs, w) && OpOf(e, programs, w).OneTick? then [OpOf(e, programs, w).id] else []
  }

  function Log(start: Exec, programs: seq<seq<Op>>, w0: World, answers: map<OrderId, Answer>,
               schedule: seq<nat>): seq<OrderId> {
    if schedule == [] then []
    else
      var init, w := schedule[..|schedule| - 1], schedule[|schedule| - 1];
      Log(start, programs, w0, answers, init) + Entry(Execution(start, programs, w0, answers, init), programs, w)
  }

  // -------------------------------------------------------------------------
  // Progress
  // -------------------------------------------------------------------------

  ghost predicate PoolOk(e: Exec, programs: seq<seq<Op>>) {
    && |e.at| == |programs| && e.index <= |programs|
    && (forall t :: 0 <= t < |programs| ==> e.at[t] <= |programs[t]|)
    && (forall w :: 0 <= w < |e.workers| && e.workers[w].Busy? ==> e.workers[w].task < e.index)
    && (forall w :: 0 <= w < |e.workers| && e.workers[w].Stopped? ==> e.index == |programs|)
    && (forall t :: 0 <= t < e.index ==> e.at[t] == |programs[t]| || OrderPolling.InFlight(e.workers, t))
  }

  lemma StillInFlight(ws: seq<Worker>, w: nat, x: Worker, t: nat)
    requires w < |ws| && OrderPolling.InFlight(ws, t) && (ws[w] != Busy(t) || x == Busy(t))
    ensures OrderPolling.InFlight(ws[w := x], t)
  {
    var v :| 0 <= v < |ws| && ws[v] == Busy(t);
    assert ws[w := x][v] == Busy(t);
  }

  lemma MoveOk(e: Exec, programs: seq<seq<Op>>, w0: World, answers: map<OrderId, Answer>, w: nat)
    requires PoolOk(e, programs)
    ensures PoolOk(Move(e, programs, w0, answers, w), programs)
    ensures |Move(e, programs, w0, answers, w).workers| == |e.workers|
  {
    var n := Move(e, programs, w0, answers, w);
    if w < |e.workers| && !e.workers[w].Stopped? && !Acts(e, programs, w) {
      forall t | 0 <= t < n.index ensures n.at[t] == |programs[t]| || OrderPolling.InFlight(n.workers, t) {
        if t == e.index {
          assert n.workers[w] == Busy(t);
        } else if e.at[t] < |programs[t]| {
          StillInFlight(e.workers, w, n.workers[w], t);
        }
      }
    }
  }

  lemma {:induction false} AlwaysOk(start: Exec, programs: seq<seq<Op>>, w0: World, answers: map<OrderId, Answer>,
                                    schedule: seq<nat>)
    requires PoolOk(start, programs)
    ensures var e := Execution(start, programs, w0, answers, schedule);
            PoolOk(e, programs) && |e.workers| == |start.workers|
  {
    if schedule != [] {
      var init := schedule[..|schedule| - 1];
      AlwaysOk(start, programs, w0, answers, init);
      MoveOk(Execution(start, programs, w0, answers, init), programs, w0, answers, schedule[|schedule| - 1]);
    }
  }

  // -------------------------------------------------------------------------
  // The world is that of the logged operations
  // -------------------------------------------------------------------------

  ghost predicate Known(programs: seq<seq<Op>>, w: World, answers: map<OrderId, Answer>) {
    forall t, k :: 0 <= t < |programs| && 0 <= k < |programs[t]| && programs[t][k].OneTick? ==>
      programs[t][k].id in w.orders && programs[t][k].id in answers
  }

  lemma WorldMoves(e: Exec, programs: seq<seq<Op>>, w0: World, answers: map<OrderId, Answer>, w: nat,
                   log: seq<OrderId>)
    requires Known(programs, w0, answers) && Pollable(w0, answers, log) && e.world == RunPolls(w0, answers, log)
    ensures Pollable(w0, answers, log + Entry(e, programs, w))
    ensures Move(e, programs, w0, answers, w).world == RunPolls(w0, answers, log + Entry(e, programs, w))
  {
    if Acts(e, programs, w) && OpOf(e, programs, w).OneTick? {
      LogOneMore(w0, answers, log, OpOf(e, programs, w).id);
    } else {
      assert log + [] == log;
    }
  }

  lemma {:induction false} WorldIsLogged(start: Exec, programs: seq<seq<Op>>, w0: World,
                                         answers: map<OrderId, Answer>, schedule: seq<nat>)
    requires WellFormed(w0) && start.world == w0 && Known(programs, w0, answers)
    ensures var log := Log(start, programs, w0, answers, schedule);
            && Pollable(w0, answers, log)
            && Execution(start, programs, w0, answers, schedule).world == RunPolls(w0, answers, log)
  {
    if schedule != [] {
      var init, w := schedule[..|schedule| - 1], schedule[|schedule| - 1];
      WorldIsLogged(start, programs, w0, answers, init);
      WorldMoves(Execution(start, programs, w0, answers, init), programs, w0, answers, w,
                 Log(start, programs, w0, answers, init));
    }
  }

  lemma LogOneMore(w0: World, answers: map<OrderId, Answer>, log: seq<OrderId>, id: OrderId)
    requires Pollable(w0, answers, log) && id in w0.orders && id in answers
    ensures Pollable(w0, answers, log + [id])
    ensures RunPolls(w0, answers, log + [id]) == Perform(RunPolls(w0, answers, log), w0, answers, OneTick(id))
  {
    assert (log + [id])[..|log|] == log;
  }

  // -------------------------------------------------------------------------
  // How often each order is advanced
  // -------------------------------------------------------------------------

  function TicksIn(ops: seq<Op>, id: OrderId): nat {
    if ops == [] then 0
    else TicksIn(ops[..|ops| - 1], id) + if ops[|ops| - 1] == OneTick(id) then 1 else 0
  }

  // Over the first n tasks, each as far as it has come.
  function TicksDone(programs: seq<seq<Op>>, at: seq<nat>, id: OrderId, n: nat): nat
    requires n <= |programs| == |at|
    requires forall t :: 0 <= t < |programs| ==> at[t] <= |programs[t]|
  {
    if n == 0 then 0 else TicksDone(programs, at, id, n - 1) + TicksIn(programs[n - 1][..at[n - 1]], id)
  }

  lemma {:induction false} OneMoreDone(programs: seq<seq<Op>>, at: seq<nat>, id: OrderId, n: nat, t: nat)
    requires n <= |programs| == |at| && t < |programs|
    requires forall k :: 0 <= k < |programs| ==> at[k] <= |programs[k]|
    requires at[t] < |programs[t]|
    ensures TicksDone(programs, at[t := at[t] + 1], id, n) ==
            TicksDone(programs, at, id, n) + if t < n && programs[t][at[t]] == OneTick(id) then 1 else 0
  {
    if n > 0 {
      OneMoreDone(programs, at, id, n - 1, t);
      if t == n - 1 { assert programs[t][..at[t] + 1][..at[t]] == programs[t][..at[t]]; }
    }
  }

  lemma {:induction false} NothingDone(programs: seq<seq<Op>>, at: seq<nat>, id: OrderId, n: nat)
    requires n <= |programs| == |at| && forall t :: 0 <= t < |at| ==> at[t] == 0
    ensures TicksDone(programs, at, id, n) == 0
  {
    if n > 0 { NothingDone(programs, at, id, n - 1); }
  }

  lemma OccurrencesAfter(log: seq<OrderId>, last: OrderId, id: OrderId)
    ensures Occurrences(log + [last], id) == Occurrences(log, id) + if last == id then 1 else 0
  {
    assert (log + [last])[..|log|] == log;
  }

  lemma CountsMove(e: Exec, programs: seq<seq<Op>>, w0: World, answers: map<OrderId, Answer>, w: nat, id: OrderId,
                   log: seq<OrderId>)
    requires PoolOk(e, programs) && Occurrences(log, id) == TicksDone(programs, e.at, id, |programs|)
    ensures var n := Move(e, programs, w0, answers, w);
            && PoolOk(n, programs)
            && Occurrences(log + Entry(e, programs, w), id) == TicksDone(programs, n.at, id, |programs|)
  {
    MoveOk(e, programs, w0, answers, w);
    assert log + [] == log;
    if Acts(e, programs, w) {
      OneMoreDone(programs, e.at, id, |programs|, e.workers[w].task);
      if OpOf(e, programs, w).OneTick? { OccurrencesAfter(log, OpOf(e, programs, w).id, id); }
    }
  }

  lemma {:induction false} LogCounts(start: Exec, programs: seq<seq<Op>>, w0: World, answers: map<OrderId, Answer>,
                                     schedule: seq<nat>, id: OrderId)
    requires PoolOk(start, programs) && TicksDone(programs, start.at, id, |programs|) == 0
    ensures var e := Execution(start, programs, w0, answers, schedule);
            && PoolOk(e, programs)
            && Occurrences(Log(start, programs, w0, answers, schedule), id) == TicksDone(programs, e.at, id, |programs|)
  {
    if schedule != [] {
      var init, w := schedule[..|schedule| - 1], schedule[|schedule| - 1];
      LogCounts(start, programs, w0, answers, init, id);
      CountsMove(Execution(start, programs, w0, answers, init), programs, w0, answers, w, id,
                 Log(start, programs, w0, answers, init));
    }
  }

  // -------------------------------------------------------------------------
  // A finished pool has done everything
  // -------------------------------------------------------------------------

  lemma AllDone(e: Exec, programs: seq<seq<Op>>)
    requires PoolOk(e, programs) && |e.workers| > 0
    requires forall w :: 0 <= w < |e.workers| ==> e.workers[w].Stopped?
    ensures forall t :: 0 <= t < |programs| ==> e.at[t] == |programs[t]|
  {
    assert e.workers[0].Stopped?;
  }

  lemma {:induction false} TicksConcat(a: seq<Op>, b: seq<Op>, id: OrderId)
    ensures TicksIn(a + b, id) == TicksIn(a, id) + TicksIn(b, id)
    decreases |b|
  {
    if b == [] {
      assert a + b == a;
    } else {
      TicksConcat(a, b[..|b| - 1], id);
      assert (a + b)[..|a + b| - 1] == a + b[..|b| - 1];
    }
  }

  lemma {:induction false} OccurrencesConcat(a: seq<OrderId>, b: seq<OrderId>, id: OrderId)
    ensures Occurrences(a + b, id) == Occurrences(a, id) + Occurrences(b, id)
    decreases |b|
  {
    if b == [] {
      assert a + b == a;
    } else {
      OccurrencesConcat(a, b[..|b| - 1], id);
      assert (a + b)[..|a + b| - 1] == a + b[..|b| - 1];
    }
  }

  lemma {:induction false} TicksRepeated(n: nat, last: OrderId, id: OrderId)
    ensures TicksIn(seq(n, _ => OneTick(last)), id) == if last == id then n else 0
  {
    if n > 0 {
      TicksRepeated(n - 1, last, id);
      assert seq(n, _ => OneTick(last))[..n - 1] == seq(n - 1, _ => OneTick(last));
    }
  }

  // Eight operations for each order.
  lemma {:induction false} PollsTick(ids: seq<OrderId>, id: OrderId)
    ensures TicksIn(PollsOf(ids), id) == 8 * Occurrences(ids, id)
  {
    if ids != [] {
      var init, last := ids[..|ids| - 1], ids[|ids| - 1];
      PollsTick(init, id);
      TicksRepeated(8, last, id);
      TicksConcat(PollsOf(init), seq(8, _ => OneTick(last)), id);
    }
  }

  // Lists of operations that tick as often as lists of orders occur do so
  // together.
  lemma {:induction false} TicksFlatten(ops: seq<seq<Op>>, heard: seq<seq<OrderId>>, id: OrderId)
    requires |ops| == |heard|
    requires forall b :: 0 <= b < |ops| ==> TicksIn(ops[b], id) == 8 * Occurrences(heard[b], id)
    ensures TicksIn(Flatten(ops), id) == 8 * Occurrences(Flatten(heard), id)
  {
    if ops != [] {
      var n := |ops| - 1;
      TicksFlatten(ops[..n], heard[..n], id);
      TicksConcat(Flatten(ops[..n]), ops[n], id);
      OccurrencesConcat(Flatten(heard[..n]), heard[n], id);
    }
  }

  // What the provider lists is what it answers.
  lemma {:induction false} ListedAreAnswered(batch: seq<OrderId>, key: OrderId -> string, adapter: Adapter,
                                             truth: map<string, Answer>, all: seq<OrderId>, w: World,
                                             answers: map<OrderId, Answer>)
    requires Truthful(adapter, truth) && adapter(KeysOf(all, key)).Some? && batch <= all
    requires forall i :: 0 <= i < |all| ==> AnswersFor(all[i], key, truth, w, answers)
    ensures ListedOf(batch, key, adapter(KeysOf(all, key)).value) == Answered(batch, answers)
  {
    if batch != [] {
      var init, last := batch[..|batch| - 1], batch[|batch| - 1];
      ListedAreAnswered(init, key, adapter, truth, all, w, answers);
      assert AnswersFor(all[|batch| - 1], key, truth, w, answers) && last == all[|batch| - 1];
      assert KeysOf(all, key)[|batch| - 1] == key(last);
      assert key(last) in KeysOf(all, key);
    }
  }

  ghost predicate TaskOk(task: Task, key: OrderId -> string, truth: map<string, Answer>, w: World,
                         answers: map<OrderId, Answer>) {
    && (task.batches != [] ==> Truthful(task.adapter, truth))
    && forall b :: 0 <= b < |task.batches| ==> BatchOk(task.batches[b], key, truth, w, answers)
  }

  ghost predicate BatchOk(batch: seq<OrderId>, key: OrderId -> string, truth: map<string, Answer>, w: World,
                          answers: map<OrderId, Answer>) {
    forall i :: 0 <= i < |batch| ==> AnswersFor(batch[i], key, truth, w, answers)
  }

  // The orders of a batch, and of a task, that are heard of.
  ghost function HeardIn(batch: seq<OrderId>, adapter: Adapter, key: OrderId -> string,
                         answers: map<OrderId, Answer>): seq<OrderId> {
    if adapter(KeysOf(batch, key)).Some? then Answered(batch, answers) else []
  }

  ghost function HeardBatches(task: Task, key: OrderId -> string, answers: map<OrderId, Answer>): (heard: seq<seq<OrderId>>)
    ensures |heard| == |task.batches|
    ensures forall b :: 0 <= b < |heard| ==> heard[b] == HeardIn(task.batches[b], task.adapter, key, answers)
  {
    seq(|task.batches|, b requires 0 <= b < |task.batches| => HeardIn(task.batches[b], task.adapter, key, answers))
  }

  ghost function TaskHeard(task: Task, key: OrderId -> string, answers: map<OrderId, Answer>): seq<OrderId> {
    Flatten(HeardBatches(task, key, answers))
  }

  lemma {:induction false} HeardIsFlat(batches: seq<seq<OrderId>>, adapter: Adapter, key: OrderId -> string,
                                       answers: map<OrderId, Answer>, heard: seq<seq<OrderId>>)
    requires |heard| == |batches|
    requires forall b :: 0 <= b < |heard| ==> heard[b] == HeardIn(batches[b], adapter, key, answers)
    ensures Flatten(heard) == Heard(batches, key, adapter, answers)
  {
    if heard != [] { HeardIsFlat(batches[..|batches| - 1], adapter, key, answers, heard[..|heard| - 1]); }
  }

  lemma BatchTicks(batch: seq<OrderId>, adapter: Adapter, key: OrderId -> string, truth: map<string, Answer>,
                   w: World, answers: map<OrderId, Answer>, id: OrderId)
    requires Truthful(adapter, truth) && BatchOk(batch, key, truth, w, answers)
    ensures TicksIn(BatchOps(batch, adapter, key), id) == 8 * Occurrences(HeardIn(batch, adapter, key, answers), id)
  {
    var ask: seq<Op> := [Ask(batch)];
    assert ask[..0] == [] && TicksIn(ask, id) == 0;
    if adapter(KeysOf(batch, key)).Some? {
      ListedAreAnswered(batch, key, adapter, truth, batch, w, answers);
      PollsTick(Answered(batch, answers), id);
      TicksConcat(ask, PollsOf(Answered(batch, answers)), id);
    } else {
      assert BatchOps(batch, adapter, key) == ask;
    }
  }

  // A task polls each order it hears of to the end, and no other.
  lemma ProgramPolls(task: Task, key: OrderId -> string, truth: map<string, Answer>, w: World,
                     answers: map<OrderId, Answer>, id: OrderId)
    requires TaskOk(task, key, truth, w, answers)
    ensures TicksIn(Program(task, key), id) == 8 * Occurrences(TaskHeard(task, key, answers), id)
  {
    var ops, heard := OpsOf(task, key), HeardBatches(task, key, answers);
    forall b | 0 <= b < |ops| ensures TicksIn(ops[b], id) == 8 * Occurrences(heard[b], id) {
      BatchTicks(task.batches[b], task.adapter, key, truth, w, answers, id);
    }
    TicksFlatten(ops, heard, id);
  }

  ghost predicate KnownOps(ops: seq<Op>, w: World, answers: map<OrderId, Answer>) {
    forall k :: 0 <= k < |ops| && ops[k].OneTick? ==> ops[k].id in w.orders && ops[k].id in answers
  }

  lemma {:induction false} KnownFlatten(ops: seq<seq<Op>>, w: World, answers: map<OrderId, Answer>)
    requires forall b :: 0 <= b < |ops| ==> KnownOps(ops[b], w, answers)
    ensures KnownOps(Flatten(ops), w, answers)
  {
    if ops != [] {
      var n := |ops| - 1;
      KnownFlatten(ops[..n], w, answers);
      assert KnownOps(ops[n], w, answers);
    }
  }

  lemma {:induction false} PollsKnown(ids: seq<OrderId>, w: World, answers: map<OrderId, Answer>)
    requires forall i :: 0 <= i < |ids| ==> ids[i] in w.orders && ids[i] in answers
    ensures KnownOps(PollsOf(ids), w, answers)
  {
    if ids != [] { PollsKnown(ids[..|ids| - 1], w, answers); }
  }

  lemma BatchKnown(batch: seq<OrderId>, adapter: Adapter, key: OrderId -> string, truth: map<string, Answer>,
                   w: World, answers: map<OrderId, Answer>)
    requires Truthful(adapter, truth) && BatchOk(batch, key, truth, w, answers)
    ensures KnownOps(BatchOps(batch, adapter, key), w, answers)
  {
    if adapter(KeysOf(batch, key)).Some? {
      var now := Answered(batch, answers);
      ListedAreAnswered(batch, key, adapter, truth, batch, w, answers);
      AnsweredMembers(batch, answers);
      forall i | 0 <= i < |now| ensures now[i] in w.orders && now[i] in answers {
        assert now[i] in now;
        var j :| 0 <= j < |batch| && batch[j] == now[i];
        assert AnswersFor(batch[j], key, truth, w, answers);
      }
      PollsKnown(now, w, answers);
    }
  }

  lemma ProgramKnown(task: Task, key: OrderId -> string, truth: map<string, Answer>, w: World,
                     answers: map<OrderId, Answer>)
    requires TaskOk(task, key, truth, w, answers)
    ensures KnownOps(Program(task, key), w, answers)
  {
    var ops := OpsOf(task, key);
    forall b | 0 <= b < |ops| ensures KnownOps(ops[b], w, answers) {
      BatchKnown(task.batches[b], task.adapter, key, truth, w, answers);
    }
    KnownFlatten(ops, w, answers);
  }

  // -------------------------------------------------------------------------
  // Every execution is the plain loop
  // -------------------------------------------------------------------------

  ghost predicate TasksOk(tasks: seq<Task>, key: OrderId -> string, truths: seq<map<string, Answer>>, w: World,
                          answers: map<OrderId, Answer>) {
    && |truths| == |tasks|
    && forall t :: 0 <= t < |tasks| ==> TaskOk(tasks[t], key, truths[t], w, answers)
  }

  // The orders heard of by each task, and the orders each has.
  ghost function HeardLists(tasks: seq<Task>, key: OrderId -> string, answers: map<OrderId, Answer>): (lists: seq<seq<OrderId>>)
    ensures |lists| == |tasks| && forall t :: 0 <= t < |tasks| ==> lists[t] == TaskHeard(tasks[t], key, answers)
  {
    seq(|tasks|, t requires 0 <= t < |tasks| => TaskHeard(tasks[t], key, answers))
  }

  ghost function OrderLists(tasks: seq<Task>): (lists: seq<seq<OrderId>>)
    ensures |lists| == |tasks| && forall t :: 0 <= t < |tasks| ==> lists[t] == Flatten(tasks[t].batches)
  {
    seq(|tasks|, t requires 0 <= t < |tasks| => Flatten(tasks[t].batches))
  }

  ghost function AllHeard(tasks: seq<Task>, key: OrderId -> string, answers: map<OrderId, Answer>): seq<OrderId> {
    Flatten(HeardLists(tasks, key, answers))
  }

  ghost function AllOrders(tasks: seq<Task>): seq<OrderId> { Flatten(OrderLists(tasks)) }

  ghost predicate Subsequences(parts: seq<seq<OrderId>>, of_: seq<seq<OrderId>>) {
    && |parts| == |of_|
    && forall t :: 0 <= t < |parts| ==>
         (forall id :: id in parts[t] ==> id in of_[t]) && (Distinct(of_[t]) ==> Distinct(parts[t]))
  }

  lemma {:induction false} FlattenParts(parts: seq<seq<OrderId>>, of_: seq<seq<OrderId>>)
    requires Subsequences(parts, of_)
    ensures forall id :: id in Flatten(parts) ==> id in Flatten(of_)
    ensures Distinct(Flatten(of_)) ==> Distinct(Flatten(parts))
  {
    if parts != [] {
      var n := |parts| - 1;
      FlattenParts(parts[..n], of_[..n]);
      if Distinct(Flatten(of_)) {
        DistinctParts(Flatten(of_[..n]), of_[n], Flatten(parts[..n]), parts[n]);
      }
    }
  }

  lemma AllHeardMembers(tasks: seq<Task>, key: OrderId -> string, answers: map<OrderId, Answer>)
    requires Distinct(AllOrders(tasks))
    ensures Distinct(AllHeard(tasks, key, answers))
    ensures forall id :: id in AllHeard(tasks, key, answers) ==> id in AllOrders(tasks)
  {
    var heard, orders := HeardLists(tasks, key, answers), OrderLists(tasks);
    forall t | 0 <= t < |tasks|
      ensures (forall id :: id in heard[t] ==> id in orders[t]) && (Distinct(orders[t]) ==> Distinct(heard[t]))
    {
      HeardIsFlat(tasks[t].batches, tasks[t].adapter, key, answers, HeardBatches(tasks[t], key, answers));
      HeardMembers(tasks[t].batches, key, tasks[t].adapter, answers);
    }
    FlattenParts(heard, orders);
  }

  lemma OccurrencesNext(heard: seq<seq<OrderId>>, n: nat, id: OrderId)
    requires 0 < n <= |heard|
    ensures Occurrences(Flatten(heard[..n]), id) == Occurrences(Flatten(heard[..n - 1]), id) + Occurrences(heard[n - 1], id)
  {
    TakeNext(heard, n - 1);
    FlattenAppend(heard[..n - 1], heard[n - 1]);
    OccurrencesConcat(Flatten(heard[..n - 1]), heard[n - 1], id);
  }

  lemma {:induction false} TicksOfLists(programs: seq<seq<Op>>, at: seq<nat>, heard: seq<seq<OrderId>>, n: nat, id: OrderId)
    requires n <= |programs| == |at| == |heard|
    requires forall t :: 0 <= t < |programs| ==>
               at[t] == |programs[t]| && TicksIn(programs[t], id) == 8 * Occurrences(heard[t], id)
    ensures TicksDone(programs, at, id, n) == 8 * Occurrences(Flatten(heard[..n]), id)
  {
    if n > 0 {
      TicksOfLists(programs, at, heard, n - 1, id);
      OneFinished(programs, at, id, n);
      OccurrencesNext(heard, n, id);
    }
  }

  lemma TicksOfFinished(tasks: seq<Task>, key: OrderId -> string, truths: seq<map<string, Answer>>, w: World,
                        answers: map<OrderId, Answer>, at: seq<nat>, id: OrderId)
    requires TasksOk(tasks, key, truths, w, answers) && |at| == |tasks|
    requires forall t :: 0 <= t < |tasks| ==> at[t] == |Programs(tasks, key)[t]|
    ensures TicksDone(Programs(tasks, key), at, id, |tasks|) == 8 * Occurrences(AllHeard(tasks, key, answers), id)
  {
    var programs: seq<seq<Op>>, heard := Programs(tasks, key), HeardLists(tasks, key, answers);
    forall t | 0 <= t < |tasks| ensures TicksIn(programs[t], id) == 8 * Occurrences(heard[t], id) {
      ProgramPolls(tasks[t], key, truths[t], w, answers, id);
    }
    TicksOfLists(programs, at, heard, |tasks|, id);
    assert heard[..|tasks|] == heard;
  }

  lemma OneFinished(programs: seq<seq<Op>>, at: seq<nat>, id: OrderId, n: nat)
    requires 0 < n <= |programs| == |at| && forall t :: 0 <= t < |programs| ==> at[t] == |programs[t]|
    ensures TicksDone(programs, at, id, n) == TicksDone(programs, at, id, n - 1) + TicksIn(programs[n - 1], id)
  {
    assert programs[n - 1][..at[n - 1]] == programs[n - 1];
  }

  lemma {:induction false} OnceIfDistinct(ids: seq<OrderId>, id: OrderId)
    requires Distinct(ids)
    ensures Occurrences(ids, id) == if id in ids then 1 else 0
  {
    if ids != [] {
      LastIsNew(ids);
      OnceIfDistinct(ids[..|ids| - 1], id);
    }
  }

  lemma {:induction false} LoggedOccur(log: seq<OrderId>, i: nat)
    requires i < |log|
    ensures Occurrences(log, log[i]) > 0
  {
    if i < |log| - 1 { LoggedOccur(log[..|log| - 1], i); }
  }

  // The pool over these tasks with at most limit workers.
  ghost function PoolRun(w0: World, tasks: seq<Task>, key: OrderId -> string, answers: map<OrderId, Answer>,
                         limit: nat, schedule: seq<nat>): Exec
  {
    var size := if limit < |tasks| then limit else |tasks|;
    Execution(Started(w0, size, |tasks|), Programs(tasks, key), w0, answers, schedule)
  }

  ghost predicate AllStopped(e: Exec) { forall w :: 0 <= w < |e.workers| ==> e.workers[w].Stopped? }

  lemma ProgramsKnown(tasks: seq<Task>, key: OrderId -> string, truths: seq<map<string, Answer>>, w: World,
                      answers: map<OrderId, Answer>)
    requires TasksOk(tasks, key, truths, w, answers)
    ensures Known(Programs(tasks, key), w, answers)
  {
    var programs: seq<seq<Op>> := Programs(tasks, key);
    forall t, k | 0 <= t < |programs| && 0 <= k < |programs[t]| && programs[t][k].OneTick?
      ensures programs[t][k].id in w.orders && programs[t][k].id in answers
    {
      ProgramKnown(tasks[t], key, truths[t], w, answers);
    }
  }

  lemma PoolFacts(w0: World, tasks: seq<Task>, key: OrderId -> string, truths: seq<map<string, Answer>>,
                  answers: map<OrderId, Answer>, limit: nat, schedule: seq<nat>)
    returns (log: seq<OrderId>)
    requires WellFormed(w0) && TasksOk(tasks, key, truths, w0, answers) && limit > 0
    requires AllStopped(PoolRun(w0, tasks, key, answers, limit, schedule))
    ensures Pollable(w0, answers, log)
    ensures PoolRun(w0, tasks, key, answers, limit, schedule).world == RunPolls(w0, answers, log)
    ensures forall id :: Occurrences(log, id) == 8 * Occurrences(AllHeard(tasks, key, answers), id)
  {
    var programs: seq<seq<Op>> := Programs(tasks, key);
    var size := if limit < |tasks| then limit else |tasks|;
    var start := Started(w0, size, |tasks|);
    ProgramsKnown(tasks, key, truths, w0, answers);
    WorldIsLogged(start, programs, w0, answers, schedule);
    AlwaysOk(start, programs, w0, answers, schedule);
    log := Log(start, programs, w0, answers, schedule);
    var e := Execution(start, programs, w0, answers, schedule);
    if tasks != [] { AllDone(e, programs); }
    forall id ensures Occurrences(log, id) == 8 * Occurrences(AllHeard(tasks, key, answers), id) {
      NothingDone(programs, start.at, id, |programs|);
      LogCounts(start, programs, w0, answers, schedule, id);
      TicksOfFinished(tasks, key, truths, w0, answers, e.at, id);
    }
  }

  // Whatever the interleaving of its workers, and whichever batches throw: a
  // pool that has stopped has left every order and every wallet as the plain
  // loop over the orders it heard of does.  At no time are more than limit
  // tasks in flight.
  lemma PoolEqualsLoop(w0: World, tasks: seq<Task>, key: OrderId -> string, truths: seq<map<string, Answer>>,
                       answers: map<OrderId, Answer>, limit: nat, schedule: seq<nat>)
    requires WellFormed(w0) && TasksOk(tasks, key, truths, w0, answers) && limit > 0
    requires Distinct(AllOrders(tasks))
    ensures CountBusy(PoolRun(w0, tasks, key, answers, limit, schedule).workers) <= limit
    ensures AllStopped(PoolRun(w0, tasks, key, answers, limit, schedule)) ==>
              Polled(PoolRun(w0, tasks, key, answers, limit, schedule).world, w0, answers,
                     AllHeard(tasks, key, answers))
  {
    var programs: seq<seq<Op>> := Programs(tasks, key);
    var size := if limit < |tasks| then limit else |tasks|;
    AlwaysOk(Started(w0, size, |tasks|), programs, w0, answers, schedule);
    CountsOf(PoolRun(w0, tasks, key, answers, limit, schedule).workers);
    if AllStopped(PoolRun(w0, tasks, key, answers, limit, schedule)) {
      var log := PoolFacts(w0, tasks, key, truths, answers, limit, schedule);
      var heard := AllHeard(tasks, key, answers);
      AllHeardMembers(tasks, key, answers);
      LogCoversHeard(w0, answers, log, heard);
      InterleavedEqualsLoop(w0, answers, log, heard);
    }
  }

  lemma LogCoversHeard(w: World, answers: map<OrderId, Answer>, log: seq<OrderId>, heard: seq<OrderId>)
    requires Pollable(w, answers, log) && Distinct(heard)
    requires forall id :: Occurrences(log, id) == 8 * Occurrences(heard, id)
    ensures forall i :: 0 <= i < |log| ==> log[i] in heard
    ensures forall i :: 0 <= i < |heard| ==> Occurrences(log, heard[i]) >= |POLL_STAGES|
    ensures Pollable(w, answers, heard)
  {
    forall i | 0 <= i < |log| ensures log[i] in heard {
      LoggedOccur(log, i);
      OnceIfDistinct(heard, log[i]);
    }
    forall i | 0 <= i < |heard|
      ensures Occurrences(log, heard[i]) >= |POLL_STAGES| && heard[i] in w.orders && heard[i] in answers
    {
      OnceIfDistinct(heard, heard[i]);
      OccurringIsIn(log, heard[i]);
    }
  }

  lemma {:induction false} OccurringIsIn(log: seq<OrderId>, id: OrderId)
    requires Occurrences(log, id) > 0
    ensures exists i :: 0 <= i < |log| && log[i] == id
  {
    var init, last := log[..|log| - 1], log[|log| - 1];
    if last != id {
      OccurringIsIn(init, id);
      var i :| 0 <= i < |init| && init[i] == id;
      assert log[i] == id;
    }
  }

  // -------------------------------------------------------------------------
  // The run of the poller
  // -------------------------------------------------------------------------

  // One task for each group with a provider: its orders in bounded batches, or
  // none when the provider cannot be asked.
  ghost predicate TasksOfRun(tasks: seq<Task>, ks: seq<Option<string>>, ids: seq<OrderId>,
                             providerOf: map<OrderId, Option<string>>, providers: Providers, size: nat) {
    && |ks| == |tasks|
    && (forall s, t :: 0 <= s < t < |ks| ==> ks[s] != ks[t])
    && (forall k :: k in ks <==> k.Some? && Select(ids, providerOf, k) != [])
    && forall t :: 0 <= t < |tasks| ==> TaskOfGroup(tasks[t], ks[t], ids, providerOf, providers, size)
  }

  ghost predicate TaskOfGroup(task: Task, k: Option<string>, ids: seq<OrderId>,
                              providerOf: map<OrderId, Option<string>>, providers: Providers, size: nat) {
    && (forall b :: 0 <= b < |task.batches| ==> 0 < |task.batches[b]| <= size)
    && Flatten(task.batches) == (if Askable(providers, k) then Select(ids, providerOf, k) else [])
    && (Askable(providers, k) ==> task.adapter == providers[k.value].adapter)
  }

  lemma {:induction false} FlattenHas(chunks: seq<seq<OrderId>>, b: nat, id: OrderId)
    requires b < |chunks| && id in chunks[b]
    ensures id in Flatten(chunks)
  {
    if b < |chunks| - 1 { FlattenHas(chunks[..|chunks| - 1], b, id); }
  }

  lemma {:induction false} FlattenFrom(chunks: seq<seq<OrderId>>, id: OrderId) returns (b: nat)
    requires id in Flatten(chunks)
    ensures b < |chunks| && id in chunks[b]
  {
    if id in chunks[|chunks| - 1] { b := |chunks| - 1; } else { b := FlattenFrom(chunks[..|chunks| - 1], id); }
  }

  lemma {:induction false} FlattenDistinct(chunks: seq<seq<OrderId>>)
    requires forall t :: 0 <= t < |chunks| ==> Distinct(chunks[t])
    requires forall s, t, id :: 0 <= s < t < |chunks| && id in chunks[s] ==> id !in chunks[t]
    ensures Distinct(Flatten(chunks))
  {
    if chunks != [] {
      var init, last := chunks[..|chunks| - 1], chunks[|chunks| - 1];
      FlattenDistinct(init);
      forall id | id in Flatten(init) ensures id !in last {
        var b := FlattenFrom(init, id);
        assert id in chunks[b];
      }
      Disjoint(Flatten(init), last);
    }
  }

  lemma AskedOne(w: World, ids: seq<OrderId>, key: OrderId -> string, providerOf: map<OrderId, Option<string>>,
                 providers: Providers, truths: map<string, map<string, Answer>>, id: OrderId)
    requires Loaded(w, ids, key, providerOf) && id in ids && id in providerOf
    ensures AnswersFor(id, key, TruthOf(providerOf[id], providers, truths), w,
                       AnswersOf(ids, key, providerOf, providers, truths))
  {
    var i :| 0 <= i < |ids| && ids[i] == id;
  }

  lemma GroupTaskOk(task: Task, k: Option<string>, w: World, ids: seq<OrderId>, key: OrderId -> string,
                    providerOf: map<OrderId, Option<string>>, providers: Providers, size: nat,
                    truths: map<string, map<string, Answer>>)
    requires Loaded(w, ids, key, providerOf) && AllTruthful(providers, truths)
    requires TaskOfGroup(task, k, ids, providerOf, providers, size)
    ensures TaskOk(task, key, TruthOf(k, providers, truths), w, AnswersOf(ids, key, providerOf, providers, truths))
  {
    SelectMembers(ids, providerOf, k);
    var truth, answers := TruthOf(k, providers, truths), AnswersOf(ids, key, providerOf, providers, truths);
    forall b | 0 <= b < |task.batches| ensures BatchOk(task.batches[b], key, truth, w, answers) {
      forall i | 0 <= i < |task.batches[b]| ensures AnswersFor(task.batches[b][i], key, truth, w, answers) {
        FlattenHas(task.batches, b, task.batches[b][i]);
        AskedOne(w, ids, key, providerOf, providers, truths, task.batches[b][i]);
      }
    }
    if task.batches != [] { FlattenHas(task.batches, 0, task.batches[0][0]); }
  }

  lemma OrdersDistinct(tasks: seq<Task>, ks: seq<Option<string>>, ids: seq<OrderId>,
                       providerOf: map<OrderId, Option<string>>, providers: Providers, size: nat)
    requires TasksOfRun(tasks, ks, ids, providerOf, providers, size) && Distinct(ids)
    ensures Distinct(AllOrders(tasks))
    ensures forall id :: id in AllOrders(tasks) ==> id in ids
  {
    var lists := OrderLists(tasks);
    forall t | 0 <= t < |tasks|
      ensures Distinct(lists[t]) && forall id :: id in lists[t] ==> id in ids && id in providerOf && providerOf[id] == ks[t]
    {
      SelectMembers(ids, providerOf, ks[t]);
      assert TaskOfGroup(tasks[t], ks[t], ids, providerOf, providers, size);
    }
    FlattenDistinct(lists);
    forall id | id in AllOrders(tasks) ensures id in ids { var t := FlattenFrom(lists, id); }
  }

  // Without a throwing call, every answered order is heard of.
  lemma AnsweredIsHeard(tasks: seq<Task>, ks: seq<Option<string>>, w: World, ids: seq<OrderId>, key: OrderId -> string,
                        providerOf: map<OrderId, Option<string>>, providers: Providers, size: nat,
                        truths: map<string, map<string, Answer>>, id: OrderId)
    requires Loaded(w, ids, key, providerOf) && NeverThrows(providers)
    requires TasksOfRun(tasks, ks, ids, providerOf, providers, size)
    requires id in ids && id in AnswersOf(ids, key, providerOf, providers, truths)
    ensures id in AllHeard(tasks, key, AnswersOf(ids, key, providerOf, providers, truths))
  {
    var answers, k := AnswersOf(ids, key, providerOf, providers, truths), providerOf[id];
    assert Askable(providers, k);
    SelectMembers(ids, providerOf, k);
    var t :| 0 <= t < |ks| && ks[t] == k;
    var task := tasks[t];
    assert TaskOfGroup(task, k, ids, providerOf, providers, size);
    NothingThrown(task.batches, key, task.adapter, answers);
    AnsweredMembers(Select(ids, providerOf, k), answers);
    HeardIsFlat(task.batches, task.adapter, key, answers, HeardBatches(task, key, answers));
    FlattenHas(HeardLists(tasks, key, answers), t, id);
  }

  // The whole run, under every interleaving of at most limit workers over the
  // providers' groups: it ends with the orders and wallets of the plain loop
  // over the orders it heard of - the answered ones, when no call throws - and
  // so with what polling the groups one after the other leaves.
  lemma RunIsTheLoop(tasks: seq<Task>, ks: seq<Option<string>>, w0: World, ids: seq<OrderId>, key: OrderId -> string,
                     providerOf: map<OrderId, Option<string>>, providers: Providers, size: nat,
                     truths: map<string, map<string, Answer>>, limit: nat, schedule: seq<nat>)
    requires Loaded(w0, ids, key, providerOf) && AllTruthful(providers, truths) && limit > 0
    requires TasksOfRun(tasks, ks, ids, providerOf, providers, size)
    ensures var answers := AnswersOf(ids, key, providerOf, providers, truths);
            var e := PoolRun(w0, tasks, key, answers, limit, schedule);
            && CountBusy(e.workers) <= limit
            && (AllStopped(e) ==>
                  AsTheLoop(e.world, w0, answers, ids, AllHeard(tasks, key, answers), NeverThrows(providers)))
  {
    var answers := AnswersOf(ids, key, providerOf, providers, truths);
    var e := PoolRun(w0, tasks, key, answers, limit, schedule);
    var known := seq(|ks|, t requires 0 <= t < |ks| => TruthOf(ks[t], providers, truths));
    forall t | 0 <= t < |tasks| ensures TaskOk(tasks[t], key, known[t], w0, answers) {
      GroupTaskOk(tasks[t], ks[t], w0, ids, key, providerOf, providers, size, truths);
    }
    OrdersDistinct(tasks, ks, ids, providerOf, providers, size);
    PoolEqualsLoop(w0, tasks, key, known, answers, limit, schedule);
    AllHeardMembers(tasks, key, answers);
    if AllStopped(e) { EndsAsTheLoop(tasks, ks, w0, ids, key, providerOf, providers, size, truths, e.world); }
  }

  lemma EndsAsTheLoop(tasks: seq<Task>, ks: seq<Option<string>>, w0: World, ids: seq<OrderId>, key: OrderId -> string,
                      providerOf: map<OrderId, Option<string>>, providers: Providers, size: nat,
                      truths: map<string, map<string, Answer>>, w: World)
    requires Loaded(w0, ids, key, providerOf) && TasksOfRun(tasks, ks, ids, providerOf, providers, size)
    requires Polled(w, w0, AnswersOf(ids, key, providerOf, providers, truths),
                    AllHeard(tasks, key, AnswersOf(ids, key, providerOf, providers, truths)))
    ensures AsTheLoop(w, w0, AnswersOf(ids, key, providerOf, providers, truths), ids,
                      AllHeard(tasks, key, AnswersOf(ids, key, providerOf, providers, truths)), NeverThrows(providers))
  {
    var answers := AnswersOf(ids, key, providerOf, providers, truths);
    var heard := AllHeard(tasks, key, answers);
    OrdersDistinct(tasks, ks, ids, providerOf, providers, size);
    AllHeardMembers(tasks, key, answers);
    forall id | id in heard ensures id in answers {
      var i :| 0 <= i < |heard| && heard[i] == id;
    }
    if NeverThrows(providers) {
      forall id | id in ids && id in answers ensures id in heard {
        AnsweredIsHeard(tasks, ks, w0, ids, key, providerOf, providers, size, truths, id);
      }
      EndsOnAnswered(w0, answers, ids, heard, w);
    }
  }

  lemma EndsOnAnswered(w0: World, answers: map<OrderId, Answer>, ids: seq<OrderId>, heard: seq<OrderId>, w: World)
    requires Polled(w, w0, answers, heard) && Distinct(ids) && Distinct(heard)
    requires forall i :: 0 <= i < |ids| ==> ids[i] in w0.orders
    requires forall id :: id in heard <==> id in ids && id in answers
    ensures Polled(w, w0, answers, Answered(ids, answers))
  {
    forall id | id in ids ensures id in w0.orders { var i :| 0 <= i < |ids| && ids[i] == id; }
    HeardIsAnswered(w0, answers, ids, heard);
  }

  // -------------------------------------------------------------------------
  // The pool ends
  // -------------------------------------------------------------------------

  function LeftIn(programs: seq<seq<Op>>, at: seq<nat>, n: nat): int
    requires n <= |programs| == |at|
  {
    if n == 0 then 0 else LeftIn(programs, at, n - 1) + |programs[n - 1]| - at[n - 1]
  }

  lemma {:induction false} LeftAfter(programs: seq<seq<Op>>, at: seq<nat>, n: nat, t: nat)
    requires n <= |programs| == |at| && t < |at|
    ensures LeftIn(programs, at[t := at[t] + 1], n) == LeftIn(programs, at, n) - if t < n then 1 else 0
  {
    if n > 0 { LeftAfter(programs, at, n - 1, t); }
  }

  lemma {:induction false} LeftIsNat(programs: seq<seq<Op>>, at: seq<nat>, n: nat)
    requires n <= |programs| == |at| && forall t :: 0 <= t < |programs| ==> at[t] <= |programs[t]|
    ensures LeftIn(programs, at, n) >= 0
  {
    if n > 0 { LeftIsNat(programs, at, n - 1); }
  }

  function Remaining(e: Exec, programs: seq<seq<Op>>): int
    requires |e.at| == |programs|
  {
    2 * (|programs| - e.index) + LeftIn(programs, e.at, |programs|) + CountBusy(e.workers) + CountLive(e.workers)
  }

  // Every move of a worker that has not stopped uses up one of finitely many,
  // so any schedule that keeps advancing live workers stops the pool.
  lemma MovesRunOut(e: Exec, programs: seq<seq<Op>>, w0: World, answers: map<OrderId, Answer>, w: nat)
    requires PoolOk(e, programs) && w < |e.workers| && !e.workers[w].Stopped?
    ensures PoolOk(Move(e, programs, w0, answers, w), programs)
    ensures 0 <= Remaining(Move(e, programs, w0, answers, w), programs) == Remaining(e, programs) - 1
  {
    var n := Move(e, programs, w0, answers, w);
    MoveOk(e, programs, w0, answers, w);
    LeftIsNat(programs, n.at, |programs|);
    if Acts(e, programs, w) {
      LeftAfter(programs, e.at, |programs|, e.workers[w].task);
    } else {
      CountsAfter(e.workers, w, n.workers[w]);
    }
  }
}
