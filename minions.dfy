/** The worker pool of the `Minions` package: the synchronous variant of
    `Conveyor`. A worker calls `execFunc` itself, so kill cannot interrupt an
    item in progress, and every acknowledgment on `stopX` is `true`.

    As in `Conveyor`, a worker is an entry of `workers`, one pass of its loop
    is one call of `Circle` with the `select` arm as an argument, and the
    receiving loops of `Kill` and `Stop` take a schedule of worker moves. */
module Minions {
  import opened Counter
  import opened Channels
  import Conveyor

  /** An element of InputChan, `interface{}`: opaque to the engine. */
  datatype Element = Element(data: string)

  /** An element of OutputChan, `[4]interface{}` (data, error, finished,
      killed). Only `execFunc` writes one; the engine never looks inside. */
  datatype Report = Report(slots: seq<Element>)

  /** The caller's `execFunc`: foreign code, only its identity is kept. */
  datatype ExecFunc = ExecFunc(id: nat)

  /** One call `execFunc(gopher, element, OutputChan)`. */
  datatype Call = Call(gopher: int, element: Element)

  /** The arm of the worker's `select` that fires. */
  datatype Arm = ItemArm | TerminateArm | KillArm

  /** Worker `worker` (an index into `workers`) takes `arm`. */
  datatype Move = Move(worker: nat, arm: Arm)

  /** The whole state of one conveyor. */
  datatype Pool = Pool(
    cores: int,              // process.x
    queue: seq<Element>,     // contents of InputChan
    acks: seq<bool>,         // contents of stopX
    sent: seq<bool>,         // every acknowledgment ever sent to stopX
    terminated: bool,        // terminate is closed
    killed: bool,            // kill is closed
    workers: seq<int>,       // ids of the workers still inside circle
    calls: seq<Call>)        // execFunc calls, in order

  function Handed(calls: seq<Call>): (r: seq<Element>)
    ensures |r| == |calls|
    ensures forall i :: 0 <= i < |calls| ==> r[i] == calls[i].element
  {
    seq(|calls|, i requires 0 <= i < |calls| => calls[i].element)
  }

  /** The counter counts exactly the workers still in their loop. */
  ghost predicate Inv(p: Pool) {
    p.cores == |p.workers|
  }

  /** `r` is reached from `p` by worker steps and by receiving `taken` from
      stopX: what was received and what is still buffered is what was
      buffered plus what was sent since, in order; every worker that left
      sent exactly one acknowledgment, and it was `true`; every item that
      left the queue went to execFunc, in queue order; the signals are as
      they were. While kill is open, once a worker has left the queue is
      empty. */
  ghost predicate Runs(p: Pool, r: Pool, taken: seq<bool>) {
    && p.sent <= r.sent
    && taken + r.acks == p.acks + r.sent[|p.sent|..]
    && |r.sent| + r.cores == |p.sent| + p.cores
    && p.calls <= r.calls
    && Handed(p.calls) + p.queue == Handed(r.calls) + r.queue
    && r.killed == p.killed && r.terminated == p.terminated
    && (forall j :: |p.sent| <= j < |r.sent| ==> r.sent[j])
    && (!p.killed && |p.sent| < |r.sent| ==> r.queue == [])
  }

  lemma RunsRefl(p: Pool)
    ensures Runs(p, p, [])
  {
    assert p.sent[|p.sent|..] == [];
  }

  lemma RunsTrans(p: Pool, q: Pool, r: Pool, t1: seq<bool>, t2: seq<bool>)
    requires Runs(p, q, t1) && Runs(q, r, t2)
    ensures Runs(p, r, t1 + t2)
  {
    var d1, d2 := q.sent[|p.sent|..], r.sent[|q.sent|..];
    assert d1 + d2 == r.sent[|p.sent|..];
    calc {
      t1 + t2 + r.acks;
      t1 + (t2 + r.acks);
      t1 + (q.acks + d2);
      (t1 + q.acks) + d2;
      p.acks + d1 + d2;
      p.acks + (d1 + d2);
    }
    forall j | |p.sent| <= j < |r.sent|
      ensures r.sent[j]
    {
      if j < |q.sent| { assert r.sent[j] == q.sent[j]; }
    }
    if !p.killed && |p.sent| < |r.sent| && |q.sent| == |r.sent| {
      assert |Handed(q.calls)| <= |Handed(r.calls)|;
    }
  }

  /** Receiving the oldest acknowledgment from stopX. */
  lemma RunsReceive(p: Pool)
    requires p.acks != []
    ensures Runs(p, p.(acks := p.acks[1..]), [p.acks[0]])
  {
    assert p.sent[|p.sent|..] == [];
  }

  /** Acknowledgments still to come, buffered or from live workers, less
      those taken. */
  lemma RunsCount(p: Pool, r: Pool, taken: seq<bool>)
    requires Runs(p, r, taken)
    ensures |taken| + |r.acks| + r.cores == |p.acks| + p.cores
  {
    assert |taken + r.acks| == |p.acks + r.sent[|p.sent|..]|;
  }

  /** Whether the `select` may take `arm` for worker `w`. */
  predicate Enabled(p: Pool, w: nat, arm: Arm) {
    && w < |p.workers|
    && match arm
       case ItemArm => p.queue != []
       case TerminateArm => p.terminated
       case KillArm => p.killed
  }

  datatype Step = Step(pool: Pool, returned: bool)

  /** `popRun(); stopX <- true; return`. */
  function Leave(p: Pool, w: nat): Pool
    requires w < |p.workers|
  {
    p.(cores := p.cores - 1, acks := p.acks + [true], sent := p.sent + [true],
       workers := p.workers[..w] + p.workers[w + 1..])
  }

  /** One pass of `circle` for worker `w` when its `select` takes `arm`. */
  function CircleStep(p: Pool, w: nat, arm: Arm): (r: Step)
    requires Enabled(p, w, arm)
    ensures Inv(p) ==> Inv(r.pool)
    ensures Runs(p, r.pool, [])
    ensures r.returned <==> |r.pool.sent| == |p.sent| + 1
    ensures r.returned ==> && r.pool.workers == p.workers[..w] + p.workers[w + 1..]
                           && r.pool.cores == p.cores - 1 && r.pool.acks == p.acks + [true]
    ensures !r.returned ==> && r.pool.sent == p.sent && r.pool.workers == p.workers
                            && r.pool.cores == p.cores && r.pool.acks == p.acks
    ensures arm == ItemArm ==> && !r.returned && r.pool.queue == p.queue[1..]
                               && r.pool.calls == p.calls + [Call(p.workers[w], p.queue[0])]
    ensures arm != ItemArm ==> r.pool.queue == p.queue && r.pool.calls == p.calls
    ensures arm == TerminateArm ==> (r.returned <==> p.queue == [])
    ensures arm == TerminateArm && !r.returned ==> r.pool == p
    ensures arm == KillArm ==> r.returned
  {
    assert p.sent[|p.sent|..] == [];
    match arm
    case ItemArm =>
      var q := p.(queue := p.queue[1..], calls := p.calls + [Call(p.workers[w], p.queue[0])]);
      assert Handed(q.calls) == Handed(p.calls) + [p.queue[0]];
      Step(q, false)
    case TerminateArm =>
      if |p.queue| == 0 then
        var r := Leave(p, w);
        assert r.sent[|p.sent|..] == [true];
        Step(r, true)
      else
        Step(p, false)
    case KillArm =>
      var r := Leave(p, w);
      assert r.sent[|p.sent|..] == [true];
      Step(r, true)
  }

  /** A scheduled move; one that the `select` could not take is skipped. */
  function ApplyMove(p: Pool, mv: Move): (r: Pool)
    ensures Inv(p) ==> Inv(r)
    ensures Runs(p, r, [])
  {
    if Enabled(p, mv.worker, mv.arm) then CircleStep(p, mv.worker, mv.arm).pool
    else RunsRefl(p); p
  }

  function ApplyBurst(p: Pool, burst: seq<Move>): (r: Pool)
    ensures Inv(p) ==> Inv(r)
    ensures Runs(p, r, [])
    decreases |burst|
  {
    if burst == [] then RunsRefl(p); p
    else
      var q := ApplyMove(p, burst[0]);
      var r := ApplyBurst(q, burst[1..]);
      RunsTrans(p, q, r, [], []);
      r
  }

  /** The burst that runs before the k-th evaluation of the loop guard. */
  function BurstAt(sched: seq<seq<Move>>, k: nat): seq<Move> {
    if k < |sched| then sched[k] else []
  }

  /** Which signal the receiving loop is waiting on. */
  datatype Mode = Killing | Stopping

  predicate Signalled(mode: Mode, p: Pool) {
    match mode
    case Killing => p.killed
    case Stopping => p.terminated
  }

  /** What a blocked receive from stopX waits for: some worker leaves. Under
      kill the first live worker takes the kill arm; under stop it processes
      the queued items first and then takes the terminate arm. */
  function Reaction(mode: Mode, p: Pool): (r: Pool)
    requires Inv(p) && Signalled(mode, p) && p.workers != []
    ensures Inv(r) && Runs(p, r, [])
    ensures |r.sent| == |p.sent| + 1
    decreases |p.queue|
  {
    if mode == Killing then CircleStep(p, 0, KillArm).pool
    else if p.queue != [] then
      var q := CircleStep(p, 0, ItemArm).pool;
      var r := Reaction(mode, q);
      RunsTrans(p, q, r, [], []);
      r
    else CircleStep(p, 0, TerminateArm).pool
  }

  datatype Received = Received(pool: Pool, ack: bool)

  /** One pass of the receiving loop's body: `<-m.stopX` (after the workers
      have run until there is an acknowledgment to take), then the workers'
      moves until the guard is evaluated again. */
  function Receive(mode: Mode, p: Pool, burst: seq<Move>): (r: Received)
    requires Inv(p) && Signalled(mode, p) && (p.acks != [] || p.workers != [])
    ensures Inv(r.pool) && Signalled(mode, r.pool)
    ensures Runs(p, r.pool, [r.ack])
  {
    var p1 := if p.acks == [] then Reaction(mode, p) else p;
    var p2 := p1.(acks := p1.acks[1..]);
    var p3 := ApplyBurst(p2, burst);
    RunsRefl(p);
    RunsReceive(p1);
    RunsTrans(p, p1, p2, [], [p1.acks[0]]);
    RunsTrans(p, p2, p3, [p1.acks[0]], []);
    Received(p3, p1.acks[0])
  }

  /** One acknowledgment received, then the rest of the loop. */
  lemma RunsCons(p: Pool, q: Pool, r: Pool, ack: bool, received: seq<bool>, all: seq<bool>)
    requires Runs(p, q, [ack])
    requires received + [ack] <= all && Runs(q, r, all[|received| + 1..])
    ensures received <= all && Runs(p, r, all[|received|..])
  {
    RunsTrans(p, q, r, [ack], all[|received| + 1..]);
    assert all[|received|..] == [ack] + all[|received| + 1..];
  }

  datatype Collected = Collected(pool: Pool, received: seq<bool>)

  /** The receiving loop of `Kill` and `Stop` as written:
      `for i := 0; i < m.GetCores(); i++ { <-m.stopX }`, the bound re-read on
      every evaluation of the guard. */
  function Collect(mode: Mode, p: Pool, i: nat, received: seq<bool>,
                   sched: seq<seq<Move>>, k: nat): (r: Collected)
    requires Inv(p) && Signalled(mode, p)
    ensures Inv(r.pool)
    decreases p.cores - i
  {
    if i >= p.cores then Collected(p, received)
    else
      var q := Receive(mode, p, BurstAt(sched, k + 1));
      Collect(mode, q.pool, i + 1, received + [q.ack], sched, k + 1)
  }

  /** What the receiving loop guarantees: it received, in order, a prefix of
      what was buffered and sent meanwhile, and it stopped as soon as the
      number received reached the counter as last read. */
  lemma {:induction false} CollectRuns(mode: Mode, p: Pool, i: nat, received: seq<bool>,
                                       sched: seq<seq<Move>>, k: nat)
    requires Inv(p) && Signalled(mode, p)
    ensures var r := Collect(mode, p, i, received, sched, k);
            && received <= r.received
            && Runs(p, r.pool, r.received[|received|..])
            && i + |r.received| - |received| >= r.pool.cores
    decreases p.cores - i
  {
    if i >= p.cores {
      RunsRefl(p);
      assert received[|received|..] == [];
      assert Collect(mode, p, i, received, sched, k) == Collected(p, received);
    } else {
      var q := Receive(mode, p, BurstAt(sched, k + 1));
      CollectRuns(mode, q.pool, i + 1, received + [q.ack], sched, k + 1);
      CollectStep(mode, p, i, received, sched, k);
    }
  }

  /** The inductive step of `CollectRuns`: one receive, then the rest. */
  lemma CollectStep(mode: Mode, p: Pool, i: nat, received: seq<bool>,
                    sched: seq<seq<Move>>, k: nat)
    requires Inv(p) && Signalled(mode, p) && i < p.cores
    requires var q := Receive(mode, p, BurstAt(sched, k + 1));
             var r := Collect(mode, q.pool, i + 1, received + [q.ack], sched, k + 1);
             && received + [q.ack] <= r.received
             && Runs(q.pool, r.pool, r.received[|received + [q.ack]|..])
             && i + 1 + |r.received| - |received + [q.ack]| >= r.pool.cores
    ensures var r := Collect(mode, p, i, received, sched, k);
            && received <= r.received
            && Runs(p, r.pool, r.received[|received|..])
            && i + |r.received| - |received| >= r.pool.cores
  {
    var q := Receive(mode, p, BurstAt(sched, k + 1));
    var r := Collect(mode, q.pool, i + 1, received + [q.ack], sched, k + 1);
    assert Collect(mode, p, i, received, sched, k) == r;
    RunsCons(p, q.pool, r.pool, q.ack, received, r.received);
  }

  /** `Kill` as written: close kill and receive while `i < GetCores()`. */
  function KillRun(p: Pool, sched: seq<seq<Move>>): (r: Collected)
    requires Inv(p) && !p.killed
    ensures Inv(r.pool)
  {
    var p0 := ApplyBurst(p.(killed := true), BurstAt(sched, 0));
    Collect(Killing, p0, 0, [], sched, 0)
  }

  /** `Stop` as written: close terminate and receive while `i < GetCores()`. */
  function StopRun(p: Pool, sched: seq<seq<Move>>): (r: Collected)
    requires Inv(p) && !p.terminated
    ensures Inv(r.pool)
  {
    var p0 := ApplyBurst(p.(terminated := true), BurstAt(sched, 0));
    Collect(Stopping, p0, 0, [], sched, 0)
  }

  /** `Kill` receives, in the order they were sent, acknowledgments that
      were buffered or sent meanwhile, each new one `true`; it stops once the
      number received reaches the counter as last read, and every worker
      that left meanwhile sent one acknowledgment. */
  lemma KillRunReports(p: Pool, sched: seq<seq<Move>>)
    requires Inv(p) && !p.killed
    ensures var r := KillRun(p, sched);
            && Inv(r.pool) && r.pool.killed && r.pool.terminated == p.terminated
            && p.sent <= r.pool.sent
            && r.received + r.pool.acks == p.acks + r.pool.sent[|p.sent|..]
            && (forall j :: |p.sent| <= j < |r.pool.sent| ==> r.pool.sent[j])
            && |r.received| >= r.pool.cores
            && |r.pool.sent| + r.pool.cores == |p.sent| + p.cores
  {
    KillRunRuns(p, sched);
  }

  /** `Kill` as written is a run from the state with kill closed. */
  lemma KillRunRuns(p: Pool, sched: seq<seq<Move>>)
    requires Inv(p) && !p.killed
    ensures var r := KillRun(p, sched);
            Runs(p.(killed := true), r.pool, r.received) && Inv(r.pool) && |r.received| >= r.pool.cores
  {
    SignalledRuns(Killing, p.(killed := true), sched);
  }

  /** `Stop` receives acknowledgments in the order they were sent, each new
      one `true`. The model has no move that sends to the input port, so the
      rest holds provided nothing is sent during the stop: while kill was
      never closed, once any worker has left the queue is empty, and graceful
      stop discards no queued item. */
  lemma StopRunReports(p: Pool, sched: seq<seq<Move>>)
    requires Inv(p) && !p.terminated
    ensures var r := StopRun(p, sched);
            && Inv(r.pool) && r.pool.terminated && r.pool.killed == p.killed
            && p.sent <= r.pool.sent
            && r.received + r.pool.acks == p.acks + r.pool.sent[|p.sent|..]
            && (forall j :: |p.sent| <= j < |r.pool.sent| ==> r.pool.sent[j])
            && |r.received| >= r.pool.cores
            && (!p.killed && |p.sent| < |r.pool.sent| ==> r.pool.queue == [])
            && Handed(p.calls) + p.queue == Handed(r.pool.calls) + r.pool.queue
  {
    StopRunRuns(p, sched);
  }

  /** `Stop` as written is a run from the state with terminate closed. */
  lemma StopRunRuns(p: Pool, sched: seq<seq<Move>>)
    requires Inv(p) && !p.terminated
    ensures var r := StopRun(p, sched);
            Runs(p.(terminated := true), r.pool, r.received) && Inv(r.pool) && |r.received| >= r.pool.cores
  {
    SignalledRuns(Stopping, p.(terminated := true), sched);
  }

  /** Once a signal is closed, the first burst and the receive loop of
      `Kill` and `Stop` as written form a run from that state. */
  lemma SignalledRuns(mode: Mode, p: Pool, sched: seq<seq<Move>>)
    requires Inv(p) && Signalled(mode, p)
    ensures var c := Collect(mode, ApplyBurst(p, BurstAt(sched, 0)), 0, [], sched, 0);
            Runs(p, c.pool, c.received) && Inv(c.pool) && |c.received| >= c.pool.cores
  {
    var p0 := ApplyBurst(p, BurstAt(sched, 0));
    CollectRuns(mode, p0, 0, [], sched, 0);
    var c := Collect(mode, p0, 0, [], sched, 0);
    assert c.received[0..] == c.received;
    assert Runs(p0, c.pool, c.received);
    RunsTrans(p, p0, c.pool, [], c.received);
    assert [] + c.received == c.received;
  }

  /** Counterexample to waiting for every worker, as written: two idle
      workers and no other interleaving. `Kill` reads GetCores() = 2, blocks,
      the first worker leaves (counter 1), its `true` is received (i = 1),
      GetCores() now reads 1 and the loop ends: `Kill` returns with one
      worker still live. */
  lemma KillReturnsBeforeAllWorkersLeft()
    ensures var p := Pool(2, [], [], [], false, false, [1, 2], []);
            var r := KillRun(p, []);
            && r.pool.workers == [2] && r.pool.cores == 1
            && r.received == [true] && r.pool.acks == []
  {
    var p := Pool(2, [], [], [], false, false, [1, 2], []);
    var p0 := p.(killed := true);
    assert ApplyBurst(p0, []) == p0;
    var p1 := Reaction(Killing, p0);
    assert p1 == CircleStep(p0, 0, KillArm).pool;
    assert p1 == p0.(cores := 1, acks := [true], sent := [true], workers := [2]);
    var p2 := p1.(acks := []);
    assert ApplyBurst(p2, []) == p2;
    assert Collect(Killing, p2, 1, [true], [], 1) == Collected(p2, [true]);
    assert Collect(Killing, p0, 0, [], [], 0) == Collected(p2, [true]);
  }

  /** The same for `Stop` (line 38): two idle workers and an empty queue.
      The first worker takes the terminate arm and leaves (counter 1), its
      acknowledgment is received (i = 1), the guard reads 1 and `Stop`
      returns while worker 2 is still live. */
  lemma StopReturnsBeforeAllWorkersLeft()
    ensures var p := Pool(2, [], [], [], false, false, [1, 2], []);
            var r := StopRun(p, []);
            && r.pool.workers == [2] && r.pool.cores == 1
            && r.received == [true] && r.pool.acks == []
  {
    var p := Pool(2, [], [], [], false, false, [1, 2], []);
    var p0 := p.(terminated := true);
    assert ApplyBurst(p0, []) == p0;
    var p1 := Reaction(Stopping, p0);
    assert p1 == CircleStep(p0, 0, TerminateArm).pool;
    assert p1 == p0.(cores := 1, acks := [true], sent := [true], workers := [2]);
    var p2 := p1.(acks := []);
    assert ApplyBurst(p2, []) == p2;
    assert Collect(Stopping, p2, 1, [true], [], 1) == Collected(p2, [true]);
    assert Collect(Stopping, p0, 0, [], [], 0) == Collected(p2, [true]);
  }

  /** Having received as many acknowledgments as there were buffered ones and
      live workers, every worker has left and everything sent was received. */
  lemma RunsToCompletion(p: Pool, r: Pool, taken: seq<bool>)
    requires Runs(p, r, taken) && Inv(r)
    requires |taken| == |p.acks| + p.cores
    ensures r.cores == 0 && r.workers == [] && r.acks == []
    ensures taken == p.acks + r.sent[|p.sent|..]
  {
    RunsCount(p, r, taken);
  }

  /** The receiving loop as evidently intended: wait for exactly `n`
      acknowledgments, `n` sampled once. */
  function CollectN(mode: Mode, p: Pool, n: nat, received: seq<bool>,
                    sched: seq<seq<Move>>, k: nat): (r: Collected)
    requires Inv(p) && Signalled(mode, p) && |p.acks| + p.cores >= n
    ensures Inv(r.pool)
    decreases n
  {
    if n == 0 then Collected(p, received)
    else
      var q := Receive(mode, p, BurstAt(sched, k + 1));
      RunsCount(p, q.pool, [q.ack]);
      CollectN(mode, q.pool, n - 1, received + [q.ack], sched, k + 1)
  }

  lemma {:induction false} CollectNRuns(mode: Mode, p: Pool, n: nat, received: seq<bool>,
                                        sched: seq<seq<Move>>, k: nat)
    requires Inv(p) && Signalled(mode, p) && |p.acks| + p.cores >= n
    ensures var r := CollectN(mode, p, n, received, sched, k);
            && received <= r.received && |r.received| == |received| + n
            && Runs(p, r.pool, r.received[|received|..])
    decreases n
  {
    if n == 0 {
      RunsRefl(p);
      assert received[|received|..] == [];
    } else {
      var q := Receive(mode, p, BurstAt(sched, k + 1));
      RunsCount(p, q.pool, [q.ack]);
      CollectNRuns(mode, q.pool, n - 1, received + [q.ack], sched, k + 1);
      CollectNStep(mode, p, n, received, sched, k);
    }
  }

  /** The inductive step of `CollectNRuns`: one receive, then the rest. */
  lemma CollectNStep(mode: Mode, p: Pool, n: nat, received: seq<bool>,
                     sched: seq<seq<Move>>, k: nat)
    requires Inv(p) && Signalled(mode, p) && |p.acks| + p.cores >= n > 0
    requires var q := Receive(mode, p, BurstAt(sched, k + 1));
             |q.pool.acks| + q.pool.cores >= n - 1
    requires var q := Receive(mode, p, BurstAt(sched, k + 1));
             var r := CollectN(mode, q.pool, n - 1, received + [q.ack], sched, k + 1);
             && received + [q.ack] <= r.received && |r.received| == |received + [q.ack]| + (n - 1)
             && Runs(q.pool, r.pool, r.received[|received + [q.ack]|..])
    ensures var r := CollectN(mode, p, n, received, sched, k);
            && received <= r.received && |r.received| == |received| + n
            && Runs(p, r.pool, r.received[|received|..])
  {
    var q := Receive(mode, p, BurstAt(sched, k + 1));
    var r := CollectN(mode, q.pool, n - 1, received + [q.ack], sched, k + 1);
    assert CollectN(mode, p, n, received, sched, k) == r;
    RunsCons(p, q.pool, r.pool, q.ack, received, r.received);
  }

  /** One receive taken off the front of `CollectN`. */
  lemma CollectNUnfold(mode: Mode, p: Pool, n: nat, received: seq<bool>,
                       sched: seq<seq<Move>>, k: nat)
    requires Inv(p) && Signalled(mode, p) && |p.acks| + p.cores >= n > 0
    ensures var q := Receive(mode, p, BurstAt(sched, k + 1));
            && Inv(q.pool) && Signalled(mode, q.pool) && |q.pool.acks| + q.pool.cores >= n - 1
            && CollectN(mode, p, n, received, sched, k)
               == CollectN(mode, q.pool, n - 1, received + [q.ack], sched, k + 1)
  {
    var q := Receive(mode, p, BurstAt(sched, k + 1));
    RunsCount(p, q.pool, [q.ack]);
  }

  /** `Kill` as evidently intended: `n := m.GetCores()` sampled at call time,
      then `close(m.kill)` and exactly `n` receives. */
  function KillAwaitingAll(p: Pool, sched: seq<seq<Move>>): (r: Collected)
    requires Inv(p) && !p.killed
    ensures Inv(r.pool)
  {
    var p0 := ApplyBurst(p.(killed := true), BurstAt(sched, 0));
    CollectN(Killing, p0, p.cores, [], sched, 0)
  }

  /** `Stop` as evidently intended: the count sampled once. */
  function StopAwaitingAll(p: Pool, sched: seq<seq<Move>>): (r: Collected)
    requires Inv(p) && !p.terminated
    ensures Inv(r.pool)
  {
    var p0 := ApplyBurst(p.(terminated := true), BurstAt(sched, 0));
    CollectN(Stopping, p0, p.cores, [], sched, 0)
  }

  /** Corrected kill: it returns only after every worker has left, having
      received one `true` from each of them. */
  lemma KillAwaitingAllWaitsForEveryWorker(p: Pool, sched: seq<seq<Move>>)
    requires Inv(p) && !p.killed && p.acks == []
    ensures var r := KillAwaitingAll(p, sched);
            && r.pool.workers == [] && r.pool.cores == 0 && r.pool.acks == []
            && |r.received| == p.cores
            && (forall j :: 0 <= j < |r.received| ==> r.received[j])
  {
    var p' := p.(killed := true);
    var p0 := ApplyBurst(p', BurstAt(sched, 0));
    CollectNRuns(Killing, p0, p.cores, [], sched, 0);
    var c := CollectN(Killing, p0, p.cores, [], sched, 0);
    assert c.received[0..] == c.received;
    assert Runs(p0, c.pool, c.received);
    RunsTrans(p', p0, c.pool, [], c.received);
    assert [] + c.received == c.received;
    RunsToCompletion(p', c.pool, c.received);
    assert KillAwaitingAll(p, sched) == c;
    forall j | 0 <= j < |c.received|
      ensures c.received[j]
    {
      assert c.received[j] == c.pool.sent[|p.sent| + j];
    }
  }

  /** Corrected stop, kill never closed and nothing sent to the input port
      meanwhile: it returns only after every worker has left, and every item
      that was queued has been handed to execFunc, in order. */
  lemma StopAwaitingAllDrains(p: Pool, sched: seq<seq<Move>>)
    requires Inv(p) && !p.terminated && !p.killed && p.acks == [] && p.cores > 0
    ensures var r := StopAwaitingAll(p, sched);
            && r.pool.workers == [] && r.pool.cores == 0 && r.pool.acks == []
            && |r.received| == p.cores
            && r.pool.queue == []
            && Handed(r.pool.calls) == Handed(p.calls) + p.queue
  {
    var p' := p.(terminated := true);
    var p0 := ApplyBurst(p', BurstAt(sched, 0));
    CollectNRuns(Stopping, p0, p.cores, [], sched, 0);
    var c := CollectN(Stopping, p0, p.cores, [], sched, 0);
    assert c.received[0..] == c.received;
    assert Runs(p0, c.pool, c.received);
    RunsTrans(p', p0, c.pool, [], c.received);
    assert [] + c.received == c.received;
    RunsToCompletion(p', c.pool, c.received);
    assert StopAwaitingAll(p, sched) == c;
  }

  class Conveer {
    const name: string
    const inputChan: Port<Element>
    const outputChan: Port<Report>
    const execFunc: ExecFunc
    const process: MutexRunner
    const ackCapacity: nat
    const wait: Port<bool>
    var terminated: bool
    var killed: bool
    var stopX: seq<bool>
    ghost var sent: seq<bool>
    var workers: seq<int>
    var calls: seq<Call>

    ghost predicate Valid()
      reads this, process
    {
      process.x == |workers|
    }

    ghost function State(): Pool
      reads this, process, inputChan
    {
      Pool(process.x, inputChan.buf, stopX, sent, terminated, killed, workers, calls)
    }

    /** `NewConveer`: input and output channels and an acknowledgment
        channel of capacity 1000, an unbuffered `Wait`, two open signals and
        a counter at zero. */
    constructor (name: string, execFunc: ExecFunc)
      ensures this.name == name && this.execFunc == execFunc
      ensures fresh(inputChan) && inputChan.capacity == 1000 && inputChan.buf == []
      ensures fresh(outputChan) && outputChan.capacity == 1000 && outputChan.buf == []
      ensures fresh(wait) && wait.capacity == 0 && wait.buf == []
      ensures fresh(process) && process.x == 0 && ackCapacity == 1000
      ensures stopX == [] && sent == [] && workers == [] && calls == []
      ensures !terminated && !killed
      ensures Valid()
    {
      this.name := name;
      this.execFunc := execFunc;
      inputChan := new Port(1000);
      outputChan := new Port(1000);
      ackCapacity := 1000;
      process := new MutexRunner();
      wait := new Port(0);
      terminated, killed := false, false;
      stopX, sent, workers, calls := [], [], [], [];
    }

    /** `GetCores`: the live-worker count, read-only. */
    method GetCores() returns (cores: int)
      ensures cores == process.x
    {
      cores := process.GetCores();
    }

    /** `RunMinions`: starts `parallels` workers, each with the id `addRun`
        returns. */
    method RunMinions(parallels: int)
      requires Valid()
      modifies this`workers, process
      ensures Valid()
      ensures process.x == old(process.x) + Conveyor.Max0(parallels)
      ensures workers == old(workers) + Conveyor.Ids(old(process.x), parallels)
    {
      var i := 1;
      while i <= parallels
        invariant 1 <= i <= Conveyor.Max0(parallels) + 1
        invariant process.x == old(process.x) + (i - 1)
        invariant workers == old(workers) + Conveyor.Ids(old(process.x), i - 1)
      {
        var gopher := process.AddRun();
        workers := workers + [gopher];  // go m.runMinion(gopher)
        i := i + 1;
      }
    }

    /** Whether the `select` of worker `w` may take `arm` now. */
    function CanTake(w: nat, arm: Arm): (b: bool)
      reads this, process, inputChan
      ensures b == Enabled(State(), w, arm)
    {
      && w < |workers|
      && match arm
         case ItemArm => inputChan.buf != []
         case TerminateArm => terminated
         case KillArm => killed
    }

    /** `stopX <- true; return`: the worker leaves its loop. */
    method Leave(w: nat)
      requires w < |workers|
      modifies this`stopX, this`sent, this`workers
      ensures stopX == old(stopX) + [true] && sent == old(sent) + [true]
      ensures workers == old(workers)[..w] + old(workers)[w + 1..]
    {
      stopX := stopX + [true];
      sent := sent + [true];
      workers := workers[..w] + workers[w + 1..];
    }

    /** One pass of `circle` for worker `w`, its `select` taking `arm`. */
    method Circle(w: nat, arm: Arm) returns (returned: bool)
      requires Valid() && CanTake(w, arm)
      modifies this`stopX, this`sent, this`workers, this`calls, process, inputChan
      ensures Valid()
      ensures var s := CircleStep(old(State()), w, arm);
              State() == s.pool && returned == s.returned
    {
      var gopher := workers[w];
      match arm {
        case ItemArm =>
          var element := inputChan.Receive();
          calls := calls + [Call(gopher, element)];  // m.execFunc(gopher, element, m.OutputChan)
          returned := false;
        case TerminateArm =>
          var depth := inputChan.Len();
          if depth == 0 {
            var left := process.PopRun();
            Leave(w);
            returned := true;
          } else {
            returned := false;
          }
        case KillArm =>
          var left := process.PopRun();
          Leave(w);
          returned := true;
      }
    }

    /** The workers' moves between two evaluations of a loop guard. */
    method RunBurst(burst: seq<Move>)
      requires Valid()
      modifies this`stopX, this`sent, this`workers, this`calls, process, inputChan
      ensures Valid()
      ensures State() == ApplyBurst(old(State()), burst)
    {
      for j := 0 to |burst|
        invariant Valid()
        invariant ApplyBurst(State(), burst[j..]) == ApplyBurst(old(State()), burst)
      {
        var mv := burst[j];
        assert burst[j..][1..] == burst[j + 1..];
        if CanTake(mv.worker, mv.arm) {
          var returned := Circle(mv.worker, mv.arm);
        }
      }
    }

    /** A receive from stopX would block: the workers run until one leaves. */
    method Unblock(mode: Mode)
      requires Valid() && Signalled(mode, State()) && workers != []
      modifies this`stopX, this`sent, this`workers, this`calls, process, inputChan
      ensures Valid()
      ensures State() == Reaction(mode, old(State()))
    {
      var returned;
      if mode == Killing {
        returned := Circle(0, KillArm);
      } else {
        var depth := inputChan.Len();
        while depth > 0
          invariant Valid() && workers != [] && terminated && depth == |inputChan.buf|
          invariant Reaction(mode, State()) == Reaction(mode, old(State()))
          decreases depth
        {
          returned := Circle(0, ItemArm);
          depth := inputChan.Len();
        }
        returned := Circle(0, TerminateArm);
      }
    }

    /** One pass of the receiving loop's body: `<-m.stopX`, then the moves
        the workers make before the guard is evaluated again. */
    method ReceiveAck(mode: Mode, burst: seq<Move>) returns (ack: bool)
      requires Valid() && Signalled(mode, State()) && (stopX != [] || workers != [])
      modifies this`stopX, this`sent, this`workers, this`calls, process, inputChan
      ensures Valid()
      ensures var r := Receive(mode, old(State()), burst);
              State() == r.pool && ack == r.ack
      ensures |stopX| + process.x + 1 == |old(stopX)| + old(process.x)
    {
      ghost var p := State();
      if stopX == [] {
        Unblock(mode);
      }
      ack := stopX[0];
      stopX := stopX[1..];
      RunBurst(burst);
      ghost var r := Receive(mode, p, burst);
      assert State() == r.pool && ack == r.ack;
      RunsCount(p, r.pool, [r.ack]);
    }

    /** `Kill`: close kill (a second close panics in Go, hence the
        precondition) and receive while `i < GetCores()`. */
    method Kill(sched: seq<seq<Move>>) returns (ghost received: seq<bool>)
      requires Valid() && !killed
      modifies this`killed, this`stopX, this`sent, this`workers, this`calls, process, inputChan
      ensures Valid()
      ensures var r := KillRun(old(State()), sched);
              State() == r.pool && received == r.received
    {
      killed := true;
      RunBurst(BurstAt(sched, 0));
      ghost var p0 := State();
      received := [];
      var i: nat, k: nat := 0, 0;
      var cores := GetCores();
      while i < cores
        invariant Valid() && killed
        invariant cores == process.x
        invariant Collect(Killing, State(), i, received, sched, k)
               == Collect(Killing, p0, 0, [], sched, 0)
        decreases cores - i
      {
        ghost var before := State();
        var ack := ReceiveAck(Killing, BurstAt(sched, k + 1));
        assert Collect(Killing, before, i, received, sched, k)
            == Collect(Killing, State(), i + 1, received + [ack], sched, k + 1);
        received := received + [ack];
        i, k := i + 1, k + 1;
        cores := GetCores();
      }
    }

    /** `Stop`: close terminate (once) and receive while `i < GetCores()`. */
    method Stop(sched: seq<seq<Move>>) returns (ghost received: seq<bool>)
      requires Valid() && !terminated
      modifies this`terminated, this`stopX, this`sent, this`workers, this`calls, process, inputChan
      ensures Valid()
      ensures var r := StopRun(old(State()), sched);
              State() == r.pool && received == r.received
    {
      terminated := true;
      RunBurst(BurstAt(sched, 0));
      ghost var p0 := State();
      received := [];
      var i: nat, k: nat := 0, 0;
      var cores := GetCores();
      while i < cores
        invariant Valid() && terminated
        invariant cores == process.x
        invariant Collect(Stopping, State(), i, received, sched, k)
               == Collect(Stopping, p0, 0, [], sched, 0)
        decreases cores - i
      {
        ghost var before := State();
        var ack := ReceiveAck(Stopping, BurstAt(sched, k + 1));
        assert Collect(Stopping, before, i, received, sched, k)
            == Collect(Stopping, State(), i + 1, received + [ack], sched, k + 1);
        received := received + [ack];
        i, k := i + 1, k + 1;
        cores := GetCores();
      }
    }

    /** One receive of the intended loop, `m` receives still to go. */
    method AwaitOne(mode: Mode, m: nat, ghost received: seq<bool>, sched: seq<seq<Move>>, k: nat)
      returns (ack: bool)
      requires Valid() && Signalled(mode, State()) && |stopX| + process.x >= m > 0
      modifies this`stopX, this`sent, this`workers, this`calls, process, inputChan
      ensures Valid() && Signalled(mode, State()) && |stopX| + process.x >= m - 1
      ensures CollectN(mode, State(), m - 1, received + [ack], sched, k + 1)
           == CollectN(mode, old(State()), m, received, sched, k)
    {
      CollectNUnfold(mode, State(), m, received, sched, k);
      ack := ReceiveAck(mode, BurstAt(sched, k + 1));
    }

    /** The receiving loop as evidently intended: exactly `n`
        acknowledgments, `n` read before the signal was closed. */
    method AwaitAcks(mode: Mode, n: nat, sched: seq<seq<Move>>) returns (ghost received: seq<bool>)
      requires Valid() && Signalled(mode, State()) && |stopX| + process.x >= n
      modifies this`stopX, this`sent, this`workers, this`calls, process, inputChan
      ensures Valid()
      ensures var r := CollectN(mode, old(State()), n, [], sched, 0);
              State() == r.pool && received == r.received
    {
      ghost var target := CollectN(mode, State(), n, [], sched, 0);
      received := [];
      var i: nat, k: nat := 0, 0;
      while i < n
        invariant Valid() && Signalled(mode, State()) && i <= n
        invariant |stopX| + process.x >= n - i
        invariant CollectN(mode, State(), n - i, received, sched, k) == target
      {
        var ack := AwaitOne(mode, n - i, received, sched, k);
        received := received + [ack];
        i, k := i + 1, k + 1;
      }
      assert CollectN(mode, State(), 0, received, sched, k) == Collected(State(), received);
    }

    /** `Kill` as evidently intended: the number of live workers is read once,
        before kill is closed, and exactly that many acknowledgments are
        received. */
    method KillAndWait(sched: seq<seq<Move>>) returns (ghost received: seq<bool>)
      requires Valid() && !killed
      modifies this`killed, this`stopX, this`sent, this`workers, this`calls, process, inputChan
      ensures Valid()
      ensures var r := KillAwaitingAll(old(State()), sched);
              State() == r.pool && received == r.received
    {
      ghost var p := State();
      var n: nat := GetCores();
      killed := true;
      ghost var p' := State();
      assert p' == p.(killed := true);
      RunBurst(BurstAt(sched, 0));
      RunsCount(p', State(), []);
      received := AwaitAcks(Killing, n, sched);
    }

    /** `Stop` as evidently intended: the number of live workers is read once,
        before terminate is closed, and exactly that many acknowledgments are
        received. */
    method StopAndWait(sched: seq<seq<Move>>) returns (ghost received: seq<bool>)
      requires Valid() && !terminated
      modifies this`terminated, this`stopX, this`sent, this`workers, this`calls, process, inputChan
      ensures Valid()
      ensures var r := StopAwaitingAll(old(State()), sched);
              State() == r.pool && received == r.received
    {
      ghost var p := State();
      var n: nat := GetCores();
      terminated := true;
      ghost var p' := State();
      assert p' == p.(terminated := true);
      RunBurst(BurstAt(sched, 0));
      RunsCount(p', State(), []);
      received := AwaitAcks(Stopping, n, sched);
    }
  }
}
