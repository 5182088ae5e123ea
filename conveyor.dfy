/** The worker pool of the `pipeline` package (`Conveer`): one input port, a
    live-worker counter, two one-shot signals (`terminate`, `kill`) and the
    acknowledgment channel `stopX`.

    Goroutines are not modelled as threads. A worker is an entry of `workers`
    (its `gopher` id); one pass of its `for { select { ... } }` loop is one call
    of `Circle` with the arm the `select` took as an argument. The receiving
    loops of `Kill` and `Stop` take a schedule: the burst of worker moves that
    run before each evaluation of the loop guard; when the receive would block,
    the first live worker reacts to the signal.

    The specification is a value-level state machine (`Pool`, `CircleStep`,
    `Collect`, `KillRun`, `StopRun`); the class `Conveer` implements it over
    the heap. */
module Conveyor {
  import opened Errors
  import opened Counter
  import opened Channels

  /** An element of a port, `[2]interface{}`: payload and error marker. The
      payload is opaque to the engine; a text stands for it. */
  datatype WorkItem = WorkItem(data: string, err: Option<Error>)

  /** The caller's `ProcessorFunc`. Its body is foreign code: only its identity
      is kept. */
  datatype ProcessorFunc = ProcessorFunc(id: nat)

  /** One start of `ProcessFunc`: the worker id and the element handed over. */
  datatype Call = Call(gopher: int, element: WorkItem)

  /** The arm of the worker's `select` that fires. `ItemArm` takes an element
      and starts ProcessFunc on it; the worker then waits in the inner
      `select`, where `ResultArm` (ProcessFunc finished) sends it back to its
      loop and `AbandonArm` (kill closed) leaves the call to the collector. */
  datatype Arm = ItemArm | ResultArm | AbandonArm | TerminateArm | KillArm

  /** Worker `worker` (an index into `workers`) takes `arm`. */
  datatype Move = Move(worker: nat, arm: Arm)

  /** The whole state of one conveyor. */
  datatype Pool = Pool(
    cores: int,                // process.x
    queue: seq<WorkItem>,      // contents of InputChan
    acks: seq<Option<Error>>,  // contents of stopX
    sent: seq<Option<Error>>,  // every acknowledgment ever sent to stopX
    terminated: bool,          // terminate is closed
    killed: bool,              // kill is closed
    workers: seq<int>,         // ids of the workers still inside circle
    busy: seq<bool>,           // whether each of them waits in the inner select
    calls: seq<Call>)          // ProcessFunc starts, in order

  function Max0(n: int): nat {
    if n < 0 then 0 else n
  }

  function Handed(calls: seq<Call>): (r: seq<WorkItem>)
    ensures |r| == |calls|
    ensures forall i :: 0 <= i < |calls| ==> r[i] == calls[i].element
  {
    seq(|calls|, i requires 0 <= i < |calls| => calls[i].element)
  }

  /** The counter counts exactly the workers still in their loop. */
  ghost predicate Inv(p: Pool) {
    p.cores == |p.workers| && |p.busy| == |p.workers|
  }

  /** `r` is reached from `p` by worker steps and by receiving `taken` from
      stopX: the history of acknowledgments only grows; what was received and
      what is still buffered is what was buffered plus what was sent since, in
      order; every worker that left sent exactly one acknowledgment; every
      item that left the queue went to ProcessFunc, in queue order; the
      signals are as they were. While kill is open, every acknowledgment sent
      is nil, and once a worker has left the queue is empty. */
  ghost predicate Runs(p: Pool, r: Pool, taken: seq<Option<Error>>) {
    && p.sent <= r.sent
    && taken + r.acks == p.acks + r.sent[|p.sent|..]
    && |r.sent| + r.cores == |p.sent| + p.cores
    && p.calls <= r.calls
    && Handed(p.calls) + p.queue == Handed(r.calls) + r.queue
    && r.killed == p.killed && r.terminated == p.terminated
    && (!p.killed ==> forall j :: |p.sent| <= j < |r.sent| ==> r.sent[j].None?)
    && (!p.killed && |p.sent| < |r.sent| ==> r.queue == [])
  }

  lemma RunsRefl(p: Pool)
    ensures Runs(p, p, [])
  {
    assert p.sent[|p.sent|..] == [];
  }

  lemma RunsTrans(p: Pool, q: Pool, r: Pool, t1: seq<Option<Error>>, t2: seq<Option<Error>>)
    requires Runs(p, q, t1) && Runs(q, r, t2)
    ensures Runs(p, r, t1 + t2)
  {
    var d1, d2 := q.sent[|p.sent|..], r.sent[|q.sent|..];
    assert d1 + d2 == r.sent[|p.sent|..];
    calc {
      t1 + t2 + r.acks;
      t1 + (t2 + r.acks);
      t1 + (q.acks + d2);
      (t1 + q.acks) + d2;
      p.acks + d1 + d2;
      p.acks + (d1 + d2);
    }
    if !p.killed {
      forall j | |p.sent| <= j < |r.sent|
        ensures r.sent[j].None?
      {
        if j < |q.sent| { assert r.sent[j] == q.sent[j]; }
      }
      if |p.sent| < |r.sent| && |q.sent| == |r.sent| {
        assert |Handed(q.calls)| <= |Handed(r.calls)|;
      }
    }
  }

  /** Receiving the oldest acknowledgment from stopX. */
  lemma RunsReceive(p: Pool)
    requires p.acks != []
    ensures Runs(p, p.(acks := p.acks[1..]), [p.acks[0]])
  {
    assert p.sent[|p.sent|..] == [];
  }

  /** Whether worker `w` may take `arm`: in the outer `select` a receive from
      the queue needs an element and a closed signal is always ready; in the
      inner one ProcessFunc may finish at any time and kill is ready once
      closed. */
  predicate Enabled(p: Pool, w: nat, arm: Arm) {
    && w < |p.workers| && w < |p.busy|
    && match arm
       case ItemArm => !p.busy[w] && p.queue != []
       case ResultArm => p.busy[w]
       case AbandonArm => p.busy[w] && p.killed
       case TerminateArm => !p.busy[w] && p.terminated
       case KillArm => !p.busy[w] && p.killed
  }

  datatype Step = Step(pool: Pool, returned: bool)

  /** `popRun(); stopX <- ack; return`. */
  function Leave(p: Pool, w: nat, ack: Option<Error>): Pool
    requires w < |p.workers| && w < |p.busy|
  {
    p.(cores := p.cores - 1, acks := p.acks + [ack], sent := p.sent + [ack],
       workers := p.workers[..w] + p.workers[w + 1..], busy := p.busy[..w] + p.busy[w + 1..])
  }

  /** One pass of `circle` for worker `w` when its `select` takes `arm`. */
  function CircleStep(node: string, p: Pool, w: nat, arm: Arm): (r: Step)
    requires Enabled(p, w, arm)
    ensures Inv(p) ==> Inv(r.pool)
    ensures Runs(p, r.pool, [])
    ensures r.returned <==> |r.pool.sent| == |p.sent| + 1
    ensures r.returned ==> && r.pool.workers == p.workers[..w] + p.workers[w + 1..]
                           && r.pool.busy == p.busy[..w] + p.busy[w + 1..]
    ensures !r.returned ==> r.pool.sent == p.sent && r.pool.workers == p.workers
    ensures arm == ItemArm ==> && !r.returned && r.pool.queue == p.queue[1..]
                               && r.pool.calls == p.calls + [Call(p.workers[w], p.queue[0])]
                               && r.pool.busy == p.busy[w := true]
    ensures arm == ResultArm ==> !r.returned && r.pool == p.(busy := p.busy[w := false])
    ensures arm != ItemArm ==> r.pool.queue == p.queue && r.pool.calls == p.calls
    ensures arm == TerminateArm ==> (r.returned <==> p.queue == [])
    ensures arm == TerminateArm && r.returned ==> r.pool.sent == p.sent + [None]
    ensures arm == TerminateArm && !r.returned ==> r.pool == p
    ensures arm == KillArm || arm == AbandonArm ==> r.returned
    ensures arm == KillArm ==>
      r.pool.sent == p.sent + [Some(Killed(node, p.workers[w], |p.queue|, LoopFinished))]
    ensures arm == AbandonArm ==>
      r.pool.sent == p.sent + [Some(Killed(node, p.workers[w], |p.queue|, LeftToCollector))]
  {
    var gopher := p.workers[w];
    assert p.sent[|p.sent|..] == [];
    match arm
    case ItemArm =>
      var q := p.(queue := p.queue[1..], calls := p.calls + [Call(gopher, p.queue[0])],
                  busy := p.busy[w := true]);
      assert Handed(q.calls) == Handed(p.calls) + [p.queue[0]];
      Step(q, false)
    case ResultArm =>
      Step(p.(busy := p.busy[w := false]), false)
    case AbandonArm =>
      var r := Leave(p, w, Some(Killed(node, gopher, |p.queue|, LeftToCollector)));
      assert r.sent[|p.sent|..] == [r.sent[|p.sent|]];
      Step(r, true)
    case TerminateArm =>
      if |p.queue| == 0 then
        var r := Leave(p, w, None);
        assert r.sent[|p.sent|..] == [None];
        Step(r, true)
      else
        Step(p, false)
    case KillArm =>
      var r := Leave(p, w, Some(Killed(node, gopher, |p.queue|, LoopFinished)));
      assert r.sent[|p.sent|..] == [r.sent[|p.sent|]];
      Step(r, true)
  }

  /** A scheduled move; one that the `select` could not take is skipped. */
  function ApplyMove(node: string, p: Pool, mv: Move): (r: Pool)
    ensures Inv(p) ==> Inv(r)
    ensures Runs(p, r, [])
  {
    if Enabled(p, mv.worker, mv.arm) then CircleStep(node, p, mv.worker, mv.arm).pool
    else RunsRefl(p); p
  }

  function ApplyBurst(node: string, p: Pool, burst: seq<Move>): (r: Pool)
    ensures Inv(p) ==> Inv(r)
    ensures Runs(p, r, [])
    decreases |burst|
  {
    if burst == [] then RunsRefl(p); p
    else
      var q := ApplyMove(node, p, burst[0]);
      var r := ApplyBurst(node, q, burst[1..]);
      RunsTrans(p, q, r, [], []);
      r
  }

  /** The burst that runs before the k-th evaluation of the loop guard. */
  function BurstAt(sched: seq<seq<Move>>, k: nat): seq<Move> {
    if k < |sched| then sched[k] else []
  }

  /** Which signal the receiving loop is waiting on. */
  datatype Mode = Killing | Stopping

  predicate Signalled(mode: Mode, p: Pool) {
    match mode
    case Killing => p.killed
    case Stopping => p.terminated
  }

  /** What a blocked receive from stopX waits for: some worker leaves. Under
      kill the first live worker leaves at once, abandoning its in-flight
      call if it has one; under stop it lets that call finish, processes the
      queued items and then takes the terminate arm. */
  function Reaction(node: string, mode: Mode, p: Pool): (r: Pool)
    requires Inv(p) && Signalled(mode, p) && p.workers != []
    ensures Inv(r) && Runs(p, r, [])
    ensures |r.sent| == |p.sent| + 1
    decreases 2 * |p.queue| + (if p.busy[0] then 1 else 0)
  {
    if mode == Killing then CircleStep(node, p, 0, if p.busy[0] then AbandonArm else KillArm).pool
    else if p.busy[0] || p.queue != [] then
      var q := CircleStep(node, p, 0, if p.busy[0] then ResultArm else ItemArm).pool;
      var r := Reaction(node, mode, q);
      RunsTrans(p, q, r, [], []);
      r
    else CircleStep(node, p, 0, TerminateArm).pool
  }

  datatype Received = Received(pool: Pool, ack: Option<Error>)

  /** One pass of the receiving loop's body: `<-m.stopX` (after the workers
      have run until there is an acknowledgment to take), then the workers'
      moves until the guard is evaluated again. */
  function Receive(node: string, mode: Mode, p: Pool, burst: seq<Move>): (r: Received)
    requires Inv(p) && Signalled(mode, p) && (p.acks != [] || p.workers != [])
    ensures Inv(r.pool) && Signalled(mode, r.pool)
    ensures Runs(p, r.pool, [r.ack])
  {
    var p1 := if p.acks == [] then Reaction(node, mode, p) else p;
    var p2 := p1.(acks := p1.acks[1..]);
    var p3 := ApplyBurst(node, p2, burst);
    RunsRefl(p);
    RunsReceive(p1);
    RunsTrans(p, p1, p2, [], [p1.acks[0]]);
    RunsTrans(p, p2, p3, [p1.acks[0]], []);
    Received(p3, p1.acks[0])
  }

  datatype Collected = Collected(pool: Pool, received: seq<Option<Error>>)

  /** The receiving loop of `Kill` and `Stop` as written:
      `for i := 0; i < m.GetCores(); i++ { <-m.stopX }`, the bound re-read on
      every evaluation of the guard. */
  function Collect(node: string, mode: Mode, p: Pool, i: nat, received: seq<Option<Error>>,
                   sched: seq<seq<Move>>, k: nat): (r: Collected)
    requires Inv(p) && Signalled(mode, p)
    ensures Inv(r.pool)
    decreases p.cores - i
  {
    if i >= p.cores then Collected(p, received)
    else
      var q := Receive(node, mode, p, BurstAt(sched, k + 1));
      Collect(node, mode, q.pool, i + 1, received + [q.ack], sched, k + 1)
  }

  /** Acknowledgments still to come, buffered or from live workers, less
      those taken. */
  lemma RunsCount(p: Pool, r: Pool, taken: seq<Option<Error>>)
    requires Runs(p, r, taken)
    ensures |taken| + |r.acks| + r.cores == |p.acks| + p.cores
  {
    assert |taken + r.acks| == |p.acks + r.sent[|p.sent|..]|;
  }

  /** One acknowledgment received, then the rest of the loop. */
  lemma RunsCons(p: Pool, q: Pool, r: Pool, ack: Option<Error>,
                 received: seq<Option<Error>>, all: seq<Option<Error>>)
    requires Runs(p, q, [ack])
    requires received + [ack] <= all && Runs(q, r, all[|received| + 1..])
    ensures received <= all && Runs(p, r, all[|received|..])
  {
    RunsTrans(p, q, r, [ack], all[|received| + 1..]);
    assert all[|received|..] == [ack] + all[|received| + 1..];
  }

  /** What the receiving loop guarantees: it received, in order, a prefix of
      what was buffered and sent meanwhile, and it stopped as soon as the
      number received reached the counter as last read. */
  lemma {:induction false} CollectRuns(node: string, mode: Mode, p: Pool, i: nat,
                                       received: seq<Option<Error>>, sched: seq<seq<Move>>, k: nat)
    requires Inv(p) && Signalled(mode, p)
    ensures var r := Collect(node, mode, p, i, received, sched, k);
            && received <= r.received
            && Runs(p, r.pool, r.received[|received|..])
            && i + |r.received| - |received| >= r.pool.cores
    decreases p.cores - i
  {
    if i >= p.cores {
      RunsRefl(p);
      assert received[|received|..] == [];
    } else {
      var q := Receive(node, mode, p, BurstAt(sched, k + 1));
      CollectRuns(node, mode, q.pool, i + 1, received + [q.ack], sched, k + 1);
      CollectStep(node, mode, p, i, received, sched, k);
    }
  }

  /** The inductive step of `CollectRuns`: one receive, then the rest. */
  lemma CollectStep(node: string, mode: Mode, p: Pool, i: nat, received: seq<Option<Error>>,
                    sched: seq<seq<Move>>, k: nat)
    requires Inv(p) && Signalled(mode, p) && i < p.cores
    requires var q := Receive(node, mode, p, BurstAt(sched, k + 1));
             var r := Collect(node, mode, q.pool, i + 1, received + [q.ack], sched, k + 1);
             && received + [q.ack] <= r.received
             && Runs(q.pool, r.pool, r.received[|received + [q.ack]|..])
             && i + 1 + |r.received| - |received + [q.ack]| >= r.pool.cores
    ensures var r := Collect(node, mode, p, i, received, sched, k);
            && received <= r.received
            && Runs(p, r.pool, r.received[|received|..])
            && i + |r.received| - |received| >= r.pool.cores
  {
    var q := Receive(node, mode, p, BurstAt(sched, k + 1));
    var r := Collect(node, mode, q.pool, i + 1, received + [q.ack], sched, k + 1);
    assert Collect(node, mode, p, i, received, sched, k) == r;
    RunsCons(p, q.pool, r.pool, q.ack, received, r.received);
  }

  datatype KillResult = KillResult(pool: Pool, received: seq<Option<Error>>, err: Option<Error>)

  /** `Kill` as written: close kill, receive while `i < GetCores()`, and
      combine the non-nil acknowledgments received. */
  function KillRun(node: string, p: Pool, sched: seq<seq<Move>>): (r: KillResult)
    requires Inv(p) && !p.killed
    ensures Inv(r.pool)
    ensures r.err.None? <==> NonNil(r.received) == []
  {
    var p0 := ApplyBurst(node, p.(killed := true), BurstAt(sched, 0));
    var c := Collect(node, Killing, p0, 0, [], sched, 0);
    KillResult(c.pool, c.received, Combined(NonNil(c.received)))
  }

  /** `Stop` as written: close terminate and receive while `i < GetCores()`. */
  function StopRun(node: string, p: Pool, sched: seq<seq<Move>>): (r: Collected)
    requires Inv(p) && !p.terminated
    ensures Inv(r.pool)
  {
    var p0 := ApplyBurst(node, p.(terminated := true), BurstAt(sched, 0));
    Collect(node, Stopping, p0, 0, [], sched, 0)
  }

  /** `Kill` returns the combination of exactly the non-nil acknowledgments it
      received, in the order they were sent; nil exactly when all were nil. It
      stops once the number received reaches the counter as last read, and
      every worker that left meanwhile sent one acknowledgment. */
  lemma KillRunReports(node: string, p: Pool, sched: seq<seq<Move>>)
    requires Inv(p) && !p.killed
    ensures var r := KillRun(node, p, sched);
            && Inv(r.pool) && r.pool.killed && r.pool.terminated == p.terminated
            && r.err == Combined(NonNil(r.received))
            && (r.err.None? <==> forall j :: 0 <= j < |r.received| ==> r.received[j].None?)
            && p.sent <= r.pool.sent
            && r.received + r.pool.acks == p.acks + r.pool.sent[|p.sent|..]
            && |r.received| >= r.pool.cores
            && |r.pool.sent| + r.pool.cores == |p.sent| + p.cores
  {
    KillRunRuns(node, p, sched);
    CombinedNonNilIsNone(KillRun(node, p, sched).received);
  }

  /** `Kill` as written is a run from the state with kill closed. */
  lemma KillRunRuns(node: string, p: Pool, sched: seq<seq<Move>>)
    requires Inv(p) && !p.killed
    ensures var r := KillRun(node, p, sched);
            Runs(p.(killed := true), r.pool, r.received) && Inv(r.pool) && |r.received| >= r.pool.cores
  {
    SignalledRuns(node, Killing, p.(killed := true), sched);
  }

  /** Receiving in order from a buffer `acks` followed by nil sends yields
      nil or something that was buffered. */
  lemma ReceivedNilOrBuffered(acks: seq<Option<Error>>, sent: seq<Option<Error>>,
                              received: seq<Option<Error>>, rest: seq<Option<Error>>)
    requires received + rest == acks + sent
    requires forall j :: 0 <= j < |sent| ==> sent[j].None?
    ensures forall j :: 0 <= j < |received| ==> received[j] == None || received[j] in acks
  {
    forall j | 0 <= j < |received|
      ensures received[j] == None || received[j] in acks
    {
      assert received[j] == (acks + sent)[j];
    }
  }

  /** `Stop` receives acknowledgments in the order they were sent, and while
      kill was never closed every one of them is nil. The model has no move
      that sends to the input port, so the rest holds provided nothing is
      sent during the stop: once any worker has left the queue is empty, and
      graceful stop discards no queued item. */
  lemma StopRunReports(node: string, p: Pool, sched: seq<seq<Move>>)
    requires Inv(p) && !p.terminated
    ensures var r := StopRun(node, p, sched);
            && Inv(r.pool) && r.pool.terminated && r.pool.killed == p.killed
            && p.sent <= r.pool.sent
            && r.received + r.pool.acks == p.acks + r.pool.sent[|p.sent|..]
            && |r.received| >= r.pool.cores
            && (!p.killed ==> forall j :: 0 <= j < |r.received| ==> r.received[j] == None || r.received[j] in p.acks)
            && (!p.killed && |p.sent| < |r.pool.sent| ==> r.pool.queue == [])
            && Handed(p.calls) + p.queue == Handed(r.pool.calls) + r.pool.queue
  {
    StopRunRuns(node, p, sched);
    var r := StopRun(node, p, sched);
    StoppedReports(p, r.pool, r.received);
  }

  /** `Stop` as written is a run from the state with terminate closed. */
  lemma StopRunRuns(node: string, p: Pool, sched: seq<seq<Move>>)
    requires Inv(p) && !p.terminated
    ensures var r := StopRun(node, p, sched);
            Runs(p.(terminated := true), r.pool, r.received) && Inv(r.pool) && |r.received| >= r.pool.cores
  {
    SignalledRuns(node, Stopping, p.(terminated := true), sched);
  }

  /** Once a signal is closed, the first burst and the receive loop of
      `Kill` and `Stop` as written form a run from that state. */
  lemma SignalledRuns(node: string, mode: Mode, p: Pool, sched: seq<seq<Move>>)
    requires Inv(p) && Signalled(mode, p)
    ensures var c := Collect(node, mode, ApplyBurst(node, p, BurstAt(sched, 0)), 0, [], sched, 0);
            Runs(p, c.pool, c.received) && Inv(c.pool) && |c.received| >= c.pool.cores
  {
    var p0 := ApplyBurst(node, p, BurstAt(sched, 0));
    CollectRuns(node, mode, p0, 0, [], sched, 0);
    var c := Collect(node, mode, p0, 0, [], sched, 0);
    assert c.received[0..] == c.received;
    assert Runs(p0, c.pool, c.received);
    RunsTrans(p, p0, c.pool, [], c.received);
    assert [] + c.received == c.received;
  }

  /** What `StopRunReports` states, for any run from `p` with terminate
      closed that received at least as many acknowledgments as workers left. */
  lemma StoppedReports(p: Pool, q: Pool, received: seq<Option<Error>>)
    requires Runs(p.(terminated := true), q, received) && Inv(q) && |received| >= q.cores
    ensures && q.terminated && q.killed == p.killed
            && p.sent <= q.sent
            && received + q.acks == p.acks + q.sent[|p.sent|..]
            && (!p.killed ==> forall j :: 0 <= j < |received| ==> received[j] == None || received[j] in p.acks)
            && (!p.killed && |p.sent| < |q.sent| ==> q.queue == [])
            && Handed(p.calls) + p.queue == Handed(q.calls) + q.queue
  {
    if !p.killed {
      ReceivedNilOrBuffered(p.acks, q.sent[|p.sent|..], received, q.acks);
    }
  }

  /** Counterexample to waiting for every worker, as written: two idle
      workers and no other interleaving. `Kill` reads GetCores() = 2, blocks,
      the first worker leaves (counter 1), the acknowledgment is received
      (i = 1), GetCores() now reads 1 and the loop ends: `Kill` returns with
      one worker still live and its error never collected. */
  lemma KillReturnsBeforeAllWorkersLeft()
    ensures var p := Pool(2, [], [], [], false, false, [1, 2], [false, false], []);
            var r := KillRun("md5", p, []);
            && r.pool.workers == [2] && r.pool.cores == 1
            && |r.received| == 1 && r.pool.acks == []
  {
    var p := Pool(2, [], [], [], false, false, [1, 2], [false, false], []);
    var p0 := p.(killed := true);
    assert ApplyBurst("md5", p0, []) == p0;
    var p1 := Reaction("md5", Killing, p0);
    assert p1 == CircleStep("md5", p0, 0, KillArm).pool;
    var e := Some(Killed("md5", 1, 0, LoopFinished));
    assert p1 == p0.(cores := 1, acks := [e], sent := [e], workers := [2], busy := [false]);
    var p2 := p1.(acks := []);
    assert ApplyBurst("md5", p2, []) == p2;
    assert Collect("md5", Killing, p2, 1, [e], [], 1) == Collected(p2, [e]);
    assert Collect("md5", Killing, p0, 0, [], [], 0) == Collected(p2, [e]);
  }

  /** The same for `Stop` (line 60): two idle workers and an empty queue.
      The first worker takes the terminate arm and leaves (counter 1), its
      nil acknowledgment is received (i = 1), the guard reads 1 and `Stop`
      returns while worker 2 is still live. */
  lemma StopReturnsBeforeAllWorkersLeft()
    ensures var p := Pool(2, [], [], [], false, false, [1, 2], [false, false], []);
            var r := StopRun("md5", p, []);
            && r.pool.workers == [2] && r.pool.cores == 1
            && r.received == [None] && r.pool.acks == []
  {
    var p := Pool(2, [], [], [], false, false, [1, 2], [false, false], []);
    var p0 := p.(terminated := true);
    assert ApplyBurst("md5", p0, []) == p0;
    var p1 := Reaction("md5", Stopping, p0);
    assert p1 == CircleStep("md5", p0, 0, TerminateArm).pool;
    assert p1 == p0.(cores := 1, acks := [None], sent := [None], workers := [2], busy := [false]);
    var p2 := p1.(acks := []);
    assert ApplyBurst("md5", p2, []) == p2;
    assert Collect("md5", Stopping, p2, 1, [None], [], 1) == Collected(p2, [None]);
    assert Collect("md5", Stopping, p0, 0, [], [], 0) == Collected(p2, [None]);
  }

  /** An item taken before kill is closed can still be abandoned: both
      workers take an element of [x, y, z] while kill is open, then `Kill`
      closes it and worker 1 leaves its call to the collector, reporting the
      queue depth at that moment, 1. */
  lemma KillAbandonsInFlightItem()
    ensures var x, y, z := WorkItem("x", None), WorkItem("y", None), WorkItem("z", None);
            var p := Pool(2, [x, y, z], [], [], false, false, [1, 2], [false, false], []);
            var q := ApplyBurst("md5", p, [Move(0, ItemArm), Move(1, ItemArm)]);
            var r := KillRun("md5", q, []);
            && Handed(q.calls) == [x, y] && q.queue == [z]
            && r.received == [Some(Killed("md5", 1, 1, LeftToCollector))]
  {
    var x, y, z := WorkItem("x", None), WorkItem("y", None), WorkItem("z", None);
    var p := Pool(2, [x, y, z], [], [], false, false, [1, 2], [false, false], []);
    var p1 := CircleStep("md5", p, 0, ItemArm).pool;
    assert p1 == p.(queue := [y, z], calls := [Call(1, x)], busy := [true, false]);
    var q := CircleStep("md5", p1, 1, ItemArm).pool;
    assert q == p.(queue := [z], calls := [Call(1, x), Call(2, y)], busy := [true, true]);
    assert ApplyBurst("md5", q, []) == q;
    assert ApplyBurst("md5", p1, [Move(1, ItemArm)]) == q;
    assert ApplyBurst("md5", p, [Move(0, ItemArm), Move(1, ItemArm)]) == q;
    assert Handed(q.calls) == [x, y];
    var q0 := q.(killed := true);
    assert ApplyBurst("md5", q0, []) == q0;
    var e := Some(Killed("md5", 1, 1, LeftToCollector));
    var q1 := Reaction("md5", Killing, q0);
    assert q1 == CircleStep("md5", q0, 0, AbandonArm).pool;
    assert q1 == q0.(cores := 1, acks := [e], sent := [e], workers := [2], busy := [true]);
    var q2 := q1.(acks := []);
    assert ApplyBurst("md5", q2, []) == q2;
    assert Collect("md5", Killing, q2, 1, [e], [], 1) == Collected(q2, [e]);
    assert Collect("md5", Killing, q0, 0, [], [], 0) == Collected(q2, [e]);
  }

  /** Having received as many acknowledgments as there were buffered ones and
      live workers, every worker has left and everything sent was received. */
  lemma RunsToCompletion(p: Pool, r: Pool, taken: seq<Option<Error>>)
    requires Runs(p, r, taken) && Inv(r)
    requires |taken| == |p.acks| + p.cores
    ensures r.cores == 0 && r.workers == [] && r.acks == []
    ensures taken == p.acks + r.sent[|p.sent|..]
  {
    assert |taken| + |r.acks| == |p.acks| + |r.sent| - |p.sent|;
  }

  /** The receiving loop as evidently intended: wait for exactly `n`
      acknowledgments, `n` sampled once. */
  function CollectN(node: string, mode: Mode, p: Pool, n: nat, received: seq<Option<Error>>,
                    sched: seq<seq<Move>>, k: nat): (r: Collected)
    requires Inv(p) && Signalled(mode, p) && |p.acks| + p.cores >= n
    ensures Inv(r.pool)
    decreases n
  {
    if n == 0 then Collected(p, received)
    else
      var q := Receive(node, mode, p, BurstAt(sched, k + 1));
      RunsCount(p, q.pool, [q.ack]);
      CollectN(node, mode, q.pool, n - 1, received + [q.ack], sched, k + 1)
  }

  lemma {:induction false} CollectNRuns(node: string, mode: Mode, p: Pool, n: nat,
                                        received: seq<Option<Error>>, sched: seq<seq<Move>>, k: nat)
    requires Inv(p) && Signalled(mode, p) && |p.acks| + p.cores >= n
    ensures var r := CollectN(node, mode, p, n, received, sched, k);
            && received <= r.received && |r.received| == |received| + n
            && Runs(p, r.pool, r.received[|received|..])
    decreases n
  {
    if n == 0 {
      RunsRefl(p);
      assert received[|received|..] == [];
    } else {
      var q := Receive(node, mode, p, BurstAt(sched, k + 1));
      RunsCount(p, q.pool, [q.ack]);
      CollectNRuns(node, mode, q.pool, n - 1, received + [q.ack], sched, k + 1);
      CollectNStep(node, mode, p, n, received, sched, k);
    }
  }

  /** The inductive step of `CollectNRuns`: one receive, then the rest. */
  lemma CollectNStep(node: string, mode: Mode, p: Pool, n: nat, received: seq<Option<Error>>,
                     sched: seq<seq<Move>>, k: nat)
    requires Inv(p) && Signalled(mode, p) && |p.acks| + p.cores >= n > 0
    requires var q := Receive(node, mode, p, BurstAt(sched, k + 1));
             |q.pool.acks| + q.pool.cores >= n - 1
    requires var q := Receive(node, mode, p, BurstAt(sched, k + 1));
             var r := CollectN(node, mode, q.pool, n - 1, received + [q.ack], sched, k + 1);
             && received + [q.ack] <= r.received && |r.received| == |received + [q.ack]| + (n - 1)
             && Runs(q.pool, r.pool, r.received[|received + [q.ack]|..])
    ensures var r := CollectN(node, mode, p, n, received, sched, k);
            && received <= r.received && |r.received| == |received| + n
            && Runs(p, r.pool, r.received[|received|..])
  {
    var q := Receive(node, mode, p, BurstAt(sched, k + 1));
    var r := CollectN(node, mode, q.pool, n - 1, received + [q.ack], sched, k + 1);
    assert CollectN(node, mode, p, n, received, sched, k) == r;
    RunsCons(p, q.pool, r.pool, q.ack, received, r.received);
  }

  /** `Kill` as evidently intended: `n := m.GetCores()` sampled at call time,
      then `close(m.kill)` and exactly `n` receives. */
  function KillAwaitingAll(node: string, p: Pool, sched: seq<seq<Move>>): (r: KillResult)
    requires Inv(p) && !p.killed
    ensures Inv(r.pool)
    ensures r.err.None? <==> NonNil(r.received) == []
  {
    var p0 := ApplyBurst(node, p.(killed := true), BurstAt(sched, 0));
    var c := CollectN(node, Killing, p0, p.cores, [], sched, 0);
    KillResult(c.pool, c.received, Combined(NonNil(c.received)))
  }

  /** `Stop` as evidently intended: the count sampled once. */
  function StopAwaitingAll(node: string, p: Pool, sched: seq<seq<Move>>): (r: Collected)
    requires Inv(p) && !p.terminated
    ensures Inv(r.pool)
  {
    var p0 := ApplyBurst(node, p.(terminated := true), BurstAt(sched, 0));
    CollectN(node, Stopping, p0, p.cores, [], sched, 0)
  }

  /** Corrected kill: it returns only after every worker has left, having
      received every acknowledgment they sent, in order, and it reports the
      error of each of them. */
  lemma KillAwaitingAllWaitsForEveryWorker(node: string, p: Pool, sched: seq<seq<Move>>)
    requires Inv(p) && !p.killed && p.acks == []
    ensures var r := KillAwaitingAll(node, p, sched);
            && r.pool.workers == [] && r.pool.cores == 0 && r.pool.acks == []
            && |r.received| == p.cores
            && p.sent <= r.pool.sent && r.received == r.pool.sent[|p.sent|..]
            && r.err == Combined(NonNil(r.received))
  {
    var p' := p.(killed := true);
    var p0 := ApplyBurst(node, p', BurstAt(sched, 0));
    CollectNRuns(node, Killing, p0, p.cores, [], sched, 0);
    var c := CollectN(node, Killing, p0, p.cores, [], sched, 0);
    assert c.received[0..] == c.received;
    assert Runs(p0, c.pool, c.received);
    RunsTrans(p', p0, c.pool, [], c.received);
    assert [] + c.received == c.received;
    RunsToCompletion(p', c.pool, c.received);
    assert KillAwaitingAll(node, p, sched) == KillResult(c.pool, c.received, Combined(NonNil(c.received)));
  }

  /** Corrected stop, kill never closed and nothing sent to the input port
      meanwhile: it returns only after every worker has left, every
      acknowledgment is nil, and every item that was queued has been handed
      to ProcessFunc, in order. */
  lemma StopAwaitingAllDrains(node: string, p: Pool, sched: seq<seq<Move>>)
    requires Inv(p) && !p.terminated && !p.killed && p.acks == [] && p.cores > 0
    ensures var r := StopAwaitingAll(node, p, sched);
            && r.pool.workers == [] && r.pool.cores == 0 && r.pool.acks == []
            && |r.received| == p.cores
            && (forall j :: 0 <= j < |r.received| ==> r.received[j] == None)
            && r.pool.queue == []
            && Handed(r.pool.calls) == Handed(p.calls) + p.queue
  {
    var p' := p.(terminated := true);
    var p0 := ApplyBurst(node, p', BurstAt(sched, 0));
    CollectNRuns(node, Stopping, p0, p.cores, [], sched, 0);
    var c := CollectN(node, Stopping, p0, p.cores, [], sched, 0);
    assert c.received[0..] == c.received;
    assert Runs(p0, c.pool, c.received);
    RunsTrans(p', p0, c.pool, [], c.received);
    assert [] + c.received == c.received;
    RunsToCompletion(p', c.pool, c.received);
    assert StopAwaitingAll(node, p, sched) == c;
    forall j | 0 <= j < |c.received|
      ensures c.received[j] == None
    {
      assert c.received[j] == c.pool.sent[|p.sent| + j];
    }
  }

  /** The `busy` flags of `n` workers just started: none waits on a call. */
  function Idle(n: int): (r: seq<bool>)
    ensures |r| == Max0(n) && forall j :: 0 <= j < |r| ==> !r[j]
  {
    seq(Max0(n), _ => false)
  }

  /** Worker ids handed out by `RunMinions(n)` from counter `c`: c+1 .. c+n. */
  function Ids(c: int, n: int): (r: seq<int>)
    ensures |r| == Max0(n)
    ensures forall j :: 0 <= j < |r| ==> r[j] == c + 1 + j
  {
    if n <= 0 then [] else Ids(c, n - 1) + [c + n]
  }

  class Conveer {
    const name: string
    const processFunc: ProcessorFunc
    const inputs: Registry<WorkItem>
    const outputs: Registry<WorkItem>
    const inputChan: Port?<WorkItem>
    const outputChan: Port?<WorkItem>
    const process: MutexRunner
    const ackCapacity: nat
    var terminated: bool
    var killed: bool
    var stopX: seq<Option<Error>>
    ghost var sent: seq<Option<Error>>
    var workers: seq<int>
    var busy: seq<bool>
    var calls: seq<Call>

    ghost predicate Valid()
      reads this, process
    {
      process.x == |workers| && |busy| == |workers|
    }

    /** Contents of InputChan; a nil channel holds nothing. */
    function Queue(): seq<WorkItem>
      reads this, inputChan
    {
      if inputChan == null then [] else inputChan.buf
    }

    ghost function State(): Pool
      reads this, process, inputChan
    {
      Pool(process.x, Queue(), stopX, sent, terminated, killed, workers, busy, calls)
    }

    /** The state that belongs to this conveyor alone: all of it but the
        contents of the input port, which other conveyors may share. */
    ghost function Core(): Pool
      reads this, process
    {
      Pool(process.x, [], stopX, sent, terminated, killed, workers, busy, calls)
    }

    /** `NewConveer`: binds the ports registered under `name`, an
        acknowledgment channel of capacity 1000 and a fresh counter. */
    constructor (name: string, execFunc: ProcessorFunc, inputs: Registry<WorkItem>, outputs: Registry<WorkItem>)
      ensures this.name == name && processFunc == execFunc
      ensures this.inputs == inputs && this.outputs == outputs
      ensures inputChan == inputs.Lookup(name) && outputChan == outputs.Lookup(name)
      ensures fresh(process) && process.x == 0 && ackCapacity == 1000
      ensures stopX == [] && sent == [] && workers == [] && busy == [] && calls == []
      ensures !terminated && !killed
      ensures Valid()
    {
      this.name := name;
      processFunc := execFunc;
      this.inputs := inputs;
      this.outputs := outputs;
      inputChan := inputs.Lookup(name);
      outputChan := outputs.Lookup(name);
      ackCapacity := 1000;
      process := new MutexRunner();
      terminated, killed := false, false;
      stopX, sent, workers, busy, calls := [], [], [], [], [];
    }

    /** `GetCores`: the live-worker count, read-only. */
    method GetCores() returns (cores: int)
      ensures cores == process.x
    {
      cores := process.GetCores();
    }

    /** `RunMinions`: starts `parallels` workers, each with the id `addRun`
        returns. */
    method RunMinions(parallels: int)
      requires Valid()
      modifies this`workers, this`busy, process
      ensures Valid()
      ensures process.x == old(process.x) + Max0(parallels)
      ensures workers == old(workers) + Ids(old(process.x), parallels)
      ensures busy == old(busy) + Idle(parallels)
    {
      var i := 1;
      while i <= parallels
        invariant 1 <= i <= Max0(parallels) + 1
        invariant process.x == old(process.x) + (i - 1)
        invariant workers == old(workers) + Ids(old(process.x), i - 1)
        invariant busy == old(busy) + Idle(i - 1)
      {
        var gopher := process.AddRun();
        workers := workers + [gopher];  // go m.runMinion(gopher)
        busy := busy + [false];
        i := i + 1;
      }
    }

    /** `len(m.InputChan)`. */
    method QueueLen() returns (n: nat)
      ensures n == |Queue()|
    {
      if inputChan == null {
        n := 0;
      } else {
        n := inputChan.Len();
      }
    }

    /** Whether the `select` of worker `w` may take `arm` now. */
    function CanTake(w: nat, arm: Arm): (b: bool)
      reads this, process, inputChan
      ensures b == Enabled(State(), w, arm)
    {
      && w < |workers| && w < |busy|
      && match arm
         case ItemArm => !busy[w] && Queue() != []
         case ResultArm => busy[w]
         case AbandonArm => busy[w] && killed
         case TerminateArm => !busy[w] && terminated
         case KillArm => !busy[w] && killed
    }

    /** `stopX <- ack; return`: the worker leaves its loop. */
    method Leave(w: nat, ack: Option<Error>)
      requires w < |workers| && w < |busy|
      modifies this`stopX, this`sent, this`workers, this`busy
      ensures stopX == old(stopX) + [ack] && sent == old(sent) + [ack]
      ensures workers == old(workers)[..w] + old(workers)[w + 1..]
      ensures busy == old(busy)[..w] + old(busy)[w + 1..]
    {
      stopX := stopX + [ack];
      sent := sent + [ack];
      workers := workers[..w] + workers[w + 1..];
      busy := busy[..w] + busy[w + 1..];
    }

    /** One pass of `circle` for worker `w`, its `select` taking `arm`. */
    method Circle(w: nat, arm: Arm) returns (returned: bool)
      requires Valid() && CanTake(w, arm)
      modifies this`stopX, this`sent, this`workers, this`busy, this`calls, process, inputChan
      ensures Valid()
      ensures var s := CircleStep(name, old(State()), w, arm);
              State() == s.pool && returned == s.returned
    {
      var gopher := workers[w];
      match arm {
        case ItemArm =>
          var element := inputChan.Receive();
          calls := calls + [Call(gopher, element)];  // go m.ProcessFunc(gopher, element, ...)
          busy := busy[w := true];
          returned := false;
        case ResultArm =>
          busy := busy[w := false];
          returned := false;
        case AbandonArm =>
          var left := process.PopRun();
          var depth := QueueLen();
          Leave(w, Some(Killed(name, gopher, depth, LeftToCollector)));
          returned := true;
        case TerminateArm =>
          var depth := QueueLen();
          if depth == 0 {
            var left := process.PopRun();
            Leave(w, None);
            returned := true;
          } else {
            returned := false;
          }
        case KillArm =>
          var left := process.PopRun();
          var depth := QueueLen();
          Leave(w, Some(Killed(name, gopher, depth, LoopFinished)));
          returned := true;
      }
    }

    /** The workers' moves between two evaluations of a loop guard. */
    method RunBurst(burst: seq<Move>)
      requires Valid()
      modifies this`stopX, this`sent, this`workers, this`busy, this`calls, process, inputChan
      ensures Valid()
      ensures State() == ApplyBurst(name, old(State()), burst)
    {
      for j := 0 to |burst|
        invariant Valid()
        invariant ApplyBurst(name, State(), burst[j..]) == ApplyBurst(name, old(State()), burst)
      {
        var mv := burst[j];
        assert burst[j..][1..] == burst[j + 1..];
        if CanTake(mv.worker, mv.arm) {
          var returned := Circle(mv.worker, mv.arm);
        }
      }
    }

    /** A receive from stopX would block: the workers run until one leaves. */
    method Unblock(mode: Mode)
      requires Valid() && Signalled(mode, State()) && workers != []
      modifies this`stopX, this`sent, this`workers, this`busy, this`calls, process, inputChan
      ensures Valid()
      ensures State() == Reaction(name, mode, old(State()))
    {
      var returned;
      if mode == Killing {
        returned := Circle(0, if busy[0] then AbandonArm else KillArm);
      } else {
        if busy[0] {
          returned := Circle(0, ResultArm);
        }
        var depth := QueueLen();
        while depth > 0
          invariant Valid() && workers != [] && terminated && depth == |Queue()| && !busy[0]
          invariant Reaction(name, mode, State()) == Reaction(name, mode, old(State()))
          decreases depth
        {
          returned := Circle(0, ItemArm);
          returned := Circle(0, ResultArm);
          depth := QueueLen();
        }
        returned := Circle(0, TerminateArm);
      }
    }

    /** One pass of the receiving loop's body: `<-m.stopX`, then the moves
        the workers make before the guard is evaluated again. */
    method ReceiveAck(mode: Mode, burst: seq<Move>) returns (ack: Option<Error>)
      requires Valid() && Signalled(mode, State()) && (stopX != [] || workers != [])
      modifies this`stopX, this`sent, this`workers, this`busy, this`calls, process, inputChan
      ensures Valid()
      ensures var r := Receive(name, mode, old(State()), burst);
              State() == r.pool && ack == r.ack
      ensures |stopX| + process.x + 1 == |old(stopX)| + old(process.x)
    {
      ghost var p := State();
      if stopX == [] {
        Unblock(mode);
      }
      ack := stopX[0];
      stopX := stopX[1..];
      RunBurst(burst);
      ghost var r := Receive(name, mode, p, burst);
      assert State() == r.pool && ack == r.ack;
      RunsCount(p, r.pool, [r.ack]);
    }

    /** One pass of `Kill`'s loop body: `errRoutine := <-m.stopX`, kept in
        `errorsSlice` when non-nil, then the moves the workers make before
        the guard is evaluated again. */
    method ReceiveError(burst: seq<Move>, errorsSlice: seq<Error>, ghost received: seq<Option<Error>>)
      returns (errorsSlice': seq<Error>, ghost received': seq<Option<Error>>)
      requires Valid() && killed && (stopX != [] || workers != [])
      requires errorsSlice == NonNil(received)
      modifies this`stopX, this`sent, this`workers, this`busy, this`calls, process, inputChan
      ensures Valid() && killed
      ensures var r := Receive(name, Killing, old(State()), burst);
              State() == r.pool && received' == received + [r.ack]
      ensures errorsSlice' == NonNil(received')
      ensures |stopX| + process.x + 1 == |old(stopX)| + old(process.x)
    {
      var errRoutine := ReceiveAck(Killing, burst);
      NonNilAppend(received, [errRoutine]);
      received' := received + [errRoutine];
      errorsSlice' := errorsSlice;
      if errRoutine.Some? {
        errorsSlice' := errorsSlice' + [errRoutine.value];
      }
    }

    /** `Kill`: close kill (a second close panics in Go, hence the
        precondition), receive while `i < GetCores()`, and return the
        combination of the non-nil acknowledgments. */
    method Kill(sched: seq<seq<Move>>) returns (err: Option<Error>, ghost received: seq<Option<Error>>)
      requires Valid() && !killed
      modifies this`killed, this`stopX, this`sent, this`workers, this`busy, this`calls, process, inputChan
      ensures Valid()
      ensures var r := KillRun(name, old(State()), sched);
              State() == r.pool && received == r.received && err == r.err
    {
      killed := true;
      RunBurst(BurstAt(sched, 0));
      ghost var p0 := State();
      var errorsSlice: seq<Error> := [];
      received := [];
      var i: nat, k: nat := 0, 0;
      var cores := GetCores();
      while i < cores
        invariant Valid() && killed
        invariant cores == process.x
        invariant errorsSlice == NonNil(received)
        invariant Collect(name, Killing, State(), i, received, sched, k)
               == Collect(name, Killing, p0, 0, [], sched, 0)
        decreases cores - i
      {
        ghost var before, received0 := State(), received;
        errorsSlice, received := ReceiveError(BurstAt(sched, k + 1), errorsSlice, received);
        assert Collect(name, Killing, before, i, received0, sched, k)
            == Collect(name, Killing, State(), i + 1, received, sched, k + 1);
        i, k := i + 1, k + 1;
        cores := GetCores();
      }
      err := CombineErrors(errorsSlice);
    }

    /** `Stop`: close terminate (once) and receive while `i < GetCores()`. */
    method Stop(sched: seq<seq<Move>>) returns (ghost received: seq<Option<Error>>)
      requires Valid() && !terminated
      modifies this`terminated, this`stopX, this`sent, this`workers, this`busy, this`calls, process, inputChan
      ensures Valid()
      ensures var r := StopRun(name, old(State()), sched);
              State() == r.pool && received == r.received
    {
      terminated := true;
      RunBurst(BurstAt(sched, 0));
      ghost var p0 := State();
      received := [];
      var i: nat, k: nat := 0, 0;
      var cores := GetCores();
      while i < cores
        invariant Valid() && terminated
        invariant cores == process.x
        invariant Collect(name, Stopping, State(), i, received, sched, k)
               == Collect(name, Stopping, p0, 0, [], sched, 0)
        decreases cores - i
      {
        ghost var before := State();
        var ack := ReceiveAck(Stopping, BurstAt(sched, k + 1));
        assert Collect(name, Stopping, before, i, received, sched, k)
            == Collect(name, Stopping, State(), i + 1, received + [ack], sched, k + 1);
        received := received + [ack];
        i, k := i + 1, k + 1;
        cores := GetCores();
      }
    }

    /** `Kill` as evidently intended: the number of live workers is read once,
        before kill is closed, and exactly that many acknowledgments are
        received. */
    method KillAndWait(sched: seq<seq<Move>>) returns (err: Option<Error>, ghost received: seq<Option<Error>>)
      requires Valid() && !killed
      modifies this`killed, this`stopX, this`sent, this`workers, this`busy, this`calls, process, inputChan
      ensures Valid()
      ensures var r := KillAwaitingAll(name, old(State()), sched);
              State() == r.pool && received == r.received && err == r.err
    {
      ghost var p := State();
      var cores := GetCores();
      var n: nat := cores;
      killed := true;
      ghost var p' := State();
      assert p' == p.(killed := true);
      RunBurst(BurstAt(sched, 0));
      ghost var p0 := State();
      RunsCount(p', p0, []);
      assert |p0.acks| + p0.cores >= n;
      var errorsSlice: seq<Error> := [];
      received := [];
      var i: nat, k: nat := 0, 0;
      while i < n
        invariant Valid() && killed && i <= n
        invariant |stopX| + process.x >= n - i
        invariant errorsSlice == NonNil(received)
        invariant CollectN(name, Killing, State(), n - i, received, sched, k)
               == CollectN(name, Killing, p0, n, [], sched, 0)
      {
        ghost var before, received0 := State(), received;
        errorsSlice, received := ReceiveError(BurstAt(sched, k + 1), errorsSlice, received);
        assert CollectN(name, Killing, before, n - i, received0, sched, k)
            == CollectN(name, Killing, State(), n - i - 1, received, sched, k + 1);
        i, k := i + 1, k + 1;
      }
      assert CollectN(name, Killing, State(), 0, received, sched, k) == Collected(State(), received);
      err := CombineErrors(errorsSlice);
    }

    /** `Stop` as evidently intended: the number of live workers is read once,
        before terminate is closed, and exactly that many acknowledgments are
        received. */
    method StopAndWait(sched: seq<seq<Move>>) returns (ghost received: seq<Option<Error>>)
      requires Valid() && !terminated
      modifies this`terminated, this`stopX, this`sent, this`workers, this`busy, this`calls, process, inputChan
      ensures Valid()
      ensures var r := StopAwaitingAll(name, old(State()), sched);
              State() == r.pool && received == r.received
    {
      ghost var p := State();
      var cores := GetCores();
      var n: nat := cores;
      terminated := true;
      ghost var p' := State();
      assert p' == p.(terminated := true);
      RunBurst(BurstAt(sched, 0));
      ghost var p0 := State();
      RunsCount(p', p0, []);
      assert |p0.acks| + p0.cores >= n;
      received := [];
      var i: nat, k: nat := 0, 0;
      while i < n
        invariant Valid() && terminated && i <= n
        invariant |stopX| + process.x >= n - i
        invariant CollectN(name, Stopping, State(), n - i, received, sched, k)
               == CollectN(name, Stopping, p0, n, [], sched, 0)
      {
        ghost var before := State();
        var ack := ReceiveAck(Stopping, BurstAt(sched, k + 1));
        assert CollectN(name, Stopping, before, n - i, received, sched, k)
            == CollectN(name, Stopping, State(), n - i - 1, received + [ack], sched, k + 1);
        received := received + [ack];
        i, k := i + 1, k + 1;
      }
    }
  }
}
