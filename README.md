# Worker-pool engine: a verified model

This project models the core of a small Go worker-pool engine. The core has three parts:

- **`Conveer` (package `pipeline`).** A conveyor is a pool of workers (the code calls them "minions") that share one input port. The conveyor keeps a mutex-protected live-worker counter (`mutexRunner`), two one-shot signals (`terminate` for a graceful stop, `kill` for a forced one) and an acknowledgment channel `stopX`. Each worker runs `circle`, a `for { select { ... } }` loop. When an item arrives, the worker starts `ProcessFunc` on a goroutine and waits in an inner `select` for its result or for `kill`; if `kill` wins, the worker leaves at once and the goroutine is left running. When `terminate` arrives and the queue is empty, the worker leaves with a nil acknowledgment. When `kill` arrives, the worker leaves with an error that names the node, the worker and the queue depth. `Kill` and `Stop` close their signal and then receive acknowledgments. `Kill` joins the non-nil ones into one error with `combineErrors`.
- **`Pipeline` (package `pipeline`).** A pipeline holds an ordered list of nodes and two name-keyed maps of ports that every node shares. `AddNode` installs fresh ports of capacity `BUFFER_VALUE` under the node's name. `Run` builds one conveyor per node and starts its workers. `Kill` and `Stop` shut the conveyors down in list order. `Kill` combines the nodes' non-nil errors.
- **`Conveer` (package `Minions`).** The synchronous variant: a worker calls `execFunc` itself and always acknowledges with `true`.

The model is organised as follows:

| file | module | models |
|---|---|---|
| `errors.dfy` | `Errors` | the error values, the kill message, and `combineErrors` |
| `counter.dfy` | `Counter` | `mutexRunner`, as a class (both packages carry identical copies) |
| `channels.dfy` | `Channels` | buffered channels and the name-keyed channel maps, as classes |
| `conveyor.dfy` | `Conveyor` | `pipeline/conveer.go` |
| `pipeline.dfy` | `Pip` | `pipeline/pip.go` |
| `minions.dfy` | `Minions` | `Minions/conveer.go` |

**Goroutines as explicit moves.** Goroutines are not threads here. A worker is an entry of the conveyor's `workers` list, holding its `gopher` id. One firing of a `select` arm is one call of `Circle`, and the arm that fires is an argument (`Arm`). In `pipeline/conveer.go` a worker that took an item is `busy`: it waits in the inner `select`, where the result arm returns it to the outer loop and, once kill is closed, the abandon arm makes it leave with the item unfinished. `Kill` and `Stop` take a schedule: for each evaluation of the loop guard, the burst of worker moves that ran just before it. When a receive from `stopX` would block, the first live worker reacts to the signal. Under kill it takes the abandon arm if it is busy and the kill arm otherwise. Under stop it finishes its item, drains the queue and then takes the terminate arm.

**Specification and implementation.** The value-level state machine (`Pool`, `CircleStep`, `Receive`, `Collect`, `KillRun`, `StopRun`) is the specification. The classes implement it over the heap. Every state-changing method of a conveyor is proved to leave the state the specification function computes. The pipeline's `Kill` and `Stop` are proved to leave, node by node, the states those functions compute from each conveyor's state at the call and from what its input port holds when its turn comes. The lemmas then state what the specification guarantees. The central invariant is `Runs(p, r, taken)`, and every step preserves it. It says:

- What was received plus what is still buffered is exactly what was buffered plus what was sent since, in order.
- Every worker that left sent exactly one acknowledgment.
- Every item that left the queue was handed to the processing function, in queue order.
- While kill is open, every acknowledgment is nil, and once a worker has left, the queue is empty. Nothing in the model sends to an input port, so this holds provided nothing is sent to the port during the stop.

The model keeps these behaviours of the code as written:

- A worker that is idle when kill arrives sends a non-nil error ("исполнение завершено"), not nil (pipeline/conveer.go:158-161).
- `AddNode` does not reject a duplicate name: it overwrites both map entries and appends a second node (pipeline/pip.go:41-53).
- `Stop` and `Kill` re-read `GetCores()` on every iteration; they do not sample it once at call time (see Findings).
- A second `Stop` or `Kill` closes a closed channel, which panics in Go. Here that is a precondition ("not yet closed"), not a deterministic failure.
- `NewConveer` takes a node but uses only its name (pipeline/conveer.go:72-86).

## Model

| member | source | states |
|---|---|---|
| Errors.Combined | pipeline/conveer.go:28-38 | the combined error is nil exactly when there are no errors; a single error yields a message carrying its own text |
| Errors.CombineErrors | pipeline/conveer.go:28-38 | the loop that fills `errorStrings` and joins it returns `Combined` of the slice |
| Errors.SplitLinesCat | pipeline/conveer.go:36 | a line break between two texts ends the first text's last line: the split of the whole is the split of each, concatenated, for any texts |
| Errors.SplitJoinLines | pipeline/conveer.go:36 | splitting `strings.Join(parts, "\n")` at its line breaks gives the lines of every part, in order, whatever the parts hold |
| Errors.CombinedLines | pipeline/conveer.go:28-38 | the combined error's text splits into the lines of every error's text, in input order, for any errors |
| Errors.ErrorText | pipeline/conveer.go:133 | `e.Error()`: a plain error's text is its own; a kill error is `errTextKilling` filled in, so it starts with "Прервано - узел:" and ends in a line break. Its lines are stated by Errors.KilledTextLines, and the numbers in it by Errors.ParseNatText |
| Errors.KilledTextLines | pipeline/conveer.go:133 | a kill message ends in a line break: it splits into its own lines and then an empty line, and into exactly its message line and an empty line when the node name holds no line break |
| Errors.CombinedKillLines | pipeline/conveer.go:28-38 | combined kill messages whose node names hold no line break split into two lines per error, its message line and an empty line, in input order |
| Errors.SplitJoin | pipeline/conveer.go:36 | `strings.Join` with "\n" is undone by splitting at "\n" when no part holds a line break |
| Errors.JoinAppend | pipeline/conveer.go:36 | joining two non-empty lists equals joining each and gluing them with the separator |
| Errors.ParseNatText | pipeline/conveer.go:133 | the `%d` rendering of the worker id and the queue depth in the kill message reads back as the same number |
| Errors.NonNilAppend | pipeline/conveer.go:51-53 | keeping the non-nil values of a concatenation equals concatenating the kept values of each part |
| Errors.NonNilEmpty | pipeline/conveer.go:51-53 | nothing is kept exactly when every value is nil |
| Errors.CombinedNonNilIsNone | pipeline/conveer.go:48-55 | the error `Kill` returns is nil exactly when every acknowledgment received was nil |
| Errors.CombinedFlatten | pipeline/pip.go:73-83 | combining the nodes' combined errors gives the same error as combining every worker error of every node directly, in node order |
| Counter.MutexRunner.constructor | pipeline/conveer.go:82 | `new(mutexRunner)` starts the count at 0 |
| Counter.MutexRunner.PopRun | pipeline/conveer.go:93-100 | decrements the count by exactly one and returns the new count |
| Counter.MutexRunner.AddRun | pipeline/conveer.go:102-109 | increments the count by exactly one and returns the new count |
| Counter.MutexRunner.GetCores | pipeline/conveer.go:110-115 | returns the count and changes nothing |
| Channels.Port.constructor | pipeline/pip.go:51-52 | `make(chan, n)` is an empty channel of capacity n |
| Channels.Port.Receive | pipeline/conveer.go:139 | receiving takes the oldest buffered value and leaves the rest in order |
| Channels.Port.Len | pipeline/conveer.go:153 | `len(ch)` is the number of buffered values |
| Channels.Registry.constructor | pipeline/pip.go:34-35 | `make(map)` is an empty map |
| Channels.Registry.Lookup | pipeline/conveer.go:78-79 | `m[name]` is the registered channel when the name is present, otherwise nil |
| Conveyor.CircleStep | pipeline/conveer.go:135-164 | item arm (idle worker): exactly one item is dequeued and handed to ProcessFunc with the worker id, and the worker becomes busy. Result arm: the busy worker becomes idle and nothing else changes. Abandon arm (busy worker, kill closed): leaves with a LeftToCollector error carrying the current depth. Terminate arm (idle worker): leaves with nil exactly when the queue is empty, otherwise nothing changes. Kill arm (idle worker): leaves with a LoopFinished error carrying the current depth, without draining. Leaving drops the counter by one, removes the worker and appends exactly one acknowledgment |
| Conveyor.ApplyBurst | pipeline/conveer.go:137-163 | any sequence of worker moves keeps counter == live workers and is a run (`Runs`) |
| Conveyor.Reaction | pipeline/conveer.go:145-161 | when a receive would block, the signalled workers' reaction sends exactly one acknowledgment and is a run |
| Conveyor.Receive | pipeline/conveer.go:50 | one pass of the receiving loop takes exactly one acknowledgment, the oldest buffered or sent |
| Conveyor.RunsTrans | pipeline/conveer.go:135-164 | two runs in sequence form a run, whose received values are the two lists concatenated |
| Conveyor.RunsCount | pipeline/conveer.go:49-54 | received + buffered + live workers is preserved by every run |
| Conveyor.Collect | pipeline/conveer.go:49-54 | the receiving loop as written, with `GetCores()` re-read at every evaluation of the guard, keeps the invariant. What it received is stated by Conveyor.CollectRuns |
| Conveyor.CollectRuns | pipeline/conveer.go:49-54 | the receiving loop as written receives, in order, a prefix of what was buffered and sent, and stops once the number received reaches the counter as last read |
| Conveyor.KillRun | pipeline/conveer.go:46-56 | `Kill` as written keeps the invariant, and its error is nil exactly when no non-nil acknowledgment was received. Its full guarantees are stated by Conveyor.KillRunReports |
| Conveyor.KillRunReports | pipeline/conveer.go:46-56 | `Kill` closes kill and returns `combineErrors` of exactly the non-nil acknowledgments it received, in the order they were sent; the result is nil iff all were nil |
| Conveyor.StopRun | pipeline/conveer.go:58-63 | `Stop` as written keeps the invariant. Its guarantees are stated by Conveyor.StopRunReports |
| Conveyor.StopRunReports | pipeline/conveer.go:58-63 | `Stop` closes terminate and receives in send order; while kill was never closed, everything it receives is nil or was buffered before the call; provided nothing is sent to the input port during the stop, no queued item is lost, and once a worker has left the queue is empty |
| Conveyor.StoppedReports | pipeline/conveer.go:152-157 | any run from the stopped state keeps the stop guarantees above |
| Conveyor.KillReturnsBeforeAllWorkersLeft | pipeline/conveer.go:49 | with two idle workers, `Kill` as written returns after one acknowledgment with worker 2 still live |
| Conveyor.StopReturnsBeforeAllWorkersLeft | pipeline/conveer.go:60 | with two idle workers and an empty queue, `Stop` as written returns after one nil acknowledgment with worker 2 still live |
| Conveyor.KillAbandonsInFlightItem | pipeline/conveer.go:139-150 | with three items queued and both workers holding one in the inner `select`, `Kill` as written has worker 1 leave with a LeftToCollector error carrying depth 1; both taken items went to ProcessFunc and the third is still queued |
| Conveyor.RunsToCompletion | pipeline/conveer.go:49-54 | receiving as many acknowledgments as were buffered plus live workers means every worker has left and everything sent was received |
| Conveyor.CollectN | pipeline/conveer.go:49-54 | the corrected receiving loop, its count sampled once, keeps the invariant. What it received is stated by Conveyor.CollectNRuns |
| Conveyor.CollectNRuns | pipeline/conveer.go:49-54 | the corrected loop receives exactly n acknowledgments, in send order |
| Conveyor.KillAwaitingAll | pipeline/conveer.go:46-56 | the corrected `Kill` keeps the invariant, and its error is nil exactly when no non-nil acknowledgment was received. That it waits for every worker is stated by Conveyor.KillAwaitingAllWaitsForEveryWorker |
| Conveyor.KillAwaitingAllWaitsForEveryWorker | pipeline/conveer.go:46-56 | the corrected kill returns only after every worker has left, having received every acknowledgment sent, in order, and returns their combined non-nil errors |
| Conveyor.StopAwaitingAll | pipeline/conveer.go:58-63 | the corrected `Stop` keeps the invariant. That it drains the queue is stated by Conveyor.StopAwaitingAllDrains |
| Conveyor.StopAwaitingAllDrains | pipeline/conveer.go:58-63 | provided nothing is sent to the input port during the stop, the corrected stop returns only after every worker has left; every acknowledgment is nil; the queue is empty and every queued item went to ProcessFunc, in order |
| Conveyor.Ids | pipeline/conveer.go:122-127 | from counter c, `RunMinions(n)` issues ids c+1 .. c+n in order (none for n <= 0) |
| Conveyor.Conveer.constructor | pipeline/conveer.go:72-86 | the ports are the ones registered under the node's name (nil if absent); stopX has capacity 1000; the counter is new and at 0; both signals are open |
| Conveyor.Conveer.GetCores | pipeline/conveer.go:117-120 | returns the live-worker count and changes nothing |
| Conveyor.Conveer.RunMinions | pipeline/conveer.go:122-127 | raises the counter by max(n, 0) and appends workers with ids c+1 .. c+n |
| Conveyor.Conveer.QueueLen | pipeline/conveer.go:149 | `len(m.InputChan)` is the queue depth; a nil port holds nothing |
| Conveyor.Conveer.CanTake | pipeline/conveer.go:138-158 | an arm can fire exactly when the specification's `Enabled` allows it |
| Conveyor.Conveer.Leave | pipeline/conveer.go:154-156 | a leaving worker appends exactly its acknowledgment to stopX and is removed from the live workers |
| Conveyor.Conveer.Circle | pipeline/conveer.go:135-164 | one pass of `circle` leaves the state `CircleStep` computes and reports whether the worker returned |
| Conveyor.Conveer.RunBurst | pipeline/conveer.go:137-163 | the workers' moves leave the state `ApplyBurst` computes |
| Conveyor.Conveer.Unblock | pipeline/conveer.go:145-161 | a blocked receive is released by the state change `Reaction` computes |
| Conveyor.Conveer.ReceiveAck | pipeline/conveer.go:50 | `<-m.stopX` plus the following moves leaves the state `Receive` computes and returns its acknowledgment; received + buffered + live drops by one |
| Conveyor.Conveer.ReceiveError | pipeline/conveer.go:50-53 | one pass of `Kill`'s body: `errorsSlice` stays the non-nil values of everything received |
| Conveyor.Conveer.Kill | pipeline/conveer.go:46-56 | leaves the state, the received acknowledgments and the error that `KillRun` computes |
| Conveyor.Conveer.Stop | pipeline/conveer.go:58-63 | leaves the state and the received acknowledgments that `StopRun` computes |
| Conveyor.Conveer.KillAndWait | pipeline/conveer.go:46-56 | the corrected kill leaves the state, acknowledgments and error that `KillAwaitingAll` computes |
| Conveyor.Conveer.StopAndWait | pipeline/conveer.go:58-63 | the corrected stop leaves the state and acknowledgments that `StopAwaitingAll` computes |
| Pip.Node.constructor | pipeline/pip.go:42-48 | the node carries the given name, function and routine count, shares the pipeline's maps, and has no conveyor yet |
| Pip.Node.Start | pipeline/pip.go:60-62 | the node now holds a new conveyor over its own ports, with `Routines` workers and nothing sent |
| Pip.NonNilErrsSnoc | pipeline/pip.go:78-80 | appending one node's error keeps `errorsSlice` the non-nil node errors, in order |
| Pip.KillAllReports | pipeline/pip.go:73-83 | the pipeline's kill error is the combination of every worker error, node by node in list order, and is nil iff every node's error was nil |
| Pip.PortsAfterPrefix | pipeline/pip.go:75-80 | the port contents after the first j shutdowns depend only on those j shutdowns |
| Pip.KillStep | pipeline/pip.go:75-81 | node i killed from its own state and its port's present contents carries the loop's progress from i to i + 1: the earlier nodes' records stand, the later nodes are untouched, and its port now holds what its queue became |
| Pip.StopStep | pipeline/pip.go:67-70 | the same for one more node stopped |
| Pip.KilledAllReports | pipeline/pip.go:73-83 | after `Kill`, the returned error is the combination of every node's every non-nil worker acknowledgment, in node order, and is nil iff every node's error was nil |
| Pip.Pipeline.constructor | pipeline/pip.go:31-38 | no nodes and two new, empty maps |
| Pip.Pipeline.AddNode | pipeline/pip.go:41-54 | appends exactly one new node with the given name, function and routine count, sharing the maps; sets both map entries for the name to new, empty ports of capacity 100 and leaves every other key unchanged; a duplicate name is not refused |
| Pip.Pipeline.Run | pipeline/pip.go:57-64 | every node, in order, holds its own new conveyor over the ports registered under its name, with `Routines` workers started |
| Pip.Pipeline.KillConveyor | pipeline/pip.go:77-80 | kills node i's conveyor from its whole state at the call (its port's contents included) as `KillRun` specifies, appends its error when non-nil, leaves its port holding what the queue became, and leaves every other node's conveyor unchanged |
| Pip.Pipeline.KillNode | pipeline/pip.go:77-80 | the same, stated over the whole pipeline: node i starts from its own state and what the port registered under its name holds; afterwards that port holds the queue `KillRun` leaves, every other port and every other conveyor is unchanged, and the wiring of nodes to ports still holds |
| Pip.Pipeline.StopConveyor | pipeline/pip.go:69 | stops node i's conveyor from its whole state at the call as `StopRun` specifies, leaves its port holding what the queue became, and leaves every other node's conveyor unchanged |
| Pip.Pipeline.StopNode | pipeline/pip.go:69 | the same over the whole pipeline: node i starts from its own state and its port's contents; afterwards that port holds the queue `StopRun` leaves, and every other port and conveyor is unchanged |
| Pip.Pipeline.KillNext | pipeline/pip.go:75-81 | one pass of the loop keeps the invariant: nodes 0..i were killed in order, each from its own state at the call and from its port's contents as the earlier nodes left them, the ports hold what those kills left, and the rest are untouched |
| Pip.Pipeline.KillNodes | pipeline/pip.go:74-81 | the loop kills every node's conveyor in list order, even after an earlier error: each from its own state at the call and from what its port held at the call or, for a name listed twice, what the earlier node left there; the ports end holding what the kills left; `errorsSlice` holds the non-nil node errors in node order |
| Pip.Pipeline.Kill | pipeline/pip.go:73-83 | the loop above, then returns `combineErrors` of the non-nil node errors, in node order |
| Pip.Pipeline.StopNext | pipeline/pip.go:67-70 | one pass of the loop keeps the invariant: nodes 0..i were stopped in order, each from its own state at the call and from its port's contents as the earlier nodes left them, and the rest are untouched |
| Pip.Pipeline.Stop | pipeline/pip.go:66-71 | every node's conveyor is stopped in list order, each from its own state at the call and from what its port holds when its turn comes (what was there at the call, or what an earlier node of the same name left); the ports end holding what the stops left |
| Minions.CircleStep | Minions/conveer.go:109-127 | item arm: exactly one item is dequeued and handed to execFunc with the worker id; the counter and acknowledgments are unchanged and the worker stays. Terminate arm: leaves exactly when the queue is empty, otherwise nothing changes. Kill arm: always leaves, without draining. Leaving drops the counter by one and appends exactly one `true` |
| Minions.ApplyBurst | Minions/conveer.go:110-126 | any sequence of worker moves keeps counter == live workers and is a run |
| Minions.Reaction | Minions/conveer.go:114-124 | when a receive would block, the signalled workers' reaction sends exactly one acknowledgment |
| Minions.Receive | Minions/conveer.go:31 | one pass of the receiving loop takes exactly one acknowledgment, in send order |
| Minions.RunsTrans | Minions/conveer.go:109-127 | two runs in sequence form a run |
| Minions.RunsCount | Minions/conveer.go:30-32 | received + buffered + live workers is preserved by every run |
| Minions.Collect | Minions/conveer.go:30-32 | the receiving loop as written, with `GetCores()` re-read at every evaluation of the guard, keeps the invariant. What it received is stated by Minions.CollectRuns |
| Minions.CollectRuns | Minions/conveer.go:30-32 | the loop as written receives, in order, a prefix of what was sent, and stops once the number received reaches the counter as last read |
| Minions.KillRun | Minions/conveer.go:28-34 | `Kill` as written keeps the invariant. Its guarantees are stated by Minions.KillRunReports |
| Minions.KillRunReports | Minions/conveer.go:28-34 | `Kill` closes kill, receives in send order, and every acknowledgment sent since is `true` |
| Minions.StopRun | Minions/conveer.go:36-42 | `Stop` as written keeps the invariant. Its guarantees are stated by Minions.StopRunReports |
| Minions.StopRunReports | Minions/conveer.go:36-42 | `Stop` closes terminate and receives in send order; provided nothing is sent to the input port during the stop, no queued item is lost and, while kill was never closed, once a worker has left the queue is empty |
| Minions.KillReturnsBeforeAllWorkersLeft | Minions/conveer.go:30 | with two idle workers, `Kill` as written returns after one `true` with worker 2 still live |
| Minions.StopReturnsBeforeAllWorkersLeft | Minions/conveer.go:38 | with two idle workers and an empty queue, `Stop` as written returns after one `true` with worker 2 still live |
| Minions.RunsToCompletion | Minions/conveer.go:30-32 | receiving buffered + live acknowledgments means every worker has left |
| Minions.CollectN | Minions/conveer.go:30-32 | the corrected receiving loop, its count sampled once, keeps the invariant. What it received is stated by Minions.CollectNRuns |
| Minions.CollectNRuns | Minions/conveer.go:30-32 | the corrected loop receives exactly n acknowledgments, in send order |
| Minions.KillAwaitingAll | Minions/conveer.go:28-34 | the corrected `Kill` keeps the invariant. That it waits for every worker is stated by Minions.KillAwaitingAllWaitsForEveryWorker |
| Minions.KillAwaitingAllWaitsForEveryWorker | Minions/conveer.go:28-34 | the corrected kill returns only after every worker has left, having received one `true` from each |
| Minions.StopAwaitingAll | Minions/conveer.go:36-42 | the corrected `Stop` keeps the invariant. That it drains the queue is stated by Minions.StopAwaitingAllDrains |
| Minions.StopAwaitingAllDrains | Minions/conveer.go:36-42 | provided nothing is sent to the input port during the stop, the corrected stop returns only after every worker has left, with the queue empty and every queued item passed to execFunc, in order |
| Minions.Conveer.constructor | Minions/conveer.go:51-62 | new input and output channels of capacity 1000, stopX of capacity 1000, an unbuffered Wait channel, a new counter at 0, both signals open |
| Minions.Conveer.GetCores | Minions/conveer.go:93-96 | returns the live-worker count and changes nothing |
| Minions.Conveer.RunMinions | Minions/conveer.go:98-103 | raises the counter by max(n, 0) and appends workers with ids c+1 .. c+n |
| Minions.Conveer.CanTake | Minions/conveer.go:111-120 | an arm can fire exactly when `Enabled` allows it |
| Minions.Conveer.Leave | Minions/conveer.go:116-117 | a leaving worker appends exactly one `true` to stopX and is removed from the live workers |
| Minions.Conveer.Circle | Minions/conveer.go:109-127 | one pass of `circle` leaves the state `CircleStep` computes |
| Minions.Conveer.RunBurst | Minions/conveer.go:110-126 | the workers' moves leave the state `ApplyBurst` computes |
| Minions.Conveer.Unblock | Minions/conveer.go:114-124 | a blocked receive is released by the state change `Reaction` computes |
| Minions.Conveer.ReceiveAck | Minions/conveer.go:31 | `<-m.stopX` plus the following moves leaves the state `Receive` computes |
| Minions.Conveer.Kill | Minions/conveer.go:28-34 | leaves the state and the received acknowledgments that `KillRun` computes |
| Minions.Conveer.Stop | Minions/conveer.go:36-42 | leaves the state and the received acknowledgments that `StopRun` computes |
| Minions.CollectNUnfold | Minions/conveer.go:31 | one receive of the corrected loop keeps the signal closed and enough acknowledgments to come for the remaining receives |
| Minions.Conveer.AwaitOne | Minions/conveer.go:31 | one `<-m.stopX` of the corrected loop takes the step `CollectN` takes |
| Minions.Conveer.AwaitAcks | Minions/conveer.go:30-32 | the corrected loop, shared by kill and stop, receives exactly `n` acknowledgments and leaves the state `CollectN` computes |
| Minions.Conveer.KillAndWait | Minions/conveer.go:28-34 | the corrected kill leaves the state that `KillAwaitingAll` computes |
| Minions.Conveer.StopAndWait | Minions/conveer.go:36-42 | the corrected stop leaves the state that `StopAwaitingAll` computes |

## Left out

- Goroutine scheduling, `select` fairness and channel blocking: the worker moves between two evaluations of a loop guard are parameters (a schedule of moves). Channel capacities are not enforced; a send never blocks. So the model does not capture a worker that has already called `popRun` blocking on a full `stopX` (capacity 1000).
- Conveyor.Reaction, Minions.Reaction: when a receive from `stopX` would block, only the first live worker (`workers[0]`) releases it. Under stop that worker also drains the whole queue by itself. In Go, any signalled worker may react, so a run such as `Kill` receiving the errors of workers 1 and 3 while worker 2 is still live is not produced. Also, while one node's conveyor is shut down by Pip.Pipeline.KillNode or Pip.Pipeline.StopNode, every other conveyor is frozen; in Go their goroutines keep running.
- The abandoned goroutine that runs `ProcessFunc` and its send on `resultChan` (pipeline/conveer.go:136-143). The model records the call and which arm of the inner `select` fired; whether the goroutine leaks is not modelled.
- Sends to an input port while a conveyor runs: the model has no move that adds to a queue, since the only senders are `ProcessFunc` and code outside the core. The graceful-stop guarantees (Conveyor.StopRunReports, Conveyor.StopAwaitingAllDrains, Minions.StopRunReports, Minions.StopAwaitingAllDrains) therefore hold provided nothing is sent to the port during the stop.
- The bodies of `ProcessFunc` and `execFunc`: they are foreign code. Each call is recorded with its worker id and element; their outputs, and anything they write to the ports or maps, are not modelled.
- `WaitStoper` in both packages (pipeline/conveer.go:65-70, Minions/conveer.go:44-49): it only blocks on a channel, calls `Stop` and signals `Wait`.
- The `fmt.Printf` on kill in Minions/conveer.go:122: console output.
- The mutex inside `mutexRunner`: in a sequential model each counter operation is a plain update.
- main.go is not part of this model: it is a command-line demo with file-system walking and MD5 hashing.
- The payloads of work items: a text stands for the `interface{}` data.
- The Go panic of a second `close` on `kill` or `terminate`: modelled as the precondition that the signal is still open.
- Pip.Pipeline.Kill, Pip.Pipeline.Stop: calling them before `Run` dereferences a nil `Conveers` and panics in Go (pipeline/pip.go:69, 77). Here that is the precondition `Running()`, not a modelled failure.
- Integer overflow of the counter and of the worker ids: Go's `int` is 64 bits and never reaches its bound here, so the model uses unbounded integers.
- Pip.Pipeline.Kill: its ensures states the per-node log and the combined error; that the error is the combination of every worker error and is nil iff every node's error was nil is proved separately in `Pip.KilledAllReports` about that log.
- Pip.Pipeline.Kill, Pip.Pipeline.Stop: they call the conveyors' `Kill` and `Stop` as written, so they inherit the early return described under Findings.
- Minions.Conveer.Kill, Minions.Conveer.Stop, Minions.Conveer.KillAndWait, Minions.Conveer.StopAndWait, Minions.Conveer.AwaitAcks: the acknowledgments they receive are returned as ghost values, because the Go code discards them.

## Findings

| source | as written | input that shows it | evidently intended | confidence | as-written member | corrected member |
|---|---|---|---|---|---|---|
| pipeline/conveer.go:49 | `Kill` (and `Stop`, line 60) loops `for i := 0; i < m.GetCores(); i++`, re-reading the live-worker count on every iteration, while every leaving worker decrements that count before it acknowledges | two idle workers: `Kill` reads 2, the first worker leaves (count 1), its error is received (i = 1), the guard reads 1 and the loop ends; one worker is still live and its error is never collected; `Stop` with an empty queue ends the same way | wait for as many acknowledgments as there were live workers when the signal was closed | not executed | Conveyor.KillReturnsBeforeAllWorkersLeft (about Conveyor.KillRun); Conveyor.StopReturnsBeforeAllWorkersLeft (about Conveyor.StopRun) | Conveyor.Conveer.KillAndWait, proved against Conveyor.KillAwaitingAllWaitsForEveryWorker; Conveyor.Conveer.StopAndWait with Conveyor.StopAwaitingAllDrains |
| Minions/conveer.go:30 | `Kill` (and `Stop`, line 38) re-read `GetCores()` on every iteration, the same way | two idle workers: `Kill` returns after receiving one `true`; worker 2 is still in its loop; `Stop` with an empty queue ends the same way | wait for as many acknowledgments as there were live workers when the signal was closed | not executed | Minions.KillReturnsBeforeAllWorkersLeft (about Minions.KillRun); Minions.StopReturnsBeforeAllWorkersLeft (about Minions.StopRun) | Minions.Conveer.KillAndWait, proved against Minions.KillAwaitingAllWaitsForEveryWorker; Minions.Conveer.StopAndWait with Minions.StopAwaitingAllDrains |

The corrected methods read the count once, before closing the signal, and then receive exactly that many acknowledgments. The pipeline's own `Kill` and `Stop` (pipeline/pip.go:66-83) still call the as-written conveyor methods, as the source does.
