/** The pipeline registry of the `pipeline` package (pip.go): an ordered list
    of nodes and two name-keyed maps of ports that every node shares. `Run`
    binds one conveyor per node; `Kill` and `Stop` shut the conveyors down in
    list order. */
module Pip {
  import opened Errors
  import opened Channels
  import opened Conveyor
  import opened Counter

  /** `BUFFER_VALUE`: the capacity of every port `AddNode` creates. */
  const BufferValue: nat := 100

  /** A node of the graph. Its maps are the pipeline's own (shared by
      reference); `conveers` is nil until `Run`. */
  class Node {
    const name: string
    const processFunc: ProcessorFunc
    const inputs: Registry<WorkItem>
    const outputs: Registry<WorkItem>
    const routines: int
    var conveers: Conveer?

    constructor (name: string, processFunc: ProcessorFunc, inputs: Registry<WorkItem>,
                 outputs: Registry<WorkItem>, routines: int)
      ensures this.name == name && this.processFunc == processFunc
      ensures this.inputs == inputs && this.outputs == outputs
      ensures this.routines == routines && conveers == null
    {
      this.name := name;
      this.processFunc := processFunc;
      this.inputs := inputs;
      this.outputs := outputs;
      this.routines := routines;
      conveers := null;
    }

    /** One iteration of `Run`: `NewConveer`, `RunMinions(Routines)`, and the
        conveyor stored in the node. */
    method Start()
      modifies this
      ensures Started() && fresh(conveers) && fresh(conveers.process)
    {
      var md5conveer := new Conveer(name, processFunc, inputs, outputs);
      md5conveer.RunMinions(routines);
      conveers := md5conveer;
    }

    /** A conveyor named after the node is bound, its counter matching its
        workers. */
    ghost predicate Ready()
      reads this, conveers, if conveers == null then {} else {conveers.process}
    {
      conveers != null && conveers.name == name && conveers.Valid()
    }

    /** The conveyor is the one `Run` builds: `NewConveer` over the ports
        registered under the node's name, then `RunMinions(Routines)`. */
    ghost predicate Started()
      reads this, conveers, (if conveers == null then {} else {conveers.process}), inputs, outputs
    {
      && Ready()
      && conveers.processFunc == processFunc
      && conveers.inputs == inputs && conveers.outputs == outputs
      && conveers.inputChan == inputs.Lookup(name) && conveers.outputChan == outputs.Lookup(name)
      && conveers.process.x == Max0(routines) && conveers.workers == Ids(0, routines)
      && conveers.busy == Idle(routines)
      && conveers.stopX == [] && conveers.sent == [] && conveers.calls == []
      && !conveers.terminated && !conveers.killed
    }
  }

  /** What one node's shutdown did: the conveyor's whole state when its turn
      came (its port's contents included), the acknowledgments it received,
      the error it returned (nil for `Stop`), and its whole state afterwards. */
  datatype Shutdown = Shutdown(before: Pool, received: seq<Option<Error>>, err: Option<Error>, after: Pool)

  /** Node `name`'s conveyor, whose own state was `own` and whose port held
      `queue` when its turn came, was killed under `sched` as `s` records. */
  ghost predicate KilledAs(name: string, own: Pool, queue: seq<WorkItem>, sched: seq<seq<Move>>, s: Shutdown) {
    && s.before == own.(queue := queue) && Inv(s.before) && !s.before.killed
    && var r := KillRun(name, s.before, sched);
       s.received == r.received && s.err == r.err && s.after == r.pool
  }

  /** The same for `Stop`, which returns nothing. */
  ghost predicate StoppedAs(name: string, own: Pool, queue: seq<WorkItem>, sched: seq<seq<Move>>, s: Shutdown) {
    && s.before == own.(queue := queue) && Inv(s.before) && !s.before.terminated
    && var r := StopRun(name, s.before, sched);
       s.received == r.received && s.err.None? && s.after == r.pool
  }

  /** The input ports' contents, by name, after the first `j` shutdowns of
      `log`, starting from `ports`: each shutdown leaves its node's port
      holding what that conveyor's queue became. Nodes of the same name share
      a port, so a later one starts from what an earlier one left. */
  ghost function PortsAfter(names: seq<string>, ports: map<string, seq<WorkItem>>,
                            log: seq<Shutdown>, j: nat): (r: map<string, seq<WorkItem>>)
    requires j <= |names| && j <= |log|
    ensures forall n :: n in ports ==> n in r
  {
    if j == 0 then ports
    else PortsAfter(names, ports, log, j - 1)[names[j - 1] := log[j - 1].after.queue]
  }

  /** `PortsAfter` looks only at the shutdowns it has passed. */
  lemma {:induction false} PortsAfterPrefix(names: seq<string>, ports: map<string, seq<WorkItem>>,
                                            log: seq<Shutdown>, s: Shutdown, j: nat)
    requires j <= |names| && j <= |log|
    ensures PortsAfter(names, ports, log + [s], j) == PortsAfter(names, ports, log, j)
  {
    if j > 0 {
      PortsAfterPrefix(names, ports, log, s, j - 1);
      assert (log + [s])[j - 1] == log[j - 1];
    }
  }

  function Errs(log: seq<Shutdown>): (r: seq<Option<Error>>)
    ensures |r| == |log|
    ensures forall j :: 0 <= j < |log| ==> r[j] == log[j].err
  {
    seq(|log|, j requires 0 <= j < |log| => log[j].err)
  }

  lemma NonNilErrsSnoc(log: seq<Shutdown>, s: Shutdown)
    ensures NonNil(Errs(log + [s])) == NonNil(Errs(log)) + NonNil([s.err])
  {
    assert Errs(log + [s]) == Errs(log) + [s.err];
    NonNilAppend(Errs(log), [s.err]);
  }

  function Receipts(log: seq<Shutdown>): (r: seq<seq<Option<Error>>>)
    ensures |r| == |log|
    ensures forall j :: 0 <= j < |log| ==> r[j] == log[j].received
  {
    seq(|log|, j requires 0 <= j < |log| => log[j].received)
  }

  /** The schedule of node `i`'s shutdown; none given means no worker moves
      before the guards are evaluated. */
  function ScheduleOf(scheds: seq<seq<seq<Move>>>, i: nat): seq<seq<Move>> {
    if i < |scheds| then scheds[i] else []
  }

  /** The non-nil acknowledgments each node's `Kill` received. */
  function NodeErrors(received: seq<seq<Option<Error>>>): (r: seq<seq<Error>>)
    ensures |r| == |received|
    ensures forall j :: 0 <= j < |received| ==> r[j] == NonNil(received[j])
  {
    seq(|received|, j requires 0 <= j < |received| => NonNil(received[j]))
  }

  /** The pipeline-wide kill error, built from the nodes' combined errors,
      is the combination of every worker error, node by node in list order;
      it is nil exactly when every node's error was nil. */
  lemma KillAllReports(results: seq<Option<Error>>, received: seq<seq<Option<Error>>>)
    requires |results| == |received|
    requires forall j :: 0 <= j < |results| ==> results[j] == Combined(NonNil(received[j]))
    ensures Combined(NonNil(results)) == Combined(Flatten(NodeErrors(received)))
    ensures Combined(NonNil(results)).None? <==> forall j :: 0 <= j < |results| ==> results[j].None?
  {
    assert CombinedEach(NodeErrors(received)) == results;
    CombinedFlatten(NodeErrors(received));
    CombinedNonNilIsNone(results);
  }

  /** `Kill`'s loop after `i` passes, the conveyors' own states being `cur`
      now and `own` at the call, the ports holding `ports` now and `ports0`
      at the call: the first `i` nodes were killed in order, each from its
      port's contents as the nodes before it left them, as `log` records, and
      `errorsSlice` holds their non-nil errors; the others are untouched. */
  ghost predicate KillProgress(names: seq<string>, own: seq<Pool>, ports0: map<string, seq<WorkItem>>,
                               cur: seq<Pool>, ports: map<string, seq<WorkItem>>,
                               scheds: seq<seq<seq<Move>>>, i: nat,
                               errorsSlice: seq<Error>, log: seq<Shutdown>)
  {
    && |own| == |names| && |cur| == |names| && i <= |names| && |log| == i
    && (forall j :: 0 <= j < |names| ==> names[j] in ports0)
    && errorsSlice == NonNil(Errs(log))
    && (forall j {:trigger ScheduleOf(scheds, j)} :: 0 <= j < i ==>
          KilledAs(names[j], own[j], PortsAfter(names, ports0, log, j)[names[j]], ScheduleOf(scheds, j), log[j]))
    && (forall j :: 0 <= j < |names| ==> cur[j] == if j < i then log[j].after.(queue := []) else own[j])
    && ports == PortsAfter(names, ports0, log, i)
  }

  /** Every node was killed in list order, from its own state `own[j]` at the
      call and its port's contents as the nodes before it left them, to
      `cur[j]`, the ports ending as `ports`, as `log` records. */
  ghost predicate KilledAll(names: seq<string>, own: seq<Pool>, ports0: map<string, seq<WorkItem>>,
                            cur: seq<Pool>, ports: map<string, seq<WorkItem>>,
                            scheds: seq<seq<seq<Move>>>, log: seq<Shutdown>)
  {
    && |own| == |names| && |cur| == |names| && |log| == |names|
    && (forall j :: 0 <= j < |names| ==> names[j] in ports0)
    && (forall j {:trigger ScheduleOf(scheds, j)} :: 0 <= j < |names| ==>
          KilledAs(names[j], own[j], PortsAfter(names, ports0, log, j)[names[j]], ScheduleOf(scheds, j), log[j]))
    && (forall j :: 0 <= j < |names| ==> cur[j] == log[j].after.(queue := []))
    && ports == PortsAfter(names, ports0, log, |names|)
  }

  /** One node more killed: `Kill`'s progress after `i` passes carries over
      to `i + 1` once node `i`'s shutdown `s`, from its port's present
      contents, is logged. */
  lemma KillStep(names: seq<string>, own: seq<Pool>, ports0: map<string, seq<WorkItem>>,
                 cur: seq<Pool>, ports: map<string, seq<WorkItem>>, scheds: seq<seq<seq<Move>>>,
                 i: nat, errorsSlice: seq<Error>, log: seq<Shutdown>, s: Shutdown, errorsSlice': seq<Error>)
    requires KillProgress(names, own, ports0, cur, ports, scheds, i, errorsSlice, log) && i < |names|
    requires KilledAs(names[i], cur[i], ports[names[i]], ScheduleOf(scheds, i), s)
    requires errorsSlice' == errorsSlice + NonNil([s.err]) && s.err == Combined(NonNil(s.received))
    ensures KillProgress(names, own, ports0, cur[i := s.after.(queue := [])], ports[names[i] := s.after.queue],
                         scheds, i + 1, errorsSlice', log + [s])
  {
    NonNilErrsSnoc(log, s);
    var log' := log + [s];
    KilledSnoc(names, own, ports0, scheds, log, s);
    CurSnoc(own, cur, log, s);
    PortsAfterPrefix(names, ports0, log, s, i);
    assert log'[i] == s;
    assert PortsAfter(names, ports0, log', i + 1) == ports[names[i] := s.after.queue];
  }

  /** Once every node has had its turn, the progress of the kill loop is the whole kill. */
  lemma KillDone(names: seq<string>, own: seq<Pool>, ports0: map<string, seq<WorkItem>>,
                 cur: seq<Pool>, ports: map<string, seq<WorkItem>>, scheds: seq<seq<seq<Move>>>,
                 errorsSlice: seq<Error>, log: seq<Shutdown>)
    requires KillProgress(names, own, ports0, cur, ports, scheds, |names|, errorsSlice, log)
    ensures KilledAll(names, own, ports0, cur, ports, scheds, log) && errorsSlice == NonNil(Errs(log))
  {
  }

  /** Appending the shutdown of node |log| keeps every earlier node's kill as it was recorded. */
  lemma KilledSnoc(names: seq<string>, own: seq<Pool>, ports0: map<string, seq<WorkItem>>,
                   scheds: seq<seq<seq<Move>>>, log: seq<Shutdown>, s: Shutdown)
    requires |log| < |names| == |own| && forall j :: 0 <= j < |names| ==> names[j] in ports0
    requires forall j {:trigger ScheduleOf(scheds, j)} :: 0 <= j < |log| ==>
               KilledAs(names[j], own[j], PortsAfter(names, ports0, log, j)[names[j]], ScheduleOf(scheds, j), log[j])
    requires KilledAs(names[|log|], own[|log|], PortsAfter(names, ports0, log, |log|)[names[|log|]],
                      ScheduleOf(scheds, |log|), s)
    ensures forall j {:trigger ScheduleOf(scheds, j)} :: 0 <= j <= |log| ==>
              KilledAs(names[j], own[j], PortsAfter(names, ports0, log + [s], j)[names[j]], ScheduleOf(scheds, j),
                       (log + [s])[j])
  {
    forall j | 0 <= j <= |log|
      ensures KilledAs(names[j], own[j], PortsAfter(names, ports0, log + [s], j)[names[j]], ScheduleOf(scheds, j),
                       (log + [s])[j])
    {
      PortsAfterPrefix(names, ports0, log, s, j);
      if j < |log| { assert (log + [s])[j] == log[j]; }
    }
  }

  /** Appending a shutdown moves node |log| from its starting state to its state after the shutdown. */
  lemma CurSnoc(own: seq<Pool>, cur: seq<Pool>, log: seq<Shutdown>, s: Shutdown)
    requires |log| < |own| == |cur|
    requires forall j :: 0 <= j < |own| ==> cur[j] == if j < |log| then log[j].after.(queue := []) else own[j]
    ensures forall j :: 0 <= j < |own| ==>
              cur[|log| := s.after.(queue := [])][j] == if j < |log| + 1 then (log + [s])[j].after.(queue := []) else own[j]
  {
    forall j | 0 <= j < |own|
      ensures cur[|log| := s.after.(queue := [])][j] == if j < |log| + 1 then (log + [s])[j].after.(queue := []) else own[j]
    {
      if j < |log| { assert (log + [s])[j] == log[j]; }
    }
  }

  /** `Stop`'s loop after `i` passes, as for `Kill`: the first `i` nodes were
      stopped in order, each from its port's contents as the nodes before it
      left them, as `log` records; the others are untouched. */
  ghost predicate StopProgress(names: seq<string>, own: seq<Pool>, ports0: map<string, seq<WorkItem>>,
                               cur: seq<Pool>, ports: map<string, seq<WorkItem>>,
                               scheds: seq<seq<seq<Move>>>, i: nat, log: seq<Shutdown>)
  {
    && |own| == |names| && |cur| == |names| && i <= |names| && |log| == i
    && (forall j :: 0 <= j < |names| ==> names[j] in ports0)
    && (forall j {:trigger ScheduleOf(scheds, j)} :: 0 <= j < i ==>
          StoppedAs(names[j], own[j], PortsAfter(names, ports0, log, j)[names[j]], ScheduleOf(scheds, j), log[j]))
    && (forall j :: 0 <= j < |names| ==> cur[j] == if j < i then log[j].after.(queue := []) else own[j])
    && ports == PortsAfter(names, ports0, log, i)
  }

  /** Every node was stopped in list order, from its own state `own[j]` at
      the call and its port's contents as the nodes before it left them, to
      `cur[j]`, the ports ending as `ports`, as `log` records. */
  ghost predicate StoppedAll(names: seq<string>, own: seq<Pool>, ports0: map<string, seq<WorkItem>>,
                             cur: seq<Pool>, ports: map<string, seq<WorkItem>>,
                             scheds: seq<seq<seq<Move>>>, log: seq<Shutdown>)
  {
    && |own| == |names| && |cur| == |names| && |log| == |names|
    && (forall j :: 0 <= j < |names| ==> names[j] in ports0)
    && (forall j {:trigger ScheduleOf(scheds, j)} :: 0 <= j < |names| ==>
          StoppedAs(names[j], own[j], PortsAfter(names, ports0, log, j)[names[j]], ScheduleOf(scheds, j), log[j]))
    && (forall j :: 0 <= j < |names| ==> cur[j] == log[j].after.(queue := []))
    && ports == PortsAfter(names, ports0, log, |names|)
  }

  /** One node more stopped. */
  lemma StopStep(names: seq<string>, own: seq<Pool>, ports0: map<string, seq<WorkItem>>,
                 cur: seq<Pool>, ports: map<string, seq<WorkItem>>, scheds: seq<seq<seq<Move>>>,
                 i: nat, log: seq<Shutdown>, s: Shutdown)
    requires StopProgress(names, own, ports0, cur, ports, scheds, i, log) && i < |names|
    requires StoppedAs(names[i], cur[i], ports[names[i]], ScheduleOf(scheds, i), s)
    ensures StopProgress(names, own, ports0, cur[i := s.after.(queue := [])], ports[names[i] := s.after.queue],
                         scheds, i + 1, log + [s])
  {
    var log' := log + [s];
    StoppedSnoc(names, own, ports0, scheds, log, s);
    CurSnoc(own, cur, log, s);
    PortsAfterPrefix(names, ports0, log, s, i);
    assert log'[i] == s;
    assert PortsAfter(names, ports0, log', i + 1) == ports[names[i] := s.after.queue];
  }

  /** Appending the shutdown of node |log| keeps every earlier node's stop as it was recorded. */
  lemma StoppedSnoc(names: seq<string>, own: seq<Pool>, ports0: map<string, seq<WorkItem>>,
                    scheds: seq<seq<seq<Move>>>, log: seq<Shutdown>, s: Shutdown)
    requires |log| < |names| == |own| && forall j :: 0 <= j < |names| ==> names[j] in ports0
    requires forall j {:trigger ScheduleOf(scheds, j)} :: 0 <= j < |log| ==>
               StoppedAs(names[j], own[j], PortsAfter(names, ports0, log, j)[names[j]], ScheduleOf(scheds, j), log[j])
    requires StoppedAs(names[|log|], own[|log|], PortsAfter(names, ports0, log, |log|)[names[|log|]],
                       ScheduleOf(scheds, |log|), s)
    ensures forall j {:trigger ScheduleOf(scheds, j)} :: 0 <= j <= |log| ==>
              StoppedAs(names[j], own[j], PortsAfter(names, ports0, log + [s], j)[names[j]], ScheduleOf(scheds, j),
                        (log + [s])[j])
  {
    forall j | 0 <= j <= |log|
      ensures StoppedAs(names[j], own[j], PortsAfter(names, ports0, log + [s], j)[names[j]], ScheduleOf(scheds, j),
                        (log + [s])[j])
    {
      PortsAfterPrefix(names, ports0, log, s, j);
      if j < |log| { assert (log + [s])[j] == log[j]; }
    }
  }

  /** Whatever each node's schedule, the pipeline-wide kill error built from
      a `KilledAll` log is the combination of every worker error, node by
      node, and is nil exactly when every node's error was nil. */
  lemma KilledAllReports(names: seq<string>, own: seq<Pool>, ports0: map<string, seq<WorkItem>>,
                         cur: seq<Pool>, ports: map<string, seq<WorkItem>>,
                         scheds: seq<seq<seq<Move>>>, log: seq<Shutdown>)
    requires KilledAll(names, own, ports0, cur, ports, scheds, log)
    ensures Combined(NonNil(Errs(log))) == Combined(Flatten(NodeErrors(Receipts(log))))
    ensures Combined(NonNil(Errs(log))).None? <==> forall j :: 0 <= j < |log| ==> log[j].err.None?
  {
    forall j | 0 <= j < |log|
      ensures log[j].err == Combined(NonNil(log[j].received))
    {
      KillRunReports(names[j], log[j].before, ScheduleOf(scheds, j));
    }
    KillAllReports(Errs(log), Receipts(log));
  }

  class Pipeline {
    var nodes: seq<Node>
    const inputs: Registry<WorkItem>
    const outputs: Registry<WorkItem>

    /** Every node shares the pipeline's two maps and has ports in both; no
        node is listed twice; every name has its own input port. */
    ghost predicate Valid()
      reads this, inputs, outputs
    {
      && inputs != outputs
      && (forall i :: 0 <= i < |nodes| ==> nodes[i].inputs == inputs && nodes[i].outputs == outputs)
      && (forall i :: 0 <= i < |nodes| ==> nodes[i].name in inputs.ports && nodes[i].name in outputs.ports)
      && (forall i, j :: 0 <= i < j < |nodes| ==> nodes[i] != nodes[j])
      && PortsDistinct()
    }

    /** No two names are registered with the same input port. */
    ghost predicate PortsDistinct()
      reads inputs
    {
      forall a, b :: a in inputs.ports && b in inputs.ports && a != b ==> inputs.ports[a] != inputs.ports[b]
    }

    /** After `Run`: each node's conveyor reads the port registered under the
        node's name, and no two names share a port; so two nodes share a port
        exactly when they share a name. */
    ghost predicate Wired()
      reads this, nodes, inputs
    {
      && (forall j :: 0 <= j < |nodes| ==>
            && nodes[j].conveers != null && nodes[j].name in inputs.ports
            && nodes[j].conveers.inputChan == inputs.ports[nodes[j].name])
      && PortsDistinct()
    }

    /** What every input port holds, by name. */
    ghost function Queues(): (r: map<string, seq<WorkItem>>)
      reads inputs, set n | n in inputs.ports :: inputs.ports[n]
      ensures r.Keys == inputs.ports.Keys
      ensures forall n :: n in inputs.ports ==> r[n] == inputs.ports[n].buf
    {
      map n | n in inputs.ports :: inputs.ports[n].buf
    }

    ghost function Conveyors(): set<Conveer?>
      reads this, nodes
    {
      set i | 0 <= i < |nodes| :: nodes[i].conveers
    }

    ghost function Processes(): set<MutexRunner>
      reads this, nodes
    {
      set i | 0 <= i < |nodes| && nodes[i].conveers != null :: nodes[i].conveers.process
    }

    ghost function InputPorts(): set<Port?<WorkItem>>
      reads this, nodes
    {
      set i | 0 <= i < |nodes| && nodes[i].conveers != null :: nodes[i].conveers.inputChan
    }

    /** The nodes' names, in list order. */
    ghost function Names(): (r: seq<string>)
      reads this
      ensures |r| == |nodes| && forall j :: 0 <= j < |nodes| ==> r[j] == nodes[j].name
    {
      seq(|nodes|, j requires 0 <= j < |nodes| reads this => nodes[j].name)
    }

    /** Each node's conveyor's own state, in list order. */
    ghost function Pools(): (r: seq<Pool>)
      requires Running()
      reads this, nodes, Conveyors(), Processes()
      ensures |r| == |nodes|
      ensures forall j :: 0 <= j < |nodes| ==> r[j] == nodes[j].conveers.Core()
    {
      seq(|nodes|, j requires 0 <= j < |nodes| && Running() reads this, nodes, Conveyors(), Processes() =>
        nodes[j].conveers.Core())
    }

    /** No two nodes share a conveyor or a counter. */
    ghost predicate Distinct()
      reads this, nodes
    {
      forall i, j :: 0 <= i < j < |nodes| ==>
        && nodes[i].conveers != nodes[j].conveers
        && (nodes[i].conveers != null && nodes[j].conveers != null ==>
              nodes[i].conveers.process != nodes[j].conveers.process)
    }

    /** After `Run`: every node has its own conveyor, with its own counter. */
    ghost predicate Running()
      reads this, nodes, Conveyors(), Processes()
    {
      (forall i :: 0 <= i < |nodes| ==> nodes[i].Ready()) && Distinct()
    }

    /** `NewPipeline`: no nodes and two empty maps. */
    constructor ()
      ensures nodes == [] && fresh(inputs) && fresh(outputs)
      ensures inputs.ports == map[] && outputs.ports == map[]
      ensures Valid()
    {
      nodes := [];
      inputs := new Registry<WorkItem>();
      outputs := new Registry<WorkItem>();
    }

    /** `AddNode`: appends one node sharing the pipeline's maps and installs
        fresh ports of capacity `BUFFER_VALUE` under its name. A name already
        present is not refused: both entries are overwritten and a second
        node is appended. */
    method AddNode(name: string, procFunc: ProcessorFunc, routines: int) returns (node: Node)
      requires Valid()
      modifies this, inputs, outputs
      ensures Valid()
      ensures fresh(node) && nodes == old(nodes) + [node]
      ensures node.name == name && node.processFunc == procFunc && node.routines == routines
      ensures node.inputs == inputs && node.outputs == outputs && node.conveers == null
      ensures name in inputs.ports && name in outputs.ports
      ensures fresh(inputs.ports[name]) && fresh(outputs.ports[name])
      ensures inputs.ports[name].capacity == BufferValue && inputs.ports[name].buf == []
      ensures outputs.ports[name].capacity == BufferValue && outputs.ports[name].buf == []
      ensures inputs.ports == old(inputs.ports)[name := inputs.ports[name]]
      ensures outputs.ports == old(outputs.ports)[name := outputs.ports[name]]
    {
      node := new Node(name, procFunc, inputs, outputs, routines);
      nodes := nodes + [node];
      var inPort := new Port<WorkItem>(BufferValue);
      inputs.ports := inputs.ports[name := inPort];
      var outPort := new Port<WorkItem>(BufferValue);
      outputs.ports := outputs.ports[name := outPort];
    }

    /** `Run`: in list order, builds each node's conveyor over the ports
        registered under its name, starts `Routines` workers and stores the
        conveyor in the node. */
    method Run()
      requires Valid()
      modifies nodes
      ensures Valid() && Running() && Wired()
      ensures forall i :: 0 <= i < |nodes| ==> nodes[i].Started()
      ensures forall i :: 0 <= i < |nodes| ==> fresh(nodes[i].conveers) && fresh(nodes[i].conveers.process)
    {
      ghost var built: seq<Conveer> := [];
      for i := 0 to |nodes|
        invariant Valid()
        invariant |built| == i
        invariant forall j :: 0 <= j < i ==>
                    nodes[j].conveers == built[j] && nodes[j].Started() && fresh(built[j]) && fresh(built[j].process)
        invariant forall j, k :: 0 <= j < k < i ==> built[j] != built[k] && built[j].process != built[k].process
      {
        assert forall j :: 0 <= j < i ==> nodes[j] != nodes[i];
        nodes[i].Start();
        built := built + [nodes[i].conveers];
      }
    }

    /** One pass of `Kill`'s loop: `node.Conveers.Kill()` for the `i`-th
        node, from its own state and what its port holds now, its error
        appended to `errorsSlice` when non-nil. Its port is left holding what
        its queue became; the other nodes' conveyors and the other ports are
        unchanged. */
    method KillNode(i: nat, sched: seq<seq<Move>>, errorsSlice: seq<Error>)
      returns (errorsSlice': seq<Error>, ghost s: Shutdown)
      requires Running() && Wired() && i < |nodes| && !nodes[i].conveers.killed
      modifies nodes[i].conveers, nodes[i].conveers.process, nodes[i].conveers.inputChan
      ensures Running() && Wired()
      ensures KilledAs(nodes[i].name, old(Pools())[i], old(Queues())[nodes[i].name], sched, s)
      ensures errorsSlice' == errorsSlice + NonNil([s.err])
      ensures s.err == Combined(NonNil(s.received))
      ensures Pools() == old(Pools())[i := s.after.(queue := [])]
      ensures Queues() == old(Queues())[nodes[i].name := s.after.queue]
    {
      ghost var q0 := Queues();
      var c := nodes[i].conveers;
      errorsSlice', s := KillConveyor(i, sched, errorsSlice);
      forall n | n in inputs.ports
        ensures Queues()[n] == q0[nodes[i].name := s.after.queue][n]
      {
        if n != nodes[i].name {
          assert inputs.ports[n] != c.inputChan;
        }
      }
    }

    /** The conveyor part of `KillNode`: the `i`-th conveyor's kill and what
        it does to the nodes' states. */
    method KillConveyor(i: nat, sched: seq<seq<Move>>, errorsSlice: seq<Error>)
      returns (errorsSlice': seq<Error>, ghost s: Shutdown)
      requires Running() && i < |nodes| && !nodes[i].conveers.killed
      modifies nodes[i].conveers, nodes[i].conveers.process, nodes[i].conveers.inputChan
      ensures Running()
      ensures KilledAs(nodes[i].name, old(Pools())[i], old(nodes[i].conveers.Queue()), sched, s)
      ensures errorsSlice' == errorsSlice + NonNil([s.err])
      ensures s.err == Combined(NonNil(s.received))
      ensures Pools() == old(Pools())[i := s.after.(queue := [])]
      ensures nodes[i].conveers.Queue() == s.after.queue
    {
      ghost var before := Pools();
      var c := nodes[i].conveers;
      ghost var b := c.State();
      var errRoutine, received := c.Kill(sched);
      s := Shutdown(b, received, errRoutine, c.State());
      errorsSlice' := errorsSlice;
      if errRoutine.Some? {
        errorsSlice' := errorsSlice' + [errRoutine.value];
      }
      forall j | 0 <= j < |nodes| && j != i
        ensures nodes[j].conveers.Core() == old(nodes[j].conveers.Core())
        ensures nodes[j].Ready()
      {
        var d := nodes[j].conveers;
        assert d != c && d.process != c.process;
        assert unchanged(d, d.process);
      }
      assert c.Core() == s.after.(queue := []);
      assert Pools() == before[i := s.after.(queue := [])];
    }

    /** `node.Conveers.Stop()` for the `i`-th node, from its own state and
        what its port holds now. */
    method StopNode(i: nat, sched: seq<seq<Move>>) returns (ghost s: Shutdown)
      requires Running() && Wired() && i < |nodes| && !nodes[i].conveers.terminated
      modifies nodes[i].conveers, nodes[i].conveers.process, nodes[i].conveers.inputChan
      ensures Running() && Wired()
      ensures StoppedAs(nodes[i].name, old(Pools())[i], old(Queues())[nodes[i].name], sched, s)
      ensures Pools() == old(Pools())[i := s.after.(queue := [])]
      ensures Queues() == old(Queues())[nodes[i].name := s.after.queue]
    {
      ghost var q0 := Queues();
      var c := nodes[i].conveers;
      s := StopConveyor(i, sched);
      forall n | n in inputs.ports
        ensures Queues()[n] == q0[nodes[i].name := s.after.queue][n]
      {
        if n != nodes[i].name {
          assert inputs.ports[n] != c.inputChan;
        }
      }
    }

    /** The conveyor part of `StopNode`. */
    method StopConveyor(i: nat, sched: seq<seq<Move>>) returns (ghost s: Shutdown)
      requires Running() && i < |nodes| && !nodes[i].conveers.terminated
      modifies nodes[i].conveers, nodes[i].conveers.process, nodes[i].conveers.inputChan
      ensures Running()
      ensures StoppedAs(nodes[i].name, old(Pools())[i], old(nodes[i].conveers.Queue()), sched, s)
      ensures Pools() == old(Pools())[i := s.after.(queue := [])]
      ensures nodes[i].conveers.Queue() == s.after.queue
    {
      ghost var before := Pools();
      var c := nodes[i].conveers;
      ghost var b := c.State();
      ghost var received := c.Stop(sched);
      s := Shutdown(b, received, None, c.State());
      forall j | 0 <= j < |nodes| && j != i
        ensures nodes[j].conveers.Core() == old(nodes[j].conveers.Core())
        ensures nodes[j].Ready()
      {
        var d := nodes[j].conveers;
        assert d != c && d.process != c.process;
        assert unchanged(d, d.process);
      }
      assert c.Core() == s.after.(queue := []);
      assert Pools() == before[i := s.after.(queue := [])];
    }

    /** One pass of `Kill`'s loop. */
    method KillNext(ghost own: seq<Pool>, ghost ports0: map<string, seq<WorkItem>>,
                    scheds: seq<seq<seq<Move>>>, i: nat,
                    errorsSlice: seq<Error>, ghost log: seq<Shutdown>)
      returns (errorsSlice': seq<Error>, ghost log': seq<Shutdown>)
      requires Running() && Wired() && i < |nodes|
      requires KillProgress(Names(), own, ports0, Pools(), Queues(), scheds, i, errorsSlice, log)
      requires !own[i].killed
      modifies nodes[i].conveers, nodes[i].conveers.process, nodes[i].conveers.inputChan
      ensures Running() && Wired()
      ensures KillProgress(Names(), own, ports0, Pools(), Queues(), scheds, i + 1, errorsSlice', log')
    {
      ghost var cur, ports := Pools(), Queues();
      ghost var s;
      errorsSlice', s := KillNode(i, ScheduleOf(scheds, i), errorsSlice);
      KillStep(Names(), own, ports0, cur, ports, scheds, i, errorsSlice, log, s, errorsSlice');
      log' := log + [s];
    }

    /** The loop of `Kill`: kills every node's conveyor in list order, also
        after an earlier one returned an error, and collects the non-nil
        errors. Each conveyor starts from its own state at the call and from
        what its port holds when its turn comes: what was there at the call,
        or what an earlier node of the same name left there. */
    method KillNodes(scheds: seq<seq<seq<Move>>>) returns (errorsSlice: seq<Error>, ghost log: seq<Shutdown>)
      requires Running() && Wired()
      requires forall i :: 0 <= i < |nodes| ==> !nodes[i].conveers.killed
      modifies Conveyors(), Processes(), InputPorts()
      ensures Running() && Wired()
      ensures KilledAll(Names(), old(Pools()), old(Queues()), Pools(), Queues(), scheds, log)
      ensures errorsSlice == NonNil(Errs(log))
    {
      ghost var own, ports0 := Pools(), Queues();
      errorsSlice := [];
      log := [];
      for i := 0 to |nodes|
        invariant Running() && Wired()
        invariant KillProgress(Names(), own, ports0, Pools(), Queues(), scheds, i, errorsSlice, log)
      {
        assert nodes[i].conveers in Conveyors() && nodes[i].conveers.process in Processes();
        assert nodes[i].conveers.inputChan in InputPorts();
        errorsSlice, log := KillNext(own, ports0, scheds, i, errorsSlice, log);
      }
      KillDone(Names(), own, ports0, Pools(), Queues(), scheds, errorsSlice, log);
    }

    /** `Kill`: the loop above, then the collected errors combined into one. */
    method Kill(scheds: seq<seq<seq<Move>>>) returns (err: Option<Error>, ghost log: seq<Shutdown>)
      requires Running() && Wired()
      requires forall i :: 0 <= i < |nodes| ==> !nodes[i].conveers.killed
      modifies Conveyors(), Processes(), InputPorts()
      ensures Running() && Wired()
      ensures KilledAll(Names(), old(Pools()), old(Queues()), Pools(), Queues(), scheds, log)
      ensures err == Combined(NonNil(Errs(log)))
    {
      var errorsSlice;
      errorsSlice, log := KillNodes(scheds);
      err := CombineErrors(errorsSlice);
    }

    /** One pass of `Stop`'s loop. */
    method StopNext(ghost own: seq<Pool>, ghost ports0: map<string, seq<WorkItem>>,
                    scheds: seq<seq<seq<Move>>>, i: nat, ghost log: seq<Shutdown>)
      returns (ghost log': seq<Shutdown>)
      requires Running() && Wired() && i < |nodes|
      requires StopProgress(Names(), own, ports0, Pools(), Queues(), scheds, i, log)
      requires !own[i].terminated
      modifies nodes[i].conveers, nodes[i].conveers.process, nodes[i].conveers.inputChan
      ensures Running() && Wired()
      ensures StopProgress(Names(), own, ports0, Pools(), Queues(), scheds, i + 1, log')
    {
      ghost var cur, ports := Pools(), Queues();
      ghost var s := StopNode(i, ScheduleOf(scheds, i));
      StopStep(Names(), own, ports0, cur, ports, scheds, i, log, s);
      log' := log + [s];
    }

    /** `Stop`: stops every node's conveyor, in list order, each from its own
        state at the call and from what its port holds when its turn comes. */
    method Stop(scheds: seq<seq<seq<Move>>>) returns (ghost log: seq<Shutdown>)
      requires Running() && Wired()
      requires forall i :: 0 <= i < |nodes| ==> !nodes[i].conveers.terminated
      modifies Conveyors(), Processes(), InputPorts()
      ensures Running() && Wired()
      ensures StoppedAll(Names(), old(Pools()), old(Queues()), Pools(), Queues(), scheds, log)
    {
      ghost var own, ports0 := Pools(), Queues();
      log := [];
      for i := 0 to |nodes|
        invariant Running() && Wired()
        invariant StopProgress(Names(), own, ports0, Pools(), Queues(), scheds, i, log)
      {
        assert nodes[i].conveers in Conveyors() && nodes[i].conveers.process in Processes();
        assert nodes[i].conveers.inputChan in InputPorts();
        log := StopNext(own, ports0, scheds, i, log);
      }
    }
  }
}
