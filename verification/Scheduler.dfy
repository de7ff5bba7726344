/**
  The scheduler's state as objects: the two node tables, updated in place by the
  notification handlers, and the forwarding of controller commands.
  */
module Scheduler {
  import opened Basics
  import opened Slices
  import opened Controllers
  import opened Placement

  /** Why a START failed: there is no network node for it, no compute node at all, or none that fits. */
  function ReasonOf(isNet: bool, nodes: seq<Uuid>): Failure {
    if isNet then NoNetworkNodes else if nodes == [] then NoComputeNodes else FullCloud
  }

  class NodeTable {
    const isNet: bool
    var nodeMap: map<Uuid, NodeStat>
    var nodeList: seq<Uuid>
    var mru: Option<Uuid>
    var mruIndex: int

    ghost function View(): Table
      reads this
    {
      Table(isNet, nodeMap, nodeList, mru, mruIndex)
    }

    ghost predicate Valid()
      reads this
    {
      Coherent(View())
    }

    constructor (isNet: bool)
      ensures Valid() && this.isNet == isNet && View() == Run(isNet, Empty)
    {
      this.isNet := isNet;
      nodeMap := map[];
      nodeList := [];
      mru := None;
      mruIndex := -1;
    }

    method Connect(uuid: Uuid)
      requires Valid()
      modifies this
      ensures Valid() && View() == Joined(old(View()), uuid)
    {
      JoinedCoherent(View(), uuid);
      if uuid in nodeMap {
        return;
      }
      nodeList := nodeList + [uuid];
      nodeMap := nodeMap[uuid := NodeStat(isNet, CONNECTED, 0, 0, None)];
    }

    method Disconnect(uuid: Uuid)
      requires Valid()
      modifies this
      ensures Valid() && View() == Departed(old(View()), uuid)
    {
      DepartedCoherent(View(), uuid);
      if uuid !in nodeMap {
        return;
      }
      nodeMap := nodeMap - {uuid};
      nodeList := RemoveWhileRanging(nodeList, uuid);
      if mru == Some(uuid) {
        mru := None;
        mruIndex := -1;
      }
    }

    method UpdateStat(uuid: Uuid, status: NodeStatus, parsed: Option<Ready>)
      requires Valid()
      modifies this
      ensures Valid() && View() == Reported(old(View()), uuid, status, parsed)
    {
      if uuid !in nodeMap {
        return;
      }
      var node := nodeMap[uuid].(status := status);
      match status {
        case READY =>
          if parsed.Some? {
            var r := parsed.value;
            node := node.(memAvailMB := r.memAvailMB, diskAvailMB := r.diskAvailMB, hostname := r.hostname);
          }
        case _ =>
      }
      nodeMap := nodeMap[uuid := node];
    }

    /** One of the two loops of a pick: the first node from `lo` on that fits, the `skip` node left out. */
    method ScanLoop(w: Workload, lo: nat, skip: Option<Uuid>) returns (k: nat)
      requires Listed(View()) && lo <= |nodeList|
      ensures k == Scan(View(), w, skip, lo, |nodeList|)
    {
      for i := lo to |nodeList|
        invariant Scan(View(), w, skip, lo, |nodeList|) == Scan(View(), w, skip, i, |nodeList|)
      {
        var u := nodeList[i];
        if Some(u) == skip {
          continue;
        }
        if Fits(u, nodeMap[u], w) {
          return i;
        }
      }
      return |nodeList|;
    }

    /** First the nodes after the cursor, skipping the MRU node; then the whole list. Past its end if none fits. */
    method Search(w: Workload) returns (k: nat)
      requires Listed(View())
      ensures k <= |nodeList| && Choice(View(), w) == if k < |nodeList| then Some(k) else None
    {
      if mruIndex != -1 && mruIndex < |nodeList| - 1 {
        k := ScanLoop(w, mruIndex + 1, mru);
        if k < |nodeList| {
          return;
        }
      }
      k := ScanLoop(w, 0, None);
    }

    method Pick(w: Workload) returns (node: Option<Uuid>, errors: seq<Failure>)
      requires Listed(View())
      modifies this`mru, this`mruIndex
      ensures node == Target(old(View()), w)
      ensures errors == if node.Some? then [] else [ReasonOf(isNet, nodeList)]
      ensures var k := Choice(old(View()), w);
              if k.None? then unchanged(this) else mru == node && mruIndex == k.value
    {
      if |nodeList| == 0 {
        return None, [if isNet then NoNetworkNodes else NoComputeNodes];
      }
      var k := Search(w);
      if k < |nodeList| {
        mruIndex := k;
        mru := Some(nodeList[k]);
        return mru, [];
      }
      return None, [if isNet then NoNetworkNodes else FullCloud];
    }

    /** A pick, and the speculative claim on the memory of the node picked. */
    method StartWorkload(w: Workload) returns (dest: Option<Uuid>, errors: seq<Failure>)
      requires Valid()
      modifies this
      ensures Valid() && View() == Next(old(View()), Start(w))
      ensures dest == Target(old(View()), w)
      ensures errors == if dest.Some? then [] else [ReasonOf(isNet, nodeList)]
    {
      ghost var t := View();
      NextCoherent(t, Start(w));
      dest, errors := Pick(w);
      if dest.Some? {
        nodeMap := nodeMap[dest.value := Claimed(nodeMap[dest.value], w)];
      }
    }
  }

  /** A node table after any run of notifications and STARTs. */
  method Replay(isNet: bool, h: Log<Event>) returns (t: NodeTable)
    ensures fresh(t) && t.Valid() && t.isNet == isNet && t.View() == Run(isNet, h)
  {
    match h {
      case Empty =>
        t := new NodeTable(isNet);
      case Then(before, e) =>
        t := Replay(isNet, before);
        match e {
          case Connect(u) => t.Connect(u);
          case Disconnect(u) => t.Disconnect(u);
          case Report(u, status, parsed) => t.UpdateStat(u, status, parsed);
          case Start(w) => var _, _ := t.StartWorkload(w);
        }
    }
  }

  /** A controller command with its payload parsed; None is a payload that does not name a recipient. */
  datatype Command =
    | START(work: Option<Workload>)
    | ToAgent(agent: Option<Uuid>)
    | ToConcentrator(cnci: Option<Uuid>)
    | Other

  class Server {
    const controllers: Succession
    const compute: NodeTable
    const network: NodeTable

    ghost predicate Valid()
      reads controllers, compute, network
    {
      && controllers.Valid() && compute.Valid() && network.Valid()
      && !compute.isNet && network.isNet
    }

    constructor ()
      ensures Valid()
    {
      var s := new Succession();
      var c := new NodeTable(false);
      var n := new NodeTable(true);
      controllers, compute, network := s, c, n;
    }

    /** Only the master's commands are forwarded, and a START goes through placement. */
    method CommandForward(sender: Uuid, command: Command) returns (dest: Option<Uuid>, errors: seq<Failure>)
      requires Valid()
      modifies compute, network
      ensures Valid()
      ensures dest.Some? || errors != [] ==> controllers.controllerList != [] && controllers.controllerList[0] == sender
      ensures controllers.controllerList == [] || controllers.controllerList[0] != sender ==>
                unchanged(compute) && unchanged(network)
      ensures controllers.controllerList != [] && controllers.controllerList[0] == sender ==>
                match command
                case START(Some(w)) =>
                  var table := if w.networkNode then network else compute;
                  && dest == Target(old(table.View()), w) &&
                    errors == (if dest.Some? then [] else [ReasonOf(w.networkNode, table.nodeList)])
                  && table.View() == Next(old(table.View()), Start(w))
                  && (if w.networkNode then unchanged(compute) else unchanged(network))
                case START(None) => dest == None && errors == [] && unchanged(compute) && unchanged(network)
                case ToAgent(agent) => dest == agent && errors == [] && unchanged(compute) && unchanged(network)
                case ToConcentrator(cnci) => dest == cnci && errors == [] && unchanged(compute) && unchanged(network)
                case Other => dest == None && errors == [] && unchanged(compute) && unchanged(network)
    {
      dest, errors := None, [];
      if sender !in controllers.controllerMap {
        return;
      }
      if controllers.controllerMap[sender] != Master {
        return;
      }
      match command {
        case START(work) =>
          if work.Some? {
            if work.value.networkNode {
              dest, errors := network.StartWorkload(work.value);
            } else {
              dest, errors := compute.StartWorkload(work.value);
            }
          }
        case ToAgent(agent) => dest := agent;
        case ToConcentrator(cnci) => dest := cnci;
        case Other =>
      }
    }
  }
}
