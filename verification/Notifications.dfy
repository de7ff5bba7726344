/**
  How controllers learn about nodes. Connecting a controller scans the node tables
  under the controller lock; connecting or disconnecting a node spawns a goroutine that
  later takes the same lock for reading and writes to every controller. A step is one
  lock acquisition, one table update or one send; a step whose lock is not available
  leaves the state as it is.
  */
module Notifications {
  import opened Basics

  datatype Kind = Compute | Network

  /** A node as the tables see it. */
  datatype Key = Key(kind: Kind, uuid: Uuid)

  /** A spawned notifier: `todo` is None until it holds the controller lock for reading. */
  datatype Notifier = Notifier(node: Key, connected: bool, todo: Option<set<Uuid>>)

  /** The controller connection under way, which holds the controller lock for writing. */
  datatype Scan =
    | Unlocked(controller: Uuid)
    | Scanning(controller: Uuid, kind: Kind, nodes: set<Uuid>)

  /**
    Every connection gets a number of its own, so that `sent` can say of two connections
    that one has been told of the other. `now` is the next free number. `last` is the last
    event about a node that was sent on a connection of a controller: true is NodeConnected.
    */
  datatype State = State(
    controllers: map<Uuid, nat>,
    nodes: map<Key, nat>,
    scan: Option<Scan>,
    notifiers: map<nat, Notifier>,
    sent: set<(nat, nat)>,
    last: map<(nat, Key), bool>,
    now: nat)

  datatype Step =
    | ConnectController(uuid: Uuid)
    | DisconnectController(uuid: Uuid)
    | LockTable
    | SendDirected(uuid: Uuid)
    | FinishScan
    | ConnectNode(node: Key)
    | DisconnectNode(node: Key)
    | LockControllers(id: nat)
    | SendEvent(id: nat, uuid: Uuid)
    | FinishNotifier(id: nat)

  function OfKind(s: State, kind: Kind): set<Uuid> {
    set k | k in s.nodes && k.kind == kind :: k.uuid
  }

  /** Some notifier holds the controller lock for reading. */
  ghost predicate ReadLocked(s: State) {
    exists id :: id in s.notifiers && s.notifiers[id].todo.Some?
  }

  /** The scan holds the table lock of `kind` for reading; it keeps both to the end. */
  predicate TableLocked(s: State, kind: Kind) {
    s.scan.Some? && s.scan.value.Scanning? && (kind == Compute || s.scan.value.kind == Network)
  }

  function Told(s: State, controller: Uuid, node: Key): set<(nat, nat)> {
    if controller in s.controllers && node in s.nodes then
      s.sent + {(s.controllers[controller], s.nodes[node])}
    else s.sent
  }

  function Heard(s: State, controller: Uuid, node: Key, connected: bool): map<(nat, Key), bool> {
    if controller in s.controllers then s.last[(s.controllers[controller], node) := connected] else s.last
  }

  ghost function Next(s: State, step: Step): State {
    match step
    case ConnectController(u) =>
      if s.scan.Some? || ReadLocked(s) || u in s.controllers then s
      else s.(controllers := s.controllers[u := s.now], scan := Some(Unlocked(u)), now := s.now + 1)
    case DisconnectController(u) =>
      if s.scan.Some? || ReadLocked(s) then s else s.(controllers := s.controllers - {u})
    case LockTable =>
      (match s.scan
       case Some(Unlocked(c)) => s.(scan := Some(Scanning(c, Compute, OfKind(s, Compute))))
       case Some(Scanning(c, Compute, left)) =>
         if left == {} then s.(scan := Some(Scanning(c, Network, OfKind(s, Network)))) else s
       case _ => s)
    case SendDirected(u) =>
      (match s.scan
       case Some(Scanning(c, kind, left)) =>
         if u in left then
           s.(sent := Told(s, c, Key(kind, u)), last := Heard(s, c, Key(kind, u), true),
              scan := Some(Scanning(c, kind, left - {u})))
         else s
       case _ => s)
    case FinishScan =>
      if s.scan.Some? && s.scan.value.Scanning? && s.scan.value.kind == Network && s.scan.value.nodes == {} then
        s.(scan := None)
      else s
    case ConnectNode(k) =>
      if TableLocked(s, k.kind) || k in s.nodes then s
      else s.(nodes := s.nodes[k := s.now], notifiers := s.notifiers[s.now := Notifier(k, true, None)],
        now := s.now + 1)
    case DisconnectNode(k) =>
      if TableLocked(s, k.kind) || k !in s.nodes then s
      else s.(nodes := s.nodes - {k}, notifiers := s.notifiers[s.now := Notifier(k, false, None)], now := s.now + 1)
    case LockControllers(id) =>
      if id in s.notifiers && s.notifiers[id].todo.None? && s.scan.None? then
        s.(notifiers := s.notifiers[id := s.notifiers[id].(todo := Some(s.controllers.Keys))])
      else s
    case SendEvent(id, u) =>
      if id in s.notifiers && s.notifiers[id].todo.Some? && u in s.notifiers[id].todo.value then
        var n := s.notifiers[id];
        s.(sent := if n.connected then Told(s, u, n.node) else s.sent, last := Heard(s, u, n.node, n.connected),
           notifiers := s.notifiers[id := n.(todo := Some(n.todo.value - {u}))])
      else s
    case FinishNotifier(id) =>
      if id in s.notifiers && s.notifiers[id].todo == Some({}) then s.(notifiers := s.notifiers - {id}) else s
  }

  ghost function Run(h: Log<Step>): State {
    match h
    case Empty => State(map[], map[], None, map[], {}, map[], 0)
    case Then(before, step) => Next(Run(before), step)
  }

  // ---- The invariant ----

  /** A notifier that still has to tell `c` that `k` is connected. */
  predicate WillTell(n: Notifier, c: Uuid, k: Key) {
    n.node == k && n.connected && (n.todo.None? || c in n.todo.value)
  }

  /** The scan under way still has to tell `c` of `k`. */
  predicate WillScan(scan: Option<Scan>, c: Uuid, k: Key) {
    match scan
    case None => false
    case Some(Unlocked(u)) => u == c
    case Some(Scanning(u, kind, left)) => u == c && (if k.kind == kind then k.uuid in left else kind == Compute)
  }

  ghost predicate Covered(s: State, c: Uuid, k: Key)
    requires c in s.controllers && k in s.nodes
  {
    || (s.controllers[c], s.nodes[k]) in s.sent
    || WillScan(s.scan, c, k)
    || exists id :: id in s.notifiers && WillTell(s.notifiers[id], c, k)
  }

  ghost predicate Inv(s: State) {
    && (forall id :: id in s.notifiers ==> id < s.now)
    && (forall id :: id in s.notifiers && s.notifiers[id].todo.Some? ==>
      s.scan.None? && s.notifiers[id].todo.value <= s.controllers.Keys)
    && (s.scan.Some? ==> s.scan.value.controller in s.controllers)
    && (s.scan.Some? && s.scan.value.Scanning? ==> forall u :: u in s.scan.value.nodes ==>
      Key(s.scan.value.kind, u) in s.nodes)
    && (forall c, k :: c in s.controllers && k in s.nodes ==> Covered(s, c, k))
  }

  lemma InvNext(s: State, step: Step)
    requires Inv(s)
    ensures Inv(Next(s, step))
  {
    var t := Next(s, step);
    forall c, k | c in t.controllers && k in t.nodes ensures Covered(t, c, k) {
      CoveredNext(s, step, c, k);
    }
  }

  lemma CoveredNext(s: State, step: Step, c: Uuid, k: Key)
    requires Inv(s) && c in Next(s, step).controllers && k in Next(s, step).nodes
    ensures Covered(Next(s, step), c, k)
  {
    var t := Next(s, step);
    if c in s.controllers && k in s.nodes {
      assert Covered(s, c, k);
      if (exists id :: id in s.notifiers && WillTell(s.notifiers[id], c, k)) {
        var id :| id in s.notifiers && WillTell(s.notifiers[id], c, k);
        if id in t.notifiers && WillTell(t.notifiers[id], c, k) {
        } else {
          assert step == SendEvent(id, c) || step == FinishNotifier(id);
        }
      }
    } else if c in s.controllers {
      assert t.notifiers[s.now] == Notifier(k, true, None);
    }
  }

  lemma {:induction false} RunInv(h: Log<Step>)
    ensures Inv(Run(h))
  {
    if h.Then? {
      RunInv(h.before);
      InvNext(Run(h.before), h.last);
    }
  }

  /**
    Under every interleaving, once no notifier and no scan is pending, every connected
    controller has been sent NodeConnected for every node in the tables.
    */
  lemma EveryControllerIsTold(h: Log<Step>, c: Uuid, k: Key)
    requires Run(h).notifiers == map[] && Run(h).scan.None?
    requires c in Run(h).controllers && k in Run(h).nodes
    ensures (Run(h).controllers[c], Run(h).nodes[k]) in Run(h).sent
  {
    RunInv(h);
    assert Covered(Run(h), c, k);
  }

  /** Numbers are handed out once: what `sent` says of a connection was sent while it was up. */
  ghost predicate Numbered(s: State) {
    && (forall p :: p in s.sent ==> p.0 < s.now && p.1 < s.now)
    && (forall c :: c in s.controllers ==> s.controllers[c] < s.now)
    && (forall k :: k in s.nodes ==> s.nodes[k] < s.now)
  }

  lemma {:induction false} RunNumbered(h: Log<Step>)
    ensures Numbered(Run(h))
  {
    if h.Then? {
      RunNumbered(h.before);
      match h.last {
        case SendDirected(u) =>
        case SendEvent(id, u) =>
        case _ =>
      }
    }
  }

  /** A connection just made is in no pair of `sent`: what was sent on an earlier one does not count for it. */
  lemma NothingSentEarly(h: Log<Step>, step: Step)
    ensures var s, t := Run(h), Next(Run(h), step);
            && (forall c, p :: c in t.controllers && c !in s.controllers && p in t.sent ==> p.0 != t.controllers[c])
            && (forall k, p :: k in t.nodes && k !in s.nodes && p in t.sent ==> p.1 != t.nodes[k])
  {
    RunNumbered(h);
    match step {
      case ConnectController(u) =>
      case ConnectNode(k) =>
      case _ =>
    }
  }

  /** What counts as sent was sent by this step: a NodeConnected about that node to that controller. */
  lemma SentByStep(s: State, step: Step, p: (nat, nat))
    requires p in Next(s, step).sent && p !in s.sent
    ensures exists c, k :: c in s.controllers && k in s.nodes && p == (s.controllers[c], s.nodes[k]) &&
              Next(s, step).last == s.last[(p.0, k) := true]
  {
    match step {
      case SendDirected(u) =>
        var scan := s.scan.value;
        assert scan.controller in s.controllers && Key(scan.kind, u) in s.nodes;
      case SendEvent(id, u) =>
        assert u in s.controllers && s.notifiers[id].node in s.nodes;
    }
  }

  /** While a scan holds a table, no node of that kind comes or goes. */
  lemma TableFrozen(s: State, step: Step, k: Key)
    requires TableLocked(s, k.kind)
    ensures k in Next(s, step).nodes <==> k in s.nodes
  {
  }

  /** While nobody holds the controller lock, controllers come and go; one that comes back counts as new. */
  lemma ControllersComeAndGo(h: Log<Step>, u: Uuid)
    requires Run(h).scan.None? && !ReadLocked(Run(h))
    ensures var gone := Next(Run(h), DisconnectController(u)); gone == Run(h).(controllers := Run(h).controllers - {u})
    ensures var back := Next(Next(Run(h), DisconnectController(u)), ConnectController(u));
            && u in back.controllers && back.scan == Some(Unlocked(u))
            && (forall p :: p in back.sent ==> p.0 != back.controllers[u])
            && (forall c :: c != u && c in Run(h).controllers ==>
              c in back.controllers && back.controllers[c] == Run(h).controllers[c])
  {
    var gone := Next(Run(h), DisconnectController(u));
    RunNumbered(h);
    assert !ReadLocked(gone);
  }

  /** While the lock is held, they wait. */
  lemma ControllersWait(s: State, step: Step)
    requires (s.scan.Some? || ReadLocked(s)) && (step.ConnectController? || step.DisconnectController?)
    ensures Next(s, step) == s
  {
  }

  /** A node that comes or goes while its table is free does so at once, and starts a notifier that says which. */
  lemma NodesComeAndGo(s: State, k: Key)
    requires !TableLocked(s, k.kind) && forall id :: id in s.notifiers ==> id < s.now
    ensures k !in s.nodes ==>
              var t := Next(s, ConnectNode(k));
              t.nodes == s.nodes[k := s.now] && t.notifiers == s.notifiers[s.now := Notifier(k, true, None)]
    ensures k in s.nodes ==>
              var t := Next(s, DisconnectNode(k));
              t.nodes == s.nodes - {k} && t.notifiers == s.notifiers[s.now := Notifier(k, false, None)]
  {
  }

  /** The steps that are not a client coming or going. */
  predicate Internal(step: Step) {
    match step
    case ConnectController(_) => false
    case DisconnectController(_) => false
    case ConnectNode(_) => false
    case DisconnectNode(_) => false
    case _ => true
  }

  /** Whatever is pending can always move: the locks never block each other for good. */
  lemma NeverStuck(h: Log<Step>)
    requires Run(h).notifiers != map[] || Run(h).scan.Some?
    ensures exists step :: Internal(step) && Next(Run(h), step) != Run(h)
  {
    var s := Run(h);
    match s.scan {
      case Some(Unlocked(c)) =>
        assert Next(s, LockTable) != s;
      case Some(Scanning(c, kind, left)) =>
        if left != {} {
          var u :| u in left;
          assert u !in Next(s, SendDirected(u)).scan.value.nodes;
        } else if kind == Compute {
          assert Next(s, LockTable) != s;
        } else {
          assert Next(s, FinishScan) != s;
        }
      case None =>
        var id :| id in s.notifiers;
        var n := s.notifiers[id];
        if n.todo.None? {
          assert Next(s, LockControllers(id)).notifiers[id] != n;
        } else if n.todo.value == {} {
          assert id !in Next(s, FinishNotifier(id)).notifiers;
        } else {
          var u :| u in n.todo.value;
          assert u !in Next(s, SendEvent(id, u)).notifiers[id].todo.value;
        }
    }
  }
}
