/**
  The last event a controller gets about a node. The goroutines that notify controllers are
  not ordered, so a NodeDisconnected can overtake the NodeConnected of a node that has come
  back; taken in turn, the last event agrees with the tables.
  */
module LastEvents {
  import opened Basics
  import opened Notifications

  /** The notifiers of one node, by age; they are started in the order of their numbers. */
  ghost predicate OldestOfNode(s: State, id: nat)
    requires id in s.notifiers
  {
    forall j :: j in s.notifiers && s.notifiers[j].node == s.notifiers[id].node ==> id <= j
  }

  ghost predicate NewestOfNode(s: State, id: nat)
    requires id in s.notifiers
  {
    forall j :: j in s.notifiers && s.notifiers[j].node == s.notifiers[id].node ==> j <= id
  }

  /** A notifier waits for the older ones of its node to finish before it takes the controller lock. */
  ghost predicate Waits(s: State, step: Step) {
    step.LockControllers? && step.id in s.notifiers ==> OldestOfNode(s, step.id)
  }

  ghost predicate InTurn(h: Log<Step>) {
    match h
    case Empty => true
    case Then(before, step) => InTurn(before) && Waits(Run(before), step)
  }

  /** A notifier that still has something to say to `c` about `k`. */
  predicate WillSay(n: Notifier, c: Uuid, k: Key) {
    n.node == k && (n.todo.None? || c in n.todo.value)
  }

  /** The last event agrees with the tables. */
  predicate Right(s: State, c: Uuid, k: Key)
    requires c in s.controllers
  {
    k in s.nodes <==> (s.controllers[c], k) in s.last && s.last[(s.controllers[c], k)]
  }

  /** Nobody has anything to say to `c` about `k` any more. */
  ghost predicate Settled(s: State, c: Uuid, k: Key) {
    !WillScan(s.scan, c, k) && forall id :: id in s.notifiers ==> !WillSay(s.notifiers[id], c, k)
  }

  // ---- The invariant ----

  /** What the controller of a scan has heard so far is about nodes that are kept in the tables meanwhile. */
  ghost predicate ScanOk(s: State, k: Key) {
    s.scan.Some? && s.scan.value.controller in s.controllers ==>
      var heard := (s.controllers[s.scan.value.controller], k);
      heard in s.last ==> s.last[heard] && k in s.nodes && TableLocked(s, k.kind)
  }

  /** Only the oldest notifier of a node is at work, and the newest one is right about the node. */
  ghost predicate NotifierOk(s: State, id: nat)
    requires id in s.notifiers
  {
    && (s.notifiers[id].todo.Some? ==> OldestOfNode(s, id))
    && (NewestOfNode(s, id) ==> (s.notifiers[id].connected <==> s.notifiers[id].node in s.nodes))
  }

  ghost predicate NotifiersOk(s: State) {
    forall id :: id in s.notifiers ==> NotifierOk(s, id)
  }

  ghost predicate AllScanOk(s: State) {
    forall k :: ScanOk(s, k)
  }

  ghost predicate AllRight(s: State) {
    forall c, k :: c in s.controllers && Settled(s, c, k) ==> Right(s, c, k)
  }

  ghost predicate HeardNumbered(s: State) {
    forall p :: p in s.last ==> p.0 < s.now
  }

  ghost predicate OwnNumbers(s: State) {
    forall c, u :: c in s.controllers && u in s.controllers && s.controllers[c] == s.controllers[u] ==> c == u
  }

  ghost predicate TurnInv(s: State) {
    Inv(s) && Numbered(s) && OwnNumbers(s) && HeardNumbered(s) && NotifiersOk(s) && AllScanOk(s) && AllRight(s)
  }

  // ---- Notifiers ----

  /** Who is oldest and newest of a node, when none of it is added and none but the oldest is gone. */
  lemma AgesKept(s: State, t: State, j: nat)
    requires j in s.notifiers && j in t.notifiers && t.notifiers[j].node == s.notifiers[j].node
    requires forall i :: i in t.notifiers && t.notifiers[i].node == t.notifiers[j].node ==>
               i in s.notifiers && s.notifiers[i].node == t.notifiers[i].node
    requires forall i :: i in s.notifiers && s.notifiers[i].node == s.notifiers[j].node ==>
               (i in t.notifiers && t.notifiers[i].node == s.notifiers[i].node) || OldestOfNode(s, i)
    ensures OldestOfNode(s, j) ==> OldestOfNode(t, j)
    ensures NewestOfNode(t, j) ==> NewestOfNode(s, j)
  {
  }

  /** A new one is the newest of its node, and right about it. */
  lemma NotifierStarted(s: State, t: State, k: Key, connected: bool)
    requires NotifiersOk(s) && (forall id :: id in s.notifiers ==> id < s.now)
    requires t.notifiers == s.notifiers[s.now := Notifier(k, connected, None)]
    requires (k in t.nodes <==> connected) && forall k' :: k' != k ==> (k' in t.nodes <==> k' in s.nodes)
    ensures NotifiersOk(t)
  {
    forall id | id in t.notifiers ensures NotifierOk(t, id) {
      if id in s.notifiers {
        assert NotifierOk(s, id) && t.notifiers[id] == s.notifiers[id];
        if s.notifiers[id].node == k {
          assert s.now in t.notifiers && !NewestOfNode(t, id);
        } else {
          AgesKept(s, t, id);
        }
      }
    }
  }

  /** One that changes what it has to do stays where it is. */
  lemma NotifierWorked(s: State, t: State, id: nat, todo: Option<set<Uuid>>)
    requires NotifiersOk(s) && id in s.notifiers && OldestOfNode(s, id)
    requires t.notifiers == s.notifiers[id := s.notifiers[id].(todo := todo)] && t.nodes == s.nodes
    ensures NotifiersOk(t)
  {
    forall j | j in t.notifiers ensures NotifierOk(t, j) {
      assert NotifierOk(s, j);
      AgesKept(s, t, j);
    }
  }

  /** One that is done was the oldest, so the newest is who it was. */
  lemma NotifierFinished(s: State, t: State, id: nat)
    requires NotifiersOk(s) && id in s.notifiers && OldestOfNode(s, id)
    requires t.notifiers == s.notifiers - {id} && t.nodes == s.nodes
    ensures NotifiersOk(t)
  {
    forall j | j in t.notifiers ensures NotifierOk(t, j) {
      assert NotifierOk(s, j);
      AgesKept(s, t, j);
    }
  }

  lemma NotifierSame(s: State, t: State)
    requires NotifiersOk(s) && t.notifiers == s.notifiers && t.nodes == s.nodes
    ensures NotifiersOk(t)
  {
    forall j | j in t.notifiers ensures NotifierOk(t, j) {
      assert NotifierOk(s, j);
      AgesKept(s, t, j);
    }
  }

  /** Comings and goings of nodes, and the steps of notifiers. */
  predicate Touches(step: Step) {
    step.ConnectNode? || step.DisconnectNode? || step.LockControllers? || step.SendEvent? || step.FinishNotifier?
  }

  lemma TurnNotifiers(s: State, step: Step)
    requires TurnInv(s) && Waits(s, step)
    ensures NotifiersOk(Next(s, step))
  {
    var t := Next(s, step);
    if !Touches(step) || t == s {
      NotifierSame(s, t);
    } else {
      NotifierTouched(s, step);
    }
  }

  lemma NotifierTouched(s: State, step: Step)
    requires TurnInv(s) && Waits(s, step) && Touches(step) && Next(s, step) != s
    ensures NotifiersOk(Next(s, step))
  {
    var t := Next(s, step);
    match step {
      case ConnectNode(k) => NotifierStarted(s, t, k, true);
      case DisconnectNode(k) => NotifierStarted(s, t, k, false);
      case LockControllers(id) => NotifierWorked(s, t, id, t.notifiers[id].todo);
      case SendEvent(id, u) =>
        assert NotifierOk(s, id);
        NotifierWorked(s, t, id, t.notifiers[id].todo);
      case FinishNotifier(id) =>
        assert NotifierOk(s, id);
        NotifierFinished(s, t, id);
    }
  }

  // ---- The last event ----

  lemma TurnScans(s: State, step: Step)
    requires TurnInv(s)
    ensures AllScanOk(Next(s, step)) && HeardNumbered(Next(s, step))
  {
    forall k ensures ScanOk(Next(s, step), k) {
      assert ScanOk(s, k);
    }
  }

  /** A table that has just been locked lists all its nodes, and nothing has been said about the others. */
  lemma RightAfterLock(s: State, c: Uuid, k: Key)
    requires TurnInv(s) && c in s.controllers && Settled(Next(s, LockTable), c, k)
    ensures Right(Next(s, LockTable), c, k)
  {
    assert ScanOk(s, k);
    assert k in s.nodes ==> k.uuid in OfKind(s, k.kind);
    if Settled(s, c, k) {
      assert Right(s, c, k);
    }
  }

  /** While one notifier of a node is at work, a newer one has yet to speak to everybody. */
  lemma NewerHasMore(s: State, id: nat, j: nat, c: Uuid)
    requires NotifiersOk(s) && id in s.notifiers && j in s.notifiers && id < j &&
            s.notifiers[j].node == s.notifiers[id].node
    ensures WillSay(s.notifiers[j], c, s.notifiers[j].node)
  {
    assert NotifierOk(s, j);
  }

  /** So the last one to speak to `c` about its node is the newest. */
  lemma LastIsNewest(s: State, id: nat, c: Uuid)
    requires NotifiersOk(s) && id in s.notifiers
    ensures Settled(Next(s, SendEvent(id, c)), c, s.notifiers[id].node) ==> NewestOfNode(s, id)
  {
    if !NewestOfNode(s, id) {
      var j :| j in s.notifiers && s.notifiers[j].node == s.notifiers[id].node && id < j;
      NewerHasMore(s, id, j, c);
      assert WillSay(Next(s, SendEvent(id, c)).notifiers[j], c, s.notifiers[id].node);
    }
  }

  /** And the newest is right. */
  lemma RightAfterSend(s: State, id: nat, c: Uuid)
    requires TurnInv(s) && c in s.controllers && id in s.notifiers
    requires s.notifiers[id].todo.Some? && c in s.notifiers[id].todo.value
    ensures var t, k := Next(s, SendEvent(id, c)), s.notifiers[id].node; Settled(t, c, k) ==> Right(t, c, k)
  {
    assert NotifierOk(s, id);
    LastIsNewest(s, id, c);
  }

  /** Steps that leave what is to be said to `c` about `k`, what was said, and the node as they are. */
  lemma RightKept(s: State, t: State, c: Uuid, k: Key)
    requires AllRight(s) && c in s.controllers && c in t.controllers && t.controllers[c] == s.controllers[c]
    requires Settled(s, c, k) && (k in t.nodes <==> k in s.nodes)
    requires var p := (s.controllers[c], k); (p in t.last <==> p in s.last) && (p in s.last ==> t.last[p] == s.last[p])
    ensures Right(t, c, k)
  {
    assert Right(s, c, k);
  }

  /** After a step, what is settled is right. */
  ghost predicate RightIfSettled(t: State, c: Uuid, k: Key) {
    c in t.controllers && Settled(t, c, k) ==> Right(t, c, k)
  }

  /** A node that comes or goes is not settled; the others are what they were. */
  lemma TurnNode(s: State, step: Step, c: Uuid, k: Key)
    requires TurnInv(s) && (step.ConnectNode? || step.DisconnectNode?)
    ensures RightIfSettled(Next(s, step), c, k)
  {
    var t := Next(s, step);
    if t != s && k == step.node {
      assert s.now in t.notifiers && WillSay(t.notifiers[s.now], c, k);
    } else if c in s.controllers && Settled(t, c, k) {
      forall id | id in s.notifiers ensures !WillSay(s.notifiers[id], c, k) {
        assert id < s.now && t.notifiers[id] == s.notifiers[id];
      }
      RightKept(s, t, c, k);
    }
  }

  lemma TurnWork(s: State, step: Step, c: Uuid, k: Key)
    requires TurnInv(s) && (step.LockControllers? || step.FinishNotifier?)
    ensures RightIfSettled(Next(s, step), c, k)
  {
    var t := Next(s, step);
    if c in s.controllers && Settled(t, c, k) {
      forall id | id in s.notifiers ensures !WillSay(s.notifiers[id], c, k) {
        assert id in t.notifiers ==> !WillSay(t.notifiers[id], c, k);
      }
      RightKept(s, t, c, k);
    }
  }

  lemma TurnSend(s: State, id: nat, u: Uuid, c: Uuid, k: Key)
    requires TurnInv(s)
    ensures RightIfSettled(Next(s, SendEvent(id, u)), c, k)
  {
    var t := Next(s, SendEvent(id, u));
    if t == s {
      assert RightIfSettled(s, c, k);
    } else if c == u && k == s.notifiers[id].node {
      RightAfterSend(s, id, c);
    } else if c in s.controllers && Settled(t, c, k) {
      forall j | j in s.notifiers ensures !WillSay(s.notifiers[j], c, k) {
        assert !WillSay(t.notifiers[j], c, k);
      }
      OtherConnection(s, c, u);
      RightKept(s, t, c, k);
    }
  }

  /** Controllers have connection numbers of their own. */
  lemma OtherConnection(s: State, c: Uuid, u: Uuid)
    requires OwnNumbers(s) && c in s.controllers && u in s.controllers
    ensures s.controllers[c] == s.controllers[u] ==> c == u
  {
  }

  lemma TurnScanning(s: State, step: Step, c: Uuid, k: Key)
    requires TurnInv(s) && (step.ConnectController? || step.DisconnectController? || step.FinishScan?)
    ensures RightIfSettled(Next(s, step), c, k)
  {
    var t := Next(s, step);
    if c in s.controllers && c in t.controllers && Settled(t, c, k) {
      assert t.notifiers == s.notifiers;
      RightKept(s, t, c, k);
    }
  }

  lemma TurnDirected(s: State, u: Uuid, c: Uuid, k: Key)
    requires TurnInv(s)
    ensures RightIfSettled(Next(s, SendDirected(u)), c, k)
  {
    var t := Next(s, SendDirected(u));
    if t == s {
      assert RightIfSettled(s, c, k);
    } else {
      var scan := s.scan.value;
      OtherConnectionIf(s, c, scan.controller);
      if c in s.controllers && Settled(t, c, k) && !(c == scan.controller && k == Key(scan.kind, u)) {
        RightKept(s, t, c, k);
      }
    }
  }

  lemma OtherConnectionIf(s: State, c: Uuid, u: Uuid)
    requires OwnNumbers(s) && u in s.controllers
    ensures c in s.controllers && c != u ==> s.controllers[c] != s.controllers[u]
  {
  }

  lemma TurnRight(s: State, step: Step, c: Uuid, k: Key)
    requires TurnInv(s)
    ensures RightIfSettled(Next(s, step), c, k)
  {
    match step {
      case ConnectController(_) => TurnScanning(s, step, c, k);
      case DisconnectController(_) => TurnScanning(s, step, c, k);
      case FinishScan => TurnScanning(s, step, c, k);
      case LockTable =>
        if c in s.controllers && Settled(Next(s, LockTable), c, k) {
          RightAfterLock(s, c, k);
        }
      case SendDirected(u) => TurnDirected(s, u, c, k);
      case ConnectNode(_) => TurnNode(s, step, c, k);
      case DisconnectNode(_) => TurnNode(s, step, c, k);
      case LockControllers(_) => TurnWork(s, step, c, k);
      case FinishNotifier(_) => TurnWork(s, step, c, k);
      case SendEvent(id, u) => TurnSend(s, id, u, c, k);
    }
  }

  lemma {:induction false} RunTurn(h: Log<Step>)
    requires InTurn(h)
    ensures TurnInv(Run(h))
  {
    RunInv(h);
    RunNumbered(h);
    if h.Then? {
      var s, t := Run(h.before), Run(h);
      RunTurn(h.before);
      TurnNotifiers(s, h.last);
      TurnScans(s, h.last);
      TurnNumbers(s, h.last);
      forall c, k | c in t.controllers && Settled(t, c, k) ensures Right(t, c, k) {
        TurnRight(s, h.last, c, k);
      }
    }
  }

  lemma TurnNumbers(s: State, step: Step)
    requires OwnNumbers(s) && Numbered(s)
    ensures OwnNumbers(Next(s, step))
  {
  }

  /**
    If the notifiers of a node take their turn, then under every interleaving, once no notifier
    and no scan is pending, the last event a connected controller got about a node is
    NodeConnected if and only if the node is in the tables.
    */
  lemma LastEventIsRight(h: Log<Step>, c: Uuid, k: Key)
    requires InTurn(h) && Run(h).notifiers == map[] && Run(h).scan.None? && c in Run(h).controllers
    ensures Right(Run(h), c, k)
  {
    RunTurn(h);
    assert Settled(Run(h), c, k);
  }

  // ---- Out of turn ----

  /** One notifier goes through all its steps. */
  lemma Delivered(h: Log<Step>, id: nat, c: Uuid) returns (after: Log<Step>)
    requires Run(h).scan.None? && Run(h).controllers == map[c := 0]
    requires id in Run(h).notifiers && Run(h).notifiers[id].todo.None?
    ensures var s, t := Run(h), Run(after);
            && t.scan.None? && t.controllers == s.controllers && t.nodes == s.nodes
            && t.notifiers == s.notifiers - {id} &&
              t.last == s.last[(0, s.notifiers[id].node) := s.notifiers[id].connected]
  {
    var s := Run(h);
    assert s.controllers.Keys == {c} && {c} - {c} == {};
    var h1 := Then(h, LockControllers(id));
    var a := Run(h1);
    assert a == s.(notifiers := s.notifiers[id := s.notifiers[id].(todo := Some({c}))]);
    var h2 := Then(h1, SendEvent(id, c));
    var b := Run(h2);
    assert b.notifiers[id].todo == Some({}) && b.last == s.last[(0, s.notifiers[id].node) := s.notifiers[id].connected];
    after := Then(h2, FinishNotifier(id));
    assert Run(after).notifiers == s.notifiers - {id};
  }

  /** A controller connects while there are no nodes. */
  lemma ControllerConnects(c: Uuid) returns (h: Log<Step>)
    ensures Run(h) == State(map[c := 0], map[], None, map[], {}, map[], 1)
  {
    var h1 := Then(Empty, ConnectController(c));
    assert Run(h1) == State(map[c := 0], map[], Some(Unlocked(c)), map[], {}, map[], 1);
    var h2 := Then(h1, LockTable);
    assert OfKind(Run(h1), Compute) == {};
    assert Run(h2) == State(map[c := 0], map[], Some(Scanning(c, Compute, {})), map[], {}, map[], 1);
    var h3 := Then(h2, LockTable);
    assert OfKind(Run(h2), Network) == {};
    assert Run(h3) == State(map[c := 0], map[], Some(Scanning(c, Network, {})), map[], {}, map[], 1);
    h := Then(h3, FinishScan);
  }

  /** A node connects, disconnects and connects again before any notifier has the lock. */
  lemma NodeComesBack(c: Uuid, k: Key) returns (h: Log<Step>)
    ensures var s := Run(h);
            && s.scan.None? && s.controllers == map[c := 0] && k in s.nodes && s.last == map[]
            && s.notifiers == map[1 := Notifier(k, true, None), 2 := Notifier(k, false, None),
              3 := Notifier(k, true, None)]
  {
    var h0 := ControllerConnects(c);
    var h1 := Then(h0, ConnectNode(k));
    assert Run(h1).notifiers == map[1 := Notifier(k, true, None)] && k in Run(h1).nodes && Run(h1).now == 2;
    var h2 := Then(h1, DisconnectNode(k));
    assert k !in Run(h2).nodes && Run(h2).now == 3;
    assert Run(h2).notifiers == map[1 := Notifier(k, true, None), 2 := Notifier(k, false, None)];
    h := Then(h2, ConnectNode(k));
  }

  /** The NodeDisconnected comes last: nothing is pending, the node is in the tables, and the controller heard it go. */
  lemma OvertakenEvent(c: Uuid, k: Key) returns (h: Log<Step>)
    ensures var s := Run(h);
            && s.notifiers == map[] && s.scan.None? && c in s.controllers && k in s.nodes
            && s.last == map[(0, k) := false] && !Right(s, c, k)
  {
    h := NodeComesBack(c, k);
    h := Delivered(h, 1, c);
    h := Delivered(h, 3, c);
    assert Run(h).notifiers == map[2 := Notifier(k, false, None)];
    h := Delivered(h, 2, c);
  }
}
