/**
  The life of a client connection in the scheduler's SSNTP server: the order in which a
  handler updates the session table, the forwarding index and the scheduler's maps when
  its client comes and goes, and what any interleaving of handlers keeps.
  */
module Sessions {
  import opened Basics

  /** The scheduler's three maps, in the order a notification visits them. */
  datatype Registry = Controllers | ComputeNodes | NetworkNodes

  /**
    Where a handler is. Every update is made under a lock of its own, so handlers interleave
    between any two of them.
    */
  datatype Phase =
    | Accepted
    | SessionAdded
    | DestinationsAdded
    | Connecting(done: set<Registry>)      // within ConnectNotify
    | Serving
    | Disconnecting(left: set<Registry>)   // within DisconnectNotify
    | Disconnected
    | DestinationsDeleted
    | Gone

  datatype Handler = Handler(uuid: Uuid, roles: set<Registry>, phase: Phase)

  /** `sessions` names a session by its handler; `forwarding` are the handlers in the forwarding index. */
  datatype State = State(
    handlers: seq<Handler>,
    sessions: map<Uuid, nat>,
    forwarding: set<nat>,
    registered: set<(Registry, Uuid)>)

  datatype Step =
    | Accept(uuid: Uuid, roles: set<Registry>)
    | Advance(handler: nat)

  /** The first registry of the role in visiting order that `pending` still holds. */
  function FirstOf(pending: set<Registry>): Registry
    requires pending != {}
  {
    if Controllers in pending then Controllers else if ComputeNodes in pending then ComputeNodes else NetworkNodes
  }

  lemma FirstOfIn(pending: set<Registry>)
    requires pending != {}
    ensures FirstOf(pending) in pending
  {
    var r :| r in pending;
    assert r == Controllers || r == ComputeNodes || r == NetworkNodes;
  }

  function SetPhase(s: State, c: nat, p: Phase): seq<Handler>
    requires c < |s.handlers|
  {
    s.handlers[c := s.handlers[c].(phase := p)]
  }

  function Advanced(s: State, c: nat): State
    requires c < |s.handlers|
  {
    var h := s.handlers[c];
    match h.phase
    case Accepted => s.(handlers := SetPhase(s, c, SessionAdded), sessions := s.sessions[h.uuid := c])
    case SessionAdded => s.(handlers := SetPhase(s, c, DestinationsAdded), forwarding := s.forwarding + {c})
    case DestinationsAdded => s.(handlers := SetPhase(s, c, Connecting({})))
    case Connecting(done) =>
      if h.roles - done == {} then s.(handlers := SetPhase(s, c, Serving))
      else
        var r := FirstOf(h.roles - done);
        s.(handlers := SetPhase(s, c, Connecting(done + {r})), registered := s.registered + {(r, h.uuid)})
    case Serving => s.(handlers := SetPhase(s, c, Disconnecting(h.roles)))
    case Disconnecting(left) =>
      if left == {} then s.(handlers := SetPhase(s, c, Disconnected))
      else
        var r := FirstOf(left);
        s.(handlers := SetPhase(s, c, Disconnecting(left - {r})), registered := s.registered - {(r, h.uuid)})
    case Disconnected => s.(handlers := SetPhase(s, c, DestinationsDeleted), forwarding := s.forwarding - {c})
    case DestinationsDeleted => s.(handlers := SetPhase(s, c, Gone), sessions := s.sessions - {h.uuid})
    case Gone => s
  }

  function Next(s: State, step: Step): State {
    match step
    case Accept(u, roles) => s.(handlers := s.handlers + [Handler(u, roles, Accepted)])
    case Advance(c) => if c < |s.handlers| then Advanced(s, c) else s
  }

  function Run(h: Log<Step>): State {
    match h
    case Empty => State([], map[], {}, {})
    case Then(before, step) => Next(Run(before), step)
  }

  // ---- The property and its condition ----

  /** Whatever the scheduler's maps or the forwarding index know has a session to write to. */
  ghost predicate Reachable(s: State) {
    && (forall p :: p in s.registered ==> p.1 in s.sessions)
    && (forall c :: c in s.forwarding ==>
          c < |s.handlers| && s.handlers[c].uuid in s.sessions && s.sessions[s.handlers[c].uuid] == c)
  }

  /**
    What a step asks for to keep that. Adding a session: no other handler of the uuid is in
    the forwarding index, since that one loses its session to this. Joining the forwarding
    index: the session is still this handler's. Registering: some session of the uuid is there.
    Removing the session: nothing of the uuid is registered or forwarded to.
    */
  ghost predicate Keeps(s: State, step: Step) {
    match step
    case Accept(_, _) => true
    case Advance(c) => c < |s.handlers| ==> HandlerKeeps(s, c)
  }

  ghost predicate HandlerKeeps(s: State, c: nat)
    requires c < |s.handlers|
  {
    var h := s.handlers[c];
    match h.phase
    case Accepted => forall d :: d in s.forwarding && d < |s.handlers| && d != c ==> s.handlers[d].uuid != h.uuid
    case SessionAdded => h.uuid in s.sessions && s.sessions[h.uuid] == c
    case Connecting(done) => h.roles - done == {} || h.uuid in s.sessions
    case DestinationsDeleted =>
      && (forall p :: p in s.registered ==> p.1 != h.uuid)
      && (forall d :: d in s.forwarding && d < |s.handlers| ==> s.handlers[d].uuid != h.uuid)
    case _ => true
  }

  /** It holds after every step of a run. */
  ghost predicate Always(h: Log<Step>) {
    match h
    case Empty => true
    case Then(before, _) => Always(before) && Reachable(Run(h))
  }

  /** Every step of a run found what it asks for. */
  ghost predicate Careful(h: Log<Step>) {
    match h
    case Empty => true
    case Then(before, step) => Careful(before) && Keeps(Run(before), step)
  }

  /** No two handlers of one uuid are alive. */
  ghost predicate OneLive(s: State) {
    forall c: nat, d: nat :: c < d < |s.handlers| && s.handlers[c].uuid == s.handlers[d].uuid ==>
      s.handlers[c].phase == Gone || s.handlers[d].phase == Gone
  }

  /** Clients connect one at a time under a uuid. */
  ghost predicate OneAtATime(h: Log<Step>) {
    match h
    case Empty => true
    case Then(before, step) => OneAtATime(before) && OneLive(Run(h))
  }

  // ---- The invariant ----

  predicate HasSession(p: Phase) {
    !p.Accepted? && !p.Gone?
  }

  predicate HasDestinations(p: Phase) {
    p.DestinationsAdded? || p.Connecting? || p.Serving? || p.Disconnecting? || p.Disconnected?
  }

  /** The registries a handler has its client in. */
  function Registered(h: Handler): set<Registry> {
    match h.phase
    case Connecting(done) => done
    case Serving => h.roles
    case Disconnecting(left) => left
    case _ => {}
  }

  /** While a handler has its session in the table, it is that one and no other. */
  ghost predicate HandlerOk(s: State, c: nat)
    requires c < |s.handlers|
  {
    var h := s.handlers[c];
    && (HasSession(h.phase) ==> h.uuid in s.sessions && s.sessions[h.uuid] == c)
    && (c in s.forwarding <==> HasDestinations(h.phase))
    && Registered(h) <= h.roles
  }

  ghost predicate RegisteredOk(s: State, p: (Registry, Uuid)) {
    exists c: nat :: c < |s.handlers| && s.handlers[c].uuid == p.1 && p.0 in Registered(s.handlers[c])
  }

  ghost predicate Inv(s: State) {
    && OneLive(s)
    && (forall c :: c in s.forwarding ==> c < |s.handlers|)
    && (forall c: nat :: c < |s.handlers| ==> HandlerOk(s, c))
    && (forall p :: p in s.registered ==> RegisteredOk(s, p))
  }

  lemma AcceptInv(s: State, u: Uuid, roles: set<Registry>)
    requires Inv(s) && OneLive(Next(s, Accept(u, roles)))
    ensures Inv(Next(s, Accept(u, roles)))
  {
    var n := Next(s, Accept(u, roles));
    forall c: nat | c < |n.handlers| ensures HandlerOk(n, c) {
      assert c < |s.handlers| ==> HandlerOk(s, c);
    }
    forall p | p in n.registered ensures RegisteredOk(n, p) {
      assert RegisteredOk(s, p);
      var c: nat :| c < |s.handlers| && s.handlers[c].uuid == p.1 && p.0 in Registered(s.handlers[c]);
      assert n.handlers[c] == s.handlers[c];
    }
  }

  lemma AdvancedHandler(s: State, c: nat, d: nat)
    requires Inv(s) && c < |s.handlers| && d < |s.handlers|
    ensures HandlerOk(Advanced(s, c), d)
  {
    assert HandlerOk(s, c) && HandlerOk(s, d);
    var h := s.handlers[c];
    if h.phase.Connecting? && h.roles - h.phase.done != {} {
      FirstOfIn(h.roles - h.phase.done);
    }
  }

  lemma AdvancedRegistered(s: State, c: nat, p: (Registry, Uuid))
    requires Inv(s) && c < |s.handlers| && p in Advanced(s, c).registered
    ensures RegisteredOk(Advanced(s, c), p)
  {
    var n, h := Advanced(s, c), s.handlers[c];
    assert HandlerOk(s, c);
    if p in s.registered {
      assert RegisteredOk(s, p);
      var d: nat :| d < |s.handlers| && s.handlers[d].uuid == p.1 && p.0 in Registered(s.handlers[d]);
      if d != c {
        assert n.handlers[d] == s.handlers[d];
      } else {
        assert n.handlers[c].uuid == p.1 && p.0 in Registered(n.handlers[c]);
      }
    } else {
      assert n.handlers[c].uuid == p.1 && p.0 in Registered(n.handlers[c]);
    }
  }

  lemma AdvancedInv(s: State, c: nat)
    requires Inv(s) && c < |s.handlers|
    ensures Inv(Advanced(s, c))
  {
    var n := Advanced(s, c);
    forall d: nat | d < |n.handlers| ensures HandlerOk(n, d) {
      AdvancedHandler(s, c, d);
    }
    forall p | p in n.registered ensures RegisteredOk(n, p) {
      AdvancedRegistered(s, c, p);
    }
  }

  lemma {:induction false} RunInv(h: Log<Step>)
    requires OneAtATime(h)
    ensures Inv(Run(h))
  {
    match h {
      case Empty =>
      case Then(before, Accept(u, roles)) =>
        RunInv(before);
        AcceptInv(Run(before), u, roles);
      case Then(before, Advance(c)) =>
        RunInv(before);
        if c < |Run(before).handlers| {
          AdvancedInv(Run(before), c);
        }
    }
  }

  /** With one live connection per uuid, it holds under every interleaving of handlers. */
  lemma {:induction false} OneAtATimeReachable(h: Log<Step>)
    requires OneAtATime(h)
    ensures Reachable(Run(h))
  {
    var s := Run(h);
    RunInv(h);
    forall p | p in s.registered ensures p.1 in s.sessions {
      assert RegisteredOk(s, p);
      var c: nat :| c < |s.handlers| && s.handlers[c].uuid == p.1 && p.0 in Registered(s.handlers[c]);
      assert HandlerOk(s, c);
    }
    forall c | c in s.forwarding ensures s.handlers[c].uuid in s.sessions && s.sessions[s.handlers[c].uuid] == c {
      assert HandlerOk(s, c);
    }
  }

  /** The `c`-th connection of a run, as the log says. */
  function Accepts(h: Log<Step>): nat {
    match h
    case Empty => 0
    case Then(before, step) => Accepts(before) + if step.Accept? then 1 else 0
  }

  function ClientOf(h: Log<Step>, c: nat): (Uuid, set<Registry>)
    requires c < Accepts(h)
  {
    match h
    case Then(before, Accept(u, roles)) => if c == Accepts(before) then (u, roles) else ClientOf(before, c)
    case Then(before, _) => ClientOf(before, c)
  }

  /** In every run there is one handler per connection, for its client and the roles it has. */
  lemma {:induction false} HandlerOfClient(h: Log<Step>, c: nat)
    ensures |Run(h).handlers| == Accepts(h)
    ensures c < Accepts(h) ==> (Run(h).handlers[c].uuid, Run(h).handlers[c].roles) == ClientOf(h, c)
  {
    if h.Then? {
      HandlerOfClient(h.before, c);
    }
  }

  /** A handler has its client in the registries it has visited, while it is the only one of its uuid. */
  ghost predicate InRegistries(s: State, c: nat)
    requires c < |s.handlers|
  {
    forall r :: r in Registered(s.handlers[c]) ==> (r, s.handlers[c].uuid) in s.registered
  }

  lemma RegistriesStep(s: State, c: nat, d: nat)
    requires Inv(s) && c < |s.handlers| && d < |s.handlers| && InRegistries(s, c)
    ensures c < |Advanced(s, d).handlers| && InRegistries(Advanced(s, d), c)
  {
    assert HandlerOk(s, c) && HandlerOk(s, d);
  }

  lemma {:induction false} RunRegistries(h: Log<Step>, c: nat)
    requires OneAtATime(h) && c < |Run(h).handlers|
    ensures InRegistries(Run(h), c)
  {
    var s := Run(h.before);
    if c < |s.handlers| {
      RunInv(h.before);
      RunRegistries(h.before, c);
      if h.last.Advance? && h.last.handler < |s.handlers| {
        RegistriesStep(s, c, h.last.handler);
      }
    }
  }

  /** With one live connection per uuid, a client that is being served is registered in its roles and no others. */
  lemma ServedIsRegistered(h: Log<Step>, c: nat, r: Registry)
    requires OneAtATime(h) && c < |Run(h).handlers| && Run(h).handlers[c].phase == Serving
    ensures (r, Run(h).handlers[c].uuid) in Run(h).registered <==> r in Run(h).handlers[c].roles
  {
    var s := Run(h);
    RunInv(h);
    RunRegistries(h, c);
    var p := (r, s.handlers[c].uuid);
    if p in s.registered {
      assert RegisteredOk(s, p);
      var d: nat :| d < |s.handlers| && s.handlers[d].uuid == p.1 && p.0 in Registered(s.handlers[d]);
      assert HandlerOk(s, d);
    }
  }

  /** And one that is gone is in none. */
  lemma GoneIsUnregistered(h: Log<Step>, u: Uuid, r: Registry)
    requires OneAtATime(h) && forall c: nat :: c < |Run(h).handlers| && Run(h).handlers[c].uuid == u ==>
            Run(h).handlers[c].phase == Gone
    ensures (r, u) !in Run(h).registered
  {
    RunInv(h);
    assert (r, u) in Run(h).registered ==> RegisteredOk(Run(h), (r, u));
  }

  /** The order in which a notification visits the maps. */
  predicate VisitedBefore(a: Registry, b: Registry) {
    (a == Controllers && b != Controllers) || (a == ComputeNodes && b == NetworkNodes)
  }

  /** A handler in a later map is through with the earlier ones. */
  ghost predicate InVisitingOrder(h: Handler) {
    forall a, b :: VisitedBefore(a, b) && a in h.roles && b in h.roles ==>
      && (h.phase.Connecting? && b in h.phase.done ==> a in h.phase.done)
      && (h.phase.Disconnecting? && b !in h.phase.left ==> a !in h.phase.left)
  }

  lemma VisitStep(s: State, c: nat, d: nat)
    requires c < |s.handlers| && d < |s.handlers| && InVisitingOrder(s.handlers[c])
    ensures c < |Advanced(s, d).handlers| && InVisitingOrder(Advanced(s, d).handlers[c])
  {
  }

  /** In every run the scheduler's maps are visited in the same order, controllers first, coming and going. */
  lemma {:induction false} VisitsInOrder(h: Log<Step>, c: nat)
    requires c < |Run(h).handlers|
    ensures InVisitingOrder(Run(h).handlers[c])
  {
    if c < |Run(h.before).handlers| {
      VisitsInOrder(h.before, c);
      if h.last.Advance? && h.last.handler < |Run(h.before).handlers| {
        VisitStep(Run(h.before), c, h.last.handler);
      }
    }
  }

  /** How far a handler has come. */
  function Stage(p: Phase): nat {
    match p
    case Accepted => 0
    case SessionAdded => 1
    case DestinationsAdded => 2
    case Connecting(_) => 3
    case Serving => 4
    case Disconnecting(_) => 5
    case Disconnected => 6
    case DestinationsDeleted => 7
    case Gone => 8
  }

  /** It is one stage further, or in the same one with one registry more behind it. */
  ghost predicate Further(p: Phase, q: Phase) {
    || Stage(q) == Stage(p) + 1
    || (p.Connecting? && q.Connecting? && p.done < q.done)
    || (p.Disconnecting? && q.Disconnecting? && q.left < p.left)
  }

  /** A handler that goes on comes further, stage by stage, until it is gone. */
  lemma HandlerProgresses(s: State, c: nat)
    requires c < |s.handlers| && s.handlers[c].phase != Gone
    ensures var h, n := s.handlers[c], Advanced(s, c).handlers[c];
            n.uuid == h.uuid && n.roles == h.roles && Further(h.phase, n.phase)
  {
    var h := s.handlers[c];
    match h.phase {
      case Connecting(done) =>
        if h.roles - done != {} {
          FirstOfIn(h.roles - done);
        }
      case Disconnecting(left) =>
        if left != {} {
          FirstOfIn(left);
        }
      case _ =>
    }
  }

  // ---- Any number of connections per uuid ----

  lemma SameUuids(s: State, c: nat)
    requires c < |s.handlers|
    ensures var n := Advanced(s, c);
            |n.handlers| == |s.handlers| && forall d: nat :: d < |s.handlers| ==>
              n.handlers[d].uuid == s.handlers[d].uuid
  {
  }

  /** Adding a session takes the uuid's entry from whoever has it. */
  lemma AddSessionIff(s: State, c: nat)
    requires Reachable(s) && c < |s.handlers| && s.handlers[c].phase == Accepted
    ensures Reachable(Advanced(s, c)) <==> HandlerKeeps(s, c)
  {
    var n, u := Advanced(s, c), s.handlers[c].uuid;
    SameUuids(s, c);
    if Reachable(n) {
      forall d | d in s.forwarding && d != c ensures s.handlers[d].uuid != u {
        assert d in n.forwarding;
      }
    }
  }

  lemma AddDestinationIff(s: State, c: nat)
    requires Reachable(s) && c < |s.handlers| && s.handlers[c].phase == SessionAdded
    ensures Reachable(Advanced(s, c)) <==> HandlerKeeps(s, c)
  {
    SameUuids(s, c);
    assert c in Advanced(s, c).forwarding;
  }

  lemma RegisterIff(s: State, c: nat)
    requires Reachable(s) && c < |s.handlers| && s.handlers[c].phase.Connecting?
    ensures Reachable(Advanced(s, c)) <==> HandlerKeeps(s, c)
  {
    var n, h := Advanced(s, c), s.handlers[c];
    SameUuids(s, c);
    if h.roles - h.phase.done != {} {
      assert (FirstOf(h.roles - h.phase.done), h.uuid) in n.registered;
    }
  }

  lemma RemoveSessionIff(s: State, c: nat)
    requires Reachable(s) && c < |s.handlers| && s.handlers[c].phase == DestinationsDeleted
    ensures Reachable(Advanced(s, c)) <==> HandlerKeeps(s, c)
  {
    var n, u := Advanced(s, c), s.handlers[c].uuid;
    SameUuids(s, c);
    if Reachable(n) {
      forall d | d in s.forwarding ensures s.handlers[d].uuid != u {
        assert d in n.forwarding;
      }
    }
  }

  /** The exact condition on each step, whatever else is connected. */
  lemma StepKeepsIff(s: State, step: Step)
    requires Reachable(s)
    ensures Reachable(Next(s, step)) <==> Keeps(s, step)
  {
    if step.Advance? && step.handler < |s.handlers| {
      var c := step.handler;
      SameUuids(s, c);
      match s.handlers[c].phase {
        case Accepted => AddSessionIff(s, c);
        case SessionAdded => AddDestinationIff(s, c);
        case Connecting(_) => RegisterIff(s, c);
        case DestinationsDeleted => RemoveSessionIff(s, c);
        case _ =>
      }
    }
  }

  /**
    For every run, with any number of connections per uuid: each uuid in the scheduler's maps
    and each session in the forwarding index is in the session table after every step if and
    only if every step found what it asks for.
    */
  lemma {:induction false} RegisteredHasSession(h: Log<Step>)
    ensures Always(h) <==> Careful(h)
    ensures Always(h) ==> Reachable(Run(h))
  {
    if h.Then? {
      RegisteredHasSession(h.before);
      if Always(h.before) {
        StepKeepsIff(Run(h.before), h.last);
      }
    }
  }

  /** One live connection per uuid is enough. */
  lemma {:induction false} OneAtATimeIsCareful(h: Log<Step>)
    requires OneAtATime(h)
    ensures Careful(h)
  {
    if h.Then? {
      OneAtATimeIsCareful(h.before);
      OneAtATimeReachable(h.before);
      OneAtATimeReachable(h);
      StepKeepsIff(Run(h.before), h.last);
    }
  }

  /** In every run a handler is in the forwarding index from when it joins until it leaves. */
  lemma {:induction false} ForwardedWhileUp(h: Log<Step>, c: nat)
    requires c < |Run(h).handlers|
    ensures c in Run(h).forwarding <==> HasDestinations(Run(h).handlers[c].phase)
  {
    if h.Then? && c < |Run(h.before).handlers| {
      ForwardedWhileUp(h.before, c);
    } else if h.Then? && c in Run(h.before).forwarding {
      ForwardingBounded(h.before, c);
    }
  }

  lemma {:induction false} ForwardingBounded(h: Log<Step>, c: nat)
    requires c in Run(h).forwarding
    ensures c < |Run(h).handlers|
  {
    if c in Run(h.before).forwarding {
      ForwardingBounded(h.before, c);
    }
  }

  /** Then, while a client is being served, looking up its role finds its own session. */
  lemma ServedClientIsKnown(h: Log<Step>, c: nat)
    requires Careful(h) && c < |Run(h).handlers| && Run(h).handlers[c].phase == Serving
    ensures var s := Run(h); s.handlers[c].uuid in s.sessions && s.sessions[s.handlers[c].uuid] == c
  {
    RegisteredHasSession(h);
    ForwardedWhileUp(h, c);
  }

  /** Since `c` added its session, no other handler of its uuid has added or removed one. */
  ghost predicate Undisturbed(h: Log<Step>, c: nat) {
    match h
    case Empty => true
    case Then(before, Accept(_, _)) => Undisturbed(before, c)
    case Then(before, Advance(d)) =>
      var s := Run(before);
      if d >= |s.handlers| || c >= |s.handlers| then Undisturbed(before, c)
      else if d == c && s.handlers[c].phase == Accepted then true
      else Undisturbed(before, c) && !Disturbs(s, c, d)
  }

  predicate Disturbs(s: State, c: nat, d: nat)
    requires c < |s.handlers| && d < |s.handlers|
  {
    d != c && s.handlers[d].uuid == s.handlers[c].uuid &&
      (s.handlers[d].phase == Accepted || s.handlers[d].phase == DestinationsDeleted)
  }

  ghost predicate HasOwnSession(s: State, c: nat)
    requires c < |s.handlers|
  {
    s.handlers[c].uuid in s.sessions && s.sessions[s.handlers[c].uuid] == c
  }

  lemma OwnSessionStep(s: State, c: nat, d: nat)
    requires c < |s.handlers| && d < |s.handlers| && HasSession(s.handlers[c].phase) &&
            HasSession(Advanced(s, d).handlers[c].phase)
    ensures HasOwnSession(Advanced(s, d), c) <==> HasOwnSession(s, c) && !Disturbs(s, c, d)
  {
    SameUuids(s, d);
  }

  /** In every run a handler's lookup finds its own session if and only if nobody disturbed it. */
  lemma {:induction false} OwnSessionIff(h: Log<Step>, c: nat)
    requires c < |Run(h).handlers| && HasSession(Run(h).handlers[c].phase)
    ensures HasOwnSession(Run(h), c) <==> Undisturbed(h, c)
  {
    match h {
      case Then(before, Accept(_, _)) => OwnSessionIff(before, c);
      case Then(before, Advance(d)) =>
        var s := Run(before);
        if d >= |s.handlers| {
          OwnSessionIff(before, c);
        } else if d != c || s.handlers[c].phase != Accepted {
          OwnSessionIff(before, c);
          OwnSessionStep(s, c, d);
        }
    }
  }

  // ---- Two connections under one uuid ----

  /** Handler `c` goes `n` steps further. */
  function Steps(h: Log<Step>, c: nat, n: nat): Log<Step> {
    if n == 0 then h else Then(Steps(h, c, n - 1), Advance(c))
  }

  /** A compute node connects again under its uuid while its first handler is about to remove the session. */
  function Reconnection(u: Uuid): Log<Step> {
    Steps(Then(Steps(Then(Empty, Accept(u, {ComputeNodes})), 0, 9), Accept(u, {ComputeNodes})), 1, 5)
  }

  lemma FirstHandler(u: Uuid)
    ensures Run(Steps(Then(Empty, Accept(u, {ComputeNodes})), 0, 9)) ==
            State([Handler(u, {ComputeNodes}, DestinationsDeleted)], map[u := 0], {}, {})
  {
    var all, none: set<Registry> := {ComputeNodes}, {};
    assert all - none == all && none + all == all && all - all == none;
    var h := Then(Empty, Accept(u, {ComputeNodes}));
    assert Run(h) == State([Handler(u, {ComputeNodes}, Accepted)], map[], {}, {});
    assert Run(Steps(h, 0, 1)) == State([Handler(u, {ComputeNodes}, SessionAdded)], map[u := 0], {}, {});
    assert Run(Steps(h, 0, 2)) == State([Handler(u, {ComputeNodes}, DestinationsAdded)], map[u := 0], {0}, {});
    assert Run(Steps(h, 0, 3)) == State([Handler(u, {ComputeNodes}, Connecting({}))], map[u := 0], {0}, {});
    assert Run(Steps(h, 0, 4)) == State([Handler(u, {ComputeNodes}, Connecting({ComputeNodes}))], map[u := 0],
        {0}, {(ComputeNodes, u)});
    assert Run(Steps(h, 0, 5)) == State([Handler(u, {ComputeNodes}, Serving)], map[u := 0], {0}, {(ComputeNodes, u)});
    assert Run(Steps(h, 0, 6)) == State([Handler(u, {ComputeNodes}, Disconnecting({ComputeNodes}))], map[u := 0],
        {0}, {(ComputeNodes, u)});
    assert Run(Steps(h, 0, 7)) == State([Handler(u, {ComputeNodes}, Disconnecting({}))], map[u := 0], {0}, {});
    assert Run(Steps(h, 0, 8)) == State([Handler(u, {ComputeNodes}, Disconnected)], map[u := 0], {0}, {});
  }

  /** What it leads to: the first handler has the removal before it, the second is serving. */
  lemma ReconnectionHappens(u: Uuid)
    ensures Run(Reconnection(u)) ==
            State([Handler(u, {ComputeNodes}, DestinationsDeleted), Handler(u, {ComputeNodes}, Serving)],
                  map[u := 1], {1}, {(ComputeNodes, u)})
  {
    FirstHandler(u);
    var all, none: set<Registry> := {ComputeNodes}, {};
    assert all - none == all && none + all == all && all - all == none;
    var first := Handler(u, {ComputeNodes}, DestinationsDeleted);
    var h := Then(Steps(Then(Empty, Accept(u, {ComputeNodes})), 0, 9), Accept(u, {ComputeNodes}));
    assert Run(Steps(h, 1, 1)) == State([first, Handler(u, {ComputeNodes}, SessionAdded)], map[u := 1], {}, {});
    assert Run(Steps(h, 1, 2)) == State([first, Handler(u, {ComputeNodes}, DestinationsAdded)], map[u := 1], {1}, {});
    assert Run(Steps(h, 1, 3)) == State([first, Handler(u, {ComputeNodes}, Connecting({}))], map[u := 1], {1}, {});
    assert Run(Steps(h, 1, 4)) == State([first, Handler(u, {ComputeNodes}, Connecting({ComputeNodes}))],
        map[u := 1], {1}, {(ComputeNodes, u)});
  }

  /** A second connection under the same uuid breaks it: the first one's teardown takes the second's session away. */
  lemma SecondConnectionLosesSession(u: Uuid)
    ensures var s := Run(Reconnection(u));
            && Reachable(s) && !OneLive(s) && |s.handlers| == 2 && s.handlers[1].phase == Serving
            && !Reachable(Next(s, Advance(0))) && u !in Next(s, Advance(0)).sessions
  {
    ReconnectionHappens(u);
    var s := Run(Reconnection(u));
    assert s.handlers[0].uuid == s.handlers[1].uuid;
    assert (ComputeNodes, u) in Advanced(s, 0).registered;
  }

  /** No teardown is needed: adding the second session already takes the first one's, which is forwarded to. */
  lemma SecondConnectionTakesSession(u: Uuid)
    ensures var s := Run(Then(Steps(Then(Empty, Accept(u, {})), 0, 2), Accept(u, {})));
            && Reachable(s) && !OneLive(s) && s.forwarding == {0} && u in s.sessions && s.sessions[u] == 0
            && !Reachable(Next(s, Advance(1))) && Next(s, Advance(1)).sessions == map[u := 1]
  {
    var h := Then(Empty, Accept(u, {}));
    assert Run(h) == State([Handler(u, {}, Accepted)], map[], {}, {});
    assert Run(Steps(h, 0, 1)) == State([Handler(u, {}, SessionAdded)], map[u := 0], {}, {});
    assert Run(Steps(h, 0, 2)) == State([Handler(u, {}, DestinationsAdded)], map[u := 0], {0}, {});
    var s := Run(Then(Steps(h, 0, 2), Accept(u, {})));
    assert s == State([Handler(u, {}, DestinationsAdded), Handler(u, {}, Accepted)], map[u := 0], {0}, {});
    assert s.handlers[0].uuid == s.handlers[1].uuid;
    assert 0 in Next(s, Advance(1)).forwarding;
  }
}
