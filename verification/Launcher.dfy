/**
  The launcher's goroutines: the server loop, the overseer, one goroutine per instance,
  the goroutines that carry an instance's request to be killed, and the workers of an
  evacuation. Commands travel over unbuffered channels, so a send is a rendezvous: it
  waits until the instance goroutine is back in its loop. A step that is not enabled
  leaves the state as it is.
  */
module Launcher {
  import opened Basics
  import Overseer

  datatype Command =
    | Start
    | Monitor
    | Attach
    | Delete(suicide: bool)

  /** In its loop, handling a command, or out of the loop for good. */
  datatype Phase = Ready | Busy(cmd: Command) | Exited

  /** `disowned` is history: it was sent a delete, or startup gave its entry to another directory. */
  datatype Goroutine = Goroutine(instance: Uuid, phase: Phase, monitored: bool, shuttingDown: bool, disowned: bool)

  /** A worker of an evacuation: about to send the delete, or about to remove the entry. */
  datatype Worker = Deliver(chan: nat) | Discard

  datatype Server =
    | Reconnecting(todo: set<nat>)
    | Idle
    | Sending(uuid: Uuid, chan: nat, cmd: Command)
    | Removing(uuid: Uuid)
    | Evacuating(workers: map<Uuid, Worker>)
    | Quit

  /**
    `chans` is the command channel in each entry of the overseer's table, named by the
    goroutine that receives from it. `kills` are the requests to be killed not yet received;
    a request says which goroutine made it, but all the server loop sees is its instance.
    */
  datatype State = State(
    server: Server,
    table: Overseer.Table,
    chans: map<Uuid, nat>,
    goroutines: seq<Goroutine>,
    kills: multiset<nat>)

  /** How starting a VM ends. */
  datatype Outcome = Started | InstanceExists | Failed

  datatype Step =
    | Reconnect(chan: nat)                          // startup: send the monitor command
    | EnterLoop                                     // startup done
    | RecvStart(uuid: Uuid, cfg: Overseer.Config)   // a command arrives; the overseer is asked
    | RecvDelete(uuid: Uuid)
    | RecvAttach(uuid: Uuid)
    | RecvKill(asker: nat)
    | RecvEvacuate
    | RecvRestore
    | Send                                          // the rendezvous with the instance goroutine
    | RemoveEntry                                   // after a delete was sent
    | WorkerSend(uuid: Uuid)
    | WorkerRemove(uuid: Uuid)
    | EndEvacuation
    | Handle(chan: nat, outcome: Outcome)           // an instance goroutine finishes its command
    | LoseVM(chan: nat)
    | Report(message: Overseer.Message)             // messages that only carry information
    | Stop
    | ExitOnDone(chan: nat)

  function Taking(s: State, g: nat, cmd: Command): seq<Goroutine>
    requires g < |s.goroutines|
  {
    s.goroutines[g := s.goroutines[g].(phase := Busy(cmd), disowned := s.goroutines[g].disowned || cmd.Delete?)]
  }

  predicate IsReady(s: State, g: nat) {
    g < |s.goroutines| && s.goroutines[g].phase == Ready
  }

  /** Handling a command: what the goroutine becomes, and whether it asks to be killed. */
  function Handled(g: Goroutine, cmd: Command, outcome: Outcome): (Goroutine, bool) {
    match cmd
    case Start =>
      if g.monitored then (g.(phase := Ready), false)
      else (match outcome
            case Started => (g.(phase := Ready, monitored := true), false)
            case InstanceExists => (g.(phase := Ready), false)
            case Failed => (g.(phase := Ready, shuttingDown := true), true))
    case Monitor => (g.(phase := Ready, monitored := true), false)
    case Attach => (g.(phase := Ready), false)
    case Delete(suicide) =>
      if g.shuttingDown && !suicide then (g.(phase := Ready), false) else (g.(phase := Exited), false)
  }

  predicate Informative(m: Overseer.Message) {
    m.StateChange? || m.StatsUpdate? || m.Refresh?
  }

  /** The server loop asks the overseer for the channel of `u` and, if there is one, sends `cmd`. */
  function Forwarded(s: State, u: Uuid, cmd: Command): State {
    if u in s.chans then s.(server := Sending(u, s.chans[u], cmd)) else s
  }

  /** Messages the server loop receives, each up to the overseer's answer. */
  function Received(l: Overseer.Limits, s: State, step: Step): State
    requires s.server == Idle
  {
    match step
    case RecvStart(u, cfg) =>
      if u in s.chans then Forwarded(s, u, Start)
      else if Overseer.RoomAvailable(l, s.table, cfg).Some? then s
      else
        s.(server := Sending(u, |s.goroutines|, Start),
           table := Overseer.Added(l, s.table, u, cfg),
           chans := s.chans[u := |s.goroutines|],
           goroutines := s.goroutines + [Goroutine(u, Ready, false, false, false)])
    case RecvDelete(u) => Forwarded(s, u, Delete(false))
    case RecvAttach(u) => Forwarded(s, u, Attach)
    case RecvKill(g) =>
      if g in s.kills && g < |s.goroutines| then
        Forwarded(s.(kills := s.kills - multiset{g}), s.goroutines[g].instance, Delete(true))
      else s
    case RecvEvacuate =>
      s.(server := Evacuating(map u | u in s.chans :: Deliver(s.chans[u])), table := s.table.(maintenance := true))
    case RecvRestore => s.(table := s.table.(maintenance := false))
    case Stop => s.(server := Quit)
    case _ => s
  }

  /** What the server loop and the workers of an evacuation do in the middle of a command. */
  function Continued(s: State, step: Step): State {
    match (s.server, step)
    case (Reconnecting(todo), Reconnect(g)) =>
      if g in todo && IsReady(s, g) then
        s.(server := Reconnecting(todo - {g}), goroutines := Taking(s, g, Monitor))
      else s
    case (Reconnecting(todo), EnterLoop) => if todo == {} then s.(server := Idle) else s
    case (Sending(u, g, cmd), Send) =>
      if IsReady(s, g) then
        s.(server := if cmd.Delete? then Removing(u) else Idle, goroutines := Taking(s, g, cmd))
      else s
    case (Removing(u), RemoveEntry) =>
      s.(server := Idle, table := Overseer.Removed(s.table, u), chans := s.chans - {u})
    case (Evacuating(workers), WorkerSend(u)) =>
      if u in workers && workers[u].Deliver? && IsReady(s, workers[u].chan) then
        s.(server := Evacuating(workers[u := Discard]), goroutines := Taking(s, workers[u].chan, Delete(false)))
      else s
    case (Evacuating(workers), WorkerRemove(u)) =>
      if u in workers && workers[u].Discard? then
        s.(server := Evacuating(workers - {u}), table := Overseer.Removed(s.table, u), chans := s.chans - {u})
      else s
    case (Evacuating(workers), EndEvacuation) => if workers == map[] then s.(server := Idle) else s
    case _ => s
  }

  /** What an instance goroutine does on its own. */
  function Independent(s: State, g: nat, step: Step): State
    requires g < |s.goroutines|
  {
    match step
    case Handle(_, outcome) =>
      if s.goroutines[g].phase.Busy? then
        var (after, kill) := Handled(s.goroutines[g], s.goroutines[g].phase.cmd, outcome);
        s.(goroutines := s.goroutines[g := after],
           kills := if kill then s.kills + multiset{g} else s.kills)
      else s
    case LoseVM(_) =>
      if IsReady(s, g) && s.goroutines[g].monitored then
        s.(goroutines := s.goroutines[g := s.goroutines[g].(monitored := false, shuttingDown := true)],
           kills := s.kills + multiset{g})
      else s
    case ExitOnDone(_) =>
      if s.server == Quit then s.(goroutines := s.goroutines[g := s.goroutines[g].(phase := Exited)]) else s
    case _ => s
  }

  ghost function Next(l: Overseer.Limits, s: State, step: Step): State {
    match step
    case Report(m) => if Informative(m) then s.(table := Overseer.Next(l, s.table, m)) else s
    case Handle(g, _) => if g < |s.goroutines| then Independent(s, g, step) else s
    case LoseVM(g) => if g < |s.goroutines| then Independent(s, g, step) else s
    case ExitOnDone(g) => if g < |s.goroutines| then Independent(s, g, step) else s
    case _ => if s.server == Idle then Received(l, s, step) else Continued(s, step)
  }

  // ---- Startup ----

  function Shadow(s: State, u: Uuid): (r: seq<Goroutine>)
    ensures |r| == |s.goroutines|
  {
    if u in s.chans && s.chans[u] < |s.goroutines| then
      s.goroutines[s.chans[u] := s.goroutines[s.chans[u]].(disowned := true)]
    else s.goroutines
  }

  /** A goroutine for every configuration that loads; the last one of a name gets the entry. */
  function Boot(dirs: Log<Overseer.Found>): State {
    match dirs
    case Empty => State(Reconnecting({}), Overseer.Startup(Empty), map[], [], multiset{})
    case Then(before, d) =>
      var s := Boot(before);
      if d.cfg.None? then s
      else
        var g := |s.goroutines|;
        State(Reconnecting((if s.server.Reconnecting? then s.server.todo else {}) + {g}),
              Overseer.Scanned(s.table, d), s.chans[d.name := g],
              Shadow(s, d.name) + [Goroutine(d.name, Ready, false, false, false)], multiset{})
  }

  ghost function Run(l: Overseer.Limits, dirs: Log<Overseer.Found>, maintenance: bool, h: Log<Step>): State {
    match h
    case Empty => var s := Boot(dirs); s.(table := s.table.(maintenance := maintenance))
    case Then(before, step) => Next(l, Run(l, dirs, maintenance, before), step)
  }

  // ---- The invariant ----

  /** The entry of `u` is about to be removed because its goroutine was sent a delete. */
  predicate Condemned(server: Server, u: Uuid) {
    server == Removing(u) || (server.Evacuating? && u in server.workers && server.workers[u].Discard?)
  }

  /** The goroutine is in its loop or will be back in it. */
  predicate Listening(p: Phase) {
    p == Ready || (p.Busy? && !p.cmd.Delete?)
  }

  /** The channel in an entry: it is the instance's own, and it has a reader unless the entry is condemned. */
  ghost predicate EntryOk(s: State, u: Uuid)
    requires u in s.chans
  {
    var g := s.chans[u];
    && g < |s.goroutines| && s.goroutines[g].instance == u
    && (Listening(s.goroutines[g].phase) || Condemned(s.server, u) || s.server == Quit)
  }

  predicate Owns(s: State, g: nat) {
    g < |s.goroutines| && s.goroutines[g].instance in s.chans && s.chans[s.goroutines[g].instance] == g
  }

  /** A goroutine has the entry of its instance until it is sent a delete. */
  ghost predicate OwnerOk(s: State, g: nat)
    requires g < |s.goroutines|
  {
    !s.goroutines[g].disowned <==> Owns(s, g) && !Condemned(s.server, s.goroutines[g].instance)
  }

  /** What the server loop is in the middle of agrees with the table. */
  ghost predicate ServerOk(s: State) {
    match s.server
    case Reconnecting(todo) =>
      forall g :: g in todo ==> g < |s.goroutines| && Listening(s.goroutines[g].phase)
    case Sending(u, g, cmd) => u in s.chans && s.chans[u] == g
    case Evacuating(workers) =>
      && s.table.maintenance && (forall u :: u in s.chans ==> u in workers)
      && forall u :: u in workers && workers[u].Deliver? ==> u in s.chans && s.chans[u] == workers[u].chan
    case _ => true
  }

  ghost predicate Inv(s: State) {
    && s.chans.Keys == s.table.instances.Keys
    && (forall u :: u in s.chans ==> EntryOk(s, u))
    && (forall g: nat :: g < |s.goroutines| ==> OwnerOk(s, g))
    && (forall g :: g in s.kills ==> g < |s.goroutines|)
    && ServerOk(s)
  }

  /** From idle, the server loop may go on to anything that condemns no entry and agrees with the table. */
  lemma Redirected(s: State, server: Server, maintenance: bool, kills: multiset<nat>)
    requires Inv(s) && s.server == Idle && !server.Removing? && kills <= s.kills
    requires server.Evacuating? ==> forall u :: u in server.workers ==> server.workers[u].Deliver?
    requires ServerOk(s.(server := server, table := s.table.(maintenance := maintenance)))
    ensures Inv(s.(server := server, table := s.table.(maintenance := maintenance), kills := kills))
  {
    var t := s.(server := server, table := s.table.(maintenance := maintenance), kills := kills);
    forall u | u in t.chans ensures EntryOk(t, u) {
      assert EntryOk(s, u);
    }
    forall g: nat | g < |t.goroutines| ensures OwnerOk(t, g) {
      assert OwnerOk(s, g);
    }
  }

  /** A new instance: its goroutine is listening and has the entry. */
  lemma Admitted(l: Overseer.Limits, s: State, u: Uuid, cfg: Overseer.Config)
    requires Inv(s) && s.server == Idle && u !in s.chans && Overseer.RoomAvailable(l, s.table, cfg).None?
    ensures Inv(Received(l, s, RecvStart(u, cfg)))
  {
    var t := Received(l, s, RecvStart(u, cfg));
    forall v | v in t.chans ensures EntryOk(t, v) {
      assert v in s.chans ==> EntryOk(s, v);
    }
    forall g: nat | g < |t.goroutines| ensures OwnerOk(t, g) {
      assert g < |s.goroutines| ==> OwnerOk(s, g);
    }
  }

  lemma ReceivedInv(l: Overseer.Limits, s: State, step: Step)
    requires Inv(s) && s.server == Idle
    ensures Inv(Received(l, s, step))
  {
    var t := Received(l, s, step);
    if step.RecvStart? && step.uuid !in s.chans {
      if Overseer.RoomAvailable(l, s.table, step.cfg).None? {
        Admitted(l, s, step.uuid, step.cfg);
      }
    } else {
      Redirected(s, t.server, t.table.maintenance, t.kills);
    }
  }

  /** The entries the server loop condemns, compared. */
  ghost predicate SameCondemned(a: Server, b: Server) {
    forall u :: Condemned(a, u) <==> Condemned(b, u)
  }

  lemma TakenInv(s: State, server: Server, g: nat, cmd: Command)
    requires Inv(s) && g < |s.goroutines| && Listening(s.goroutines[g].phase) && !cmd.Delete?
    requires s.server != Quit && SameCondemned(s.server, server)
    requires ServerOk(s.(server := server, goroutines := Taking(s, g, cmd)))
    ensures Inv(s.(server := server, goroutines := Taking(s, g, cmd)))
  {
    var t := s.(server := server, goroutines := Taking(s, g, cmd));
    forall u | u in t.chans ensures EntryOk(t, u) {
      assert EntryOk(s, u);
    }
    forall i: nat | i < |t.goroutines| ensures OwnerOk(t, i) {
      assert OwnerOk(s, i);
    }
  }

  /** Sending a delete condemns the entry the channel came from, and no other. */
  lemma CondemnedInv(s: State, server: Server, u: Uuid, suicide: bool)
    requires Inv(s) && u in s.chans && s.server != Quit
    requires forall v :: Condemned(server, v) <==> Condemned(s.server, v) || v == u
    requires ServerOk(s.(server := server))
    ensures !server.Reconnecting? ==> Inv(s.(server := server, goroutines := Taking(s, s.chans[u], Delete(suicide))))
  {
    assert EntryOk(s, u);
    var t := s.(server := server, goroutines := Taking(s, s.chans[u], Delete(suicide)));
    forall v | v in t.chans ensures EntryOk(t, v) {
      assert EntryOk(s, v);
    }
    forall i: nat | i < |t.goroutines| ensures OwnerOk(t, i) {
      assert OwnerOk(s, i);
    }
  }

  lemma DroppedInv(s: State, server: Server, u: Uuid)
    requires Inv(s) && s.server != Quit && Condemned(s.server, u)
    requires forall v :: Condemned(server, v) <==> Condemned(s.server, v) && v != u
    requires ServerOk(s.(server := server, table := Overseer.Removed(s.table, u), chans := s.chans - {u}))
    ensures Inv(s.(server := server, table := Overseer.Removed(s.table, u), chans := s.chans - {u}))
  {
    var t := s.(server := server, table := Overseer.Removed(s.table, u), chans := s.chans - {u});
    forall v | v in t.chans ensures EntryOk(t, v) {
      assert EntryOk(s, v);
    }
    forall i: nat | i < |t.goroutines| ensures OwnerOk(t, i) {
      assert OwnerOk(s, i);
    }
  }

  /** Back to idle from a state that condemns nothing. */
  lemma ResumedInv(s: State)
    requires Inv(s) && s.server != Quit && SameCondemned(s.server, Idle)
    ensures Inv(s.(server := Idle))
  {
    var t := s.(server := Idle);
    forall v | v in t.chans ensures EntryOk(t, v) {
      assert EntryOk(s, v);
    }
    forall i: nat | i < |t.goroutines| ensures OwnerOk(t, i) {
      assert OwnerOk(s, i);
    }
  }

  lemma EvacuatingInv(s: State, step: Step)
    requires Inv(s) && s.server.Evacuating?
    ensures Inv(Continued(s, step))
  {
    var t, workers := Continued(s, step), s.server.workers;
    match step {
      case WorkerSend(u) =>
        if u in workers && workers[u].Deliver? && IsReady(s, workers[u].chan) {
          CondemnedInv(s, t.server, u, false);
        }
      case WorkerRemove(u) =>
        if u in workers && workers[u].Discard? {
          DroppedInv(s, t.server, u);
        }
      case EndEvacuation =>
        if workers == map[] {
          ResumedInv(s);
        }
      case _ =>
    }
  }

  lemma ContinuedInv(s: State, step: Step)
    requires Inv(s)
    ensures Inv(Continued(s, step))
  {
    var t := Continued(s, step);
    match (s.server, step) {
      case (Reconnecting(todo), Reconnect(g)) =>
        if g in todo && IsReady(s, g) {
          TakenInv(s, t.server, g, Monitor);
        }
      case (Reconnecting(todo), EnterLoop) =>
        if todo == {} {
          ResumedInv(s);
        }
      case (Sending(u, g, cmd), Send) =>
        if IsReady(s, g) {
          if cmd.Delete? {
            CondemnedInv(s, t.server, u, cmd.suicide);
          } else {
            TakenInv(s, t.server, g, cmd);
          }
        }
      case (Removing(u), RemoveEntry) => DroppedInv(s, t.server, u);
      case (Evacuating(_), _) => EvacuatingInv(s, step);
      case _ =>
    }
  }

  /** A goroutine may change by itself as long as it keeps listening. */
  lemma ChangedInv(s: State, g: nat, after: Goroutine, kills: multiset<nat>)
    requires Inv(s) && g < |s.goroutines| && forall i :: i in kills ==> i < |s.goroutines|
    requires after.instance == s.goroutines[g].instance && after.disowned == s.goroutines[g].disowned
    requires Listening(s.goroutines[g].phase) ==> Listening(after.phase) || s.server == Quit
    ensures Inv(s.(goroutines := s.goroutines[g := after], kills := kills))
  {
    var t := s.(goroutines := s.goroutines[g := after], kills := kills);
    forall u | u in t.chans ensures EntryOk(t, u) {
      assert EntryOk(s, u);
    }
    forall i: nat | i < |t.goroutines| ensures OwnerOk(t, i) {
      assert OwnerOk(s, i);
    }
  }

  lemma IndependentInv(s: State, g: nat, step: Step)
    requires Inv(s) && g < |s.goroutines|
    ensures Inv(Independent(s, g, step))
  {
    var t := Independent(s, g, step);
    ChangedInv(s, g, t.goroutines[g], t.kills);
    assert t.goroutines == s.goroutines[g := t.goroutines[g]];
  }

  lemma ReportInv(l: Overseer.Limits, s: State, m: Overseer.Message)
    requires Inv(s) && Informative(m)
    ensures Inv(s.(table := Overseer.Next(l, s.table, m)))
  {
    var t := s.(table := Overseer.Next(l, s.table, m));
    assert t.table.maintenance == s.table.maintenance && t.table.instances.Keys == s.table.instances.Keys;
    forall u | u in t.chans ensures EntryOk(t, u) {
      assert EntryOk(s, u);
    }
    forall g: nat | g < |t.goroutines| ensures OwnerOk(t, g) {
      assert OwnerOk(s, g);
    }
  }

  lemma InvNext(l: Overseer.Limits, s: State, step: Step)
    requires Inv(s)
    ensures Inv(Next(l, s, step))
  {
    match step {
      case Report(m) =>
        if Informative(m) {
          ReportInv(l, s, m);
        }
      case Handle(g, _) =>
        if g < |s.goroutines| {
          IndependentInv(s, g, step);
        }
      case LoseVM(g) =>
        if g < |s.goroutines| {
          IndependentInv(s, g, step);
        }
      case ExitOnDone(g) =>
        if g < |s.goroutines| {
          IndependentInv(s, g, step);
        }
      case _ =>
        if s.server == Idle {
          ReceivedInv(l, s, step);
        } else {
          ContinuedInv(s, step);
        }
    }
  }

  /** One more directory: a new goroutine takes the entry of that name. */
  lemma BootedInv(s: State, t: State, d: Overseer.Found)
    requires Inv(s) && s.server.Reconnecting? && d.cfg.Some?
    requires t == State(Reconnecting(s.server.todo + {|s.goroutines|}), Overseer.Scanned(s.table, d),
            s.chans[d.name := |s.goroutines|],
                        Shadow(s, d.name) + [Goroutine(d.name, Ready, false, false, false)], multiset{})
    ensures Inv(t)
  {
    forall u | u in t.chans ensures EntryOk(t, u) {
      assert u in s.chans ==> EntryOk(s, u);
    }
    forall g: nat | g < |t.goroutines| ensures OwnerOk(t, g) {
      assert g < |s.goroutines| ==> OwnerOk(s, g);
      assert d.name in s.chans ==> EntryOk(s, d.name);
    }
  }

  lemma {:induction false} BootInv(dirs: Log<Overseer.Found>)
    ensures Inv(Boot(dirs)) && Boot(dirs).table == Overseer.Startup(dirs) && Boot(dirs).server.Reconnecting?
  {
    if dirs.Then? {
      BootInv(dirs.before);
      if dirs.last.cfg.Some? {
        BootedInv(Boot(dirs.before), Boot(dirs), dirs.last);
      }
    }
  }

  lemma {:induction false} RunInv(l: Overseer.Limits, dirs: Log<Overseer.Found>, maintenance: bool, h: Log<Step>)
    ensures Inv(Run(l, dirs, maintenance, h))
  {
    if h.Then? {
      RunInv(l, dirs, maintenance, h.before);
      InvNext(l, Run(l, dirs, maintenance, h.before), h.last);
    } else {
      BootInv(dirs);
      var s, t := Boot(dirs), Run(l, dirs, maintenance, h);
      forall u | u in t.chans ensures EntryOk(t, u) {
        assert EntryOk(s, u);
      }
      forall g: nat | g < |t.goroutines| ensures OwnerOk(t, g) {
        assert OwnerOk(s, g);
      }
    }
  }

  // ---- What follows for every run ----

  /** The goroutines the server loop, or a worker of it, is about to send a command to. */
  ghost predicate Target(s: State, g: nat) {
    match s.server
    case Reconnecting(todo) => g in todo
    case Sending(_, chan, _) => g == chan
    case Evacuating(workers) => exists u :: u in workers && workers[u] == Deliver(g)
    case _ => false
  }

  /**
    Between commands every instance in the overseer's table has a goroutine that is in its
    loop or will return to it, and at no time is a command on its way to one that has exited.
    */
  lemma NoCommandToTheDead(l: Overseer.Limits, dirs: Log<Overseer.Found>, maintenance: bool, h: Log<Step>)
    ensures var s := Run(l, dirs, maintenance, h);
            && (s.server == Idle ==> forall u :: u in s.chans ==>
              s.chans[u] < |s.goroutines| && Listening(s.goroutines[s.chans[u]].phase))
            && (forall g: nat :: Target(s, g) ==> g < |s.goroutines| && Listening(s.goroutines[g].phase))
  {
    var s := Run(l, dirs, maintenance, h);
    RunInv(l, dirs, maintenance, h);
    assert forall u :: u in s.chans ==> EntryOk(s, u);
  }

  /** The steps that carry on the command in hand: the server loop's own, and handling by the goroutine it waits for. */
  ghost predicate CarriesOn(s: State, step: Step) {
    match step
    case Handle(g, _) => Target(s, g)
    case Reconnect(_) => true
    case EnterLoop => true
    case Send => true
    case RemoveEntry => true
    case WorkerSend(_) => true
    case WorkerRemove(_) => true
    case EndEvacuation => true
    case _ => false
  }

  /** A goroutine that is waited for either takes the command or finishes the one it has. */
  lemma TargetMoves(l: Overseer.Limits, s: State, g: nat)
    requires Target(s, g) && g < |s.goroutines| && Listening(s.goroutines[g].phase) && !IsReady(s, g)
    ensures CarriesOn(s, Handle(g, Started)) && Next(l, s, Handle(g, Started)) != s
  {
    assert Next(l, s, Handle(g, Started)).goroutines[g].phase == Ready;
  }

  /** The server loop never locks up: in the middle of a command something can always carry it on. */
  lemma NeverLocksUp(l: Overseer.Limits, dirs: Log<Overseer.Found>, maintenance: bool, h: Log<Step>)
    requires !Run(l, dirs, maintenance, h).server.Idle? && !Run(l, dirs, maintenance, h).server.Quit?
    ensures var s := Run(l, dirs, maintenance, h); exists step :: CarriesOn(s, step) && Next(l, s, step) != s
  {
    var s := Run(l, dirs, maintenance, h);
    NoCommandToTheDead(l, dirs, maintenance, h);
    match s.server {
      case Reconnecting(todo) =>
        if todo == {} {
          assert CarriesOn(s, EnterLoop) && Next(l, s, EnterLoop).server == Idle;
        } else {
          var g :| g in todo;
          assert Target(s, g);
          if IsReady(s, g) {
            assert CarriesOn(s, Reconnect(g)) && g !in Next(l, s, Reconnect(g)).server.todo;
          } else {
            TargetMoves(l, s, g);
          }
        }
      case Sending(u, g, cmd) =>
        assert Target(s, g);
        if IsReady(s, g) {
          assert CarriesOn(s, Send) && Next(l, s, Send).server != s.server;
        } else {
          TargetMoves(l, s, g);
        }
      case Removing(u) =>
        assert CarriesOn(s, RemoveEntry) && Next(l, s, RemoveEntry).server == Idle;
      case Evacuating(workers) =>
        EvacuationMoves(l, s);
    }
  }

  lemma EvacuationMoves(l: Overseer.Limits, s: State)
    requires s.server.Evacuating?
    requires forall g: nat :: Target(s, g) ==> g < |s.goroutines| && Listening(s.goroutines[g].phase)
    ensures exists step :: CarriesOn(s, step) && Next(l, s, step) != s
  {
    var workers := s.server.workers;
    if workers == map[] {
      assert CarriesOn(s, EndEvacuation) && Next(l, s, EndEvacuation).server == Idle;
    } else {
      var u :| u in workers;
      match workers[u] {
        case Discard =>
          assert CarriesOn(s, WorkerRemove(u)) && u !in Next(l, s, WorkerRemove(u)).server.workers;
        case Deliver(g) =>
          assert Target(s, g);
          if IsReady(s, g) {
            assert CarriesOn(s, WorkerSend(u)) && Next(l, s, WorkerSend(u)).server.workers[u] == Discard;
          } else {
            TargetMoves(l, s, g);
          }
      }
    }
  }

  // ---- Self-kill ----

  /**
    A request to be killed names an instance, not a goroutine. Received between commands,
    it is sent to the goroutine that made it if and only if that one was never sent a delete
    (and kept its entry at startup); otherwise to whichever goroutine has the name by then.
    */
  lemma KillReachesAskerIff(l: Overseer.Limits, dirs: Log<Overseer.Found>, maintenance: bool, h: Log<Step>, g: nat)
    requires var s := Run(l, dirs, maintenance, h); s.server == Idle && g in s.kills
    ensures var s := Run(l, dirs, maintenance, h);
            && g < |s.goroutines|
            && (Next(l, s, RecvKill(g)).server == Sending(s.goroutines[g].instance, g, Delete(true)) <==>
              !s.goroutines[g].disowned)
  {
    var s := Run(l, dirs, maintenance, h);
    RunInv(l, dirs, maintenance, h);
    assert OwnerOk(s, g);
  }

  /** A failed start of `u` asks for a kill; before that is received, a delete takes the entry away. */
  lemma KillOutlivesEntry(l: Overseer.Limits, s: State, u: Uuid)
    requires s.server == Idle && |s.goroutines| == 1 && s.chans == map[u := 0] && s.kills == multiset{}
    requires s.goroutines[0] == Goroutine(u, Busy(Start), false, false, false)
    ensures var a := Next(l, s, Handle(0, Failed));
            var b := Next(l, Next(l, Next(l, a, RecvDelete(u)), Send), RemoveEntry);
            Next(l, b, Handle(0, Failed)) ==
            State(Idle, Overseer.Removed(s.table, u), map[], [Goroutine(u, Ready, false, true, true)], multiset{0})
  {
    var a := Next(l, s, Handle(0, Failed));
    assert a == s.(goroutines := [Goroutine(u, Ready, false, true, false)], kills := multiset{0});
    var b := Next(l, a, RecvDelete(u));
    assert b == a.(server := Sending(u, 0, Delete(false)));
    var c := Next(l, b, Send);
    assert c == b.(server := Removing(u), goroutines := [Goroutine(u, Busy(Delete(false)), false, true, true)]);
    var d := Next(l, c, RemoveEntry);
    assert d == c.(server := Idle, table := Overseer.Removed(s.table, u), chans := map[]);
  }

  /** If `u` is then started again, the old request kills the new instance. */
  lemma StaleKill(l: Overseer.Limits, s: State, u: Uuid, cfg: Overseer.Config)
    requires s.server == Idle && s.chans == map[] && s.goroutines == [Goroutine(u, Ready, false, true, true)] &&
            s.kills == multiset{0}
    requires Overseer.RoomAvailable(l, s.table, cfg).None?
    ensures var a := Next(l, Next(l, Next(l, s, RecvStart(u, cfg)), Send), Handle(1, Started));
            var b := Next(l, Next(l, Next(l, a, RecvKill(0)), Send), Handle(1, Started));
            && |a.goroutines| == |b.goroutines| == 2
            && a.chans == map[u := 1] && a.goroutines[1] == Goroutine(u, Ready, true, false, false)
            && b.goroutines[1].phase == Exited && b.goroutines[0].phase == Ready
  {
    var a := Next(l, s, RecvStart(u, cfg));
    assert a.server == Sending(u, 1, Start) &&
        a.goroutines == s.goroutines + [Goroutine(u, Ready, false, false, false)];
    var b := Next(l, a, Send);
    assert b == a.(server := Idle, goroutines := s.goroutines + [Goroutine(u, Busy(Start), false, false, false)]);
    var c := Next(l, b, Handle(1, Started));
    assert c == b.(goroutines := s.goroutines + [Goroutine(u, Ready, true, false, false)]);
    var d := Next(l, c, RecvKill(0));
    assert d == c.(server := Sending(u, 1, Delete(true)), kills := multiset{});
    var e := Next(l, d, Send);
    assert e.goroutines[1] == Goroutine(u, Busy(Delete(true)), true, false, true) && e.goroutines[0] == s.goroutines[0];
  }

  /** A node that takes one instance, whatever its size, and has none: `u` is started on it. */
  lemma FirstStart(l: Overseer.Limits, u: Uuid, cfg: Overseer.Config) returns (h: Log<Step>)
    requires l == Overseer.Limits(1, false, false)
    ensures var s := Run(l, Empty, false, h);
            && s.server == Idle && |s.goroutines| == 1 && s.chans == map[u := 0] && s.kills == multiset{}
            && s.goroutines[0] == Goroutine(u, Busy(Start), false, false, false)
            && !s.table.maintenance && s.table.instances.Keys == {u}
  {
    var empty := Overseer.Startup(Empty);
    h := Then(Empty, EnterLoop);
    assert Run(l, Empty, false, h) == State(Idle, empty, map[], [], multiset{});
    h := Then(h, RecvStart(u, cfg));
    var a := Run(l, Empty, false, h);
    assert a.server == Sending(u, 0, Start) && a.goroutines == [Goroutine(u, Ready, false, false, false)];
    h := Then(h, Send);
  }

  /** The start fails, and a delete overtakes the request to be killed. */
  lemma DeleteOvertakes(l: Overseer.Limits, u: Uuid, start: Log<Step>) returns (h: Log<Step>)
    requires var s := Run(l, Empty, false, start);
             && s.server == Idle && |s.goroutines| == 1 && s.chans == map[u := 0] && s.kills == multiset{}
             && s.goroutines[0] == Goroutine(u, Busy(Start), false, false, false)
    ensures Run(l, Empty, false, h) ==
            State(Idle, Overseer.Removed(Run(l, Empty, false, start).table, u), map[],
              [Goroutine(u, Ready, false, true, true)], multiset{0})
  {
    KillOutlivesEntry(l, Run(l, Empty, false, start), u);
    var h3 := Then(Then(Then(start, Handle(0, Failed)), RecvDelete(u)), Send);
    ThreeSteps(l, start, Handle(0, Failed), RecvDelete(u), Send);
    TwoSteps(l, h3, RemoveEntry, Handle(0, Failed));
    h := Then(Then(h3, RemoveEntry), Handle(0, Failed));
  }

  /** So it does happen: `u` is started again, is running, and the pending request of the first instance kills it. */
  lemma StaleKillHappens(l: Overseer.Limits, u: Uuid, cfg: Overseer.Config) returns (h: Log<Step>)
    requires l == Overseer.Limits(1, false, false)
    ensures var s := Run(l, Empty, false, h);
            var t := Next(l, Next(l, Next(l, s, RecvKill(0)), Send), Handle(1, Started));
            && |s.goroutines| == |t.goroutines| == 2
            && s.chans == map[u := 1] && s.goroutines[1] == Goroutine(u, Ready, true, false, false)
            && t.goroutines[1].phase == Exited && t.goroutines[0].phase == Ready
  {
    var h0 := FirstStart(l, u, cfg);
    var h1 := DeleteOvertakes(l, u, h0);
    h := Then(Then(Then(h1, RecvStart(u, cfg)), Send), Handle(1, Started));
    RoomAgain(l, Run(l, Empty, false, h0).table, u, cfg);
    StaleKill(l, Run(l, Empty, false, h1), u, cfg);
    ThreeSteps(l, h1, RecvStart(u, cfg), Send, Handle(1, Started));
  }

  lemma RoomAgain(l: Overseer.Limits, t: Overseer.Table, u: Uuid, cfg: Overseer.Config)
    requires l == Overseer.Limits(1, false, false) && !t.maintenance && t.instances.Keys == {u}
    ensures Overseer.RoomAvailable(l, Overseer.Removed(t, u), cfg).None?
  {
    assert t.instances - {u} == map[];
  }

  lemma TwoSteps(l: Overseer.Limits, h: Log<Step>, a: Step, b: Step)
    ensures Run(l, Empty, false, Then(Then(h, a), b)) == Next(l, Next(l, Run(l, Empty, false, h), a), b)
  {
    assert Run(l, Empty, false, Then(h, a)) == Next(l, Run(l, Empty, false, h), a);
  }

  lemma ThreeSteps(l: Overseer.Limits, h: Log<Step>, a: Step, b: Step, c: Step)
    ensures Run(l, Empty, false, Then(Then(Then(h, a), b), c)) ==
            Next(l, Next(l, Next(l, Run(l, Empty, false, h), a), b), c)
  {
    assert Run(l, Empty, false, Then(h, a)) == Next(l, Run(l, Empty, false, h), a);
    assert Run(l, Empty, false, Then(Then(h, a), b)) == Next(l, Run(l, Empty, false, Then(h, a)), b);
  }

  // ---- The overseer's view ----

  /** The message a step sends to the overseer, if it changes the table. */
  function Sent(s: State, step: Step): Option<Overseer.Message> {
    match (s.server, step)
    case (_, Report(m)) => if Informative(m) then Some(m) else None
    case (Idle, RecvStart(u, cfg)) => Some(Overseer.Add(u, cfg))
    case (Idle, RecvEvacuate) => Some(Overseer.Maintain)
    case (Idle, RecvRestore) => Some(Overseer.Restore)
    case (Removing(u), RemoveEntry) => Some(Overseer.Remove(u))
    case (Evacuating(workers), WorkerRemove(u)) =>
      if u in workers && workers[u].Discard? then Some(Overseer.Remove(u)) else None
    case _ => None
  }

  ghost function Messages(l: Overseer.Limits, dirs: Log<Overseer.Found>, maintenance: bool,
      h: Log<Step>): Log<Overseer.Message> {
    match h
    case Empty => Empty
    case Then(before, step) =>
      var m, rest := Sent(Run(l, dirs, maintenance, before), step), Messages(l, dirs, maintenance, before);
      if m.Some? then Then(rest, m.value) else rest
  }

  ghost function Followed(l: Overseer.Limits, t: Overseer.Table, m: Option<Overseer.Message>): Overseer.Table {
    if m.Some? then Overseer.Next(l, t, m.value) else t
  }

  lemma ReceivedFollows(l: Overseer.Limits, s: State, step: Step)
    requires s.chans.Keys == s.table.instances.Keys && s.server == Idle
    requires !step.Report?
    ensures Received(l, s, step).table == Followed(l, s.table, Sent(s, step))
  {
    if step.RecvStart? {
      assert step.uuid in s.chans <==> step.uuid in s.table.instances;
    }
  }

  lemma ContinuedFollows(l: Overseer.Limits, s: State, step: Step)
    requires s.server != Idle && !step.Report?
    ensures Continued(s, step).table == Followed(l, s.table, Sent(s, step))
  {
  }

  lemma IndependentFollows(l: Overseer.Limits, s: State, g: nat, step: Step)
    requires g < |s.goroutines| && (step.Handle? || step.LoseVM? || step.ExitOnDone?)
    ensures Independent(s, g, step).table == s.table && Sent(s, step) == None
  {
  }

  lemma TableFollows(l: Overseer.Limits, s: State, step: Step)
    requires s.chans.Keys == s.table.instances.Keys
    ensures Next(l, s, step).table == Followed(l, s.table, Sent(s, step))
  {
    match step {
      case Report(m) =>
      case Handle(g, _) =>
        if g < |s.goroutines| {
          IndependentFollows(l, s, g, step);
        }
      case LoseVM(g) =>
        if g < |s.goroutines| {
          IndependentFollows(l, s, g, step);
        }
      case ExitOnDone(g) =>
        if g < |s.goroutines| {
          IndependentFollows(l, s, g, step);
        }
      case _ =>
        if s.server == Idle {
          ReceivedFollows(l, s, step);
        } else {
          ContinuedFollows(l, s, step);
        }
    }
  }

  /** The table is one the overseer reaches on its own messages, so what holds of every overseer run holds here. */
  lemma {:induction false} TableIsOverseerRun(l: Overseer.Limits, dirs: Log<Overseer.Found>, maintenance: bool,
      h: Log<Step>)
    ensures Run(l, dirs, maintenance, h).table == Overseer.Run(l, dirs, maintenance, Messages(l, dirs, maintenance, h))
  {
    if h.Then? {
      TableIsOverseerRun(l, dirs, maintenance, h.before);
      RunInv(l, dirs, maintenance, h.before);
      TableFollows(l, Run(l, dirs, maintenance, h.before), h.last);
    } else {
      BootInv(dirs);
    }
  }

  // ---- Evacuation ----

  /** An evacuation has ended and no restore was received since. */
  ghost predicate Evacuated(l: Overseer.Limits, dirs: Log<Overseer.Found>, maintenance: bool, h: Log<Step>) {
    match h
    case Empty => false
    case Then(before, step) =>
      var s := Run(l, dirs, maintenance, before);
      if step == EndEvacuation && s.server == Evacuating(map[]) then true
      else if step == RecvRestore && s.server == Idle then false
      else Evacuated(l, dirs, maintenance, before)
  }

  lemma StaysEmpty(l: Overseer.Limits, s: State, step: Step)
    requires Inv(s) && s.table.maintenance && s.table.instances == map[]
    requires !(step == RecvRestore && s.server == Idle)
    ensures Next(l, s, step).table.maintenance && Next(l, s, step).table.instances == map[]
  {
    TableFollows(l, s, step);
    var m := Sent(s, step);
    if m.Some? {
      Overseer.MaintenanceStaysEmpty(l, s.table, m.value);
    }
  }

  lemma {:induction false} EvacuatedIsEmpty(l: Overseer.Limits, dirs: Log<Overseer.Found>, maintenance: bool,
      h: Log<Step>)
    requires Evacuated(l, dirs, maintenance, h)
    ensures var t := Run(l, dirs, maintenance, h).table; t.maintenance && t.instances == map[]
  {
    var s := Run(l, dirs, maintenance, h.before);
    RunInv(l, dirs, maintenance, h.before);
    if h.last == EndEvacuation && s.server == Evacuating(map[]) {
      assert s.table.instances.Keys == {};
    } else {
      EvacuatedIsEmpty(l, dirs, maintenance, h.before);
      StaysEmpty(l, s, h.last);
    }
  }

  /** No instance and no channel is left. */
  ghost predicate Emptied(s: State) {
    s.table.maintenance && s.table.instances == map[] && s.chans == map[]
  }

  lemma EmptyTotals(t: Overseer.Table, extra: Overseer.Config)
    requires Overseer.OffBy(t, extra) && t.instances == map[]
    ensures t.total == extra
  {
  }

  lemma {:induction false} TableOff(l: Overseer.Limits, dirs: Log<Overseer.Found>, maintenance: bool, h: Log<Step>)
    requires Overseer.NeverBelowZero(l, dirs, maintenance, Messages(l, dirs, maintenance, h))
    ensures var t := Run(l, dirs, maintenance, h).table;
            t.total == Overseer.Plus(Overseer.Totals(t.instances), Overseer.Shadowed(dirs))
  {
    TableIsOverseerRun(l, dirs, maintenance, h);
    Overseer.RunOffIff(l, dirs, maintenance, Messages(l, dirs, maintenance, h));
  }

  /**
    From the end of an evacuation to the next restore, whatever else arrives, the node is in
    maintenance and the table is empty; and if no removal took a total below zero, which
    non-negative configurations ensure, the totals are down to what startup shadowed, which
    is nothing if directory names are distinct.
    */
  lemma {:induction false} EvacuatedUntilRestore(l: Overseer.Limits, dirs: Log<Overseer.Found>, maintenance: bool,
      h: Log<Step>)
    requires Evacuated(l, dirs, maintenance, h)
    ensures Emptied(Run(l, dirs, maintenance, h))
    ensures Overseer.NeverBelowZero(l, dirs, maintenance, Messages(l, dirs, maintenance, h)) ==>
              Run(l, dirs, maintenance, h).table.total == Overseer.Shadowed(dirs)
  {
    EvacuatedIsEmpty(l, dirs, maintenance, h);
    RunInv(l, dirs, maintenance, h);
    EmptiedChans(Run(l, dirs, maintenance, h));
    if Overseer.NeverBelowZero(l, dirs, maintenance, Messages(l, dirs, maintenance, h)) {
      TableOff(l, dirs, maintenance, h);
      EmptyTotals(Run(l, dirs, maintenance, h).table, Overseer.Shadowed(dirs));
    }
  }

  lemma EmptiedChans(s: State)
    requires Inv(s) && s.table.instances == map[]
    ensures s.chans == map[]
  {
    assert s.chans.Keys == {};
  }
}
