/**
  The life of an instance on a launcher, command by command: what a start, a delete, an
  attach and the loss of a VM lead to from any state of the server loop, and that an instance
  which is shutting down always has its request to be killed under way.
  */
module Lifecycle {
  import opened Basics
  import Overseer
  import opened Launcher

  // ---- Who is shutting down has asked to be killed ----

  /** The request of `g` has not been received, or the delete it asked for is on its way to it. */
  ghost predicate UnderWay(s: State, g: nat)
    requires g < |s.goroutines|
  {
    g in s.kills || s.server == Sending(s.goroutines[g].instance, g, Delete(true))
  }

  /** A goroutine that was never sent a delete is shutting down exactly when its request is under way. */
  ghost predicate AskOk(s: State, g: nat)
    requires g < |s.goroutines|
  {
    && (!s.goroutines[g].disowned && s.goroutines[g].shuttingDown ==> UnderWay(s, g))
    && (g in s.kills ==> s.goroutines[g].shuttingDown)
  }

  ghost predicate AllAsk(s: State) {
    forall g: nat :: g < |s.goroutines| ==> AskOk(s, g)
  }

  lemma AskReceived(l: Overseer.Limits, s: State, step: Step, g: nat)
    requires Inv(s) && AllAsk(s) && s.server == Idle && g < |Received(l, s, step).goroutines|
    ensures AskOk(Received(l, s, step), g)
  {
    if g < |s.goroutines| {
      assert AskOk(s, g) && OwnerOk(s, g);
    }
  }

  lemma AskContinued(s: State, step: Step, g: nat)
    requires Inv(s) && AllAsk(s) && g < |s.goroutines|
    ensures |Continued(s, step).goroutines| == |s.goroutines| && AskOk(Continued(s, step), g)
  {
    assert AskOk(s, g);
  }

  lemma AskIndependent(s: State, step: Step, i: nat, g: nat)
    requires Inv(s) && AllAsk(s) && i < |s.goroutines| && g < |s.goroutines|
    ensures |Independent(s, i, step).goroutines| == |s.goroutines| && AskOk(Independent(s, i, step), g)
  {
    assert AskOk(s, g);
  }

  /** A step of goroutine `i` on its own. */
  predicate StepOf(step: Step, i: nat) {
    (step.Handle? || step.LoseVM? || step.ExitOnDone?) && step.chan == i
  }

  lemma AskOwn(l: Overseer.Limits, s: State, step: Step, i: nat, g: nat)
    requires Inv(s) && AllAsk(s) && StepOf(step, i) && g < |Next(l, s, step).goroutines|
    ensures AskOk(Next(l, s, step), g)
  {
    if i < |s.goroutines| {
      assert Next(l, s, step) == Independent(s, i, step);
      AskIndependent(s, step, i, if g < |s.goroutines| then g else 0);
    }
  }

  lemma AskLoop(l: Overseer.Limits, s: State, step: Step, g: nat)
    requires Inv(s) && AllAsk(s) && !step.Report? && (forall i :: !StepOf(step, i)) && g < |Next(l, s, step).goroutines|
    ensures AskOk(Next(l, s, step), g)
  {
    assert !step.Handle? && !step.LoseVM? && !step.ExitOnDone? by {
      assert step.Handle? || step.LoseVM? || step.ExitOnDone? ==> StepOf(step, step.chan);
    }
    if s.server == Idle {
      AskReceived(l, s, step, g);
    } else {
      AskContinued(s, step, if g < |s.goroutines| then g else 0);
    }
  }

  lemma AskReport(l: Overseer.Limits, s: State, m: Overseer.Message, g: nat)
    requires AllAsk(s) && g < |s.goroutines|
    ensures AskOk(Next(l, s, Report(m)), g)
  {
    assert AskOk(s, g);
  }

  lemma AskNext(l: Overseer.Limits, s: State, step: Step, g: nat)
    requires Inv(s) && AllAsk(s) && g < |Next(l, s, step).goroutines|
    ensures AskOk(Next(l, s, step), g)
  {
    if step.Report? {
      AskReport(l, s, step.message, g);
    } else if i :| StepOf(step, i) {
      AskOwn(l, s, step, i, g);
    } else {
      AskLoop(l, s, step, g);
    }
  }

  lemma {:induction false} AskBoot(dirs: Log<Overseer.Found>)
    ensures Boot(dirs).kills == multiset{}
    ensures forall g: nat :: g < |Boot(dirs).goroutines| ==> !Boot(dirs).goroutines[g].shuttingDown
  {
    if dirs.Then? {
      AskBoot(dirs.before);
    }
  }

  lemma {:induction false} RunAsks(l: Overseer.Limits, dirs: Log<Overseer.Found>, maintenance: bool, h: Log<Step>)
    ensures AllAsk(Run(l, dirs, maintenance, h))
  {
    if h.Then? {
      RunAsks(l, dirs, maintenance, h.before);
      RunInv(l, dirs, maintenance, h.before);
      forall g: nat | g < |Run(l, dirs, maintenance, h).goroutines| ensures AskOk(Run(l, dirs, maintenance, h), g) {
        AskNext(l, Run(l, dirs, maintenance, h.before), h.last, g);
      }
    } else {
      AskBoot(dirs);
    }
  }

  /**
    In every run, an instance whose start failed or whose VM was lost, and whose goroutine was
    never sent a delete, has its request to be killed pending or the delete on its way.
    */
  lemma ShuttingDownAsks(l: Overseer.Limits, dirs: Log<Overseer.Found>, maintenance: bool, h: Log<Step>, g: nat)
    requires var s := Run(l, dirs, maintenance, h); g < |s.goroutines| && !s.goroutines[g].disowned
    ensures var s := Run(l, dirs, maintenance, h); s.goroutines[g].shuttingDown ==> UnderWay(s, g)
  {
    RunAsks(l, dirs, maintenance, h);
    assert AskOk(Run(l, dirs, maintenance, h), g);
  }

  // ---- Commands, from any state between commands ----

  /** Between commands, `u` has the entry with channel `g`, whose goroutine is in its loop. */
  ghost predicate Serves(s: State, u: Uuid, g: nat) {
    && s.server == Idle && u in s.chans && s.chans[u] == g
    && g < |s.goroutines| && s.goroutines[g].instance == u && s.goroutines[g].phase == Ready
  }

  ghost predicate PhaseIs(s: State, g: nat, phase: Phase) {
    g < |s.goroutines| && s.goroutines[g].phase == phase
  }

  /** A command is received, carried out by the server loop, and handled by goroutine `g`. */
  ghost function Served(l: Overseer.Limits, s: State, command: Step, g: nat, outcome: Outcome): State {
    Next(l, Carried(l, Next(l, s, command)), Handle(g, outcome))
  }

  /** All the other goroutines are as they were. */
  ghost predicate OthersKept(s: State, t: State, g: nat) {
    && |t.goroutines| >= |s.goroutines|
    && forall i: nat :: i < |s.goroutines| && i != g ==> t.goroutines[i] == s.goroutines[i]
  }

  /** What the server loop does with a command for `u`: the rendezvous and, after a delete, the removal. */
  ghost function Carried(l: Overseer.Limits, s: State): State {
    var sent := Next(l, s, Send);
    if sent.server.Removing? then Next(l, sent, RemoveEntry) else sent
  }

  lemma DeleteCarried(l: Overseer.Limits, s: State, u: Uuid, g: nat, suicide: bool)
    requires s.server == Sending(u, g, Delete(suicide)) && IsReady(s, g)
    ensures var t := Carried(l, s);
            && t.server == Idle && t.table == Overseer.Removed(s.table, u) && t.chans == s.chans - {u}
            && t.kills == s.kills && OthersKept(s, t, g) && |t.goroutines| == |s.goroutines|
            && t.goroutines[g] == s.goroutines[g].(phase := Busy(Delete(suicide)), disowned := true)
  {
    assert Next(l, s, Send) == s.(server := Removing(u), goroutines := Taking(s, g, Delete(suicide)));
  }

  lemma OtherCarried(l: Overseer.Limits, s: State, u: Uuid, g: nat, cmd: Command)
    requires s.server == Sending(u, g, cmd) && IsReady(s, g) && !cmd.Delete?
    ensures var t := Carried(l, s);
            && t.server == Idle && t.table == s.table && t.chans == s.chans && t.kills == s.kills
            && OthersKept(s, t, g) && |t.goroutines| == |s.goroutines|
            && t.goroutines[g] == s.goroutines[g].(phase := Busy(cmd))
  {
    assert Next(l, s, Send) == s.(server := Idle, goroutines := Taking(s, g, cmd));
  }

  lemma GoroutineHandles(l: Overseer.Limits, s: State, g: nat, outcome: Outcome)
    requires g < |s.goroutines| && s.goroutines[g].phase.Busy?
    ensures var t, after := Next(l, s, Handle(g, outcome)),
            Handled(s.goroutines[g], s.goroutines[g].phase.cmd, outcome);
            && t == s.(goroutines := s.goroutines[g := after.0], kills := t.kills)
            && t.kills == (if after.1 then s.kills + multiset{g} else s.kills)
  {
  }

  /**
    A delete takes the entry and its share of the totals away. The goroutine exits, unless it
    is shutting down and waits for the delete it asked for.
    */
  lemma DeleteRemoves(l: Overseer.Limits, s: State, u: Uuid, g: nat, outcome: Outcome)
    requires Serves(s, u, g)
    ensures var t := Served(l, s, RecvDelete(u), g, outcome);
            && t.server == Idle && t.table == Overseer.Removed(s.table, u) && t.chans == s.chans - {u} &&
              t.kills == s.kills
            && OthersKept(s, t, g) && PhaseIs(t, g, if s.goroutines[g].shuttingDown then Ready else Exited)
  {
    var a := Next(l, s, RecvDelete(u));
    assert a == s.(server := Sending(u, g, Delete(false)));
    DeleteCarried(l, a, u, g, false);
    GoroutineHandles(l, Carried(l, a), g, outcome);
  }

  /** A start of an instance that is not there: there is room, or nothing happens. */
  lemma StartRefused(l: Overseer.Limits, s: State, u: Uuid, cfg: Overseer.Config)
    requires s.server == Idle && u !in s.chans && Overseer.RoomAvailable(l, s.table, cfg).Some?
    ensures Next(l, s, RecvStart(u, cfg)) == s
  {
  }

  /**
    Otherwise it gets an entry, its share of the totals, and a goroutine of its own, which is
    told to start it. That is then watched, or was running already, or asks to be killed.
    */
  lemma StartAdds(l: Overseer.Limits, s: State, u: Uuid, cfg: Overseer.Config, outcome: Outcome)
    requires s.server == Idle && u !in s.chans && u !in s.table.instances
    requires Overseer.RoomAvailable(l, s.table, cfg).None?
    ensures var g := |s.goroutines|;
            var t := Served(l, s, RecvStart(u, cfg), g, outcome);
            && Serves(t, u, g) && t.chans == s.chans[u := g] &&
              t.table == Overseer.Next(l, s.table, Overseer.Add(u, cfg))
            && OthersKept(s, t, g) && |t.goroutines| == g + 1
            && t.goroutines[g].monitored == (outcome == Started) && t.goroutines[g].shuttingDown == (outcome == Failed)
            && !t.goroutines[g].disowned && t.kills == (if outcome == Failed then s.kills + multiset{g} else s.kills)
  {
    var g := |s.goroutines|;
    var a := Next(l, s, RecvStart(u, cfg));
    assert a.server == Sending(u, g, Start) &&
        a.goroutines == s.goroutines + [Goroutine(u, Ready, false, false, false)];
    OtherCarried(l, a, u, g, Start);
    GoroutineHandles(l, Carried(l, a), g, outcome);
  }

  /**
    A start of an instance that is there goes to its goroutine. If that watches a VM nothing
    changes, whatever a start would lead to; otherwise it starts one.
    */
  lemma StartAgain(l: Overseer.Limits, s: State, u: Uuid, g: nat, cfg: Overseer.Config, outcome: Outcome)
    requires Serves(s, u, g) && (s.goroutines[g].monitored || outcome == Started)
    ensures Served(l, s, RecvStart(u, cfg), g, outcome) ==
            s.(goroutines := s.goroutines[g := s.goroutines[g].(monitored := true)])
  {
    var a := Next(l, s, RecvStart(u, cfg));
    assert a == s.(server := Sending(u, g, Start));
    OtherCarried(l, a, u, g, Start);
    var b := Carried(l, a);
    GoroutineHandles(l, b, g, outcome);
    var t := Next(l, b, Handle(g, outcome));
    assert t.goroutines == s.goroutines[g := s.goroutines[g].(monitored := true)];
  }

  /** An attach goes to the instance's goroutine and leaves everything as it was. */
  lemma AttachKeeps(l: Overseer.Limits, s: State, u: Uuid, g: nat, outcome: Outcome)
    requires Serves(s, u, g)
    ensures Carried(l, Next(l, s, RecvAttach(u))).goroutines[g].phase == Busy(Attach)
    ensures Served(l, s, RecvAttach(u), g, outcome) == s
  {
    var a := Next(l, s, RecvAttach(u));
    assert a == s.(server := Sending(u, g, Attach));
    OtherCarried(l, a, u, g, Attach);
    var b := Carried(l, a);
    GoroutineHandles(l, b, g, outcome);
    assert Next(l, b, Handle(g, outcome)).goroutines == s.goroutines;
  }

  /** Commands for an instance that is not there change nothing. */
  lemma UnknownIgnored(l: Overseer.Limits, s: State, u: Uuid)
    requires s.server == Idle && u !in s.chans
    ensures Next(l, s, RecvDelete(u)) == s && Next(l, s, RecvAttach(u)) == s
  {
  }

  lemma AddRemove(l: Overseer.Limits, t: Overseer.Table, u: Uuid, cfg: Overseer.Config)
    requires u !in t.instances && Overseer.RoomAvailable(l, t, cfg).None?
    ensures var back := Overseer.Removed(Overseer.Next(l, t, Overseer.Add(u, cfg)), u);
            back.instances == t.instances && (back == t <==> Overseer.NonNegative(t.total))
  {
    var added := Overseer.Next(l, t, Overseer.Add(u, cfg));
    assert added.instances - {u} == t.instances;
    assert Overseer.Minus(added.total, cfg) == t.total;
  }

  /** A delete undoes a start: the table is what it was, if and only if no total was negative. */
  lemma DeleteUndoesStart(l: Overseer.Limits, s: State, u: Uuid, cfg: Overseer.Config)
    requires s.server == Idle && u !in s.chans && u !in s.table.instances
    requires Overseer.RoomAvailable(l, s.table, cfg).None?
    ensures var g := |s.goroutines|;
            var a := Served(l, s, RecvStart(u, cfg), g, Started);
            var t := Served(l, a, RecvDelete(u), g, Started);
            && t.server == Idle && t.chans == s.chans && t.table.instances == s.table.instances
            && (t.table == s.table <==> Overseer.NonNegative(s.table.total))
            && t.kills == s.kills && PhaseIs(t, g, Exited)
  {
    var g := |s.goroutines|;
    StartAdds(l, s, u, cfg, Started);
    var a := Served(l, s, RecvStart(u, cfg), g, Started);
    DeleteRemoves(l, a, u, g, Started);
    AddRemove(l, s.table, u, cfg);
    assert s.chans[u := g] - {u} == s.chans;
  }

  /** A request to be killed that reaches its asker: the entry goes, and the goroutine with it. */
  lemma KillRemoves(l: Overseer.Limits, s: State, u: Uuid, g: nat, outcome: Outcome)
    requires Serves(s, u, g) && g in s.kills
    ensures var t := Served(l, s, RecvKill(g), g, outcome);
            && t.server == Idle && t.table == Overseer.Removed(s.table, u) && t.chans == s.chans - {u}
            && t.kills == s.kills - multiset{g} && OthersKept(s, t, g) && PhaseIs(t, g, Exited)
  {
    var a := Next(l, s, RecvKill(g));
    assert a == s.(server := Sending(u, g, Delete(true)), kills := s.kills - multiset{g});
    DeleteCarried(l, a, u, g, true);
    GoroutineHandles(l, Carried(l, a), g, outcome);
  }

  /** An instance that loses its VM asks to be killed, refuses other deletes meanwhile, and is removed. */
  lemma LostIsRemoved(l: Overseer.Limits, s: State, u: Uuid, g: nat, outcome: Outcome)
    requires Serves(s, u, g) && s.goroutines[g].monitored
    ensures var lost := Next(l, s, LoseVM(g));
            && Serves(lost, u, g) && g in lost.kills && lost.goroutines[g].shuttingDown && !lost.goroutines[g].monitored
            && var t := Served(l, lost, RecvKill(g), g, outcome);
               && t.server == Idle && t.table == Overseer.Removed(s.table, u) && t.chans == s.chans - {u}
               && t.kills == s.kills && PhaseIs(t, g, Exited)
  {
    var lost := Next(l, s, LoseVM(g));
    assert lost.kills == s.kills + multiset{g};
    KillRemoves(l, lost, u, g, outcome);
    assert lost.kills - multiset{g} == s.kills;
  }

  /** Only a goroutine in its loop that watches a VM can lose it. */
  lemma LossNeedsVM(l: Overseer.Limits, s: State, g: nat)
    requires g < |s.goroutines| && !(s.goroutines[g].phase == Ready && s.goroutines[g].monitored)
    ensures Next(l, s, LoseVM(g)) == s
  {
  }

  /** All goroutines of startup are still to be told to watch their instances, each of a directory that loads. */
  lemma {:induction false} BootTellsAll(dirs: Log<Overseer.Found>, g: nat)
    ensures Boot(dirs).server.Reconnecting? && (g in Boot(dirs).server.todo <==> g < |Boot(dirs).goroutines|)
    ensures g < |Boot(dirs).goroutines| ==>
            Boot(dirs).goroutines[g].phase == Ready && !Boot(dirs).goroutines[g].monitored
  {
    if dirs.Then? {
      BootTellsAll(dirs.before, g);
    }
  }

  /** What the instances and the statistics report reaches the table, whatever the server loop is doing. */
  lemma ReportsArrive(l: Overseer.Limits, s: State, m: Overseer.Message)
    requires m.StateChange? || m.StatsUpdate? || m.Refresh?
    ensures Next(l, s, Report(m)) == s.(table := Overseer.Next(l, s.table, m))
  {
  }

  /** At startup every goroutine is told to watch its instance, and then does. */
  lemma ReconnectWatches(l: Overseer.Limits, s: State, g: nat, outcome: Outcome)
    requires s.server.Reconnecting? && g in s.server.todo && IsReady(s, g)
    ensures var t := Next(l, Next(l, s, Reconnect(g)), Handle(g, outcome));
            && t.server == Reconnecting(s.server.todo - {g}) && OthersKept(s, t, g) && t.table == s.table
            && t.goroutines[g] == s.goroutines[g].(monitored := true)
  {
    var a := Next(l, s, Reconnect(g));
    assert a == s.(server := Reconnecting(s.server.todo - {g}), goroutines := Taking(s, g, Monitor));
    GoroutineHandles(l, a, g, outcome);
  }

  /** An evacuation puts the node in maintenance; a restore takes it out again. */
  lemma RestoreEndsMaintenance(l: Overseer.Limits, s: State)
    requires s.server == Idle
    ensures Next(l, s, RecvEvacuate).table.maintenance && Next(l, s, RecvEvacuate).server.Evacuating?
    ensures Next(l, s, RecvRestore) == s.(table := Overseer.Next(l, s.table, Overseer.Restore))
  {
  }

  /** A goroutine leaves on its own only when the launcher stops, and then it can. */
  lemma ExitsWhenStopped(l: Overseer.Limits, s: State, g: nat)
    requires g < |s.goroutines|
    ensures s.server == Idle ==> Next(l, s, Stop).server == Quit
    ensures s.server == Quit ==> Next(l, s, ExitOnDone(g)).goroutines[g].phase == Exited
    ensures s.server != Quit ==> Next(l, s, ExitOnDone(g)) == s
  {
  }
}
