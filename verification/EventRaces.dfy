/**
  When the last event a controller gets about a node is the right one however the scan and
  the notifiers are scheduled: exactly when nobody who still has something to say is wrong.
  */
module EventRaces {
  import opened Basics
  import opened Notifications
  import opened LastEvents

  /** The state after some more steps. */
  ghost function From(s: State, h: Log<Step>): State {
    match h
    case Empty => s
    case Then(before, step) => Next(From(s, before), step)
  }

  /** No client comes or goes: only the scan and the notifiers go on. */
  predicate AllInternal(h: Log<Step>) {
    match h
    case Empty => true
    case Then(before, step) => AllInternal(before) && Internal(step)
  }

  predicate Quiet(s: State) {
    s.notifiers == map[] && s.scan.None?
  }

  ghost predicate SomeoneWillSay(s: State, c: Uuid, k: Key) {
    exists id :: id in s.notifiers && WillSay(s.notifiers[id], c, k)
  }

  /** The controller has heard right, or the scan is about to tell it of a node that is there. */
  predicate Informed(s: State, c: Uuid, k: Key)
    requires c in s.controllers
  {
    (k in s.nodes && WillScan(s.scan, c, k)) || Right(s, c, k)
  }

  /** Everybody who still has something to say to `c` about `k` says right (or wrong, if not `b`). */
  ghost predicate OneVoice(s: State, c: Uuid, k: Key, b: bool) {
    forall id :: id in s.notifiers && WillSay(s.notifiers[id], c, k) ==>
      ((s.notifiers[id].connected <==> k in s.nodes) <==> b)
  }

  /** Whatever the schedule, the last event will be right (or wrong, if not `b`). */
  ghost predicate Fated(s: State, c: Uuid, k: Key, b: bool)
    requires c in s.controllers
  {
    OneVoice(s, c, k, b) && (!SomeoneWillSay(s, c, k) ==> (Informed(s, c, k) <==> b))
  }

  /** The condition: all who have yet to speak are right, or nobody has and the controller is informed. */
  ghost predicate Agreed(s: State, c: Uuid, k: Key)
    requires c in s.controllers
  {
    && (forall id :: id in s.notifiers && WillSay(s.notifiers[id], c, k) ==>
          (s.notifiers[id].connected <==> k in s.nodes))
    && (!SomeoneWillSay(s, c, k) ==> Informed(s, c, k))
  }

  ghost predicate Ok(s: State, c: Uuid) {
    Inv(s) && OwnNumbers(s) && c in s.controllers
  }

  function Append(a: Log<Step>, b: Log<Step>): Log<Step> {
    match b
    case Empty => a
    case Then(before, step) => Then(Append(a, before), step)
  }

  lemma {:induction false} FromAppend(s: State, a: Log<Step>, b: Log<Step>)
    ensures From(s, Append(a, b)) == From(From(s, a), b)
    ensures AllInternal(a) && AllInternal(b) ==> AllInternal(Append(a, b))
  {
    if b.Then? {
      FromAppend(s, a, b.before);
    }
  }

  // ---- Every step keeps the outcome ----

  lemma InternalKeeps(s: State, step: Step, c: Uuid)
    requires Ok(s, c) && Internal(step)
    ensures Ok(Next(s, step), c) && Next(s, step).controllers == s.controllers && Next(s, step).nodes == s.nodes
  {
    InvNext(s, step);
  }

  /** What each notifier has to say to `c` about `k` is the same in both states. */
  ghost predicate SameVoices(s: State, t: State, c: Uuid, k: Key) {
    && (forall id :: id in s.notifiers && WillSay(s.notifiers[id], c, k) ==>
          id in t.notifiers && WillSay(t.notifiers[id], c, k))
    && (forall id :: id in t.notifiers && WillSay(t.notifiers[id], c, k) ==>
          id in s.notifiers && WillSay(s.notifiers[id], c, k) && t.notifiers[id].connected == s.notifiers[id].connected)
  }

  lemma FatedSame(s: State, t: State, c: Uuid, k: Key, b: bool)
    requires c in s.controllers && c in t.controllers && Fated(s, c, k, b)
    requires SameVoices(s, t, c, k) && t.nodes == s.nodes
    requires Informed(t, c, k) <==> Informed(s, c, k)
    ensures Fated(t, c, k, b)
  {
    if SomeoneWillSay(s, c, k) {
      var id :| id in s.notifiers && WillSay(s.notifiers[id], c, k);
      assert id in t.notifiers && WillSay(t.notifiers[id], c, k);
    }
  }

  lemma FatedWork(s: State, step: Step, c: Uuid, k: Key, b: bool)
    requires Ok(s, c) && Fated(s, c, k, b) && (step.LockControllers? || step.FinishNotifier?)
    ensures Fated(Next(s, step), c, k, b)
  {
    FatedSame(s, Next(s, step), c, k, b);
  }

  /** The scan tells its controller of nodes that are there, and of all of them. */
  lemma ScanInforms(s: State, step: Step, c: Uuid, k: Key)
    requires Ok(s, c) && (step.LockTable? || step.SendDirected? || step.FinishScan?)
    ensures Next(s, step).controllers == s.controllers && Next(s, step).nodes == s.nodes
    ensures Informed(Next(s, step), c, k) <==> Informed(s, c, k)
  {
    assert k in s.nodes ==> k.uuid in OfKind(s, k.kind);
    if s.scan.Some? {
      OtherConnectionIf(s, c, s.scan.value.controller);
    }
  }

  lemma FatedScan(s: State, step: Step, c: Uuid, k: Key, b: bool)
    requires Ok(s, c) && Fated(s, c, k, b) && (step.LockTable? || step.SendDirected? || step.FinishScan?)
    ensures c in Next(s, step).controllers && Fated(Next(s, step), c, k, b)
  {
    ScanInforms(s, step, c, k);
    assert Next(s, step).notifiers == s.notifiers;
    FatedSame(s, Next(s, step), c, k, b);
  }

  /** A notifier that speaks to `c` about `k` has the last word so far. */
  lemma FatedSpeak(s: State, id: nat, c: Uuid, k: Key, b: bool)
    requires Ok(s, c) && Fated(s, c, k, b) && id in s.notifiers && s.notifiers[id].node == k
    requires s.notifiers[id].todo.Some? && c in s.notifiers[id].todo.value
    ensures c in Next(s, SendEvent(id, c)).controllers && Fated(Next(s, SendEvent(id, c)), c, k, b)
  {
    var t := Next(s, SendEvent(id, c));
    assert WillSay(s.notifiers[id], c, k) && s.scan.None?;
    assert Right(t, c, k) <==> b;
    forall j | j in t.notifiers && WillSay(t.notifiers[j], c, k)
      ensures (t.notifiers[j].connected <==> k in t.nodes) <==> b
    {
      assert WillSay(s.notifiers[j], c, k);
    }
  }

  lemma FatedSend(s: State, id: nat, u: Uuid, c: Uuid, k: Key, b: bool)
    requires Ok(s, c) && Fated(s, c, k, b)
    ensures c in Next(s, SendEvent(id, u)).controllers && Fated(Next(s, SendEvent(id, u)), c, k, b)
  {
    var t := Next(s, SendEvent(id, u));
    if t != s {
      if u == c && s.notifiers[id].node == k {
        FatedSpeak(s, id, c, k, b);
      } else {
        OtherConnectionIf(s, c, u);
        FatedSame(s, t, c, k, b);
      }
    }
  }

  lemma FatedNext(s: State, step: Step, c: Uuid, k: Key, b: bool)
    requires Ok(s, c) && Fated(s, c, k, b) && Internal(step)
    ensures Ok(Next(s, step), c) && Fated(Next(s, step), c, k, b)
  {
    InternalKeeps(s, step, c);
    match step {
      case SendEvent(id, u) => FatedSend(s, id, u, c, k, b);
      case LockControllers(_) => FatedWork(s, step, c, k, b);
      case FinishNotifier(_) => FatedWork(s, step, c, k, b);
      case _ => FatedScan(s, step, c, k, b);
    }
  }

  lemma {:induction false} FatedFrom(s: State, h: Log<Step>, c: Uuid, k: Key, b: bool)
    requires Ok(s, c) && Fated(s, c, k, b) && AllInternal(h)
    ensures Ok(From(s, h), c) && Fated(From(s, h), c, k, b)
  {
    if h.Then? {
      FatedFrom(s, h.before, c, k, b);
      FatedNext(From(s, h.before), h.last, c, k, b);
    }
  }

  /** Once nothing is pending, the outcome is there. */
  lemma FatedQuiet(s: State, h: Log<Step>, c: Uuid, k: Key, b: bool)
    requires Ok(s, c) && Fated(s, c, k, b) && AllInternal(h) && Quiet(From(s, h))
    ensures c in From(s, h).controllers && (Right(From(s, h), c, k) <==> b)
  {
    FatedFrom(s, h, c, k, b);
  }

  // ---- Going on until nothing is pending ----

  /** `t` is `s` with the notifiers of `keep` as they were and no other, and with no scan. */
  ghost predicate Drained(s: State, t: State, c: Uuid, keep: set<nat>) {
    && Ok(t, c) && t.controllers == s.controllers && t.nodes == s.nodes && t.scan.None?
    && (forall id :: id in t.notifiers <==> id in s.notifiers && id in keep)
    && (forall id :: id in t.notifiers ==> t.notifiers[id] == s.notifiers[id])
  }

  /** How far a scan has to go. */
  function Stage(scan: Option<Scan>): nat {
    match scan
    case None => 0
    case Some(Unlocked(_)) => 3
    case Some(Scanning(_, kind, _)) => if kind == Compute then 2 else 1
  }

  function LeftToSend(scan: Option<Scan>): set<Uuid> {
    match scan
    case Some(Scanning(_, _, left)) => left
    case _ => {}
  }

  /** The next step of a scan. */
  ghost function ScanStep(s: State): (step: Step)
    ensures Internal(step)
  {
    if LeftToSend(s.scan) != {} then (var u :| u in LeftToSend(s.scan); SendDirected(u))
    else if Stage(s.scan) == 1 then FinishScan
    else LockTable
  }

  lemma ScanGoesOn(s: State)
    requires s.scan.Some?
    ensures var t := Next(s, ScanStep(s));
            && t.notifiers == s.notifiers && Stage(t.scan) <= Stage(s.scan)
            && (Stage(t.scan) < Stage(s.scan) || LeftToSend(t.scan) < LeftToSend(s.scan))
  {
  }

  lemma {:induction false} EndScan(s: State, h: Log<Step>, c: Uuid) returns (after: Log<Step>)
    requires AllInternal(h) && Ok(From(s, h), c)
    ensures AllInternal(after) && Ok(From(s, after), c) && From(s, after).scan.None?
    ensures From(s, after).notifiers == From(s, h).notifiers && From(s, after).nodes == From(s, h).nodes
    ensures From(s, after).controllers == From(s, h).controllers
    decreases Stage(From(s, h).scan), LeftToSend(From(s, h).scan)
  {
    var now := From(s, h);
    if now.scan.None? {
      after := h;
    } else {
      ScanGoesOn(now);
      InternalKeeps(now, ScanStep(now), c);
      after := EndScan(s, Then(h, ScanStep(now)), c);
    }
  }

  /** A notifier that holds the lock says all it has to say, and finishes. */
  lemma {:induction false} Finish(s: State, h: Log<Step>, id: nat, c: Uuid) returns (after: Log<Step>)
    requires AllInternal(h) && Ok(From(s, h), c) && id in From(s, h).notifiers && From(s, h).notifiers[id].todo.Some?
    ensures AllInternal(after) && Ok(From(s, after), c) && From(s, after).scan == From(s, h).scan
    ensures From(s, after).notifiers == From(s, h).notifiers - {id} && From(s, after).nodes == From(s, h).nodes
    ensures From(s, after).controllers == From(s, h).controllers
    decreases From(s, h).notifiers[id].todo.value
  {
    var now := From(s, h);
    var todo := now.notifiers[id].todo.value;
    if todo == {} {
      after := Then(h, FinishNotifier(id));
      InternalKeeps(now, FinishNotifier(id), c);
    } else {
      var u :| u in todo;
      InternalKeeps(now, SendEvent(id, u), c);
      var more := Then(h, SendEvent(id, u));
      assert From(s, more).notifiers == now.notifiers[id := now.notifiers[id].(todo := Some(todo - {u}))];
      after := Finish(s, more, id, c);
      assert From(s, more).notifiers - {id} == now.notifiers - {id};
    }
  }

  lemma FinishOne(s: State, h: Log<Step>, id: nat, c: Uuid) returns (after: Log<Step>)
    requires AllInternal(h) && Ok(From(s, h), c) && id in From(s, h).notifiers && From(s, h).scan.None?
    ensures AllInternal(after) && Ok(From(s, after), c) && From(s, after).scan.None?
    ensures From(s, after).notifiers == From(s, h).notifiers - {id} && From(s, after).nodes == From(s, h).nodes
    ensures From(s, after).controllers == From(s, h).controllers
  {
    var now := From(s, h);
    if now.notifiers[id].todo.Some? {
      after := Finish(s, h, id, c);
    } else {
      InternalKeeps(now, LockControllers(id), c);
      var more := Then(h, LockControllers(id));
      assert From(s, more).notifiers - {id} == now.notifiers - {id};
      after := Finish(s, more, id, c);
    }
  }

  lemma {:induction false} FinishAll(s: State, h: Log<Step>, c: Uuid, keep: set<nat>) returns (after: Log<Step>)
    requires AllInternal(h) && Ok(From(s, h), c) && From(s, h).scan.None?
    ensures AllInternal(after) && Drained(From(s, h), From(s, after), c, keep)
    decreases From(s, h).notifiers.Keys
  {
    var now := From(s, h);
    if id :| id in now.notifiers && id !in keep {
      var more := FinishOne(s, h, id, c);
      assert From(s, more).notifiers.Keys < now.notifiers.Keys;
      after := FinishAll(s, more, c, keep);
    } else {
      after := h;
    }
  }

  /** From any state, the scan and all notifiers but those of `keep` can go through first. */
  lemma Drain(s: State, h: Log<Step>, c: Uuid, keep: set<nat>) returns (after: Log<Step>)
    requires AllInternal(h) && Ok(From(s, h), c)
    ensures AllInternal(after) && Drained(From(s, h), From(s, after), c, keep)
  {
    var more := EndScan(s, h, c);
    after := FinishAll(s, more, c, keep);
  }

  // ---- The exact condition ----

  /** If somebody who has yet to speak is wrong, let the others go first: the last word is wrong. */
  lemma WrongLast(s: State, c: Uuid, k: Key, id: nat) returns (h: Log<Step>)
    requires Ok(s, c) && id in s.notifiers && WillSay(s.notifiers[id], c, k)
    requires s.notifiers[id].connected <==> k !in s.nodes
    ensures AllInternal(h) && Quiet(From(s, h)) && c in From(s, h).controllers && !Right(From(s, h), c, k)
  {
    var first := Drain(s, Empty, c, {id});
    var t := From(s, first);
    assert id in t.notifiers && t.notifiers[id] == s.notifiers[id];
    assert Fated(t, c, k, false);
    var rest := Drain(t, Empty, c, {});
    assert From(t, rest).notifiers == map[];
    FatedQuiet(t, rest, c, k, false);
    h := Append(first, rest);
    FromAppend(s, first, rest);
  }

  /** If nobody has anything to say and the controller is not informed, nothing will change that. */
  lemma NeverInformed(s: State, c: Uuid, k: Key) returns (h: Log<Step>)
    requires Ok(s, c) && !SomeoneWillSay(s, c, k) && !Informed(s, c, k)
    ensures AllInternal(h) && Quiet(From(s, h)) && c in From(s, h).controllers && !Right(From(s, h), c, k)
  {
    h := Drain(s, Empty, c, {});
    assert From(s, h).notifiers == map[];
    FatedQuiet(s, h, c, k, false);
  }

  ghost predicate EndsRight(s: State, h: Log<Step>, c: Uuid, k: Key) {
    c in From(s, h).controllers && Right(From(s, h), c, k)
  }

  /**
    In any state of the protocol: however the scan and the notifiers go on, the last event is
    right once nothing is pending, if and only if all agree now.
    */
  lemma AgreedIff(s: State, c: Uuid, k: Key)
    requires Ok(s, c)
    ensures (forall h | AllInternal(h) && Quiet(From(s, h)) :: EndsRight(s, h, c, k)) <==> Agreed(s, c, k)
  {
    if Agreed(s, c, k) {
      assert Fated(s, c, k, true);
      forall h | AllInternal(h) && Quiet(From(s, h)) ensures EndsRight(s, h, c, k) {
        FatedQuiet(s, h, c, k, true);
      }
    } else {
      var h;
      if id :| id in s.notifiers && WillSay(s.notifiers[id], c, k) && (s.notifiers[id].connected <==> k !in s.nodes) {
        h := WrongLast(s, c, k, id);
      } else {
        h := NeverInformed(s, c, k);
      }
      assert !EndsRight(s, h, c, k);
    }
  }

  lemma {:induction false} RunOwnNumbers(h: Log<Step>)
    ensures OwnNumbers(Run(h))
  {
    if h.Then? {
      RunOwnNumbers(h.before);
      RunNumbered(h.before);
      TurnNumbers(Run(h.before), h.last);
    }
  }

  lemma {:induction false} RunFrom(g: Log<Step>, h: Log<Step>)
    ensures From(Run(g), h) == Run(Append(g, h))
  {
    if h.Then? {
      RunFrom(g, h.before);
    }
  }

  /** A run that goes on from `g` by internal steps and comes to rest leaves `c` with the right last event about `k`. */
  ghost predicate RestsRight(g: Log<Step>, h: Log<Step>, c: Uuid, k: Key) {
    var s := Run(Append(g, h));
    AllInternal(h) && Quiet(s) ==> c in s.controllers && Right(s, c, k)
  }

  /** The same for every run: whatever has happened so far, the condition can be read off the state. */
  lemma LastEventIsRightIff(g: Log<Step>, c: Uuid, k: Key)
    requires c in Run(g).controllers
    ensures (forall h :: RestsRight(g, h, c, k)) <==> Agreed(Run(g), c, k)
  {
    var s := Run(g);
    RunInv(g);
    RunOwnNumbers(g);
    AgreedIff(s, c, k);
    forall h ensures RestsRight(g, h, c, k) <==> (AllInternal(h) && Quiet(From(s, h)) ==> EndsRight(s, h, c, k)) {
      RunFrom(g, h);
    }
  }
}
