/**
  Console ports over whole runs: any number of VMs launching at once, trying again with
  another port while the port is the trouble, falling back to no console, and being lost.
  */
module Ports {
  import opened Basics
  import opened PortPool

  /** What a VM is doing with the pool. */
  datatype VM =
    | Recorded(vcPort: int)             // not being launched, running or not; `vcPort` is on record, or 0
    | Trying(port: int, tries: nat)     // a port in hand, an attempt under way
    | Between(tries: nat)               // the last port was in use; about to take another
    | FallingBack(port: int)            // launching without a console; the last port tried, or 0

  /** `abandoned` is history: ports no VM has any more and nobody put back. */
  datatype State = State(free: set<int>, vms: map<Uuid, VM>, abandoned: set<int>)

  datatype Step =
    | Grab(vm: Uuid, port: int)
    | Attempt(vm: Uuid, result: Launch)
    | Fallback(vm: Uuid, ok: bool)
    | Lose(vm: Uuid)

  function Of(s: State, u: Uuid): VM {
    if u in s.vms then s.vms[u] else Recorded(0)
  }

  /** The port a VM has in hand or in its record. */
  function PortOf(v: VM): int {
    match v
    case Recorded(p) => p
    case Trying(p, _) => p
    case Between(_) => 0
    case FallingBack(p) => p
  }

  function Put(s: State, u: Uuid, v: VM): State {
    s.(vms := s.vms[u := v])
  }

  /** A grab as the pool allows it: a free port, or none because there is none. */
  predicate Grabs(s: State, port: int) {
    if port == 0 then s.free == {} else port in s.free
  }

  function Released(s: State, port: int): State {
    if InPool(port) then s.(free := s.free + {port}) else s
  }

  /** A VM is only launched when it is not running, and then its record has no port. */
  predicate MayGrab(v: VM) {
    v == Recorded(0) || v.Between?
  }

  function Next(s: State, step: Step): State {
    match step
    case Grab(u, port) =>
      var v := Of(s, u);
      if !Grabs(s, port) || !MayGrab(v) then s
      else if port == 0 then Put(s, u, FallingBack(0))
      else Put(s, u, Trying(port, if v.Between? then v.tries else 0)).(free := s.free - {port})
    case Attempt(u, result) =>
      (match Of(s, u)
       case Trying(port, tries) =>
         (match result
          case Launched => Put(s, u, Recorded(port))
          case Broken => Released(Put(s, u, Recorded(0)), port)
          case InUse =>
            if tries + 1 == VC_TRIES then Put(s, u, FallingBack(port))
            else Put(s, u, Between(tries + 1)).(abandoned := s.abandoned + {port}))
       case _ => s)
    case Fallback(u, ok) =>
      (match Of(s, u)
       case FallingBack(port) =>
         if ok then Put(s, u, Recorded(port))
         else if port == 0 then Put(s, u, Recorded(0))
         else Put(s, u, Recorded(0)).(abandoned := s.abandoned + {port})
       case _ => s)
    case Lose(u) =>
      (match Of(s, u)
       case Recorded(port) => Released(Put(s, u, Recorded(0)), port)
       case _ => s)
  }

  /** The state after a run from a full pool. */
  function Run(pool: set<int>, h: Log<Step>): State {
    match h
    case Empty => State(pool, map[], {})
    case Then(before, step) => Next(Run(pool, before), step)
  }

  // ---- Conservation ----

  function Holders(s: State, p: int): set<Uuid> {
    set u | u in s.vms && PortOf(s.vms[u]) == p
  }

  /** Port `p` is in exactly one place: free, abandoned, or held by one VM. */
  ghost predicate InOnePlace(s: State, p: int) {
    || (p in s.free && p !in s.abandoned && Holders(s, p) == {})
    || (p !in s.free && p in s.abandoned && Holders(s, p) == {})
    || (p !in s.free && p !in s.abandoned && exists u :: Holders(s, p) == {u})
  }

  /** What a VM has is a port of the pool, or none. */
  predicate Sound(v: VM) {
    InPool(PortOf(v)) || (PortOf(v) == 0 && !v.Trying?)
  }

  ghost predicate Conserved(s: State) {
    && (forall p :: p in s.free ==> InPool(p))
    && (forall p :: p in s.abandoned ==> InPool(p))
    && (forall u :: u in s.vms ==> Sound(s.vms[u]))
    && (forall p :: InPool(p) ==> InOnePlace(s, p))
  }

  lemma HoldersPut(s: State, u: Uuid, v: VM, p: int)
    ensures Holders(Put(s, u, v), p) == if PortOf(v) == p then Holders(s, p) + {u} else Holders(s, p) - {u}
  {
  }

  /** The VM's port stays what it was. */
  lemma KeepPlace(s: State, u: Uuid, v: VM, p: int)
    requires InPool(p) && InOnePlace(s, p) && PortOf(v) == PortOf(Of(s, u))
    ensures InOnePlace(Put(s, u, v), p)
  {
    HoldersPut(s, u, v, p);
    assert Holders(Put(s, u, v), p) == Holders(s, p);
  }

  /** It takes a free port. */
  lemma TakePlace(s: State, u: Uuid, v: VM, p: int)
    requires InPool(p) && InOnePlace(s, p) && PortOf(Of(s, u)) == 0 && PortOf(v) in s.free
    ensures InOnePlace(Put(s, u, v).(free := s.free - {PortOf(v)}), p)
  {
    var n := Put(s, u, v).(free := s.free - {PortOf(v)});
    HoldersPut(s, u, v, p);
    assert Holders(n, p) == Holders(Put(s, u, v), p);
    if p == PortOf(v) {
      assert Holders(n, p) == {u};
    } else {
      assert Holders(n, p) == Holders(s, p);
    }
  }

  /** It gives its port up, to the free ones or to the abandoned ones. */
  lemma GiveUpPlace(s: State, n: State, u: Uuid, v: VM, p: int)
    requires InPool(p) && InOnePlace(s, p) && PortOf(v) == 0 && n.vms == s.vms[u := v] && u in s.vms
    requires var q := PortOf(s.vms[u]);
             || (n.free == s.free + {q} && n.abandoned == s.abandoned)
             || (n.free == s.free && n.abandoned == s.abandoned + {q})
    ensures InOnePlace(n, p)
  {
    HoldersPut(s, u, v, p);
    assert Holders(n, p) == Holders(Put(s, u, v), p);
    if p == PortOf(s.vms[u]) {
      assert u in Holders(s, p);
      assert Holders(n, p) == {};
    } else {
      assert Holders(n, p) == Holders(s, p);
    }
  }

  /** Every step keeps a VM's port, takes it one, or makes it give its port up. */
  lemma NextMoves(s: State, step: Step)
    requires Sound(Of(s, step.vm)) && Next(s, step) != s
    requires step.Grab? && step.port in s.free ==> InPool(step.port)
    ensures var n, u := Next(s, step), step.vm;
            && u in n.vms && Sound(n.vms[u])
            && var v, p := n.vms[u], PortOf(Of(s, u));
               if PortOf(v) == p then n == Put(s, u, v)
               else if p == 0 then PortOf(v) in s.free && n == Put(s, u, v).(free := s.free - {PortOf(v)})
               else
                 && PortOf(v) == 0 && n == Put(s, u, v).(free := n.free, abandoned := n.abandoned)
                 && (|| (n.free == s.free + {p} && n.abandoned == s.abandoned)
                     || (n.free == s.free && n.abandoned == s.abandoned + {p}))
  {
  }

  lemma NextConserved(s: State, step: Step)
    requires Conserved(s)
    ensures Conserved(Next(s, step))
  {
    var n, u := Next(s, step), step.vm;
    if n != s {
      assert Sound(Of(s, u));
      NextMoves(s, step);
      forall p | InPool(p) ensures InOnePlace(n, p) {
        assert InOnePlace(s, p);
        if PortOf(n.vms[u]) == PortOf(Of(s, u)) {
          KeepPlace(s, u, n.vms[u], p);
        } else if PortOf(Of(s, u)) == 0 {
          TakePlace(s, u, n.vms[u], p);
        } else {
          GiveUpPlace(s, n, u, n.vms[u], p);
        }
      }
    }
  }

  lemma FullPool(pool: set<int>)
    requires forall p :: p in pool <==> InPool(p)
    ensures Conserved(State(pool, map[], {}))
  {
    var s := State(pool, map[], {});
    forall p | InPool(p) ensures InOnePlace(s, p) {
      assert Holders(s, p) == {};
    }
  }

  /**
    Over any run of launches, retries, fallbacks and losses, free, held and abandoned ports
    divide the pool, and no two VMs hold one port.
    */
  lemma {:induction false} PortsConserved(pool: set<int>, h: Log<Step>)
    requires forall p :: p in pool <==> InPool(p)
    ensures Conserved(Run(pool, h))
  {
    if h.Then? {
      PortsConserved(pool, h.before);
      NextConserved(Run(pool, h.before), h.last);
    } else {
      FullPool(pool);
    }
  }

  /** A port comes free only when the one VM that has it gives it up. */
  lemma {:induction false} OnlyHolderReleases(pool: set<int>, h: Log<Step>, step: Step, p: int)
    requires forall q :: q in pool <==> InPool(q)
    requires var s := Run(pool, h); p in Next(s, step).free && p !in s.free
    ensures var s := Run(pool, h);
            && Holders(s, p) == {step.vm} && p !in s.abandoned
            && PortOf(Next(s, step).vms[step.vm]) == 0
  {
    var s := Run(pool, h);
    PortsConserved(pool, h);
    assert InPool(p) && InOnePlace(s, p);
    assert step.vm in Holders(s, p);
  }

  /** Where an attempt leaves the port: with the VM, free again, or abandoned while the VM goes on. */
  lemma AttemptLeaves(s: State, u: Uuid, result: Launch)
    requires Conserved(s) && Of(s, u).Trying?
    ensures var p, n := Of(s, u).port, Next(s, Attempt(u, result));
            && (result == Launched ==> Of(n, u) == Recorded(p) && n.free == s.free && Holders(n, p) == {u})
            && (result == Broken ==> Of(n, u) == Recorded(0) && n.free == s.free + {p} && p !in s.free)
            && (result == InUse ==>
                  n.free == s.free && !Of(n, u).Recorded? && (p in n.abandoned || PortOf(Of(n, u)) == p))
  {
    var p, n := Of(s, u).port, Next(s, Attempt(u, result));
    assert Sound(s.vms[u]) && InOnePlace(s, p);
    assert u in Holders(s, p);
    if result == Launched {
      HoldersPut(s, u, Recorded(p), p);
      assert Holders(n, p) == Holders(s, p);
    }
  }

  /** A VM that is lost gives its port back. */
  lemma LossFrees(s: State, u: Uuid)
    requires Conserved(s) && Of(s, u).Recorded?
    ensures var p, n := Of(s, u).vcPort, Next(s, Lose(u));
            Of(n, u) == Recorded(0) && n.free == (if p == 0 then s.free else s.free + {p}) && n.abandoned == s.abandoned
  {
  }

  /** A launch without a console that succeeds is recorded with the last port tried; one that fails has none. */
  lemma FallbackRecords(s: State, u: Uuid, ok: bool)
    requires Of(s, u).FallingBack?
    ensures var n := Next(s, Fallback(u, ok)); n.free == s.free && Of(n, u) == Recorded(if ok then Of(s, u).port else 0)
  {
  }

  /** A VM without a port, or one whose last port was in use, gets the port it grabs and goes on counting. */
  lemma GrabTakes(s: State, u: Uuid, p: int)
    requires p in s.free && p != 0 && MayGrab(Of(s, u))
    ensures var n := Next(s, Grab(u, p));
            && Of(n, u) == Trying(p, if Of(s, u).Between? then Of(s, u).tries else 0)
            && n.free == s.free - {p} && n.abandoned == s.abandoned
  {
  }

  /** With no port left, it is launched without a console. */
  lemma GrabFails(s: State, u: Uuid)
    requires s.free == {} && MayGrab(Of(s, u))
    ensures Of(Next(s, Grab(u, 0)), u) == FallingBack(0) && Next(s, Grab(u, 0)).free == {}
  {
  }

  /** A step that leaves a port to nobody: the port is in use, and the VM goes on to another or gives up. */
  predicate Abandons(s: State, step: Step) {
    match step
    case Attempt(u, result) => result == InUse && Of(s, u).Trying? && Of(s, u).tries + 1 != VC_TRIES
    case Fallback(u, ok) => !ok && Of(s, u).FallingBack? && Of(s, u).port != 0
    case _ => false
  }

  lemma AbandonsIff(s: State, step: Step)
    requires Conserved(s)
    ensures s.abandoned <= Next(s, step).abandoned
    ensures Next(s, step).abandoned == s.abandoned <==> !Abandons(s, step)
  {
    if Abandons(s, step) {
      var u := step.vm;
      var p := PortOf(Of(s, u));
      assert u in s.vms && Sound(s.vms[u]) && InPool(p);
      assert u in Holders(s, p);
      assert InOnePlace(s, p);
      assert p in Next(s, step).abandoned;
    }
  }

  /** No step of a run abandons a port. */
  ghost predicate Spares(pool: set<int>, h: Log<Step>) {
    match h
    case Empty => true
    case Then(before, step) => Spares(pool, before) && !Abandons(Run(pool, before), step)
  }

  /** The pool is whole, free or held, if and only if no attempt found its port in use and went on without it. */
  lemma {:induction false} NoneAbandonedIff(pool: set<int>, h: Log<Step>)
    requires forall p :: p in pool <==> InPool(p)
    ensures Run(pool, h).abandoned == {} <==> Spares(pool, h)
  {
    if h.Then? {
      NoneAbandonedIff(pool, h.before);
      PortsConserved(pool, h.before);
      AbandonsIff(Run(pool, h.before), h.last);
    }
  }

  /** One port in use is enough, and it stays abandoned whatever happens next. */
  lemma AbandonedForGood(pool: set<int>, u: Uuid, p: int, step: Step)
    requires (forall q :: q in pool <==> InPool(q)) && InPool(p)
    ensures var h := Then(Then(Empty, Grab(u, p)), Attempt(u, InUse));
            Run(pool, h).abandoned == {p} && p in Run(pool, Then(h, step)).abandoned
  {
    var h := Then(Then(Empty, Grab(u, p)), Attempt(u, InUse));
    assert Run(pool, Then(Empty, Grab(u, p))) == State(pool - {p}, map[u := Trying(p, 0)], {});
    assert Run(pool, h).abandoned == {p};
    PortsConserved(pool, h);
    AbandonsIff(Run(pool, h), step);
  }

  /** A launch gives up after ten ports: an attempt under way is never past the tenth. */
  ghost predicate Bounded(v: VM) {
    match v
    case Trying(_, tries) => tries < 10
    case Between(tries) => tries < 10
    case _ => true
  }

  lemma {:induction false} TriesBounded(pool: set<int>, h: Log<Step>, u: Uuid)
    requires u in Run(pool, h).vms
    ensures Bounded(Run(pool, h).vms[u])
  {
    if h.Then? {
      var s := Run(pool, h.before);
      if u in s.vms {
        TriesBounded(pool, h.before, u);
      }
    }
  }
}
