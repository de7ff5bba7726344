/**
  The pool of console ports: taking a port, putting it back, and the retry loop that
  launches a VM with one.
  */
module PortPool {

  const PORT_START := 5900
  const PORT_MAX := 6900
  const VC_TRIES := 10

  predicate InPool(p: int) {
    PORT_START <= p < PORT_MAX
  }

  /** How one attempt to launch qemu ends; `InUse` is an error that blames the console port. */
  datatype Launch = Launched | InUse | Broken

  /** The first attempt that does not blame the port, or `|results|`. */
  function Decided(results: seq<Launch>): (k: nat)
    ensures k <= |results| && (k < |results| ==> results[k] != InUse)
    ensures forall j :: 0 <= j < k ==> results[j] == InUse
  {
    if results == [] || results[0] != InUse then 0 else 1 + Decided(results[1..])
  }

  /** `was` is divided into what is still free, what is abandoned, and the port held, if any. */
  ghost predicate Divided(was: set<int>, free: set<int>, abandoned: set<int>, held: set<int>) {
    && (forall p :: p in was <==> p in free || p in abandoned || p in held)
    && (forall p :: p in free ==> p !in abandoned && p !in held)
    && (forall p :: p in abandoned ==> p !in held)
  }

  /** `n` of the ports of `was` have been tried in vain. */
  ghost predicate Tried(was: set<int>, free: set<int>, tried: set<int>, n: nat) {
    Divided(was, free, tried, {}) && |tried| == n && |free| + n == |was|
  }

  /** A port taken from the free ones is held, and then either put back or abandoned. */
  lemma Taken(was: set<int>, free: set<int>, tried: set<int>, n: nat, port: int)
    requires Tried(was, free, tried, n) && port in free
    ensures Divided(was, free - {port}, tried, {port})
    ensures Tried(was, free - {port}, tried + {port}, n + 1)
    ensures free - {port} + {port} == free
  {
    TakenCounts(free, tried, port);
  }

  lemma TakenCounts(free: set<int>, tried: set<int>, port: int)
    requires port in free && port !in tried
    ensures |free - {port}| == |free| - 1 && |tried + {port}| == |tried| + 1
  {
  }

  /** The last port abandoned is the one the VM is recorded with. */
  lemma Reclaimed(was: set<int>, free: set<int>, abandoned: set<int>, port: int)
    requires Divided(was, free, abandoned, {}) && port in abandoned
    ensures Divided(was, free, abandoned - {port}, {port}) && |abandoned - {port}| == |abandoned| - 1
  {
  }

  /** The first key a range over the map meets. */
  method AnyOf(keys: set<int>) returns (key: int)
    requires keys != {}
    ensures key in keys
  {
    assert (forall k :: k !in keys) ==> keys == {};
    key :| key in keys;
  }

  class PortGrabber {
    var free: set<int>

    ghost predicate Valid()
      reads this
    {
      forall p :: p in free ==> InPool(p)
    }

    constructor ()
      ensures Valid() && forall p :: p in free <==> 5900 <= p <= 6899
    {
      free := {};
      new;
      for i := PORT_START to PORT_MAX
        invariant forall p :: p in free <==> InPool(p) && p < i
      {
        free := free + {i};
      }
    }

    /** Any free port, or 0 if there is none. */
    method GrabPort() returns (port: int)
      requires Valid()
      modifies this
      ensures Valid()
      ensures if old(free) == {} then port == 0 && free == {} else port in old(free) && free == old(free) - {port}
    {
      port := 0;
      if free != {} {
        port := AnyOf(free);
      }
      if port != 0 {
        free := free - {port};
      }
    }

    method ReleasePort(port: int)
      requires Valid()
      modifies this
      ensures Valid()
      ensures free == if InPool(port) then old(free) + {port} else old(free)
    {
      if port < PORT_START || port >= PORT_MAX {
        return;
      }
      free := free + {port};
    }

    /**
      The retry loop. `results` are the outcomes of the attempts; `outcome` is the one that
      ended the loop, or `InUse` if every port tried was in use. Those ports are `tried`: they
      are not put back.
      */
    method TryPorts(results: seq<Launch>) returns (port: int, outcome: Launch, ghost tried: set<int>)
      requires Valid() && |results| == VC_TRIES
      modifies this
      ensures Valid() && Divided(old(free), free, tried, if outcome == Launched then {port} else {})
      ensures var k, n := Decided(results), |old(free)|;
              if k < VC_TRIES && k < n then outcome == results[k] && port != 0 && |tried| == k
              else
                && outcome == InUse
                && (if n < VC_TRIES then port == 0 && |tried| == n else port in tried && |tried| == VC_TRIES)
    {
      var tries := 0;
      port := 0;
      tried := {};
      while tries < VC_TRIES
        invariant 0 <= tries <= VC_TRIES && Valid()
        invariant Tried(old(free), free, tried, tries) && tries <= Decided(results)
        invariant tries > 0 ==> port in tried
      {
        ghost var before := free;
        port := GrabPort();
        if port == 0 {
          return port, InUse, tried;
        }
        Taken(old(free), before, tried, tries, port);
        if results[tries] == Launched {
          return port, Launched, tried;
        }
        if results[tries] == Broken {
          ReleasePort(port);
          return port, Broken, tried;
        }
        tried := tried + {port};
        tries := tries + 1;
      }
      return port, InUse, tried;
    }

    /**
      A launch with a console, and the fallback without one, which ends as `fallback` says. The
      ports tried in vain are `abandoned`, except the last one when the fallback succeeds:
      the VM is recorded with it.
      */
    method LaunchWithConsole(results: seq<Launch>, fallback: bool)
        returns (port: int, ok: bool, ghost abandoned: set<int>)
      requires Valid() && |results| == VC_TRIES
      modifies this
      ensures Valid() && Divided(old(free), free, abandoned, if ok && port != 0 then {port} else {})
      ensures abandoned == {} <==> results[0] != InUse || old(free) == {}
      // decided by the first attempt that does not blame the port, if there are ports to get that far
      ensures var k, n := Decided(results), |old(free)|;
              if k < VC_TRIES && k < n then
                ok == (results[k] == Launched) && port != 0 && |abandoned| == k
              else
                && ok == fallback && (port == 0 <==> n < VC_TRIES)
                && |abandoned| == if port == 0 then n else if ok then VC_TRIES - 1 else VC_TRIES
    {
      var outcome;
      assert old(free) == {} <==> |old(free)| == 0;
      assert results[0] != InUse <==> Decided(results) == 0;
      port, outcome, abandoned := TryPorts(results);
      assert abandoned == {} <==> |abandoned| == 0;
      if outcome != InUse {
        return port, outcome == Launched, abandoned;
      }
      // no port left, or every try found its port in use
      ok := fallback;
      if ok && port != 0 {
        Reclaimed(old(free), free, abandoned, port);
        abandoned := abandoned - {port};
      }
    }
  }
}
