/**
  Confirming a tenant: any number of callers, one confirmation in progress per tenant.
  A step is a critical section, the end of the confirmation itself, the closing of a
  channel, or a waiter waking up. A step that is not enabled leaves the state as it is.
  */
module Tenants {
  import opened Basics

  /** What the confirmation itself returns; an error is known by its number. */
  datatype Result = Ok | Err(error: nat)

  /**
    A memo: `err` and `closed` are its fields. `result` is history: what the confirmation
    run under this memo returned. `owner` is the caller that runs it.
    */
  datatype Memo = Memo(tenant: Uuid, owner: nat, closed: bool, err: Option<nat>, result: Option<Result>)

  datatype Caller =
    | Confirming(memo: nat)             // in the confirmation itself
    | Recording(memo: nat)              // it failed; about to take the lock again
    | Closing(memo: nat)                // about to close the channel
    | Waiting(memo: nat)                // on someone else's channel
    | Returned(memo: nat, result: Result)

  datatype State = State(readiness: map<Uuid, nat>, memos: seq<Memo>, callers: seq<Caller>)

  datatype Step =
    | Call(tenant: Uuid)
    | Confirmed(caller: nat, result: Result)
    | Record(caller: nat)
    | Close(caller: nat)
    | Wake(caller: nat)

  function Next(s: State, step: Step): State {
    match step
    case Call(t) =>
      if t in s.readiness then s.(callers := s.callers + [Waiting(s.readiness[t])])
      else
        State(s.readiness[t := |s.memos|], s.memos + [Memo(t, |s.callers|, false, None, None)],
          s.callers + [Confirming(|s.memos|)])
    case _ =>
      if step.caller < |s.callers| && s.callers[step.caller].memo < |s.memos| then Continue(s, step.caller, step) else s
  }

  /** The rest of a call, once it has its memo. */
  function Continue(s: State, c: nat, step: Step): State
    requires c < |s.callers| && s.callers[c].memo < |s.memos|
  {
    var m := s.callers[c].memo;
    var memo := s.memos[m];
    match (s.callers[c], step)
    case (Confirming(_), Confirmed(_, r)) =>
      s.(memos := s.memos[m := memo.(result := Some(r))],
        callers := s.callers[c := if r.Ok? then Closing(m) else Recording(m)])
    case (Recording(_), Record(_)) =>
      // the memo is looked up by tenant again before its error is set
      (match memo.result
       case Some(Err(e)) =>
         if memo.tenant in s.readiness && s.readiness[memo.tenant] < |s.memos| then
           var found := s.readiness[memo.tenant];
           State(s.readiness - {memo.tenant}, s.memos[found := s.memos[found].(err := Some(e))],
             s.callers[c := Closing(m)])
         else s
       case _ => s)
    case (Closing(_), Close(_)) =>
      (match memo.result
       case Some(r) => s.(memos := s.memos[m := memo.(closed := true)], callers := s.callers[c := Returned(m, r)])
       case None => s)
    case (Waiting(_), Wake(_)) =>
      if memo.closed then
        s.(callers := s.callers[c := Returned(m, if memo.err.Some? then Err(memo.err.value) else Ok)])
      else s
    case _ => s
  }

  function Run(h: Log<Step>): State {
    match h
    case Empty => State(map[], [], [])
    case Then(before, step) => Next(Run(before), step)
  }

  // ---- The invariant ----

  /** The memo's owner is where the memo's fields say it is. */
  predicate OwnerAt(memo: Memo, m: nat, c: Caller) {
    if memo.result.None? then c == Confirming(m)
    else if memo.result.value.Err? && memo.err.None? then c == Recording(m)
    else if !memo.closed then c == Closing(m)
    else c == Returned(m, memo.result.value)
  }

  ghost predicate MemoOk(s: State, m: nat)
    requires m < |s.memos|
  {
    var memo := s.memos[m];
    && memo.owner < |s.callers| && OwnerAt(memo, m, s.callers[memo.owner])
    && (memo.closed ==> memo.result.Some?)
    && (memo.err.Some? ==> memo.result == Some(Err(memo.err.value)))
    && (memo.closed && memo.result.value.Err? ==> memo.err.Some?)
    // a memo is in the map until its error is recorded, which for a success is for ever
    && (memo.err.None? <==> memo.tenant in s.readiness && s.readiness[memo.tenant] == m)
  }

  ghost predicate CallerOk(s: State, c: nat)
    requires c < |s.callers|
  {
    var k := s.callers[c];
    && k.memo < |s.memos|
    && (k.Confirming? || k.Recording? || k.Closing? ==> s.memos[k.memo].owner == c)
    && (k.Returned? ==> s.memos[k.memo].closed && s.memos[k.memo].result == Some(k.result))
  }

  ghost predicate Inv(s: State) {
    && (forall t :: t in s.readiness ==> s.readiness[t] < |s.memos| && s.memos[s.readiness[t]].tenant == t)
    && (forall m: nat :: m < |s.memos| ==> MemoOk(s, m))
    && (forall c: nat :: c < |s.callers| ==> CallerOk(s, c))
  }

  lemma CallInv(s: State, t: Uuid)
    requires Inv(s)
    ensures Inv(Next(s, Call(t)))
  {
    var n := Next(s, Call(t));
    forall m: nat | m < |n.memos| ensures MemoOk(n, m) {
      assert m < |s.memos| ==> MemoOk(s, m);
    }
    forall c: nat | c < |n.callers| ensures CallerOk(n, c) {
      assert c < |s.callers| ==> CallerOk(s, c);
    }
  }

  lemma ContinueInv(s: State, c: nat, step: Step)
    requires Inv(s) && c < |s.callers|
    ensures s.callers[c].memo < |s.memos| && Inv(Continue(s, c, step))
  {
    assert CallerOk(s, c);
    assert MemoOk(s, s.callers[c].memo);
    var n := Continue(s, c, step);
    forall m: nat | m < |n.memos| ensures MemoOk(n, m) {
      assert MemoOk(s, m);
    }
    forall i: nat | i < |n.callers| ensures CallerOk(n, i) {
      assert CallerOk(s, i);
    }
  }

  lemma {:induction false} RunInv(h: Log<Step>)
    ensures Inv(Run(h))
  {
    if h.Then? {
      var s := Run(h.before);
      RunInv(h.before);
      if h.last.Call? {
        CallInv(s, h.last.tenant);
      } else if h.last.caller < |s.callers| {
        ContinueInv(s, h.last.caller, h.last);
      }
    }
  }

  // ---- What follows for every run ----

  /** Single flight: at most one confirmation per tenant is in progress. */
  lemma SingleFlight(h: Log<Step>, a: nat, b: nat)
    requires var s := Run(h);
             && a < |s.callers| && s.callers[a].Confirming? && b < |s.callers| && s.callers[b].Confirming?
             && s.callers[a].memo < |s.memos| && s.callers[b].memo < |s.memos|
             && s.memos[s.callers[a].memo].tenant == s.memos[s.callers[b].memo].tenant
    ensures a == b
  {
    var s := Run(h);
    RunInv(h);
    assert CallerOk(s, a) && CallerOk(s, b);
    assert MemoOk(s, s.callers[a].memo) && MemoOk(s, s.callers[b].memo);
  }

  /** Memos are only ever added, one at a time and for a tenant that has none on the map; a memo keeps its tenant. */
  lemma NextKeeps(s: State, step: Step, m: nat)
    requires m < |s.memos|
    ensures var n := Next(s, step);
            && m < |n.memos| && n.memos[m].tenant == s.memos[m].tenant && |n.memos| <= |s.memos| + 1
            && (|n.memos| == |s.memos| + 1 ==>
                  step.Call? && step.tenant !in s.readiness && n.memos[|s.memos|].tenant == step.tenant)
  {
  }

  /** Once a confirmation of a tenant has succeeded, it is never run again for that tenant. */
  lemma {:induction false} SuccessIsFinal(h: Log<Step>, m: nat, m': nat)
    requires m < m' < |Run(h).memos| && Run(h).memos[m].tenant == Run(h).memos[m'].tenant
    ensures Run(h).memos[m].result != Some(Ok)
  {
    var s := Run(h);
    RunInv(h);
    assert MemoOk(s, m) && MemoOk(s, m');
    if s.memos[m].result == Some(Ok) {
      EarlierMemosAreDone(h, m, m');
    }
  }

  /** A second confirmation is only started after the first one has failed and been taken off the map. */
  lemma {:induction false} EarlierMemosAreDone(h: Log<Step>, m: nat, m': nat)
    requires m < m' < |Run(h).memos| && Run(h).memos[m].tenant == Run(h).memos[m'].tenant
    ensures Run(h).memos[m].err.Some?
  {
    if h.Then? {
      var s, n := Run(h.before), Run(h);
      RunInv(h.before);
      RunInv(h);
      if m < |s.memos| {
        NextKeeps(s, h.last, m);
        assert MemoOk(s, m) && MemoOk(n, m) && MemoOk(n, m');
        if m' < |s.memos| {
          NextKeeps(s, h.last, m');
          EarlierMemosAreDone(h.before, m, m');
        }
      } else {
        MemosGrow(s, h.last);
      }
    }
  }

  lemma MemosGrow(s: State, step: Step)
    ensures |Next(s, step).memos| <= |s.memos| + 1
  {
  }

  /**
    A caller returns only after the confirmation it ran or joined has finished and its
    channel is closed, and with that confirmation's result.
    */
  lemma ReturnsTheJoinedResult(h: Log<Step>, c: nat)
    requires c < |Run(h).callers| && Run(h).callers[c].Returned?
    ensures var s := Run(h); var k := s.callers[c];
            k.memo < |s.memos| && s.memos[k.memo].closed && s.memos[k.memo].result == Some(k.result)
  {
    RunInv(h);
    assert CallerOk(Run(h), c);
  }

  /** Recording an error finds the caller's own memo in the map, never another and never none. */
  lemma RecordsItsOwn(h: Log<Step>, c: nat)
    requires c < |Run(h).callers| && Run(h).callers[c].Recording?
    ensures var s := Run(h); var m := s.callers[c].memo;
            m < |s.memos| && s.memos[m].tenant in s.readiness && s.readiness[s.memos[m].tenant] == m
  {
    var s := Run(h);
    RunInv(h);
    assert CallerOk(s, c) && MemoOk(s, s.callers[c].memo);
  }

  /** The step a caller is waiting to take. */
  function Pending(c: nat, k: Caller): Option<Step> {
    match k
    case Confirming(_) => Some(Confirmed(c, Ok))
    case Recording(_) => Some(Record(c))
    case Closing(_) => Some(Close(c))
    case Waiting(_) => Some(Wake(c))
    case Returned(_, _) => None
  }

  /** No caller is stranded: a waiter can wake, or the owner of the memo it waits on can move. */
  lemma NobodyStranded(h: Log<Step>, c: nat)
    requires c < |Run(h).callers| && !Run(h).callers[c].Returned?
    ensures var s := Run(h);
            exists i: nat ::
              i < |s.callers| && s.callers[i].memo == s.callers[c].memo && (i == c || s.callers[c].Waiting?) &&
              Pending(i, s.callers[i]).Some? && Next(s, Pending(i, s.callers[i]).value).callers[i] != s.callers[i]
  {
    var s := Run(h);
    RunInv(h);
    assert CallerOk(s, c);
    var m := s.callers[c].memo;
    assert MemoOk(s, m);
    var i := if s.callers[c].Waiting? && !s.memos[m].closed then s.memos[m].owner else c;
    assert CallerOk(s, i);
    assert Pending(i, s.callers[i]).Some?;
    assert Next(s, Pending(i, s.callers[i]).value).callers[i] != s.callers[i];
  }

  // ---- What the log alone says ----

  function Calls(h: Log<Step>): nat {
    match h
    case Empty => 0
    case Then(before, step) => Calls(before) + if step.Call? then 1 else 0
  }

  /** The tenant that the `c`-th call of a run was for. */
  function TenantOf(h: Log<Step>, c: nat): Uuid
    requires c < Calls(h)
  {
    match h
    case Then(before, Call(t)) => if c == Calls(before) then t else TenantOf(before, c)
    case Then(before, _) => TenantOf(before, c)
  }

  /** How the confirmation that caller `c` ran ended, if it ended: the first such report since its call. */
  function ConfirmationOf(h: Log<Step>, c: nat): Option<Result> {
    match h
    case Empty => None
    case Then(before, Confirmed(i, r)) =>
      if i == c && c < Calls(before) && ConfirmationOf(before, c).None? then Some(r) else ConfirmationOf(before, c)
    case Then(before, _) => ConfirmationOf(before, c)
  }

  lemma {:induction false} CallersAreCalls(h: Log<Step>)
    ensures |Run(h).callers| == Calls(h)
  {
    if h.Then? {
      CallersAreCalls(h.before);
    }
  }

  lemma NextKeepsTenants(s: State, step: Step, c: nat)
    requires Inv(s) && c < |s.callers|
    ensures var n := Next(s, step);
            && c < |n.callers| && s.callers[c].memo < |s.memos| && n.callers[c].memo == s.callers[c].memo < |n.memos|
            && n.memos[n.callers[c].memo].tenant == s.memos[s.callers[c].memo].tenant
  {
    assert CallerOk(s, c);
    NextKeeps(s, step, s.callers[c].memo);
  }

  /** In every run a caller's memo is of the tenant it called for, whether it runs the confirmation or joins it. */
  lemma {:induction false} JoinsItsTenant(h: Log<Step>, c: nat)
    requires c < Calls(h)
    ensures var s := Run(h);
            c < |s.callers| && s.callers[c].memo < |s.memos| && s.memos[s.callers[c].memo].tenant == TenantOf(h, c)
  {
    var s := Run(h.before);
    CallersAreCalls(h.before);
    RunInv(h.before);
    RunInv(h);
    if c < Calls(h.before) {
      JoinsItsTenant(h.before, c);
      NextKeepsTenants(s, h.last, c);
    }
  }

  lemma NextKeepsOwner(s: State, step: Step, m: nat)
    requires m < |s.memos|
    ensures m < |Next(s, step).memos| && Next(s, step).memos[m].owner == s.memos[m].owner
  {
  }

  /** What a memo's confirmation returned is what its owner reported. */
  lemma {:induction false} ResultIsReported(h: Log<Step>, m: nat)
    requires m < |Run(h).memos|
    ensures var o := Run(h).memos[m].owner; o < Calls(h) && Run(h).memos[m].result == ConfirmationOf(h, o)
  {
    if h.Then? {
      var s, n := Run(h.before), Run(h);
      RunInv(h.before);
      RunInv(h);
      CallersAreCalls(h.before);
      CallersAreCalls(h);
      assert MemoOk(n, m);
      if m < |s.memos| {
        ResultIsReported(h.before, m);
        NextKeepsOwner(s, h.last, m);
        ReportStep(h.before, h.last, m);
      } else {
        NoReportYet(h, n.memos[m].owner);
      }
    }
  }

  lemma ReportStep(h: Log<Step>, step: Step, m: nat)
    requires m < |Run(h).memos| && Run(h).memos[m].owner < Calls(h)
    requires Run(h).memos[m].result == ConfirmationOf(h, Run(h).memos[m].owner)
    ensures m < |Next(Run(h), step).memos| &&
              Next(Run(h), step).memos[m].result == ConfirmationOf(Then(h, step), Run(h).memos[m].owner)
  {
    var s, o := Run(h), Run(h).memos[m].owner;
    RunInv(h);
    CallersAreCalls(h);
    assert MemoOk(s, m) && CallerOk(s, o);
    if step.Confirmed? && step.caller < |s.callers| {
      assert CallerOk(s, step.caller);
    }
  }

  lemma {:induction false} NoReportYet(h: Log<Step>, c: nat)
    requires h.Then? && c >= Calls(h.before)
    ensures ConfirmationOf(h, c) == None
  {
    if h.before.Then? {
      NoReportYet(h.before, c);
    }
  }

  /**
    The whole promise, in terms of the log: a caller returns a result only if a caller for the
    same tenant reported it from a confirmation it ran.
    */
  lemma ReturnsItsTenantsResult(h: Log<Step>, c: nat)
    requires c < Calls(h) && c < |Run(h).callers| && Run(h).callers[c].Returned?
    ensures exists o :: 0 <= o < Calls(h) && TenantOf(h, o) == TenantOf(h, c) &&
              ConfirmationOf(h, o) == Some(Run(h).callers[c].result)
  {
    var s := Run(h);
    var m := s.callers[c].memo;
    RunInv(h);
    CallersAreCalls(h);
    JoinsItsTenant(h, c);
    ReturnsTheJoinedResult(h, c);
    ResultIsReported(h, m);
    OwnerJoined(h, m);
    var o := s.memos[m].owner;
    JoinsItsTenant(h, o);
    assert 0 <= o < Calls(h) && TenantOf(h, o) == TenantOf(h, c);
  }

  lemma OwnerJoined(h: Log<Step>, m: nat)
    requires m < |Run(h).memos|
    ensures var s := Run(h); s.memos[m].owner < |s.callers| && s.callers[s.memos[m].owner].memo == m
  {
    RunInv(h);
    assert MemoOk(Run(h), m);
  }
}
