/**
  Controller succession in the scheduler: a map from uuid to controller state and a
  list with the master in front.
  */
module Controllers {
  import opened Basics
  import opened Slices

  datatype Status = Master | Backup

  /** One connect or disconnect notification for a controller. */
  datatype Change = Join(uuid: Uuid) | Leave(uuid: Uuid)

  // The connected uuids in list order, as a function of the notifications so far.

  function After(order: seq<Uuid>, c: Change): seq<Uuid> {
    match c
    case Join(u) => if u in order then order else order + [u]
    case Leave(u) => Without(order, u)
  }

  function Order(h: Log<Change>): seq<Uuid> {
    match h
    case Empty => []
    case Then(before, c) => After(Order(before), c)
  }

  /** When the connection of `u` that is now up was made, or -1 if none is up. */
  function Since(h: Log<Change>, u: Uuid): (t: int)
    ensures -1 <= t < Length(h)
  {
    match h
    case Empty => -1
    case Then(before, Join(v)) => if v == u && Since(before, u) == -1 then Length(before) else Since(before, u)
    case Then(before, Leave(v)) => if v == u then -1 else Since(before, u)
  }

  ghost predicate Ascending(since: Uuid -> int, order: seq<Uuid>) {
    forall i, j :: 0 <= i < j < |order| ==> since(order[i]) < since(order[j])
  }

  ghost predicate InOrder(since: Uuid -> int, order: seq<Uuid>) {
    (forall u :: u in order <==> since(u) >= 0) && Ascending(since, order)
  }

  /** The map and the list hold the same controllers and the first one alone is master. */
  ghost predicate Ranked(m: map<Uuid, Status>, list: seq<Uuid>) {
    && Distinct(list)
    && (forall u :: u in m <==> u in list)
    && (forall i :: 0 <= i < |list| ==> m[list[i]] == if i == 0 then Master else Backup)
  }

  /** Position of the first controller in the list that is not master. */
  function FirstBackup(m: map<Uuid, Status>, list: seq<Uuid>): (f: nat)
    requires forall u :: u in list ==> u in m
    ensures f <= |list|
  {
    if list == [] || m[list[0]] == Backup then 0 else 1 + FirstBackup(m, list[1..])
  }

  /** A departing backup leaves the ranks intact; a departing master leaves only backups. */
  lemma Departure(m: map<Uuid, Status>, list: seq<Uuid>, u: Uuid)
    requires Ranked(m, list) && u in m
    ensures m[u] == Backup ==> Ranked(m - {u}, Without(list, u))
    ensures m[u] == Master ==>
              var rest := Without(list, u);
              && (forall v :: v in rest ==> v in m - {u})
              && (rest == [] ==> m - {u} == map[])
              && (rest != [] ==>
                    && FirstBackup(m - {u}, rest) == 0
                    && [rest[0]] + rest[..0] + rest[1..] == rest
                    && Ranked((m - {u})[rest[0] := Master], rest))
  {
    var k := WithoutOnce(list, u);
  }

  /**
    The map from uuid to controller state and the list of the same controllers. The
    state objects are shared by the two, so the list names them by uuid.
    */
  class Succession {
    var controllerMap: map<Uuid, Status>
    var controllerList: seq<Uuid>

    ghost predicate Valid()
      reads this
    {
      Ranked(controllerMap, controllerList)
    }

    constructor ()
      ensures Valid() && controllerList == []
    {
      controllerMap := map[];
      controllerList := [];
    }

    method Connect(uuid: Uuid)
      requires Valid()
      modifies this
      ensures Valid()
      ensures controllerList == After(old(controllerList), Join(uuid))
    {
      if uuid in controllerMap {
        return;
      }
      if |controllerList| == 0 || controllerMap[controllerList[0]] == Backup {
        controllerMap := controllerMap[uuid := Master];
        controllerList := [uuid] + controllerList;
      } else {
        controllerMap := controllerMap[uuid := Backup];
        controllerList := controllerList + [uuid];
      }
    }

    method Disconnect(uuid: Uuid)
      requires Valid()
      modifies this
      ensures Valid()
      ensures controllerList == After(old(controllerList), Leave(uuid))
    {
      ghost var was := controllerList;
      if uuid !in controllerMap {
        WithoutAbsent(was, uuid);
        return;
      }
      var status := controllerMap[uuid];
      controllerMap := controllerMap - {uuid};
      controllerList := RemoveWhileRanging(controllerList, uuid);
      Departure(old(controllerMap), was, uuid);
      if status == Backup {
        return;
      }
      Promote();
    }

    /** The second half of a disconnect: the first backup becomes master and moves to the front. */
    method Promote()
      requires forall u :: u in controllerList ==> u in controllerMap
      modifies this
      ensures var f := FirstBackup(old(controllerMap), old(controllerList));
              if f == |old(controllerList)| then
                controllerMap == old(controllerMap) && controllerList == old(controllerList)
              else
                && controllerMap == old(controllerMap)[old(controllerList)[f] := Master]
                && controllerList == [old(controllerList)[f]] + old(controllerList)[..f] + old(controllerList)[f + 1..]
    {
      var i := 0;
      while i < |controllerList|
        invariant i <= |controllerList|
        invariant controllerList == old(controllerList) && controllerMap == old(controllerMap)
        invariant FirstBackup(controllerMap, controllerList) == i + FirstBackup(controllerMap, controllerList[i..])
      {
        var c := controllerList[i];
        if controllerMap[c] == Backup {
          controllerMap := controllerMap[c := Master];
          controllerList := [c] + controllerList[..i] + controllerList[i + 1..];
          break;
        }
        assert controllerList[i..][1..] == controllerList[i + 1..];
        i := i + 1;
      }
    }
  }

  /**
    In every run the list holds exactly the controllers whose connection is up, each
    once, and the one that connected earlier comes first.
    */
  lemma {:induction false} ListIsConnectionOrder(h: Log<Change>)
    ensures Distinct(Order(h)) && InOrder(u => Since(h, u), Order(h))
  {
    match h {
      case Empty =>
      case Then(before, Join(u)) =>
        ListIsConnectionOrder(before);
      case Then(before, Leave(u)) =>
        ListIsConnectionOrder(before);
        LeaveKeepsOrder(v => Since(before, v), v => Since(h, v), Order(before), u);
    }
  }

  /** Dropping one element keeps the order of the others. */
  lemma SpliceAscends(since: Uuid -> int, was: seq<Uuid>, k: nat)
    requires Ascending(since, was) && k < |was|
    ensures Ascending(since, was[..k] + was[k + 1..])
  {
    var rest := was[..k] + was[k + 1..];
    forall i, j | 0 <= i < j < |rest| ensures since(rest[i]) < since(rest[j]) {
      var i', j' := if i < k then i else i + 1, if j < k then j else j + 1;
      assert rest[i] == was[i'] && rest[j] == was[j'];
    }
  }

  lemma SameAscends(before: Uuid -> int, after: Uuid -> int, rest: seq<Uuid>)
    requires Ascending(before, rest) && forall v :: v in rest ==> after(v) == before(v)
    ensures Ascending(after, rest)
  {
  }

  lemma LeaveKeepsOrder(before: Uuid -> int, after: Uuid -> int, was: seq<Uuid>, u: Uuid)
    requires Distinct(was) && InOrder(before, was)
    requires forall v :: after(v) == if v == u then -1 else before(v)
    ensures Distinct(Without(was, u)) && InOrder(after, Without(was, u))
  {
    var rest := Without(was, u);
    forall v ensures v in rest <==> v in was && v != u {
      WithoutContains(was, u, v);
    }
    if u in was {
      var k := WithoutOnce(was, u);
      WithoutAt(was, k);
      SpliceAscends(before, was, k);
    } else {
      WithoutAbsent(was, u);
    }
    SameAscends(before, after, rest);
  }

  /**
    Mastership moves only when the master leaves, and then to the controller whose
    connection has been up the longest.
    */
  lemma MastershipMoves(h: Log<Change>, c: Change)
    requires Order(h) != []
    ensures var master, next := Order(h)[0], Order(Then(h, c));
            if c == Leave(master) then
              next == Order(h)[1..] && forall u :: u in next ==> Since(h, next[0]) <= Since(h, u)
            else
              next != [] && next[0] == master
  {
    var was := Order(h);
    ListIsConnectionOrder(h);
    if c.Leave? {
      if c.uuid in was {
        var k := WithoutOnce(was, c.uuid);
      } else {
        WithoutAbsent(was, c.uuid);
      }
    }
  }

  /** A scheduler's controller tables after any run of notifications. */
  method Replay(h: Log<Change>) returns (s: Succession)
    ensures fresh(s) && s.Valid() && s.controllerList == Order(h)
  {
    match h {
      case Empty =>
        s := new Succession();
      case Then(before, c) =>
        s := Replay(before);
        match c {
          case Join(u) => s.Connect(u);
          case Leave(u) => s.Disconnect(u);
        }
    }
  }
}
