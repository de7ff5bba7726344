/**
  A node table of the scheduler (there is one for compute nodes and one for network
  nodes): connection, status reports, and first-fit placement of START commands with
  a most-recently-used (MRU) cursor.
  */
module Placement {
  import opened Basics
  import opened Slices
  import C = Controllers

  datatype NodeStatus = CONNECTED | READY | FULL | OFFLINE | MAINTENANCE

  /** What placement reads of a parsed READY payload. */
  datatype Ready = Ready(memAvailMB: int, diskAvailMB: int, hostname: Option<Uuid>)

  datatype NodeStat = NodeStat(isNetNode: bool, status: NodeStatus, memAvailMB: int, diskAvailMB: int,
      hostname: Option<Uuid>)

  /** The resources and constraints of a START; no host name and no node id mean "any". */
  datatype Workload = Workload(memMB: int, diskMB: int, networkNode: bool, hostname: Option<Uuid>, nodeID: Option<Uuid>)

  datatype Failure = NoComputeNodes | FullCloud | NoNetworkNodes

  /**
    The map from uuid to node state, the list of the same nodes, and the cursor. The
    state objects are shared by map, list and cursor, so the last two name them by uuid.
    */
  datatype Table = Table(isNet: bool, stat: map<Uuid, NodeStat>, list: seq<Uuid>, mru: Option<Uuid>, mruIndex: int)

  datatype Event =
    | Connect(uuid: Uuid)
    | Disconnect(uuid: Uuid)
    | Report(uuid: Uuid, status: NodeStatus, parsed: Option<Ready>)
    | Start(w: Workload)

  predicate Fits(uuid: Uuid, n: NodeStat, w: Workload) {
    if && n.memAvailMB >= w.memMB
       && n.diskAvailMB >= w.diskMB
       && n.status == READY
       && n.isNetNode == w.networkNode then
      if w.hostname.Some? && w.hostname != n.hostname then false
      else if w.nodeID.Some? && w.nodeID.value != uuid then false
      else true
    else
      false
  }

  // ---- Table invariants ----

  /** The map and the list hold the same nodes; the cursor is a position or -1. */
  ghost predicate Listed(t: Table) {
    && Distinct(t.list)
    && (forall u :: u in t.stat <==> u in t.list)
    && t.mruIndex >= -1
  }

  /** The MRU node and its index are unset together, and the index is never behind the node. */
  ghost predicate Coherent(t: Table) {
    && Listed(t)
    && (t.mru.None? <==> t.mruIndex == -1)
    && (t.mru.Some? ==> exists p :: 0 <= p < |t.list| && p <= t.mruIndex && t.list[p] == t.mru.value)
  }

  // ---- What each notification does to a table ----

  function Updated(n: NodeStat, status: NodeStatus, parsed: Option<Ready>): NodeStat {
    if status == READY && parsed.Some? then
      var r := parsed.value;
      n.(status := status, memAvailMB := r.memAvailMB, diskAvailMB := r.diskAvailMB, hostname := r.hostname)
    else
      n.(status := status)
  }

  function Joined(t: Table, u: Uuid): Table {
    if u in t.stat then t
    else t.(stat := t.stat[u := NodeStat(t.isNet, CONNECTED, 0, 0, None)], list := t.list + [u])
  }

  function Departed(t: Table, u: Uuid): Table {
    if u !in t.stat then t
    else if t.mru == Some(u) then
      t.(stat := t.stat - {u}, list := Without(t.list, u), mru := None, mruIndex := -1)
    else
      t.(stat := t.stat - {u}, list := Without(t.list, u))
  }

  function Reported(t: Table, u: Uuid, status: NodeStatus, parsed: Option<Ready>): Table {
    if u in t.stat then t.(stat := t.stat[u := Updated(t.stat[u], status, parsed)]) else t
  }

  // ---- Picking a node: the reference ----

  predicate FitsAt(t: Table, w: Workload, i: nat) {
    i < |t.list| && t.list[i] in t.stat && Fits(t.list[i], t.stat[t.list[i]], w)
  }

  /** Where the rotated list starts: just after the cursor, or at the front if that is past the end. */
  function RotationStart(t: Table): nat {
    if 0 <= t.mruIndex < |t.list| - 1 then t.mruIndex + 1 else 0
  }

  /** How far position `i` is from the start of the rotated list. */
  function Rank(t: Table, i: nat): int {
    if i >= RotationStart(t) then i - RotationStart(t) else |t.list| - RotationStart(t) + i
  }

  ghost predicate FirstInRotation(t: Table, w: Workload, k: nat) {
    FitsAt(t, w, k) && forall j: nat :: FitsAt(t, w, j) ==> Rank(t, k) <= Rank(t, j)
  }

  // ---- Picking a node: what the code computes ----

  /** First position in `lo..hi` that fits and is not `skip`, or `hi`. */
  function Scan(t: Table, w: Workload, skip: Option<Uuid>, lo: nat, hi: nat): (i: nat)
    requires lo <= hi <= |t.list|
    ensures lo <= i <= hi
    ensures i < hi ==> FitsAt(t, w, i)
    ensures forall j :: lo <= j < i && Some(t.list[j]) != skip ==> !FitsAt(t, w, j)
    decreases hi - lo
  {
    if lo == hi then hi
    else if FitsAt(t, w, lo) && Some(t.list[lo]) != skip then lo
    else Scan(t, w, skip, lo + 1, hi)
  }

  /** The loops of a pick: after the cursor without the MRU node, then from the front with it. */
  function Choice(t: Table, w: Workload): (k: Option<nat>)
    ensures k.Some? ==> FitsAt(t, w, k.value)
  {
    var n := |t.list|;
    var first := if t.mruIndex != -1 && -1 <= t.mruIndex < n - 1 then Scan(t, w, t.mru, t.mruIndex + 1, n) else n;
    if first < n then Some(first)
    else
      var second := Scan(t, w, None, 0, n);
      if second < n then Some(second) else None
  }

  /** The node a START goes to. */
  function Target(t: Table, w: Workload): Option<Uuid> {
    var k := Choice(t, w);
    if k.Some? then Some(t.list[k.value]) else None
  }

  function Claimed(n: NodeStat, w: Workload): NodeStat {
    n.(memAvailMB := n.memAvailMB - w.memMB)
  }

  /** Cursor moved to the node picked, and its memory claimed. */
  function Placed(t: Table, w: Workload): Table {
    var k := Choice(t, w);
    if k.None? then t
    else
      var u := t.list[k.value];
      t.(mru := Some(u), mruIndex := k.value, stat := t.stat[u := Claimed(t.stat[u], w)])
  }

  function Next(t: Table, e: Event): Table {
    match e
    case Connect(u) => Joined(t, u)
    case Disconnect(u) => Departed(t, u)
    case Report(u, status, parsed) => Reported(t, u, status, parsed)
    case Start(w) => Placed(t, w)
  }

  function Run(isNet: bool, h: Log<Event>): Table {
    match h
    case Empty => Table(isNet, map[], [], None, -1)
    case Then(before, e) => Next(Run(isNet, before), e)
  }

  lemma JoinedCoherent(t: Table, u: Uuid)
    requires Coherent(t)
    ensures Coherent(Joined(t, u))
  {
    if t.mru.Some? {
      var p :| 0 <= p < |t.list| && p <= t.mruIndex && t.list[p] == t.mru.value;
      assert Joined(t, u).list[p] == t.mru.value;
    }
  }

  /** A node ahead of the MRU node moves it one to the left and leaves the index behind, stale. */
  lemma DepartedCoherent(t: Table, u: Uuid)
    requires Coherent(t)
    ensures Coherent(Departed(t, u))
  {
    if u in t.stat {
      var k := WithoutOnce(t.list, u);
      assert Listed(Departed(t, u));
      if t.mru.Some? && t.mru.value != u {
        var p :| 0 <= p < |t.list| && p <= t.mruIndex && t.list[p] == t.mru.value;
        assert Departed(t, u).list[if p < k then p else p - 1] == t.mru.value;
      }
    }
  }

  lemma NextCoherent(t: Table, e: Event)
    requires Coherent(t)
    ensures Coherent(Next(t, e))
  {
    match e {
      case Connect(u) => JoinedCoherent(t, u);
      case Disconnect(u) => DepartedCoherent(t, u);
      case Report(u, _, _) =>
      case Start(w) =>
    }
  }

  lemma {:induction false} RunCoherent(isNet: bool, h: Log<Event>)
    ensures Coherent(Run(isNet, h))
  {
    if h.Then? {
      RunCoherent(isNet, h.before);
      NextCoherent(Run(isNet, h.before), h.last);
    }
  }

  /** The first loop of a pick never meets the MRU node, so skipping it there changes nothing. */
  lemma SkipNeverFires(t: Table, j: nat)
    requires Coherent(t) && t.mru.Some? && t.mruIndex < j < |t.list|
    ensures t.list[j] != t.mru.value
  {
  }

  lemma ChosenComesFirst(t: Table, w: Workload)
    requires Coherent(t)
    ensures Choice(t, w).Some? ==> FirstInRotation(t, w, Choice(t, w).value)
    ensures Choice(t, w).None? ==> forall i: nat :: !FitsAt(t, w, i)
  {
    var s, n := RotationStart(t), |t.list|;
    if s > 0 {
      forall j | s <= j < n ensures Some(t.list[j]) != t.mru {
        SkipNeverFires(t, j);
      }
      assert Scan(t, w, t.mru, s, n) == n ==> forall j :: s <= j < n ==> !FitsAt(t, w, j);
    }
  }

  /**
    In every coherent table, stale cursor or not, the two loops of a pick find exactly
    what one first-fit scan of the rotated list finds, and they find nothing only if no
    node fits.
    */
  lemma ChoiceIsFirstFit(t: Table, w: Workload)
    requires Coherent(t)
    ensures forall k: nat :: Choice(t, w) == Some(k) <==> FirstInRotation(t, w, k)
    ensures Choice(t, w).None? <==> forall i: nat :: !FitsAt(t, w, i)
  {
    ChosenComesFirst(t, w);
    forall j: nat | FirstInRotation(t, w, j) ensures Choice(t, w) == Some(j) {
      var k := Choice(t, w).value;
      assert Rank(t, j) == Rank(t, k);
    }
  }

  // ---- Fairness ----

  /** The cursor is unset, or its index is the position of its node. */
  ghost predicate ExactCursor(t: Table) {
    t.mru.None? || (0 <= t.mruIndex < |t.list| && t.list[t.mruIndex] == t.mru.value)
  }

  /** An exact cursor stays exact, whatever happens, unless a node ahead of it leaves; then it is stale. */
  lemma CursorStaysExactIff(t: Table, e: Event)
    requires Coherent(t) && ExactCursor(t)
    ensures ExactCursor(Next(t, e)) <==>
            !(t.mru.Some? && e.Disconnect? && exists k :: 0 <= k < t.mruIndex && t.list[k] == e.uuid)
  {
    match e {
      case Disconnect(u) =>
        if t.mru.Some? && u in t.stat {
          var k := WithoutOnce(t.list, u);
          var d := Departed(t, u);
          if k < t.mruIndex {
            assert t.mruIndex < |d.list| ==> d.list[t.mruIndex] == t.list[t.mruIndex + 1];
          }
        }
      case _ =>
    }
  }

  /** Position `p` is picked, out of the fitting positions `f`, although another one fits. */
  ghost predicate PickedAgain(t: Table, f: set<nat>, p: nat) {
    && p in f && (exists q :: q in f && q < |t.list| && q != p)
    && forall q :: q in f && q < |t.list| ==> Rank(t, p) <= Rank(t, q)
  }

  /**
    The MRU node, at position `p`, is never picked again while another node fits,
    whichever nodes fit, if and only if the cursor is exact or the node is last.
    */
  lemma MruRestsIff(t: Table, p: nat)
    requires Coherent(t) && p < |t.list| && t.mru == Some(t.list[p])
    ensures (forall f: set<nat> :: !PickedAgain(t, f, p)) <==> (t.mruIndex == p || p == |t.list| - 1)
  {
    assert p <= t.mruIndex;
    if t.mruIndex == p || p == |t.list| - 1 {
      assert forall q: nat :: q < |t.list| && q != p ==> Rank(t, q) < Rank(t, p);
    } else {
      assert p + 1 in {p, p + 1} && Rank(t, p) < Rank(t, p + 1);
      assert PickedAgain(t, {p, p + 1}, p);
    }
  }

  /** `PickedAgain` is what happens when exactly the positions in `f` fit. */
  lemma PickedAgainIsAPick(t: Table, w: Workload, f: set<nat>, p: nat)
    requires Coherent(t) && p < |t.list|
    requires forall i: nat :: FitsAt(t, w, i) <==> i in f && i < |t.list|
    ensures PickedAgain(t, f, p) <==> Choice(t, w) == Some(p) && exists q: nat :: q != p && FitsAt(t, w, q)
  {
    ChoiceIsFirstFit(t, w);
    if PickedAgain(t, f, p) {
      assert FirstInRotation(t, w, p);
    }
    if Choice(t, w) == Some(p) && exists q: nat :: q != p && FitsAt(t, w, q) {
      assert FirstInRotation(t, w, p);
    }
  }

  /** The same, said of picks: an exact cursor repeats the MRU node only as a last resort. */
  lemma MruIsLastResort(t: Table, w: Workload, p: nat, q: nat)
    requires Coherent(t) && p < |t.list| && t.mru == Some(t.list[p])
    requires t.mruIndex == p || p == |t.list| - 1
    requires Choice(t, w) == Some(p) && FitsAt(t, w, q)
    ensures q == p
  {
    ChoiceIsFirstFit(t, w);
    assert FirstInRotation(t, w, p);
  }

  /** Room on the MRU node at `p` and on the next one only. */
  function RoomAtTwo(t: Table, p: nat): map<Uuid, NodeStat>
    requires p + 1 < |t.list|
  {
    map u | u in t.stat :: NodeWith(if u == t.list[p] || u == t.list[p + 1] then 1 else 0)
  }

  lemma RoomAtTwoFits(t: Table, p: nat, w: Workload, i: nat)
    requires Listed(t) && p + 1 < |t.list| && w == Workload(1, 0, false, None, None)
    ensures FitsAt(t.(stat := RoomAtTwo(t, p)), w, i) <==> i == p || i == p + 1
  {
    if i < |t.list| {
      var u := t.list[i];
      assert u == t.list[p] <==> i == p;
      assert u == t.list[p + 1] <==> i == p + 1;
      assert RoomAtTwo(t, p)[u] == NodeWith(if i == p || i == p + 1 then 1 else 0);
    }
  }

  /** A stale cursor does repeat its node, wherever that is but last: given room there and on the next node only. */
  lemma StaleCursorAnywhere(t: Table, p: nat, w: Workload)
    requires Coherent(t) && p + 1 < |t.list| && t.mru == Some(t.list[p]) && t.mruIndex != p
    requires w == Workload(1, 0, false, None, None)
    ensures var n := t.(stat := RoomAtTwo(t, p)); Coherent(n) && Choice(n, w) == Some(p) && FitsAt(n, w, p + 1)
  {
    var n := t.(stat := RoomAtTwo(t, p));
    assert p < t.mruIndex;
    assert n.list[p] == n.mru.value;
    RoomAtTwoFits(t, p, w, p);
    RoomAtTwoFits(t, p, w, p + 1);
    forall j: nat | FitsAt(n, w, j) ensures Rank(n, p) <= Rank(n, j) {
      RoomAtTwoFits(t, p, w, j);
    }
    assert FirstInRotation(n, w, p);
    ChoiceIsFirstFit(n, w);
  }

  function NodeWith(memMB: int): NodeStat {
    NodeStat(false, READY, memMB, 0, None)
  }

  function HasRoom(u: Uuid): Event {
    Report(u, READY, Some(Ready(4, 0, None)))
  }

  /** Three nodes with room and two STARTs: the cursor is on the second. */
  function ThreeNodes(): Table {
    Table(false, map[Uuid(0) := NodeWith(2), Uuid(1) := NodeWith(2), Uuid(2) := NodeWith(4)],
          [Uuid(0), Uuid(1), Uuid(2)], Some(Uuid(1)), 1)
  }

  lemma Connects(t: Table, u: Uuid)
    requires !t.isNet && u !in t.stat
    ensures Next(Next(t, Connect(u)), HasRoom(u)) == t.(stat := t.stat[u := NodeWith(4)], list := t.list + [u])
  {
  }

  lemma ThreeNodesHappen() returns (h: Log<Event>)
    ensures Run(false, h) == ThreeNodes() && Coherent(ThreeNodes())
  {
    var w := Workload(2, 0, false, None, None);
    h := Then(Then(Empty, Connect(Uuid(0))), HasRoom(Uuid(0)));
    Connects(Run(false, Empty), Uuid(0));
    var a := Run(false, h);
    assert a == Table(false, map[Uuid(0) := NodeWith(4)], [Uuid(0)], None, -1);
    h := Then(Then(h, Connect(Uuid(1))), HasRoom(Uuid(1)));
    Connects(a, Uuid(1));
    var b := Run(false, h);
    assert b == Table(false, map[Uuid(0) := NodeWith(4), Uuid(1) := NodeWith(4)], [Uuid(0), Uuid(1)], None, -1);
    h := Then(Then(h, Connect(Uuid(2))), HasRoom(Uuid(2)));
    Connects(b, Uuid(2));
    var c := Run(false, h);
    assert c == Table(false, map[Uuid(0) := NodeWith(4), Uuid(1) := NodeWith(4), Uuid(2) := NodeWith(4)],
        [Uuid(0), Uuid(1), Uuid(2)], None, -1);
    TwoStarts(c, w);
    h := Then(Then(h, Start(w)), Start(w));
    RunCoherent(false, h);
  }

  lemma TwoStarts(t: Table, w: Workload)
    requires w == Workload(2, 0, false, None, None)
    requires t == Table(false, map[Uuid(0) := NodeWith(4), Uuid(1) := NodeWith(4), Uuid(2) := NodeWith(4)],
            [Uuid(0), Uuid(1), Uuid(2)], None, -1)
    ensures Next(Next(t, Start(w)), Start(w)) == ThreeNodes()
  {
    assert FitsAt(t, w, 0);
    assert Choice(t, w) == Some(0);
    var a := Placed(t, w);
    assert a == Table(false, map[Uuid(0) := NodeWith(2), Uuid(1) := NodeWith(4), Uuid(2) := NodeWith(4)],
        [Uuid(0), Uuid(1), Uuid(2)], Some(Uuid(0)), 0);
    assert FitsAt(a, w, 1);
    assert Choice(a, w) == Some(1);
    assert Placed(a, w).stat == ThreeNodes().stat;
  }

  /**
    A stale cursor does repeat it. In a list of three with the cursor on the second, once
    the first node has left, the second is picked again although the third fits.
    */
  lemma StaleCursorRepeats(t: Table, w: Workload, a: Uuid, b: Uuid, c: Uuid)
    requires Listed(t) && t.list == [a, b, c] && t.mru == Some(b) && t.mruIndex == 1
    requires Fits(b, t.stat[b], w) && Fits(c, t.stat[c], w)
    ensures Target(Departed(t, a), w) == Some(b) && FitsAt(Departed(t, a), w, 1) && Departed(t, a).list[1] == c
  {
    assert t.list[0] == a && t.list[1] == b && t.list[2] == c;
    var d := Departed(t, a);
    assert d.list == t.list[1..] by {
      WithoutAt(t.list, 0);
    }
    assert d.stat[b] == t.stat[b] && d.stat[c] == t.stat[c];
    FrontFits(d, w);
  }

  lemma FrontFits(t: Table, w: Workload)
    requires |t.list| == 2 && t.mruIndex == 1 && FitsAt(t, w, 0)
    ensures Choice(t, w) == Some(0)
  {
  }

  lemma StaleCursorHappens() returns (h: Log<Event>)
    ensures var t, w := Run(false, h), Workload(2, 0, false, None, None);
            && Target(t, w) == Some(Uuid(2))
            && t.mru == Some(Uuid(1)) && Target(Departed(t, Uuid(0)), w) == Some(Uuid(1)) &&
              FitsAt(Departed(t, Uuid(0)), w, 1)
  {
    h := ThreeNodesHappen();
    var t, w := ThreeNodes(), Workload(2, 0, false, None, None);
    StaleCursorRepeats(t, w, Uuid(0), Uuid(1), Uuid(2));
    assert FitsAt(t, w, 2);
  }

  /** The list rotated to start after the cursor. */
  function Rotation(t: Table): seq<Uuid> {
    var s := RotationStart(t);
    if s <= |t.list| then t.list[s..] + t.list[..s] else t.list
  }

  /** The table after the first `k` of a run of STARTs. */
  function AfterPicks(t: Table, ws: seq<Workload>, k: nat): Table
    requires k <= |ws|
  {
    if k == 0 then t else Placed(AfterPicks(t, ws, k - 1), ws[k - 1])
  }

  /** The node the `k`-th of them goes to. */
  function TargetAt(t: Table, ws: seq<Workload>, k: nat): Option<Uuid>
    requires k < |ws|
  {
    Target(AfterPicks(t, ws, k), ws[k])
  }

  function Targets(t: Table, ws: seq<Workload>): seq<Option<Uuid>> {
    seq(|ws|, k requires 0 <= k < |ws| => TargetAt(t, ws, k))
  }

  ghost predicate AllFit(t: Table, w: Workload) {
    forall i: nat :: i < |t.list| ==> FitsAt(t, w, i)
  }

  ghost predicate AllFitWhen(t: Table, ws: seq<Workload>, k: nat)
    requires k < |ws|
  {
    AllFit(AfterPicks(t, ws, k), ws[k])
  }

  /** Every node has room for every workload when its turn comes. */
  ghost predicate AllKeepFitting(t: Table, ws: seq<Workload>) {
    forall k :: 0 <= k < |ws| ==> AllFitWhen(t, ws, k)
  }

  lemma RotationVisitsAll(t: Table)
    requires Coherent(t)
    ensures |Rotation(t)| == |t.list| && Distinct(Rotation(t))
    ensures forall k: nat :: k < |t.list| ==> 0 <= Rank(t, k) < |t.list| && Rotation(t)[Rank(t, k)] == t.list[k]
  {
  }

  /** Where the rotation starts when position `s` has just been picked. */
  lemma PlacedAtStart(t: Table, w: Workload)
    requires Coherent(t) && t.list != [] && AllFit(t, w)
    ensures var s, t' := RotationStart(t), Placed(t, w);
            && Target(t, w) == Some(t.list[s]) && t'.list == t.list && Coherent(t')
            && RotationStart(t') == if s + 1 < |t.list| then s + 1 else 0
  {
    var s := RotationStart(t);
    ChoiceIsFirstFit(t, w);
    assert FirstInRotation(t, w, s);
    NextCoherent(t, Start(w));
  }

  /** In `a` the rotation of `t` starts `k` positions further, around the end of the list. */
  ghost predicate MovedOn(t: Table, a: Table, k: nat) {
    Coherent(a) && a.list == t.list && RotationStart(a) == Around(t, k)
  }

  /** Where the `k`-th of the rotation is in the list. */
  function Around(t: Table, k: nat): int {
    var s := RotationStart(t) + k;
    if s < |t.list| then s else s - |t.list|
  }

  lemma RotationAt(t: Table, k: nat)
    requires k < |t.list|
    ensures |Rotation(t)| == |t.list| && 0 <= Around(t, k) < |t.list| && Rotation(t)[k] == t.list[Around(t, k)]
  {
  }

  lemma AroundNext(t: Table, k: nat)
    requires k < |t.list|
    ensures Around(t, k + 1) == if Around(t, k) + 1 < |t.list| then Around(t, k) + 1 else 0
  {
  }

  lemma PickMovesOn(t: Table, a: Table, w: Workload, k: nat)
    requires k < |t.list| && MovedOn(t, a, k) && AllFit(a, w)
    ensures MovedOn(t, Placed(a, w), k + 1)
    ensures |Rotation(t)| == |t.list| && Target(a, w) == Some(Rotation(t)[k])
  {
    RotationAt(t, k);
    AroundNext(t, k);
    PlacedAtStart(a, w);
  }

  lemma {:induction false} PicksMoveOn(t: Table, ws: seq<Workload>, k: nat)
    requires Coherent(t) && k <= |ws| <= |t.list| && AllKeepFitting(t, ws)
    ensures MovedOn(t, AfterPicks(t, ws, k), k)
  {
    if k == 0 {
      assert MovedOn(t, t, 0);
    } else {
      var a := AfterPicks(t, ws, k - 1);
      assert MovedOn(t, a, k - 1) by { PicksMoveOn(t, ws, k - 1); }
      assert AllFit(a, ws[k - 1]) by { assert AllFitWhen(t, ws, k - 1); }
      PickMovesOn(t, a, ws[k - 1], k - 1);
    }
  }

  /** Then a run of picks, no longer than the list, takes the nodes in rotation. */
  lemma PicksRotate(t: Table, ws: seq<Workload>, k: nat)
    requires Coherent(t) && k < |ws| <= |t.list| && AllKeepFitting(t, ws)
    ensures |Rotation(t)| == |t.list| && TargetAt(t, ws, k) == Some(Rotation(t)[k])
  {
    PicksMoveOn(t, ws, k);
    assert AllFitWhen(t, ws, k);
    PickMovesOn(t, AfterPicks(t, ws, k), ws[k], k);
  }

  /** So `n` picks on an unchanged list of `n` nodes choose every node exactly once. */
  lemma RoundRobin(t: Table, ws: seq<Workload>)
    requires Coherent(t) && |ws| == |t.list| && AllKeepFitting(t, ws)
    ensures Distinct(Targets(t, ws))
    ensures forall u :: u in t.list ==> Some(u) in Targets(t, ws)
  {
    RotationVisitsAll(t);
    forall i | 0 <= i < |ws| ensures Targets(t, ws)[i] == Some(Rotation(t)[i]) {
      PicksRotate(t, ws, i);
    }
    forall u | u in t.list ensures Some(u) in Targets(t, ws) {
      var k :| 0 <= k < |t.list| && t.list[k] == u;
      assert Targets(t, ws)[Rank(t, k)] == Some(u);
    }
  }

  // ---- The memory ledger ----

  /** The state of the connection of `u` that is up, read off the run alone. */
  datatype Account = Account(reported: int, dispatched: int, disk: int, latest: NodeStatus, hostname: Option<Uuid>)

  /**
    What `u` last reported since it connected, and the memory of all STARTs sent to it
    since then. A READY whose payload does not parse changes the latest status only.
    */
  function AccountOf(isNet: bool, h: Log<Event>, u: Uuid): Account {
    match h
    case Empty => Account(0, 0, 0, CONNECTED, None)
    case Then(before, e) => NextAccount(Run(isNet, before), AccountOf(isNet, before, u), e, u)
  }

  function NextAccount(t: Table, a: Account, e: Event, u: Uuid): Account {
    match e
    case Connect(v) => a
    case Disconnect(v) => if v == u then Account(0, 0, 0, CONNECTED, None) else a
    case Report(v, status, parsed) =>
      if v != u || u !in t.stat then a
      else if status == READY && parsed.Some? then
        Account(parsed.value.memAvailMB, 0, parsed.value.diskAvailMB, READY, parsed.value.hostname)
      else a.(latest := status)
    case Start(w) =>
      if Target(t, w) == Some(u) then a.(dispatched := a.dispatched + w.memMB) else a
  }

  /** The node table is that ledger: available memory is what was reported less what was dispatched. */
  ghost predicate Balanced(t: Table, u: Uuid, a: Account) {
    if u !in t.stat then a == Account(0, 0, 0, CONNECTED, None)
    else
      && t.stat[u].isNetNode == t.isNet
      && t.stat[u].memAvailMB == a.reported - a.dispatched
      && t.stat[u].diskAvailMB == a.disk
      && t.stat[u].status == a.latest
      && t.stat[u].hostname == a.hostname
      && (t.stat[u].memAvailMB >= 0 || a.dispatched == 0)
  }

  lemma PlacedBalances(t: Table, a: Account, w: Workload, u: Uuid)
    requires Balanced(t, u, a)
    ensures Balanced(Placed(t, w), u, NextAccount(t, a, Start(w), u))
  {
  }

  lemma NextBalances(t: Table, a: Account, e: Event, u: Uuid)
    requires Balanced(t, u, a)
    ensures Balanced(Next(t, e), u, NextAccount(t, a, e, u)) && Next(t, e).isNet == t.isNet
  {
    match e {
      case Connect(v) =>
      case Disconnect(v) =>
      case Report(v, status, parsed) =>
      case Start(w) => PlacedBalances(t, a, w, u);
    }
  }

  lemma {:induction false} LedgerBalances(isNet: bool, h: Log<Event>, u: Uuid)
    ensures Run(isNet, h).isNet == isNet && Balanced(Run(isNet, h), u, AccountOf(isNet, h, u))
  {
    if h.Then? {
      var t := Run(isNet, h.before);
      LedgerBalances(isNet, h.before, u);
      NextBalances(t, AccountOf(isNet, h.before, u), h.last, u);
    }
  }

  /**
    Between two parsed READY reports of a node the memory of the STARTs dispatched to it
    never totals more than the (non-negative) amount it last reported.
    */
  lemma NeverOverdrawn(isNet: bool, h: Log<Event>, u: Uuid)
    requires u in Run(isNet, h).stat && AccountOf(isNet, h, u).reported >= 0
    ensures AccountOf(isNet, h, u).dispatched <= AccountOf(isNet, h, u).reported
  {
    LedgerBalances(isNet, h, u);
  }

  /**
    Every START goes to a node whose latest status is READY, that still has the memory
    and reported the disk space, and whose kind, host name and id are the ones asked for.
    */
  lemma DispatchIsSound(isNet: bool, h: Log<Event>, w: Workload, u: Uuid)
    requires Target(Run(isNet, h), w) == Some(u)
    ensures u in Run(isNet, h).stat
    ensures var a := AccountOf(isNet, h, u);
            && a.latest == READY && a.reported - a.dispatched >= w.memMB && a.disk >= w.diskMB
            && isNet == w.networkNode
            && (w.hostname.None? || w.hostname == a.hostname)
            && (w.nodeID.None? || w.nodeID.value == u)
  {
    LedgerBalances(isNet, h, u);
    RunCoherent(isNet, h);
    ChoiceIsFirstFit(Run(isNet, h), w);
  }

  // ---- Placement, in terms of the run alone ----

  /** The comings and goings of a run. */
  function Connections(h: Log<Event>): Log<C.Change> {
    match h
    case Empty => Empty
    case Then(before, Connect(u)) => Then(Connections(before), C.Join(u))
    case Then(before, Disconnect(u)) => Then(Connections(before), C.Leave(u))
    case Then(before, _) => Connections(before)
  }

  /** In every run the list is the connected nodes in the order of their connections. */
  lemma {:induction false} ListIsConnectionOrder(isNet: bool, h: Log<Event>)
    ensures Run(isNet, h).list == C.Order(Connections(h))
  {
    if h.Then? {
      var t := Run(isNet, h.before);
      ListIsConnectionOrder(isNet, h.before);
      RunCoherent(isNet, h.before);
      if h.last.Disconnect? && h.last.uuid !in t.stat {
        WithoutAbsent(t.list, h.last.uuid);
      }
    }
  }

  /** `u` is connected. */
  ghost predicate Up(h: Log<Event>, u: Uuid) {
    C.Since(Connections(h), u) >= 0
  }

  lemma ListedIff(isNet: bool, h: Log<Event>, u: Uuid)
    ensures u in Run(isNet, h).stat <==> Up(h, u)
    ensures u in Run(isNet, h).list <==> Up(h, u)
  {
    RunCoherent(isNet, h);
    ListIsConnectionOrder(isNet, h);
    C.ListIsConnectionOrder(Connections(h));
  }

  /**
    What the run says of a node that can take a workload: it is connected, its latest status
    is READY, it has the memory left and reported the disk space, and its kind, host name and
    id are not asked for or the ones asked for.
    */
  ghost predicate CanTake(isNet: bool, h: Log<Event>, w: Workload, u: Uuid) {
    var a := AccountOf(isNet, h, u);
    && Up(h, u) && a.latest == READY
    && a.reported - a.dispatched >= w.memMB && a.disk >= w.diskMB
    && isNet == w.networkNode
    && (w.hostname.None? || w.hostname == a.hostname)
    && (w.nodeID.None? || w.nodeID.value == u)
  }

  lemma FitsIff(isNet: bool, h: Log<Event>, w: Workload, k: nat)
    requires k < |Run(isNet, h).list|
    ensures FitsAt(Run(isNet, h), w, k) <==> CanTake(isNet, h, w, Run(isNet, h).list[k])
  {
    var u := Run(isNet, h).list[k];
    LedgerBalances(isNet, h, u);
    ListedIff(isNet, h, u);
  }

  /** Nobody who can take the workload comes before position `k` in the rotated list. */
  ghost predicate FirstThatCan(isNet: bool, h: Log<Event>, w: Workload, k: nat) {
    var t := Run(isNet, h);
    && k < |t.list| && CanTake(isNet, h, w, t.list[k])
    && forall j: nat :: j < |t.list| && CanTake(isNet, h, w, t.list[j]) ==> Rank(t, k) <= Rank(t, j)
  }

  lemma FirstThatCanIff(isNet: bool, h: Log<Event>, w: Workload, k: nat)
    ensures FirstInRotation(Run(isNet, h), w, k) <==> FirstThatCan(isNet, h, w, k)
  {
    var t := Run(isNet, h);
    forall j: nat | j < |t.list| ensures FitsAt(t, w, j) <==> CanTake(isNet, h, w, t.list[j]) {
      FitsIff(isNet, h, w, j);
    }
  }

  /**
    For every run and every START: it goes to the first node in rotation that can take it, and
    it fails if and only if no connected node can.
    */
  lemma PlacementIff(isNet: bool, h: Log<Event>, w: Workload)
    ensures forall k: nat :: Choice(Run(isNet, h), w) == Some(k) <==> FirstThatCan(isNet, h, w, k)
    ensures Target(Run(isNet, h), w).None? <==> forall u :: !CanTake(isNet, h, w, u)
  {
    var t := Run(isNet, h);
    RunCoherent(isNet, h);
    ChoiceIsFirstFit(t, w);
    forall k: nat ensures Choice(t, w) == Some(k) <==> FirstThatCan(isNet, h, w, k) {
      FirstThatCanIff(isNet, h, w, k);
    }
    forall u | CanTake(isNet, h, w, u) ensures Target(t, w).Some? {
      ListedIff(isNet, h, u);
      var k :| 0 <= k < |t.list| && t.list[k] == u;
      FitsIff(isNet, h, w, k);
    }
    if Target(t, w).Some? {
      FitsIff(isNet, h, w, Choice(t, w).value);
    }
  }
}
