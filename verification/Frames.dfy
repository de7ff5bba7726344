/**
  Path tracing of SSNTP frames: the builder puts the sender on the path, every write
  stamps the node the path length points at, every read puts the receiver on the path.
  The path length is one unsigned byte. The transport delivers a frame as it was written.
  */
module Frames {
  import opened Basics

  /** An unsigned byte. The top bit of `Major` is the trace flag, the other seven are the version. */
  type Byte = x: int | 0 <= x < 256

  const PATH_TRACE_ENABLED := 128

  predicate Flagged(major: Byte) {
    major >= PATH_TRACE_ENABLED
  }

  function Version(major: Byte): Byte {
    major % PATH_TRACE_ENABLED
  }

  /** The first byte of a frame: seven bits of version, and 128 more on a frame that is traced. */
  lemma MajorParts(major: Byte)
    ensures major == Version(major) + (if Flagged(major) then 128 else 0) && 0 <= Version(major) < 128
  {
  }

  /** A time stamp; None is the zero time. */
  type Stamp = Option<int>

  datatype Node = Node(uuid: Uuid, tx: Stamp, rx: Stamp)

  datatype TraceConfig = TraceConfig(tag: seq<Byte>, start: int, pathTrace: bool)

  datatype FrameTrace = FrameTrace(tag: seq<Byte>, startTimestamp: Stamp, pathLength: nat, path: seq<Node>)

  /** Increment and decrement of an unsigned byte. */
  function Inc(n: nat): nat { (n + 1) % 256 }

  function Dec(n: nat): nat { (n + 255) % 256 }

  // ---- What a hop does ----

  /** One hop: the last node writes at `tx`, node `receiver` reads at `rx`. */
  datatype Hop = Hop(tx: int, receiver: Uuid, rx: int)

  /** The position the code stamps, and takes the last reception from. */
  function Cursor(t: FrameTrace): nat {
    Dec(t.pathLength)
  }

  function Written(t: FrameTrace, tx: int): FrameTrace {
    var i := Cursor(t);
    if i < |t.path| then t.(path := t.path[i := t.path[i].(tx := Some(tx))]) else t
  }

  function Received(t: FrameTrace, receiver: Uuid, rx: int): FrameTrace {
    t.(path := t.path + [Node(receiver, None, Some(rx))], pathLength := Inc(t.pathLength))
  }

  function Hopped(t: FrameTrace, h: Hop): FrameTrace {
    Received(Written(t, h.tx), h.receiver, h.rx)
  }

  /** The trace of a frame that `origin` built and that took the hops `hops`. */
  function After(tag: seq<Byte>, start: int, origin: Uuid, hops: Log<Hop>): FrameTrace {
    match hops
    case Empty => FrameTrace(tag, Some(start), 1, [Node(origin, None, None)])
    case Then(before, h) => Hopped(After(tag, start, origin, before), h)
  }

  /** The nodes visited, in order. */
  function Visited(origin: Uuid, hops: Log<Hop>): seq<Uuid> {
    match hops
    case Empty => [origin]
    case Then(before, h) => Visited(origin, before) + [h.receiver]
  }

  function Uuids(path: seq<Node>): (r: seq<Uuid>)
    ensures |r| == |path| && forall i :: 0 <= i < |path| ==> r[i] == path[i].uuid
  {
    seq(|path|, i requires 0 <= i < |path| => path[i].uuid)
  }

  // ---- What every chain of hops keeps ----

  /** The length of the path, modulo the byte, and so a cursor that is always in range. */
  ghost predicate Sized(t: FrameTrace) {
    t.path != [] && t.pathLength == |t.path| % 256
  }

  lemma CursorInRange(t: FrameTrace)
    requires Sized(t)
    ensures Cursor(t) < |t.path| && Cursor(t) == (|t.path| - 1) % 256
    ensures Cursor(t) == |t.path| - 1 <==> |t.path| <= 256
  {
    var n := |t.path|;
    assert n == 256 * (n / 256) + n % 256;
    if n % 256 == 0 {
      assert n - 1 == 256 * (n / 256 - 1) + 255;
    } else {
      assert n - 1 == 256 * (n / 256) + (n % 256 - 1);
    }
  }

  lemma HoppedSized(t: FrameTrace, h: Hop)
    requires Sized(t)
    ensures Sized(Hopped(t, h)) && |Hopped(t, h).path| == |t.path| + 1
  {
    CursorInRange(t);
    var n := |t.path|;
    assert n == 256 * (n / 256) + n % 256;
    if n % 256 == 255 {
      assert n + 1 == 256 * (n / 256 + 1);
    } else {
      assert n + 1 == 256 * (n / 256) + (n % 256 + 1);
    }
  }

  /** For any chain at all: the path lists the nodes visited in order, and no index is out of range. */
  lemma {:induction false} PathListsVisited(tag: seq<Byte>, start: int, origin: Uuid, hops: Log<Hop>)
    ensures var t := After(tag, start, origin, hops);
            && t.tag == tag && t.startTimestamp == Some(start)
            && Sized(t) && |t.path| == Length(hops) + 1
            && Uuids(t.path) == Visited(origin, hops)
            && Cursor(t) < |t.path|
  {
    var t := After(tag, start, origin, hops);
    if hops.Then? {
      PathListsVisited(tag, start, origin, hops.before);
      HoppedSized(After(tag, start, origin, hops.before), hops.last);
    }
    CursorInRange(t);
  }

  ghost predicate RxComplete(path: seq<Node>) {
    forall i :: 0 < i < |path| ==> path[i].rx.Some?
  }

  ghost predicate TxComplete(path: seq<Node>) {
    forall i :: 0 <= i < |path| - 1 ==> path[i].tx.Some?
  }

  /** Every node but the first has a reception stamp, however long the chain. */
  lemma {:induction false} RxAlwaysComplete(tag: seq<Byte>, start: int, origin: Uuid, hops: Log<Hop>)
    ensures RxComplete(After(tag, start, origin, hops).path)
  {
    if hops.Then? {
      RxAlwaysComplete(tag, start, origin, hops.before);
    }
  }

  /** The stamps present: up to 256 writes each stamps the last node, later ones start over at the first. */
  lemma {:induction false} TxUpTo(tag: seq<Byte>, start: int, origin: Uuid, hops: Log<Hop>)
    ensures var path := After(tag, start, origin, hops).path;
            |path| == Length(hops) + 1 && forall i :: 0 <= i < |path| ==>
              (path[i].tx.Some? <==> i < Length(hops) && i < 256)
  {
    if hops.Then? {
      var t := After(tag, start, origin, hops.before);
      TxUpTo(tag, start, origin, hops.before);
      PathListsVisited(tag, start, origin, hops.before);
      CursorInRange(t);
      assert Cursor(t) < 256;
    }
  }

  /** So every node but the last has a transmission stamp if and only if there were at most 256 hops. */
  lemma TxCompleteIff(tag: seq<Byte>, start: int, origin: Uuid, hops: Log<Hop>)
    ensures TxComplete(After(tag, start, origin, hops).path) <==> Length(hops) <= 256
  {
    var path := After(tag, start, origin, hops).path;
    TxUpTo(tag, start, origin, hops);
    if Length(hops) > 256 {
      assert path[256].tx.None?;
    }
  }

  // ---- What the stamps are ----

  /** The `i`-th hop of a chain, from 1. */
  function HopAt(hops: Log<Hop>, i: nat): Hop
    requires 0 < i <= Length(hops)
  {
    if i == Length(hops) then hops.last else HopAt(hops.before, i)
  }

  /** Node `i` has the time at which hop `i` received the frame, whatever came later. */
  lemma {:induction false} RxIsOwnHop(tag: seq<Byte>, start: int, origin: Uuid, hops: Log<Hop>, i: nat)
    requires 0 < i <= Length(hops)
    ensures var path := After(tag, start, origin, hops).path;
            |path| == Length(hops) + 1 && path[i].rx == Some(HopAt(hops, i).rx)
  {
    PathListsVisited(tag, start, origin, hops);
    PathListsVisited(tag, start, origin, hops.before);
    if i < Length(hops) {
      RxIsOwnHop(tag, start, origin, hops.before, i);
    }
  }

  /** The last time at which a hop stamped node `i`: the hops take the nodes in turn, modulo the byte. */
  function LastTx(hops: Log<Hop>, i: nat): Stamp {
    match hops
    case Empty => None
    case Then(before, h) => if Length(before) % 256 == i then Some(h.tx) else LastTx(before, i)
  }

  lemma {:induction false} TxIsLast(tag: seq<Byte>, start: int, origin: Uuid, hops: Log<Hop>, i: nat)
    requires i <= Length(hops)
    ensures var path := After(tag, start, origin, hops).path;
            |path| == Length(hops) + 1 && path[i].tx == LastTx(hops, i)
  {
    PathListsVisited(tag, start, origin, hops);
    if hops.Then? {
      var t := After(tag, start, origin, hops.before);
      PathListsVisited(tag, start, origin, hops.before);
      CursorInRange(t);
      if i <= Length(hops.before) {
        TxIsLast(tag, start, origin, hops.before, i);
      } else {
        NotYetStamped(hops, i);
      }
    }
  }

  lemma {:induction false} NotYetStamped(hops: Log<Hop>, i: nat)
    requires i >= Length(hops)
    ensures LastTx(hops, i) == None
  {
    if hops.Then? {
      NotYetStamped(hops.before, i);
      assert Length(hops.before) % 256 <= Length(hops.before);
    }
  }

  /** Up to 256 hops, node `i` has the time at which hop `i + 1` sent the frame on. */
  lemma {:induction false} TxIsOwnHop(hops: Log<Hop>, i: nat)
    requires i < Length(hops) <= 256
    ensures LastTx(hops, i) == Some(HopAt(hops, i + 1).tx)
  {
    if i + 1 < Length(hops) {
      TxIsOwnHop(hops.before, i);
    }
  }

  /** The time of the first transmission, as far as it has not been overwritten. */
  function FirstTx(hops: Log<Hop>): int
    requires hops.Then?
  {
    if hops.before.Empty? then hops.last.tx else FirstTx(hops.before)
  }

  /** What Duration computes from: the reception at the cursor and the first node's transmission. */
  function Ends(t: FrameTrace): (Stamp, Stamp) {
    if t.path != [] && Cursor(t) < |t.path| then (t.path[Cursor(t)].rx, t.path[0].tx) else (None, None)
  }

  lemma {:induction false} FirstTxKept(tag: seq<Byte>, start: int, origin: Uuid, hops: Log<Hop>)
    requires hops.Then? && Length(hops) <= 256
    ensures After(tag, start, origin, hops).path[0].tx == Some(FirstTx(hops))
  {
    var t := After(tag, start, origin, hops.before);
    PathListsVisited(tag, start, origin, hops.before);
    CursorInRange(t);
    if hops.before.Then? {
      FirstTxKept(tag, start, origin, hops.before);
    }
  }

  /** With fewer than 256 hops, Duration runs from the first transmission to the last reception. */
  lemma DurationIsEndToEnd(tag: seq<Byte>, start: int, origin: Uuid, hops: Log<Hop>)
    requires hops.Then? && Length(hops) <= 255
    ensures Ends(After(tag, start, origin, hops)) == (Some(hops.last.rx), Some(FirstTx(hops)))
  {
    var t := After(tag, start, origin, hops);
    FirstTxKept(tag, start, origin, hops);
    PathListsVisited(tag, start, origin, hops);
    CursorInRange(t);
  }

  /** One hop more and the cursor is back on the sender, which never received the frame. */
  lemma DurationWrapsAt256(tag: seq<Byte>, start: int, origin: Uuid, hops: Log<Hop>)
    requires Length(hops) == 256
    ensures Ends(After(tag, start, origin, hops)).0 == None
  {
    var t := After(tag, start, origin, hops);
    PathListsVisited(tag, start, origin, hops);
    CursorInRange(t);
    FirstNeverReceives(tag, start, origin, hops);
  }

  // ---- When Duration is right ----

  /** Duration runs from the first transmission to the last reception. */
  ghost predicate EndToEnd(tag: seq<Byte>, start: int, origin: Uuid, hops: Log<Hop>) {
    hops.Then? && Ends(After(tag, start, origin, hops)) == (Some(hops.last.rx), Some(FirstTx(hops)))
  }

  /** A chain in which hop `i` takes place at time `i`. */
  function Ticking(origin: Uuid, n: nat): (h: Log<Hop>)
    ensures Length(h) == n
  {
    if n == 0 then Empty else Then(Ticking(origin, n - 1), Hop(n, origin, n))
  }

  lemma {:induction false} TickingAt(origin: Uuid, n: nat, i: nat)
    requires 0 < i <= n
    ensures HopAt(Ticking(origin, n), i) == Hop(i, origin, i)
  {
    if i < n {
      TickingAt(origin, n - 1, i);
    }
  }

  /** From 256 hops on, the stamp read is not that of the last node. */
  lemma TickingFails(tag: seq<Byte>, start: int, origin: Uuid, n: nat)
    requires n > 255
    ensures !EndToEnd(tag, start, origin, Ticking(origin, n))
  {
    var hops := Ticking(origin, n);
    var t := After(tag, start, origin, hops);
    PathListsVisited(tag, start, origin, hops);
    CursorInRange(t);
    var i := Cursor(t);
    if i == 0 {
      FirstNeverReceives(tag, start, origin, hops);
    } else {
      RxIsOwnHop(tag, start, origin, hops, i);
      TickingAt(origin, n, i);
    }
  }

  /** For chains of `n` hops: Duration is right for all of them if and only if there are at most 255. */
  lemma DurationIsEndToEndIff(tag: seq<Byte>, start: int, origin: Uuid, n: nat)
    requires n >= 1
    ensures (forall hops | Length(hops) == n :: EndToEnd(tag, start, origin, hops)) <==> n <= 255
  {
    if n <= 255 {
      forall hops: Log<Hop> | Length(hops) == n ensures EndToEnd(tag, start, origin, hops) {
        DurationIsEndToEnd(tag, start, origin, hops);
      }
    } else {
      TickingFails(tag, start, origin, n);
    }
  }

  lemma {:induction false} FirstNeverReceives(tag: seq<Byte>, start: int, origin: Uuid, hops: Log<Hop>)
    ensures var path := After(tag, start, origin, hops).path; path != [] && path[0].rx == None
  {
    if hops.Then? {
      FirstNeverReceives(tag, start, origin, hops.before);
    }
  }

  // ---- The frame object ----

  class Frame {
    var major: Byte
    var trace: Option<FrameTrace>

    predicate PathTrace()
      reads this
    {
      if trace.None? then false else Flagged(major)
    }

    /** The builders: version `version`, then the trace, then the sender's own node. */
    constructor (version: Byte, sender: Uuid, config: Option<TraceConfig>)
      requires !Flagged(version)
      ensures GetMajor() == version
      ensures PathTrace() <==> config.Some? && config.value.pathTrace
      ensures PathTrace() ==> trace == Some(After(config.value.tag, config.value.start, sender, Empty))
      ensures !PathTrace() ==> trace.Some? ==> trace.value.path == []
    {
      major := version;
      trace := None;
      new;
      SetTrace(config);
      AddPathNode(sender);
      assert [] + [Node(sender, None, None)] == [Node(sender, None, None)];
    }

    function GetMajor(): Byte
      reads this
    {
      Version(major)
    }

    method SetTrace(config: Option<TraceConfig>)
      modifies this
      ensures GetMajor() == old(GetMajor())
      ensures config.None? || (config.value.tag == [] && !config.value.pathTrace) ==>
                major == Version(old(major)) && trace == old(trace)
      ensures config.Some? && config.value.pathTrace ==>
                PathTrace() && trace == Some(FrameTrace(config.value.tag, Some(config.value.start), 0, []))
      ensures config.Some? && !config.value.pathTrace && config.value.tag != [] ==>
                major == old(major) && trace == Some(FrameTrace(config.value.tag, None, 0, []))
    {
      if config.None? || (|config.value.tag| == 0 && config.value.pathTrace == false) {
        major := Version(major);
        return;
      }
      trace := Some(FrameTrace(config.value.tag, None, 0, []));
      if config.value.pathTrace {
        major := Version(major) + PATH_TRACE_ENABLED;
        trace := Some(trace.value.(startTimestamp := Some(config.value.start)));
      }
    }

    method AddPathNode(sender: Uuid)
      modifies this`trace
      ensures !old(PathTrace()) ==> trace == old(trace)
      ensures old(PathTrace()) ==>
                trace == Some(old(trace).value.(path := old(trace).value.path + [Node(sender, None, None)],
                                                pathLength := Inc(old(trace).value.pathLength)))
    {
      if !PathTrace() {
        return;
      }
      var t := trace.value;
      trace := Some(t.(path := t.path + [Node(sender, None, None)], pathLength := Inc(t.pathLength)));
    }

    /**
      Stamping a frame. The code indexes the path without a check, so it panics if and only if
      the index is out of range; a frame that the builders made and that only hopped is `Sized`.
      */
    method Write(now: int) returns (ok: bool)
      modifies this`trace
      ensures ok <==> (old(PathTrace()) ==> Cursor(old(trace).value) < |old(trace).value.path|)
      ensures old(PathTrace()) && Sized(old(trace).value) ==> ok
      ensures trace == if old(PathTrace()) then Some(Written(old(trace).value, now)) else old(trace)
    {
      if !PathTrace() {
        return true;
      }
      var t := trace.value;
      if Sized(t) {
        CursorInRange(t);
      }
      var i := Dec(t.pathLength);
      if i >= |t.path| {
        return false;
      }
      trace := Some(t.(path := t.path[i := t.path[i].(tx := Some(now))]));
      return true;
    }

    method Read(receiver: Uuid, now: int)
      modifies this`trace
      ensures trace == if old(PathTrace()) then Some(Received(old(trace).value, receiver, now)) else old(trace)
    {
      if !PathTrace() {
        return;
      }
      var t := trace.value;
      trace := Some(t.(path := t.path + [Node(receiver, None, Some(now))], pathLength := Inc(t.pathLength)));
    }

    /** The two stamps; None is the error of a frame without a trace, `!ok` an index out of range. */
    method Duration() returns (ok: bool, d: Option<(Stamp, Stamp)>)
      ensures ok <==> (PathTrace() ==> Cursor(trace.value) < |trace.value.path|)
      ensures PathTrace() && Sized(trace.value) ==> ok
      ensures d == if PathTrace() && ok then Some(Ends(trace.value)) else None
    {
      if !PathTrace() {
        return true, None;
      }
      if Sized(trace.value) {
        CursorInRange(trace.value);
      }
      var i := Dec(trace.value.pathLength);
      if i >= |trace.value.path| {
        return false, None;
      }
      return true, Some((trace.value.path[i].rx, trace.value.path[0].tx));
    }
  }

  /** A frame built by a builder and sent along a chain of sessions. */
  method Travel(version: Byte, origin: Uuid, config: TraceConfig, hops: Log<Hop>) returns (f: Frame)
    requires !Flagged(version) && config.pathTrace
    ensures fresh(f) && f.PathTrace() && f.GetMajor() == version
    ensures f.trace == Some(After(config.tag, config.start, origin, hops))
  {
    match hops {
      case Empty =>
        f := new Frame(version, origin, Some(config));
      case Then(before, h) =>
        f := Travel(version, origin, config, before);
        PathListsVisited(config.tag, config.start, origin, before);
        var ok := f.Write(h.tx);
        assert ok;
        f.Read(h.receiver, h.rx);
    }
  }
}
