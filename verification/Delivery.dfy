/**
  From the controller to the launcher, in lines: the controller concatenates three documents
  (the START command, the workload's base configuration, and the instance metadata), and this
  is what the launcher gets for every base configuration.
  */
module Delivery {
  import opened Documents
  import opened Payload

  function Open(): Line {
    Line("---", DocStart, false, false)
  }

  function Close(): Line {
    Line("...", DocEnd, false, false)
  }

  /** Between an opening and a closing line, with any directives in front. */
  function Wrap(directives: seq<Line>, open: Line, body: seq<Line>): seq<Line> {
    directives + ([open] + body + [Close()])
  }

  /**
    The payload: the START document, the base configuration as it is, the metadata document.
    The opening line of the last one is a parameter, since the controller writes it right
    behind the base configuration: if that does not end in a newline, its last line is in it.
    */
  function Compose(start: seq<Line>, base: seq<Line>, open: Line, meta: seq<Line>): seq<Line> {
    Wrap([], Open(), start) + (base + ([open] + meta + [Close()]))
  }

  ghost predicate Unmarked(ls: seq<Line>) {
    forall i :: 0 <= i < |ls| ==> ls[i].mark != DocStart && ls[i].mark != DocEnd
  }

  ghost predicate Directives(ls: seq<Line>) {
    forall i :: 0 <= i < |ls| ==> ls[i].mark == Directive
  }

  // ---- Single documents ----

  lemma WrapShape(directives: seq<Line>, open: Line, body: seq<Line>)
    ensures var d, q := Wrap(directives, open, body), |directives|;
            && |d| == q + |body| + 2 && d[q] == open && d[|d| - 1] == Close() && d[q + 1..|d| - 1] == body
            && (forall i :: 0 <= i < q ==> d[i] == directives[i])
            && (forall i :: 0 <= i < |body| ==> d[q + 1 + i] == body[i])
  {
  }

  lemma WrapOpens(directives: seq<Line>, open: Line, body: seq<Line>)
    requires Directives(directives) && open.mark == DocStart
    ensures Opens(Wrap(directives, open, body), 0)
    ensures Body(Wrap(directives, open, body)) == body
  {
    WrapShape(directives, open, body);
    OpeningAt(Wrap(directives, open, body), 0, |directives|);
  }

  /** Directives, an opening line at `q`, unmarked lines and a closing line. */
  ghost predicate Bracketed(d: seq<Line>, q: nat) {
    && q < |d| - 1 && d[q].mark == DocStart && d[|d| - 1].mark == DocEnd
    && (forall i :: 0 <= i < q ==> d[i].mark == Directive)
    && (forall i :: q < i < |d| - 1 ==> d[i].mark != DocStart && d[i].mark != DocEnd)
  }

  lemma BracketedUndivided(d: seq<Line>, q: nat, j: nat)
    requires Bracketed(d, q) && 0 < j < |d|
    ensures !Boundary(d, j)
  {
    if j > q {
      NoOpening(d, j);
    }
  }

  /** They make one document. */
  lemma OneDocument(d: seq<Line>, q: nat)
    requires Bracketed(d, q)
    ensures Docs(d) == [d]
  {
    forall j | 0 < j < |d| ensures !Boundary(d, j) {
      BracketedUndivided(d, q, j);
    }
    Indivisible(d);
  }

  lemma WrapAt(directives: seq<Line>, open: Line, body: seq<Line>, i: nat)
    requires i < |directives| + |body| + 2
    ensures |Wrap(directives, open, body)| == |directives| + |body| + 2
    ensures Wrap(directives, open, body)[i] ==
            if i < |directives| then directives[i]
            else if i == |directives| then open
            else if i <= |directives| + |body| then body[i - |directives| - 1]
            else Close()
  {
  }

  lemma WrapBracketed(directives: seq<Line>, open: Line, body: seq<Line>)
    requires Directives(directives) && open.mark == DocStart && Unmarked(body)
    ensures Bracketed(Wrap(directives, open, body), |directives|)
  {
    var d, q := Wrap(directives, open, body), |directives|;
    WrapAt(directives, open, body, q);
    WrapAt(directives, open, body, |d| - 1);
    forall i | 0 <= i < q ensures d[i].mark == Directive {
      WrapAt(directives, open, body, i);
    }
    forall i | q < i < |d| - 1 ensures d[i].mark != DocStart && d[i].mark != DocEnd {
      WrapAt(directives, open, body, i);
    }
  }

  /** A wrapped text is one document. */
  lemma WrapIsDocument(directives: seq<Line>, open: Line, body: seq<Line>)
    requires Directives(directives) && open.mark == DocStart && Unmarked(body)
    ensures Docs(Wrap(directives, open, body)) == [Wrap(directives, open, body)]
  {
    WrapBracketed(directives, open, body);
    OneDocument(Wrap(directives, open, body), |directives|);
  }

  /** A closed text without an opening line is one document too. */
  lemma ClosedIsDocument(body: seq<Line>)
    requires Unmarked(body)
    ensures Docs(body + [Close()]) == [body + [Close()]]
  {
    var d := body + [Close()];
    forall j | 0 < j < |d| ensures !Boundary(d, j) {
      NoOpening(d, j);
    }
    Indivisible(d);
  }

  lemma ClosedBody(body: seq<Line>)
    requires Unmarked(body)
    ensures Body(body + [Close()]) == body
  {
    NoOpening(body + [Close()], 0);
  }

  /** A document from its text on, whether it is closed or not. */
  function Rest(d: seq<Line>): seq<Line> {
    d[BodyStart(d)..]
  }

  /** The text of a document that swallowed the lines of another. */
  lemma GluedBody(d: seq<Line>, body: seq<Line>)
    requires Unmarked(body)
    ensures Body(d + (body + [Close()])) == Rest(d) + body
  {
    var z := body + [Close()];
    OpensNoStart(d, z, 0);
    BodyStartKept(d, z);
    assert d + z == (d + body) + [Close()];
  }

  /** The base configuration without the directives at its end, which go to the metadata document. */
  function Trunk(base: seq<Line>): (t: seq<Line>)
    ensures t <= base && (t == [] || t[|t| - 1].mark != Directive)
    ensures forall i :: |t| <= i < |base| ==> base[i].mark == Directive
  {
    if base != [] && base[|base| - 1].mark == Directive then Trunk(base[..|base| - 1]) else base
  }

  // ---- The documents of a payload ----

  /** A line that opens or closes a document separates the base configuration from the metadata. */
  predicate Separates(open: Line) {
    open.mark == DocStart || open.mark == DocEnd
  }

  /** The documents in front of the metadata; without a separating line the metadata goes into the last one. */
  function Middle(base: seq<Line>, open: Line): seq<seq<Line>> {
    if open.mark == DocStart then Docs(Trunk(base)) else Docs(base + [open])
  }

  lemma MiddleSome(base: seq<Line>, open: Line)
    requires open.mark != DocStart
    ensures Middle(base, open) != []
  {
    DocLengths(base + [open]);
  }

  /** The documents after the START document. */
  function Later(base: seq<Line>, open: Line, meta: seq<Line>): seq<seq<Line>> {
    match open.mark
    case DocStart => Middle(base, open) + [Wrap(base[|Trunk(base)|..], open, meta)]
    case DocEnd => Middle(base, open) + [meta + [Close()]]
    case _ => MiddleSome(base, open); Glued(Middle(base, open), meta + [Close()])
  }

  /** A document that is opened, behind lines that are not directives. */
  lemma OpenedFollows(t: seq<Line>, c: seq<Line>)
    requires t == [] || t[|t| - 1].mark != Directive
    requires c != [] && Opens(c, 0) && Docs(c) == [c]
    ensures Docs(t + c) == Docs(t) + [c]
  {
    if t == [] {
      assert t + c == c;
    } else {
      OpensShift(t, c, 0);
      DocsConcat(t, c);
    }
  }

  lemma RegroupedOpened(base: seq<Line>, t: seq<Line>, open: Line, meta: seq<Line>)
    requires t <= base
    ensures base + ([open] + meta + [Close()]) == t + Wrap(base[|t|..], open, meta)
  {
    var x := [open] + meta + [Close()];
    assert base == t + base[|t|..];
    Associates(t, base[|t|..], x);
  }

  lemma LaterOpened(base: seq<Line>, open: Line, meta: seq<Line>)
    requires Unmarked(meta) && open.mark == DocStart
    ensures Docs(base + ([open] + meta + [Close()])) == Later(base, open, meta)
  {
    var t := Trunk(base);
    WrapIsDocument(base[|t|..], open, meta);
    WrapOpens(base[|t|..], open, meta);
    RegroupedOpened(base, t, open, meta);
    OpenedFollows(t, Wrap(base[|t|..], open, meta));
  }

  lemma Regrouped(base: seq<Line>, open: Line, meta: seq<Line>)
    ensures base + ([open] + meta + [Close()]) == (base + [open]) + (meta + [Close()])
  {
  }

  /** What follows a closing line starts a document of its own. */
  lemma AfterClosing(x: seq<Line>, z: seq<Line>)
    requires x != [] && x[|x| - 1].mark == DocEnd && z != [] && Docs(z) == [z]
    ensures Docs(x + z) == Docs(x) + [z]
  {
    DocsConcat(x, z);
  }

  lemma ClosedFollows(x: seq<Line>, meta: seq<Line>)
    requires x != [] && x[|x| - 1].mark == DocEnd && Unmarked(meta)
    ensures Docs(x + (meta + [Close()])) == Docs(x) + [meta + [Close()]]
  {
    ClosedIsDocument(meta);
    AfterClosing(x, meta + [Close()]);
  }

  lemma LaterClosed(base: seq<Line>, open: Line, meta: seq<Line>)
    requires Unmarked(meta) && open.mark == DocEnd
    ensures Docs(base + ([open] + meta + [Close()])) == Later(base, open, meta)
  {
    Regrouped(base, open, meta);
    ClosedFollows(base + [open], meta);
  }

  lemma LaterGlued(base: seq<Line>, open: Line, meta: seq<Line>)
    requires Unmarked(meta) && !Separates(open)
    ensures Docs(base + ([open] + meta + [Close()])) == Later(base, open, meta)
  {
    MiddleSome(base, open);
    Regrouped(base, open, meta);
    GluedDocs(base + [open], meta + [Close()]);
  }

  /** For any base configuration and any line behind it, the documents of the payload. */
  lemma PayloadDocs(start: seq<Line>, base: seq<Line>, open: Line, meta: seq<Line>)
    requires Unmarked(start) && Unmarked(meta)
    ensures Docs(Compose(start, base, open, meta)) == [Wrap([], Open(), start)] + Later(base, open, meta)
  {
    match open.mark {
      case DocStart => LaterOpened(base, open, meta);
      case DocEnd => LaterClosed(base, open, meta);
      case _ => LaterGlued(base, open, meta);
    }
    WrapIsDocument([], Open(), start);
    WrapShape([], Open(), start);
    DocsConcat(Wrap([], Open(), start), base + ([open] + meta + [Close()]));
  }

  // ---- What arrives ----

  /** The first line of the START document is the first `start:` line of the payload. */
  lemma StartIsFound(start: seq<Line>, base: seq<Line>, open: Line, meta: seq<Line>)
    requires start != [] && start[0].startKey
    ensures FoundStart(Compose(start, base, open, meta)) == 1
  {
    var lines := Compose(start, base, open, meta);
    assert lines[0] == Open() && lines[1] == start[0];
  }

  /** What is made of the START document when there are only two. */
  function Alone(start: seq<Line>): (seq<Line>, seq<Line>)
    requires start != []
  {
    StartParts(Wrap([], Open(), start), 1)
  }

  /** With `n` documents after the START document, the first two of them count. */
  lemma SplitAfterStart(start: seq<Line>, lines: seq<Line>, later: seq<seq<Line>>)
    requires start != [] && FoundStart(lines) == 1 && Docs(lines) == [Wrap([], Open(), start)] + later
    ensures |later| == 1 ==> Split(lines) == Parts(Alone(start).0, Alone(start).1, Body(later[0]))
    ensures |later| >= 2 ==> Split(lines) == Parts(start, Body(later[0]), Body(later[1]))
  {
    var a := Wrap([], Open(), start);
    WrapOpens([], Open(), start);
    WrapShape([], Open(), start);
    DocLengths(lines);
    assert Docs(lines)[0] == a && forall i :: 0 <= i < |later| ==> Docs(lines)[i + 1] == later[i];
  }

  /**
    What the launcher makes of a command, the documents in front of the metadata, and the
    metadata. Only one document of configuration, kept apart from the metadata, arrives as it
    should; more of them displace the metadata, and glued to the last one it is spoiled.
    */
  function Outcome(start: seq<Line>, middle: seq<seq<Line>>, separate: bool, meta: seq<Line>): Parts
    requires start != [] && (middle == [] ==> separate)
  {
    if |middle| >= (if separate then 2 else 3) then Parts(start, Body(middle[0]), Body(middle[1]))
    else if separate then
      if middle == [] then Parts(Alone(start).0, Alone(start).1, meta) else Parts(start, Body(middle[0]), meta)
    else
      if |middle| == 1 then Parts(Alone(start).0, Alone(start).1, Rest(middle[0]) + meta)
      else Parts(start, Body(middle[0]), Rest(middle[1]) + meta)
  }

  /** The command is one document starting with its key, and neither it nor the metadata has a marker inside. */
  ghost predicate WellFormed(start: seq<Line>, meta: seq<Line>) {
    start != [] && start[0].startKey && Unmarked(start) && Unmarked(meta)
  }

  lemma LaterBodies(base: seq<Line>, open: Line, meta: seq<Line>)
    requires Unmarked(meta)
    ensures var m, later := Middle(base, open), Later(base, open, meta);
            if Separates(open) then
              |later| == |m| + 1 && Body(later[|m|]) == meta && forall i :: 0 <= i < |m| ==> later[i] == m[i]
            else
              && |later| == |m| >= 1 && Body(later[|m| - 1]) == Rest(m[|m| - 1]) + meta
              && forall i :: 0 <= i < |m| - 1 ==> later[i] == m[i]
  {
    match open.mark {
      case DocStart => WrapOpens(base[|Trunk(base)|..], open, meta);
      case DocEnd => ClosedBody(meta);
      case _ =>
        MiddleSome(base, open);
        var m := Middle(base, open);
        GluedBody(m[|m| - 1], meta);
    }
  }

  /** What the launcher receives, for every base configuration and every line behind it. */
  lemma Delivered(start: seq<Line>, base: seq<Line>, open: Line, meta: seq<Line>)
    requires WellFormed(start, meta)
    ensures Middle(base, open) == [] ==> Separates(open)
    ensures Split(Compose(start, base, open, meta)) == Outcome(start, Middle(base, open), Separates(open), meta)
  {
    PayloadDocs(start, base, open, meta);
    StartIsFound(start, base, open, meta);
    LaterBodies(base, open, meta);
    SplitAfterStart(start, Compose(start, base, open, meta), Later(base, open, meta));
  }

  // ---- A START document on its own ----

  /** All lines after the first are indented or empty. */
  ghost predicate Nested(start: seq<Line>) {
    forall j :: 1 <= j < |start| ==> start[j].indented || start[j].text == ""
  }

  lemma {:induction false} RunToEnd(lines: seq<Line>, i: nat, e: nat)
    requires i <= e < |lines| && !lines[e].indented && lines[e].text != ""
    requires forall j :: i <= j < e ==> lines[j].indented || lines[j].text == ""
    ensures RunEnd(lines, i) == e
    decreases e - i
  {
    if i < e {
      RunToEnd(lines, i + 1, e);
    }
  }

  lemma {:induction false} RunStops(lines: seq<Line>, i: nat, j: nat)
    requires i <= j < |lines| && !lines[j].indented && lines[j].text != ""
    ensures RunEnd(lines, i) <= j
    decreases j - i
  {
    if i < j {
      RunStops(lines, i + 1, j);
    }
  }

  lemma AloneWhole(start: seq<Line>)
    requires start != [] && Nested(start)
    ensures Alone(start) == (start, [])
  {
    var a := Wrap([], Open(), start);
    WrapShape([], Open(), start);
    forall j | 2 <= j < |a| - 1 ensures a[j].indented || a[j].text == "" {
      assert a[0 + 1 + (j - 1)] == start[j - 1];
    }
    RunToEnd(a, 2, |a| - 1);
    var e, rest := |a| - 1, [];
    assert StartParts(a, 1) == (a[1..e], a[1..1] + rest);
    assert a[1..e] == start && a[1..1] + rest == [];
  }

  lemma WrapSlice(start: seq<Line>, e: nat)
    requires 1 <= e <= |start| + 1
    ensures Wrap([], Open(), start)[1..e] == start[..e - 1]
  {
  }

  lemma AloneCut(start: seq<Line>, j: nat)
    requires 1 <= j < |start| && !start[j].indented && start[j].text != ""
    ensures Alone(start).0 <= start && |Alone(start).0| <= j
  {
    var a := Wrap([], Open(), start);
    assert a[j + 1] == start[j];
    RunStops(a, 2, j + 1);
    WrapSlice(start, RunEnd(a, 2));
  }

  /**
    With no configuration the command is cut at its first line that is not nested, and is
    whole if and only if there is none. Marshalled YAML has none.
    */
  lemma StartAlone(start: seq<Line>)
    requires start != []
    ensures Alone(start).0 <= start
    ensures Alone(start) == (start, []) <==> Nested(start)
    ensures Alone(start).0 == start <==> Nested(start)
  {
    if Nested(start) {
      AloneWhole(start);
    } else {
      var j :| 1 <= j < |start| && !start[j].indented && start[j].text != "";
      AloneCut(start, j);
    }
  }

  // ---- When it arrives ----

  /** A line of text. */
  function TextLine(text: string): Line {
    Line(text, Plain, false, false)
  }

  /**
    For every base configuration and every line behind it: the metadata arrives, whatever
    it is, if and only if that line separates them and at most one document is in front.
    */
  lemma MetadataArrivesIff(start: seq<Line>, base: seq<Line>, open: Line)
    requires WellFormed(start, [])
    ensures (forall meta | Unmarked(meta) :: Split(Compose(start, base, open, meta)).meta == meta) <==>
            (Separates(open) && |Middle(base, open)| <= 1)
  {
    forall meta | Unmarked(meta)
      ensures Split(Compose(start, base, open, meta)).meta ==
              Outcome(start, Middle(base, open), Separates(open), meta).meta
    {
      Delivered(start, base, open, meta);
    }
    var a, b := [TextLine("a")], [TextLine("b")];
    assert Unmarked(a) && Unmarked(b) && a[0].text[0] != b[0].text[0];
    if !Separates(open) {
      Delivered(start, base, open, a);
      LastHasRest(base, open);
    }
  }

  /** The last document in front of metadata that is not kept apart has at least that line in it. */
  lemma LastHasRest(base: seq<Line>, open: Line)
    requires !Separates(open)
    ensures var m := Middle(base, open); m != [] && Rest(m[|m| - 1]) != []
  {
    var x := base + [open];
    var s := LastBoundary(x, |x| - 1);
    var d := x[s..];
    assert Middle(base, open) == Docs(x[..s]) + [d];
    assert d[|d| - 1] == open;
  }

  /**
    Round trip: a base configuration between its own markers comes back exactly, together
    with the START document and the metadata.
    */
  lemma RoundTrip(start: seq<Line>, config: seq<Line>, meta: seq<Line>)
    requires WellFormed(start, meta) && Unmarked(config)
    ensures Split(Compose(start, Wrap([], Open(), config), Open(), meta)) == Parts(start, config, meta)
  {
    var base := Wrap([], Open(), config);
    assert Trunk(base) == base by { WrapShape([], Open(), config); }
    assert Docs(base) == [base] by { WrapIsDocument([], Open(), config); }
    assert Body(base) == config by { WrapOpens([], Open(), config); }
    Delivered(start, base, Open(), meta);
  }
}
