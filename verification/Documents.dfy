/**
  Splitting a START payload into documents, line by line. A line beginning `---` opens a
  document, one beginning `...` closes it, and lines beginning `%` just before an opening
  line are directives that belong to it.
  */
module Documents {
  datatype Mark = DocStart | DocEnd | Directive | Plain

  /**
    A line with what the splitter asks of it: its prefix, whether it is the `start:` key,
    and whether it counts as indented.
    */
  datatype Line = Line(text: string, mark: Mark, startKey: bool, indented: bool)

  // ---- What a document is ----

  /** From line `p` on there are directives, if any, and then an opening line. */
  predicate Opens(ls: seq<Line>, p: nat)
    decreases |ls| - p
  {
    p < |ls| && (ls[p].mark == DocStart || (ls[p].mark == Directive && Opens(ls, p + 1)))
  }

  /** A document starts at `p`: at the front, after a closing line, or where one is opened. */
  predicate Boundary(ls: seq<Line>, p: nat) {
    p == 0 || (p < |ls| && (ls[p - 1].mark == DocEnd || (ls[p - 1].mark != Directive && Opens(ls, p))))
  }

  /** The last place at or before `p` where a document starts. */
  function LastBoundary(ls: seq<Line>, p: nat): (s: nat)
    requires p <= |ls|
    ensures s <= p && Boundary(ls, s)
    ensures forall j :: s < j <= p ==> !Boundary(ls, j)
  {
    if Boundary(ls, p) then p else LastBoundary(ls, p - 1)
  }

  /** The documents of a list of lines, in order. */
  function Docs(ls: seq<Line>): seq<seq<Line>> {
    if ls == [] then []
    else
      var s := LastBoundary(ls, |ls| - 1);
      Docs(ls[..s]) + [ls[s..]]
  }

  function Flatten(docs: seq<seq<Line>>): seq<Line> {
    if docs == [] then [] else Flatten(docs[..|docs| - 1]) + docs[|docs| - 1]
  }

  /** Where the text of a document starts: after its opening line, if it has one. */
  function BodyStart(doc: seq<Line>): (i: nat)
    ensures i <= |doc|
  {
    if Opens(doc, 0) then OpeningLine(doc, 0) + 1 else 0
  }

  function OpeningLine(doc: seq<Line>, p: nat): (i: nat)
    requires Opens(doc, p)
    ensures p <= i < |doc| && doc[i].mark == DocStart
    ensures forall j :: p <= j < i ==> doc[j].mark == Directive
    decreases |doc| - p
  {
    if doc[p].mark == DocStart then p else OpeningLine(doc, p + 1)
  }

  /** Where it ends: before its closing line, if it has one. */
  function BodyEnd(doc: seq<Line>): (i: nat)
    ensures i <= |doc|
  {
    if doc != [] && doc[|doc| - 1].mark == DocEnd then |doc| - 1 else |doc|
  }

  lemma BodyWithin(doc: seq<Line>)
    ensures BodyStart(doc) <= BodyEnd(doc)
  {
  }

  function Body(doc: seq<Line>): seq<Line> {
    BodyWithin(doc);
    doc[BodyStart(doc)..BodyEnd(doc)]
  }

  // ---- Documents compose ----

  lemma {:induction false} OpensShift(a: seq<Line>, b: seq<Line>, j: nat)
    ensures Opens(a + b, |a| + j) <==> Opens(b, j)
    decreases |b| - j
  {
    if j < |b| {
      OpensShift(a, b, j + 1);
    }
  }

  lemma {:induction false} OpensPrefix(a: seq<Line>, b: seq<Line>, j: nat)
    requires j < |a| && a[|a| - 1].mark != Directive
    ensures Opens(a + b, j) <==> Opens(a, j)
    decreases |a| - j
  {
    if j + 1 < |a| {
      OpensPrefix(a, b, j + 1);
    }
  }

  lemma BoundaryShift(a: seq<Line>, b: seq<Line>, j: nat)
    requires 0 < j
    ensures Boundary(a + b, |a| + j) <==> Boundary(b, j)
  {
    OpensShift(a, b, j);
  }

  lemma BoundaryPrefix(a: seq<Line>, b: seq<Line>, j: nat)
    requires j < |a| && Boundary(a + b, |a|) && b != []
    ensures Boundary(a + b, j) <==> Boundary(a, j)
  {
    OpensPrefix(a, b, j);
  }

  /** The last document of `a + b` is the last document of `b`. */
  lemma LastBoundaryConcat(a: seq<Line>, b: seq<Line>)
    requires b != [] && Boundary(a + b, |a|)
    ensures LastBoundary(a + b, |a + b| - 1) == |a| + LastBoundary(b, |b| - 1)
  {
    var s, s' := LastBoundary(a + b, |a + b| - 1), LastBoundary(b, |b| - 1);
    if s' > 0 {
      BoundaryShift(a, b, s');
    }
    if s > |a| {
      BoundaryShift(a, b, s - |a|);
    }
  }

  lemma Associates<T>(a: seq<T>, b: seq<T>, c: seq<T>)
    ensures (a + b) + c == a + (b + c)
  {
  }

  /** `Docs` one step further, at a place known to be the last one where a document starts. */
  lemma DocsSplit(front: seq<Line>, d: seq<Line>)
    requires d != [] && LastBoundary(front + d, |front + d| - 1) == |front|
    ensures Docs(front + d) == Docs(front) + [d]
  {
    assert (front + d)[..|front|] == front && (front + d)[|front|..] == d;
  }

  /** Wherever a document starts, the documents before and after are found independently. */
  lemma {:induction false} DocsConcat(a: seq<Line>, b: seq<Line>)
    requires b != [] && Boundary(a + b, |a|)
    ensures Docs(a + b) == Docs(a) + Docs(b)
    decreases |b|
  {
    var s := LastBoundary(b, |b| - 1);
    var front, d := b[..s], b[s..];
    assert b == front + d;
    DocsSplit(front, d);
    LastBoundaryConcat(a, b);
    Associates(a, front, d);
    DocsSplit(a + front, d);
    if s == 0 {
      assert a + front == a;
    } else {
      BoundaryPrefix(a + front, d, |a|);
      DocsConcat(a, front);
    }
    Associates(Docs(a), Docs(front), [d]);
  }

  ghost predicate Undivided(d: seq<Line>) {
    d != [] && forall j :: 0 < j < |d| ==> !Boundary(d, j)
  }

  /** A list of lines that divides nowhere is one document. */
  lemma Indivisible(d: seq<Line>)
    requires Undivided(d)
    ensures Docs(d) == [d]
  {
    assert LastBoundary(d, |d| - 1) == 0;
    assert d[..0] == [] && d[0..] == d;
  }

  lemma LastUndivided(ls: seq<Line>)
    requires ls != []
    ensures Undivided(ls[LastBoundary(ls, |ls| - 1)..])
  {
    var s := LastBoundary(ls, |ls| - 1);
    assert ls == ls[..s] + ls[s..];
    forall j | 0 < j < |ls| - s ensures !Boundary(ls[s..], j) {
      BoundaryShift(ls[..s], ls[s..], j);
    }
  }

  lemma FlattenLast(docs: seq<seq<Line>>, d: seq<Line>)
    ensures Flatten(docs + [d]) == Flatten(docs) + d
  {
    assert (docs + [d])[..|docs|] == docs;
  }

  lemma FlattenFew(docs: seq<seq<Line>>)
    ensures |docs| == 1 ==> Flatten(docs) == docs[0]
    ensures |docs| == 2 ==> Flatten(docs) == docs[0] + docs[1]
  {
    if |docs| == 1 {
      assert docs[..0] == [];
    } else if |docs| == 2 {
      FlattenFew(docs[..1]);
    }
  }

  ghost predicate AllUndivided(docs: seq<seq<Line>>) {
    forall i :: 0 <= i < |docs| ==> Undivided(docs[i])
  }

  ghost predicate Tiles(docs: seq<seq<Line>>, ls: seq<Line>) {
    Flatten(docs) == ls && AllUndivided(docs)
  }

  lemma TilesOneMore(docs: seq<seq<Line>>, front: seq<Line>, d: seq<Line>)
    requires Tiles(docs, front) && Undivided(d)
    ensures Tiles(docs + [d], front + d)
  {
    FlattenLast(docs, d);
  }

  /** The documents tile the payload, and none of them is empty or divides further. */
  lemma {:induction false} DocsTile(ls: seq<Line>)
    ensures Tiles(Docs(ls), ls)
  {
    if ls != [] {
      var s := LastBoundary(ls, |ls| - 1);
      var front, d := ls[..s], ls[s..];
      DocsTile(front);
      LastUndivided(ls);
      TilesOneMore(Docs(front), front, d);
      assert front + d == ls;
    }
  }

  // ---- Lines that do not start a document go to the one before ----

  ghost predicate NoStart(z: seq<Line>) {
    forall j :: 0 <= j < |z| ==> z[j].mark != DocStart
  }

  lemma {:induction false} OpensNoStart(x: seq<Line>, z: seq<Line>, j: nat)
    requires NoStart(z)
    ensures Opens(x + z, j) <==> Opens(x, j)
    decreases |x + z| - j
  {
    if j < |x + z| {
      OpensNoStart(x, z, j + 1);
    }
  }

  /** The text of a document starts where it did, if what is appended does not open it. */
  lemma BodyStartKept(x: seq<Line>, z: seq<Line>)
    requires Opens(x + z, 0) <==> Opens(x, 0)
    ensures BodyStart(x + z) == BodyStart(x)
  {
    if Opens(x, 0) {
      OpeningAt(x + z, 0, OpeningLine(x, 0));
    }
  }

  /** The last of some documents, extended. */
  function Glued(docs: seq<seq<Line>>, z: seq<Line>): seq<seq<Line>>
    requires docs != []
  {
    docs[..|docs| - 1] + [docs[|docs| - 1] + z]
  }

  ghost predicate Trailing(x: seq<Line>, z: seq<Line>) {
    && x != [] && x[|x| - 1].mark != DocEnd && z != [] && NoStart(z)
    && forall j :: 0 <= j < |z| - 1 ==> z[j].mark != DocEnd
  }

  lemma TrailingBoundary(x: seq<Line>, z: seq<Line>)
    requires Trailing(x, z)
    ensures LastBoundary(x + z, |x + z| - 1) == LastBoundary(x, |x| - 1)
  {
    var s := LastBoundary(x, |x| - 1);
    OpensNoStart(x, z, s);
    forall j | s < j < |x + z| ensures !Boundary(x + z, j) {
      OpensNoStart(x, z, j);
      assert j > |x| ==> (x + z)[j - 1] == z[j - 1 - |x|];
      assert j < |x| ==> !Boundary(x, j);
    }
    LastBoundaryIs(x + z, |x + z| - 1, s);
  }

  lemma GluedDocs(x: seq<Line>, z: seq<Line>)
    requires Trailing(x, z)
    ensures Docs(x) != [] && Docs(x + z) == Glued(Docs(x), z)
  {
    var s := LastBoundary(x, |x| - 1);
    var front, d := x[..s], x[s..];
    TrailingBoundary(x, z);
    assert x == front + d;
    Associates(front, d, z);
    DocsSplit(front, d);
    DocsSplit(front, d + z);
  }

  // ---- The backward scan ----

  datatype ExtractedDoc = ExtractedDoc(doc: seq<Line>, realStart: int, realEnd: int)

  function Extracted(doc: seq<Line>): ExtractedDoc {
    ExtractedDoc(doc, BodyStart(doc), BodyEnd(doc))
  }

  lemma {:induction false} NoOpening(ls: seq<Line>, p: nat)
    requires forall j :: p <= j < |ls| ==> ls[j].mark != DocStart
    ensures !Opens(ls, p)
    decreases |ls| - p
  {
    if p < |ls| {
      NoOpening(ls, p + 1);
    }
  }

  lemma {:induction false} OpeningAt(ls: seq<Line>, p: nat, q: nat)
    requires p <= q < |ls| && ls[q].mark == DocStart && forall j :: p <= j < q ==> ls[j].mark == Directive
    ensures Opens(ls, p) && OpeningLine(ls, p) == q
    decreases q - p
  {
    if p < q {
      OpeningAt(ls, p + 1, q);
    }
  }

  lemma BodyEndOf(ls: seq<Line>, s: nat)
    requires s < |ls|
    ensures BodyEnd(ls[s..]) == (if ls[|ls| - 1].mark == DocEnd then |ls| - 1 else |ls|) - s
    ensures BodyStart(ls[s..]) <= BodyEnd(ls[s..]) <= |ls| - s
  {
  }

  lemma LastBoundaryIs(ls: seq<Line>, p: nat, s: nat)
    requires s <= p < |ls| && Boundary(ls, s) && forall j :: s < j <= p ==> !Boundary(ls, j)
    ensures LastBoundary(ls, p) == s
  {
    assert Boundary(ls, LastBoundary(ls, p));
  }

  /** The scan met the opening line `q` and the directives from `s` on. */
  ghost predicate MetOpening(ls: seq<Line>, s: nat, q: nat) {
    && s <= q < |ls| && ls[q].mark == DocStart
    && (forall j :: s <= j < q ==> ls[j].mark == Directive)
    && (s == 0 || ls[s - 1].mark != Directive)
    && (forall j :: q < j < |ls| ==> ls[j].mark != DocStart && (j < |ls| - 1 ==> ls[j].mark != DocEnd))
  }

  lemma NoneAfterOpening(ls: seq<Line>, s: nat, q: nat, j: nat)
    requires MetOpening(ls, s, q) && s < j < |ls|
    ensures !Boundary(ls, j)
  {
    if j > q {
      NoOpening(ls, j);
    }
  }

  lemma OpeningBody(ls: seq<Line>, s: nat, q: nat)
    requires MetOpening(ls, s, q)
    ensures BodyStart(ls[s..]) == q + 1 - s
  {
    var d := ls[s..];
    assert forall j :: 0 <= j < |d| ==> d[j] == ls[s + j];
    OpeningAt(d, 0, q - s);
  }

  /** That is the last document. */
  lemma FoundOpening(ls: seq<Line>, s: nat, q: nat)
    requires MetOpening(ls, s, q)
    ensures LastBoundary(ls, |ls| - 1) == s && BodyStart(ls[s..]) == q + 1 - s
  {
    OpeningAt(ls, s, q);
    forall j | s < j < |ls| ensures !Boundary(ls, j) {
      NoneAfterOpening(ls, s, q, j);
    }
    LastBoundaryIs(ls, |ls| - 1, s);
    OpeningBody(ls, s, q);
  }

  /** The scan met no opening line before the front or the previous closing line. */
  lemma FoundNoOpening(ls: seq<Line>, s: nat)
    requires s < |ls| && (s == 0 || ls[s - 1].mark == DocEnd)
    requires forall j :: s <= j < |ls| ==> ls[j].mark != DocStart && (j < |ls| - 1 ==> ls[j].mark != DocEnd)
    ensures LastBoundary(ls, |ls| - 1) == s && BodyStart(ls[s..]) == 0
  {
    forall j | s < j < |ls| ensures !Boundary(ls, j) {
      NoOpening(ls, j);
    }
    LastBoundaryIs(ls, |ls| - 1, s);
    NoOpening(ls[s..], 0);
  }

  /** Below `start` nothing is known yet; above it there is no opening line, and a closing line only at the end. */
  ghost predicate Passed(lines: seq<Line>, start: int)
    requires -1 <= start
  {
    forall j :: start < j < |lines| ==> lines[j].mark != DocStart && (j < |lines| - 1 ==> lines[j].mark != DocEnd)
  }

  /** The first loop of the scan: back to an opening line, or to just after a closing line, or past the front. */
  method ScanBack(lines: seq<Line>, last: int) returns (start: int, docStartFound: bool)
    requires lines != [] && last == if lines[|lines| - 1].mark == DocEnd then |lines| - 2 else |lines| - 1
    ensures -1 <= start < |lines|
    ensures docStartFound ==> 0 <= start && lines[start].mark == DocStart && Passed(lines, start)
    ensures !docStartFound ==> start == -1 || (0 < start && lines[start - 1].mark == DocEnd)
    ensures !docStartFound ==> Passed(lines, if start == -1 then -1 else start - 1)
  {
    start := last;
    while start >= 0
      invariant -1 <= start <= last && Passed(lines, start)
    {
      if lines[start].mark == DocStart {
        return start, true;
      }
      if lines[start].mark == DocEnd {
        return start + 1, false;
      }
      start := start - 1;
    }
    return start, false;
  }

  /** The second loop: back over the directives in front of the opening line `q`. */
  method BackOverDirectives(lines: seq<Line>, q: nat) returns (start: nat)
    requires q < |lines|
    ensures start <= q && forall j :: start <= j < q ==> lines[j].mark == Directive
    ensures start == 0 || lines[start - 1].mark != Directive
  {
    var i := q - 1;
    while i >= 0
      invariant -1 <= i < q
      invariant forall j :: i < j < q ==> lines[j].mark == Directive
    {
      if lines[i].mark != Directive {
        break;
      }
      i := i - 1;
    }
    start := i + 1;
  }

  /** The last document of `lines` and where it starts. */
  method FindDocument(lines: seq<Line>) returns (doc: ExtractedDoc, endOfNextDoc: nat)
    requires lines != []
    ensures endOfNextDoc == LastBoundary(lines, |lines| - 1) < |lines|
    ensures doc == Extracted(lines[endOfNextDoc..])
    ensures 0 <= doc.realStart <= doc.realEnd <= |doc.doc|
  {
    var realStart, realEnd := 0, 0;
    var docEndFound := false;
    var start := |lines| - 1;
    if lines[start].mark == DocEnd {
      docEndFound := true;
      realEnd := start;
      start := start - 1;
    }
    var docStartFound;
    start, docStartFound := ScanBack(lines, start);
    if docStartFound {
      ghost var q := start;
      realStart := start + 1;
      start := BackOverDirectives(lines, start);
      FoundOpening(lines, start, q);
    } else {
      if start < 0 {
        start := 0;
      }
      realStart := start;
      FoundNoOpening(lines, start);
    }
    if !docEndFound {
      realEnd := |lines|;
    }
    realStart := realStart - start;
    realEnd := realEnd - start;
    doc, endOfNextDoc := ExtractedDoc(lines[start..], realStart, realEnd), start;
    BodyEndOf(lines, start);
  }
}
