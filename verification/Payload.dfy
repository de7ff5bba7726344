/**
  The launcher's side of the START payload: a command, the workload's configuration and the
  instance metadata are recovered from the documents of the payload.
  */
module Payload {
  import opened Documents

  /** What the launcher gets out of a payload. */
  datatype Parts = Parts(start: seq<Line>, user: seq<Line>, meta: seq<Line>)

  /** Position of the first `start:` line, or -1. */
  function FoundStart(lines: seq<Line>): (f: int)
    ensures -1 <= f < |lines|
    ensures f >= 0 ==> lines[f].startKey && forall j :: 0 <= j < f ==> !lines[j].startKey
    ensures f == -1 ==> forall j :: 0 <= j < |lines| ==> !lines[j].startKey
  {
    if lines == [] then -1
    else
      var last := |lines| - 1;
      var f := FoundStart(lines[..last]);
      if f == -1 && lines[last].startKey then last else f
  }

  /** Past the first opening line before `start`, or 0. */
  function PastOpening(lines: seq<Line>, start: nat, i: nat): (c: nat)
    requires i <= start <= |lines|
    ensures c <= start
    decreases start - i
  {
    if i == start then 0 else if lines[i].mark == DocStart then i + 1 else PastOpening(lines, start, i + 1)
  }

  /** End of the run of indented or empty lines that starts at `i`. */
  function RunEnd(lines: seq<Line>, i: nat): (e: nat)
    requires i <= |lines|
    ensures i <= e <= |lines|
    decreases |lines| - i
  {
    if i < |lines| && (lines[i].indented || lines[i].text == "") then RunEnd(lines, i + 1) else i
  }

  /** The `start:` mapping at line `start`, and the rest of its document. */
  function StartParts(lines: seq<Line>, start: nat): (seq<Line>, seq<Line>)
    requires start < |lines|
  {
    var e := RunEnd(lines, start + 1);
    var rest := if e < |lines| && lines[e].mark != DocEnd then lines[e..] else [];
    (lines[start..e], lines[PastOpening(lines, start, 0)..start] + rest)
  }

  method ExtractStartYaml(lines: seq<Line>, start: nat) returns (s: seq<Line>, ci: seq<Line>)
    requires start < |lines|
    ensures (s, ci) == StartParts(lines, start)
  {
    var cnStart := 0;
    var docStartFound := false;
    while cnStart < start
      invariant cnStart <= start && !docStartFound
      invariant PastOpening(lines, start, 0) == PastOpening(lines, start, cnStart)
    {
      if lines[cnStart].mark == DocStart {
        docStartFound := true;
        cnStart := cnStart + 1;
        break;
      }
      cnStart := cnStart + 1;
    }
    if !docStartFound {
      cnStart := 0;
    }
    ci := lines[cnStart..start];
    assert ci + [] == ci;
    s := [];
    var i := start;
    if i < |lines| {
      s := s + [lines[i]];
      i := i + 1;
    }
    while i < |lines| && (lines[i].indented || lines[i].text == "")
      invariant start < i <= |lines| && s == lines[start..i]
      invariant RunEnd(lines, start + 1) == RunEnd(lines, i)
    {
      s := s + [lines[i]];
      i := i + 1;
    }
    if i < |lines| && lines[i].mark != DocEnd {
      ci := ci + lines[i..];
    }
  }

  lemma DocLengths(lines: seq<Line>)
    ensures lines == [] <==> Docs(lines) == []
    ensures |Docs(lines)| == 1 ==> Docs(lines)[0] == lines
    ensures |Docs(lines)| == 2 ==> |Docs(lines)[0]| + |Docs(lines)[1]| == |lines|
  {
    DocsTile(lines);
    FlattenFew(Docs(lines));
  }

  /** A payload of one document; `f` is its `start:` line, if it has one. */
  function OfOne(d: seq<Line>, f: int): Parts
    requires f < |d|
  {
    if f >= 0 then
      var (s, ci) := StartParts(d, f); Parts(s, ci, [])
    else
      Parts([], Body(d), [])
  }

  /** Of two: the one without the `start:` line is metadata. */
  function OfTwo(a: seq<Line>, b: seq<Line>, f: int): Parts
    requires f < |a| + |b|
  {
    if f < 0 then
      Parts([], Body(a), Body(b))
    else if f < |a| then
      var (s, ci) := StartParts(a, f); Parts(s, ci, Body(b))
    else
      var (s, ci) := StartParts(b, f - |a|); Parts(s, ci, Body(a))
  }

  /** Of three or more, the first three count. */
  function OfThree(a: seq<Line>, b: seq<Line>, c: seq<Line>, f: int): Parts {
    if f < 0 then Parts([], [], [])
    else if f < |a| then Parts(Body(a), Body(b), Body(c))
    else if f < |a| + |b| then Parts(Body(b), Body(a), Body(c))
    else if f < |a| + |b| + |c| then Parts(Body(c), Body(a), Body(b))
    else Parts([], [], [])
  }

  /** What a payload splits into, case by case on its documents. */
  function Split(lines: seq<Line>): Parts {
    DocLengths(lines);
    var docs, f := Docs(lines), FoundStart(lines);
    if docs == [] then Parts([], [], [])
    else if |docs| == 1 then OfOne(docs[0], f)
    else if |docs| == 2 then OfTwo(docs[0], docs[1], f)
    else OfThree(docs[0], docs[1], docs[2], f)
  }

  method ExtractDocument(doc: ExtractedDoc) returns (text: seq<Line>)
    requires doc == Extracted(doc.doc)
    ensures text == Body(doc.doc)
  {
    BodyWithin(doc.doc);
    text := doc.doc[doc.realStart..doc.realEnd];
  }

  /** What has been extracted are the documents `found`. */
  ghost predicate AllExtracted(docs: seq<ExtractedDoc>, found: seq<seq<Line>>) {
    |docs| == |found| && forall i :: 0 <= i < |docs| ==> docs[i] == Extracted(found[i])
  }

  /** The documents of `front` are still to be found, and those after them have been. */
  ghost predicate Collecting(all: seq<seq<Line>>, front: seq<Line>, docs: seq<ExtractedDoc>, found: seq<seq<Line>>) {
    AllExtracted(docs, found) && Docs(front) + found == all
  }

  lemma OneMoreExtracted(docs: seq<ExtractedDoc>, found: seq<seq<Line>>, d: seq<Line>)
    requires AllExtracted(docs, found)
    ensures AllExtracted([Extracted(d)] + docs, [d] + found)
  {
  }

  lemma OneMoreFound(front: seq<Line>, found: seq<seq<Line>>, s: nat)
    requires front != [] && s == LastBoundary(front, |front| - 1)
    ensures Docs(front) + found == Docs(front[..s]) + ([front[s..]] + found)
  {
    var before, d := Docs(front[..s]), front[s..];
    assert Docs(front) == before + [d];
    Associates(before, [d], found);
  }

  /** One round of the backward loop: the last document of `front` goes to those found. */
  lemma CollectedOneMore(all: seq<seq<Line>>, front: seq<Line>, docs: seq<ExtractedDoc>, found: seq<seq<Line>>, s: nat)
    requires front != [] && s == LastBoundary(front, |front| - 1)
    ensures Collecting(all, front, docs, found) ==>
              Collecting(all, front[..s], [Extracted(front[s..])] + docs, [front[s..]] + found)
  {
    if Collecting(all, front, docs, found) {
      OneMoreExtracted(docs, found, front[s..]);
      OneMoreFound(front, found, s);
    }
  }

  /** The backward loop over the payload, collecting documents from the last to the first. */
  method CollectDocs(lines: seq<Line>) returns (docs: seq<ExtractedDoc>)
    ensures AllExtracted(docs, Docs(lines))
  {
    docs := [];
    ghost var found: seq<seq<Line>> := [];
    var endOfNextDoc: nat := |lines|;
    assert lines[..endOfNextDoc] == lines && Docs(lines) + [] == Docs(lines);
    while endOfNextDoc > 0
      invariant endOfNextDoc <= |lines|
      invariant Collecting(Docs(lines), lines[..endOfNextDoc], docs, found)
    {
      ghost var front := lines[..endOfNextDoc];
      var doc;
      doc, endOfNextDoc := FindDocument(lines[..endOfNextDoc]);
      CollectedOneMore(Docs(lines), front, docs, found, endOfNextDoc);
      docs := [doc] + docs;
      found := [front[endOfNextDoc..]] + found;
      assert front[..endOfNextDoc] == lines[..endOfNextDoc];
    }
    assert Docs(lines[..0]) + found == found;
  }

  /** The scan for the first `start:` line, as the lines are read. */
  method ReadLines(input: seq<Line>) returns (lines: seq<Line>, foundStart: int)
    ensures lines == input && foundStart == FoundStart(input)
  {
    foundStart := -1;
    lines := [];
    for i := 0 to |input|
      invariant lines == input[..i] && foundStart == FoundStart(lines)
    {
      var line := input[i];
      if foundStart == -1 && line.startKey {
        foundStart := |lines|;
      }
      lines := lines + [line];
      assert lines[..i] == input[..i];
    }
  }

  method SplitYaml(input: seq<Line>) returns (s: seq<Line>, ci: seq<Line>, md: seq<Line>)
    ensures Parts(s, ci, md) == Split(input)
  {
    s, ci, md := [], [], [];
    var lines, foundStart := ReadLines(input);
    DocLengths(lines);
    var docs := CollectDocs(lines);
    if |docs| == 1 {
      if foundStart != -1 {
        s, ci := ExtractStartYaml(docs[0].doc, foundStart);
      } else {
        ci := ExtractDocument(docs[0]);
      }
    } else if |docs| == 2 {
      s, ci, md := SplitTwo(docs[0], docs[1], foundStart);
    } else if foundStart != -1 && foundStart < |docs[0].doc| + |docs[1].doc| + |docs[2].doc| {
      s, ci, md := SplitThree(docs, foundStart);
    }
  }

  method SplitTwo(a: ExtractedDoc, b: ExtractedDoc, foundStart: int)
      returns (s: seq<Line>, ci: seq<Line>, md: seq<Line>)
    requires a == Extracted(a.doc) && b == Extracted(b.doc) && -1 <= foundStart < |a.doc| + |b.doc|
    ensures Parts(s, ci, md) == OfTwo(a.doc, b.doc, foundStart)
  {
    s, ci, md := [], [], [];
    if foundStart != -1 {
      if foundStart < |a.doc| {
        s, ci := ExtractStartYaml(a.doc, foundStart);
        md := ExtractDocument(b);
      } else {
        s, ci := ExtractStartYaml(b.doc, foundStart - |a.doc|);
        md := ExtractDocument(a);
      }
    } else {
      ci := ExtractDocument(a);
      md := ExtractDocument(b);
    }
  }

  /** The document with the `start:` line is the command; the other two are configuration and metadata. */
  method SplitThree(docs: seq<ExtractedDoc>, foundStart: nat) returns (s: seq<Line>, ci: seq<Line>, md: seq<Line>)
    requires |docs| >= 3 && forall i :: 0 <= i < 3 ==> docs[i] == Extracted(docs[i].doc)
    requires foundStart < |docs[0].doc| + |docs[1].doc| + |docs[2].doc|
    ensures Parts(s, ci, md) == OfThree(docs[0].doc, docs[1].doc, docs[2].doc, foundStart)
  {
    s := [];
    var notStart := [];
    var sum := 0;
    ghost var at := [0, |docs[0].doc|, |docs[0].doc| + |docs[1].doc|, |docs[0].doc| + |docs[1].doc| + |docs[2].doc|];
    ghost var k: nat := 3;
    for i := 0 to 3
      invariant sum == at[i] && (k < i || k == 3)
      invariant k == 3 ==> foundStart >= sum && notStart == docs[..i]
      invariant k < 3 ==> at[k] <= foundStart < at[k + 1] <= sum
      invariant k < 3 ==> s == Body(docs[k].doc) && notStart == docs[..k] + docs[k + 1..i]
    {
      var newSum := sum + |docs[i].doc|;
      if foundStart >= sum && foundStart < newSum {
        s := ExtractDocument(docs[i]);
        k := i;
      } else {
        notStart := notStart + [docs[i]];
        assert docs[..i + 1] == docs[..i] + [docs[i]];
        assert k < 3 ==> docs[k + 1..i + 1] == docs[k + 1..i] + [docs[i]];
      }
      sum := newSum;
    }
    ci := ExtractDocument(notStart[0]);
    md := ExtractDocument(notStart[1]);
  }
}
