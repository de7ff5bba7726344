/**
  Payloads in other arrangements than the controller's: the START document may come in any
  place among the first three, or its key within a document, and payloads without one.
  */
module Arrangements {
  import opened Documents
  import opened Payload
  import opened Delivery

  // ---- The key within a document ----

  /** Lines that end a mapping: none, or the first is not nested. */
  ghost predicate EndsNesting(post: seq<Line>) {
    post == [] || (!post[0].indented && post[0].text != "")
  }

  ghost predicate AllNested(nested: seq<Line>) {
    forall j :: 0 <= j < |nested| ==> nested[j].indented || nested[j].text == ""
  }

  /**
    A document that is opened, with the key somewhere in it: the key and the lines nested under
    it are the command, and what is before and behind them is the configuration, unless the
    document is closed right there.
    */
  lemma KeyWithin(open: Line, pre: seq<Line>, key: Line, nested: seq<Line>, post: seq<Line>)
    requires open.mark == DocStart && AllNested(nested) && EndsNesting(post)
    ensures StartParts([open] + pre + [key] + nested + post, 1 + |pre|) ==
            ([key] + nested, pre + if post != [] && post[0].mark != DocEnd then post else [])
  {
    var d, k := [open] + pre + [key] + nested + post, 1 + |pre|;
    var e := k + 1 + |nested|;
    assert d[0] == open && PastOpening(d, k, 0) == 1;
    assert forall j :: k + 1 <= j < e ==> d[j] == nested[j - k - 1];
    assert post != [] ==> d[e] == post[0];
    RunIs(d, k + 1, e);
    assert d[k..e] == [key] + nested && d[1..k] == pre && d[e..] == post;
  }

  lemma {:induction false} RunIs(d: seq<Line>, i: nat, e: nat)
    requires i <= e <= |d| && forall j :: i <= j < e ==> d[j].indented || d[j].text == ""
    requires e < |d| ==> !d[e].indented && d[e].text != ""
    ensures RunEnd(d, i) == e
    decreases e - i
  {
    if i < e {
      RunIs(d, i + 1, e);
    }
  }

  lemma {:induction false} NoPastOpening(d: seq<Line>, start: nat, i: nat)
    requires i <= start <= |d| && forall j :: i <= j < start ==> d[j].mark != DocStart
    ensures PastOpening(d, start, i) == 0
    decreases start - i
  {
    if i < start {
      NoPastOpening(d, start, i + 1);
    }
  }

  /** A document that is not opened is taken from its front. */
  lemma KeyWithinUnopened(pre: seq<Line>, key: Line, nested: seq<Line>, post: seq<Line>)
    requires NoStart(pre) && AllNested(nested) && EndsNesting(post)
    ensures StartParts(pre + [key] + nested + post, |pre|) ==
            ([key] + nested, pre + if post != [] && post[0].mark != DocEnd then post else [])
  {
    var d, k := pre + [key] + nested + post, |pre|;
    var e := k + 1 + |nested|;
    assert forall j :: 0 <= j < k ==> d[j] == pre[j];
    NoPastOpening(d, k, 0);
    assert forall j :: k + 1 <= j < e ==> d[j] == nested[j - k - 1];
    assert post != [] ==> d[e] == post[0];
    RunIs(d, k + 1, e);
    assert d[k..e] == [key] + nested && d[0..k] == pre && d[e..] == post;
  }

  // ---- Documents in any order ----

  /** A text between markers. */
  function Doc(x: seq<Line>): seq<Line> {
    Wrap([], Open(), x)
  }

  lemma DocIsOne(x: seq<Line>)
    requires Unmarked(x)
    ensures Docs(Doc(x)) == [Doc(x)]
  {
    WrapIsDocument([], Open(), x);
  }

  lemma DocShape(x: seq<Line>)
    ensures Body(Doc(x)) == x && |Doc(x)| == |x| + 2 && Doc(x)[|x| + 1].mark == DocEnd
  {
    WrapOpens([], Open(), x);
    WrapShape([], Open(), x);
  }

  /** One more document behind others. */
  lemma DocsThen(front: seq<Line>, x: seq<Line>)
    requires front != [] && front[|front| - 1].mark == DocEnd && Unmarked(x)
    ensures Docs(front + Doc(x)) == Docs(front) + [Doc(x)]
  {
    DocIsOne(x);
    AfterClosing(front, Doc(x));
  }

  lemma TwoDocsOf(x: seq<Line>, y: seq<Line>)
    requires Unmarked(x) && Unmarked(y)
    ensures Docs(Doc(x) + Doc(y)) == [Doc(x), Doc(y)]
  {
    DocIsOne(x);
    DocShape(x);
    DocsThen(Doc(x), y);
  }

  lemma ThreeDocsOf(x: seq<Line>, y: seq<Line>, z: seq<Line>)
    requires Unmarked(x) && Unmarked(y) && Unmarked(z)
    ensures Docs(Doc(x) + Doc(y) + Doc(z)) == [Doc(x), Doc(y), Doc(z)]
  {
    TwoDocsOf(x, y);
    DocShape(y);
    DocsThen(Doc(x) + Doc(y), z);
  }

  lemma FourDocsOf(x: seq<Line>, y: seq<Line>, z: seq<Line>, c: seq<Line>)
    requires Unmarked(x) && Unmarked(y) && Unmarked(z) && Unmarked(c)
    ensures Docs(Doc(x) + Doc(y) + Doc(z) + Doc(c)) == [Doc(x), Doc(y), Doc(z), Doc(c)]
  {
    ThreeDocsOf(x, y, z);
    DocShape(z);
    DocsThen(Doc(x) + Doc(y) + Doc(z), c);
  }

  // What a payload splits into, given its documents.

  lemma SplitOne(lines: seq<Line>, d: seq<Line>)
    requires Docs(lines) == [d] && FoundStart(lines) < |d|
    ensures Split(lines) == OfOne(d, FoundStart(lines))
  {
  }

  lemma SplitTwoOf(lines: seq<Line>, a: seq<Line>, b: seq<Line>)
    requires Docs(lines) == [a, b] && FoundStart(lines) < |a| + |b|
    ensures Split(lines) == OfTwo(a, b, FoundStart(lines))
  {
  }

  lemma SplitThreeOf(lines: seq<Line>, a: seq<Line>, b: seq<Line>, c: seq<Line>, more: seq<seq<Line>>)
    requires Docs(lines) == [a, b, c] + more
    ensures Split(lines) == OfThree(a, b, c, FoundStart(lines))
  {
    assert Docs(lines)[0] == a && Docs(lines)[1] == b && Docs(lines)[2] == c;
  }

  ghost predicate NoKey(x: seq<Line>) {
    forall i :: 0 <= i < |x| ==> !x[i].startKey
  }

  /** A command: its first line is the key. */
  ghost predicate IsCommand(x: seq<Line>) {
    Unmarked(x) && x != [] && x[0].startKey
  }

  lemma DocKeys(x: seq<Line>)
    ensures NoKey(x) <==> NoKey(Doc(x))
    ensures x != [] ==> Doc(x)[1] == x[0]
    ensures Doc(x)[0] == Open()
  {
    WrapShape([], Open(), x);
    if NoKey(Doc(x)) {
      forall i | 0 <= i < |x| ensures !x[i].startKey {
        assert Doc(x)[0 + 1 + i] == x[i];
      }
    } else {
      var i :| 0 <= i < |Doc(x)| && Doc(x)[i].startKey;
      WrapAt([], Open(), x, i);
    }
  }

  /** Where the first key is, when it is that of a command behind lines without one. */
  lemma KeyBehind(front: seq<Line>, x: seq<Line>, rest: seq<Line>)
    requires NoKey(front) && IsCommand(x)
    ensures FoundStart(front + Doc(x) + rest) == |front| + 1
  {
    var all := front + Doc(x) + rest;
    DocKeys(x);
    WrapShape([], Open(), x);
    assert all[|front|] == Open() && all[|front| + 1] == x[0];
    assert forall i :: 0 <= i < |front| ==> all[i] == front[i];
  }

  lemma KeyFirst(x: seq<Line>, rest: seq<Line>)
    requires IsCommand(x)
    ensures FoundStart(Doc(x) + rest) == 1
  {
    DocKeys(x);
    WrapShape([], Open(), x);
    assert (Doc(x) + rest)[0] == Open() && (Doc(x) + rest)[1] == x[0];
  }

  lemma NoKeyFound(lines: seq<Line>)
    requires NoKey(lines)
    ensures FoundStart(lines) == -1
  {
  }

  lemma NoKeyConcat(a: seq<Line>, b: seq<Line>)
    requires NoKey(a) && NoKey(b)
    ensures NoKey(a + b)
  {
  }

  lemma OneShape(x: seq<Line>)
    requires Unmarked(x)
    ensures Split(Doc(x)) == OfOne(Doc(x), FoundStart(Doc(x)))
  {
    DocIsOne(x);
    SplitOne(Doc(x), Doc(x));
  }

  /** One document: a command. */
  lemma CommandAlone(x: seq<Line>)
    requires IsCommand(x) && Nested(x)
    ensures Split(Doc(x)) == Parts(x, [], [])
  {
    OneShape(x);
    DocShape(x);
    assert Doc(x) + [] == Doc(x);
    KeyFirst(x, []);
    StartAlone(x);
  }

  /** Or a configuration. */
  lemma ConfigurationAlone(x: seq<Line>)
    requires Unmarked(x) && NoKey(x)
    ensures Split(Doc(x)) == Parts([], x, [])
  {
    OneShape(x);
    DocShape(x);
    DocKeys(x);
  }

  /** Two: the command may come first or second, and the other is metadata. */
  lemma CommandFirstOfTwo(x: seq<Line>, y: seq<Line>)
    requires IsCommand(x) && Nested(x) && Unmarked(y)
    ensures Split(Doc(x) + Doc(y)) == Parts(x, [], y)
  {
    TwoDocsOf(x, y);
    SplitTwoOf(Doc(x) + Doc(y), Doc(x), Doc(y));
    DocShape(x);
    DocShape(y);
    KeyFirst(x, Doc(y));
    StartAlone(x);
  }

  lemma CommandSecondOfTwo(x: seq<Line>, y: seq<Line>)
    requires IsCommand(x) && Nested(x) && Unmarked(y) && NoKey(y)
    ensures Split(Doc(y) + Doc(x)) == Parts(x, [], y)
  {
    TwoDocsOf(y, x);
    SplitTwoOf(Doc(y) + Doc(x), Doc(y), Doc(x));
    DocShape(x);
    DocShape(y);
    DocKeys(y);
    assert Doc(y) + Doc(x) + [] == Doc(y) + Doc(x);
    KeyBehind(Doc(y), x, []);
    StartAlone(x);
  }

  /** Two without a command: configuration and metadata. */
  lemma NoCommandOfTwo(x: seq<Line>, y: seq<Line>)
    requires Unmarked(x) && Unmarked(y) && NoKey(x) && NoKey(y)
    ensures Split(Doc(x) + Doc(y)) == Parts([], x, y)
  {
    TwoDocsOf(x, y);
    SplitTwoOf(Doc(x) + Doc(y), Doc(x), Doc(y));
    DocShape(x);
    DocShape(y);
    DocKeys(x);
    DocKeys(y);
    NoKeyConcat(Doc(x), Doc(y));
  }

  lemma ThreeShape(x: seq<Line>, y: seq<Line>, z: seq<Line>)
    requires Unmarked(x) && Unmarked(y) && Unmarked(z)
    ensures var lines := Doc(x) + Doc(y) + Doc(z); Split(lines) == OfThree(Doc(x), Doc(y), Doc(z), FoundStart(lines))
  {
    ThreeDocsOf(x, y, z);
    assert [Doc(x), Doc(y), Doc(z)] == [Doc(x), Doc(y), Doc(z)] + [];
    SplitThreeOf(Doc(x) + Doc(y) + Doc(z), Doc(x), Doc(y), Doc(z), []);
  }

  /** Three: the command may come in any place; the other two are configuration and metadata in their order. */
  lemma CommandFirstOfThree(x: seq<Line>, y: seq<Line>, z: seq<Line>)
    requires IsCommand(x) && Unmarked(y) && Unmarked(z)
    ensures Split(Doc(x) + Doc(y) + Doc(z)) == Parts(x, y, z)
  {
    ThreeShape(x, y, z);
    DocShape(x);
    DocShape(y);
    DocShape(z);
    Associates(Doc(x), Doc(y), Doc(z));
    KeyFirst(x, Doc(y) + Doc(z));
  }

  lemma CommandSecondOfThree(x: seq<Line>, y: seq<Line>, z: seq<Line>)
    requires IsCommand(x) && Unmarked(y) && Unmarked(z) && NoKey(y)
    ensures Split(Doc(y) + Doc(x) + Doc(z)) == Parts(x, y, z)
  {
    ThreeShape(y, x, z);
    DocShape(x);
    DocShape(y);
    DocShape(z);
    DocKeys(y);
    KeyBehind(Doc(y), x, Doc(z));
  }

  lemma CommandThirdOfThree(x: seq<Line>, y: seq<Line>, z: seq<Line>)
    requires IsCommand(x) && Unmarked(y) && Unmarked(z) && NoKey(y) && NoKey(z)
    ensures Split(Doc(y) + Doc(z) + Doc(x)) == Parts(x, y, z)
  {
    ThreeShape(y, z, x);
    DocShape(x);
    DocShape(y);
    DocShape(z);
    DocKeys(y);
    DocKeys(z);
    NoKeyConcat(Doc(y), Doc(z));
    assert Doc(y) + Doc(z) + Doc(x) + [] == Doc(y) + Doc(z) + Doc(x);
    KeyBehind(Doc(y) + Doc(z), x, []);
  }

  lemma NoKeyThree(x: seq<Line>, y: seq<Line>, z: seq<Line>)
    requires NoKey(x) && NoKey(y) && NoKey(z)
    ensures NoKey(Doc(x) + Doc(y) + Doc(z))
  {
    DocKeys(x);
    DocKeys(y);
    DocKeys(z);
    NoKeyConcat(Doc(x), Doc(y));
    NoKeyConcat(Doc(x) + Doc(y), Doc(z));
  }

  /** Three without a command: nothing. */
  lemma NoCommandOfThree(x: seq<Line>, y: seq<Line>, z: seq<Line>)
    requires Unmarked(x) && Unmarked(y) && Unmarked(z) && NoKey(x) && NoKey(y) && NoKey(z)
    ensures Split(Doc(x) + Doc(y) + Doc(z)) == Parts([], [], [])
  {
    ThreeShape(x, y, z);
    NoKeyThree(x, y, z);
  }

  lemma FourShape(x: seq<Line>, y: seq<Line>, z: seq<Line>, c: seq<Line>)
    requires Unmarked(x) && Unmarked(y) && Unmarked(z) && Unmarked(c)
    ensures var lines := Doc(x) + Doc(y) + Doc(z) + Doc(c);
            Split(lines) == OfThree(Doc(x), Doc(y), Doc(z), FoundStart(lines))
  {
    FourDocsOf(x, y, z, c);
    assert [Doc(x), Doc(y), Doc(z), Doc(c)] == [Doc(x), Doc(y), Doc(z)] + [Doc(c)];
    SplitThreeOf(Doc(x) + Doc(y) + Doc(z) + Doc(c), Doc(x), Doc(y), Doc(z), [Doc(c)]);
  }

  /** A command behind three other documents is not found. */
  lemma CommandTooLate(x: seq<Line>, y: seq<Line>, z: seq<Line>, c: seq<Line>)
    requires Unmarked(x) && Unmarked(y) && Unmarked(z) && NoKey(x) && NoKey(y) && NoKey(z) && IsCommand(c)
    ensures Split(Doc(x) + Doc(y) + Doc(z) + Doc(c)) == Parts([], [], [])
  {
    var front := Doc(x) + Doc(y) + Doc(z);
    FourShape(x, y, z, c);
    NoKeyThree(x, y, z);
    assert front + Doc(c) + [] == front + Doc(c);
    KeyBehind(front, c, []);
  }

  /** No payload, nothing. */
  lemma EmptyPayload()
    ensures Split([]) == Parts([], [], [])
  {
  }
}
