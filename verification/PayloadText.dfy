/**
  The START payload as text: how the controller's string becomes the lines the launcher
  classifies, and what arrives, from strings to strings, for every base configuration.
  */
module PayloadText {
  import opened Documents
  import opened Payload
  import opened Delivery

  // ---- Classifying a line: its prefixes and the two regular expressions ----

  predicate IsSpace(c: char) {
    c == ' ' || c == '\t' || c == '\n' || c == '\U{000C}' || c == '\r'
  }

  predicate Blank(t: string) {
    forall i :: 0 <= i < |t| ==> IsSpace(t[i])
  }

  /** `^start\s*:\s*$` */
  predicate IsStartKey(t: string) {
    "start" <= t && exists k :: 5 <= k < |t| && t[k] == ':' && Blank(t[5..k]) && Blank(t[k + 1..])
  }

  lemma StartKeyParts(t: string) returns (a: string, b: string)
    requires IsStartKey(t)
    ensures Blank(a) && Blank(b) && t == "start" + a + ":" + b
  {
    var k :| 5 <= k < |t| && t[k] == ':' && Blank(t[5..k]) && Blank(t[k + 1..]);
    a, b := t[5..k], t[k + 1..];
  }

  lemma StartKeyOf(a: string, b: string)
    requires Blank(a) && Blank(b)
    ensures IsStartKey("start" + a + ":" + b)
  {
    var t, k := "start" + a + ":" + b, 5 + |a|;
    assert t[k] == ':' && t[5..k] == a && t[k + 1..] == b;
  }

  /** The key, white space, a colon, white space, and nothing else. */
  lemma StartKeyIff(t: string)
    ensures IsStartKey(t) <==> exists a, b :: Blank(a) && Blank(b) && t == "start" + a + ":" + b
  {
    if IsStartKey(t) {
      var a, b := StartKeyParts(t);
    }
    if a, b :| Blank(a) && Blank(b) && t == "start" + a + ":" + b {
      StartKeyOf(a, b);
    }
  }

  /** The five characters that count as white space, and no printable one. */
  lemma SpacesAre(c: char)
    ensures HasSpace([c]) <==> c in [' ', '\t', '\n', '\r', '\U{000C}']
  {
    assert [c][0] == c;
  }

  /** A line counts as indented exactly when some part of it does, wherever the space is. */
  lemma HasSpaceSplit(a: string, b: string)
    ensures HasSpace(a + b) <==> HasSpace(a) || HasSpace(b)
  {
    if HasSpace(a) {
      var i :| 0 <= i < |a| && IsSpace(a[i]);
      assert (a + b)[i] == a[i];
    }
    if HasSpace(b) {
      var i :| 0 <= i < |b| && IsSpace(b[i]);
      assert (a + b)[|a| + i] == b[i];
    }
    if HasSpace(a + b) {
      var i :| 0 <= i < |a + b| && IsSpace((a + b)[i]);
      assert (a + b)[i] == if i < |a| then a[i] else b[i - |a|];
    }
  }

  /** `\s+.*`, which is not anchored: any line with white space in it. */
  predicate HasSpace(t: string) {
    exists i :: 0 <= i < |t| && IsSpace(t[i])
  }

  function MarkOf(t: string): Mark {
    if "---" <= t then DocStart else if "..." <= t then DocEnd else if "%" <= t then Directive else Plain
  }

  function Classify(t: string): (l: Line)
    ensures l.text == t
  {
    Line(t, MarkOf(t), IsStartKey(t), HasSpace(t))
  }

  lemma ClassifyMarkers()
    ensures Classify("---") == Open() && Classify("...") == Close()
  {
    assert "..."[0] == '.' && "---"[0] == '-' && "start"[0] == 's';
  }

  function ClassifyAll(ls: seq<string>): (r: seq<Line>)
    ensures |r| == |ls| && forall i :: 0 <= i < |ls| ==> r[i] == Classify(ls[i])
  {
    seq(|ls|, i requires 0 <= i < |ls| => Classify(ls[i]))
  }

  lemma ClassifyConcat(a: seq<string>, b: seq<string>)
    ensures ClassifyAll(a + b) == ClassifyAll(a) + ClassifyAll(b)
  {
  }

  // ---- Lines and text ----

  function NewlineAt(t: string): (k: nat)
    ensures k <= |t| && (k < |t| ==> t[k] == '\n') && forall i :: 0 <= i < k ==> t[i] != '\n'
  {
    if t == "" || t[0] == '\n' then 0 else 1 + NewlineAt(t[1..])
  }

  function DropCR(t: string): string {
    if t != "" && t[|t| - 1] == '\r' then t[..|t| - 1] else t
  }

  /** The line scanner: splits at newlines, drops one carriage return, and a last line may be unfinished. */
  function ScanLines(t: string): seq<string> {
    if t == "" then []
    else
      var k := NewlineAt(t);
      if k < |t| then [DropCR(t[..k])] + ScanLines(t[k + 1..]) else [DropCR(t)]
  }

  /** The finished lines of a text. */
  function Full(t: string): seq<string> {
    var k := NewlineAt(t);
    if k < |t| then [DropCR(t[..k])] + Full(t[k + 1..]) else []
  }

  /** What is behind its last newline. */
  function Tail(t: string): string {
    var k := NewlineAt(t);
    if k < |t| then Tail(t[k + 1..]) else t
  }

  /** How the launcher writes lines out. */
  function Unlines(ls: seq<string>): string {
    if ls == [] then "" else ls[0] + "\n" + Unlines(ls[1..])
  }

  predicate Ended(t: string) {
    t == "" || t[|t| - 1] == '\n'
  }

  lemma NewlineFirst(a: string, r: string)
    requires NewlineAt(a) < |a|
    ensures NewlineAt(a + r) == NewlineAt(a) && (a + r)[..NewlineAt(a)] == a[..NewlineAt(a)]
    ensures (a + r)[NewlineAt(a) + 1..] == a[NewlineAt(a) + 1..] + r
  {
    var k := NewlineAt(a);
    assert (a + r)[k] == '\n' && forall i :: 0 <= i < k ==> (a + r)[i] == a[i];
  }

  /** Behind a newline, scanning starts over. */
  lemma {:induction false} ScanAppend(t: string, r: string)
    requires Ended(t)
    ensures ScanLines(t + r) == ScanLines(t) + ScanLines(r)
    decreases |t|
  {
    if t == "" {
      assert t + r == r;
    } else {
      var k := NewlineAt(t);
      NewlineFirst(t, r);
      ScanAppend(t[k + 1..], r);
      Associates([DropCR(t[..k])], ScanLines(t[k + 1..]), ScanLines(r));
    }
  }

  /** One line with its newline. */
  predicate FinishedLine(l: string) {
    l != "" && NewlineAt(l) == |l| - 1
  }

  lemma ScanFirst(l: string, r: string)
    requires FinishedLine(l)
    ensures ScanLines(l + r) == [DropCR(l[..|l| - 1])] + ScanLines(r)
  {
    NewlineFirst(l, r);
    assert l[|l|..] == "" && "" + r == r;
  }

  lemma FullFirst(l: string, r: string)
    requires FinishedLine(l)
    ensures Full(l + r) == [DropCR(l[..|l| - 1])] + Full(r) && Tail(l + r) == Tail(r)
  {
    NewlineFirst(l, r);
    assert l[|l|..] == "" && "" + r == r;
  }

  /** A text is its finished lines, `head`, and what is behind them. */
  ghost predicate Heads(head: string, t: string) {
    t == head + Tail(t) && Ended(head) && ScanLines(head) == Full(t) && NewlineAt(Tail(t)) == |Tail(t)|
  }

  lemma HeadsFirst(l: string, h: string, r: string)
    requires FinishedLine(l) && Heads(h, r)
    ensures Heads(l + h, l + r)
  {
    ScanFirst(l, h);
    FullFirst(l, r);
    Associates(l, h, Tail(r));
  }

  lemma NoHead(t: string)
    requires NewlineAt(t) == |t|
    ensures Heads("", t)
  {
    assert "" + t == t;
  }

  lemma FirstLine(t: string) returns (l: string, r: string)
    requires NewlineAt(t) < |t|
    ensures t == l + r && FinishedLine(l) && |r| < |t|
  {
    var k := NewlineAt(t);
    l, r := t[..k + 1], t[k + 1..];
    assert l[k] == '\n' && forall i :: 0 <= i < k ==> l[i] == t[i];
  }

  lemma {:induction false} FullTail(t: string) returns (head: string)
    ensures Heads(head, t)
    decreases |t|
  {
    var k := NewlineAt(t);
    if k < |t| {
      var l, r := FirstLine(t);
      var h := FullTail(r);
      HeadsFirst(l, h, r);
      head := l + h;
    } else {
      NoHead(t);
      head := "";
    }
  }

  lemma GluedLine(l: string, r: string)
    requires NewlineAt(l) == |l|
    ensures ScanLines(l + ("---\n" + r)) == [l + "---"] + ScanLines(r)
  {
    var g := l + "---";
    assert "---\n" + r == "---" + ("\n" + r);
    Associates(l, "---", "\n" + r);
    NewlineBehind(g, r);
  }

  /** A marker written behind a text that is not ended goes into its last line. */
  lemma ScanGlued(t: string, r: string)
    ensures ScanLines(t + ("---\n" + r)) == Full(t) + ([Tail(t) + "---"] + ScanLines(r))
  {
    var head := FullTail(t);
    var x := "---\n" + r;
    Associates(head, Tail(t), x);
    ScanAppend(head, Tail(t) + x);
    GluedLine(Tail(t), r);
  }

  lemma NewlineBehind(l: string, r: string)
    requires NewlineAt(l) == |l| && DropCR(l) == l
    ensures ScanLines(l + ("\n" + r)) == [l] + ScanLines(r)
  {
    var a := l + "\n";
    assert NewlineAt(a) == |l| by {
      assert a[|l|] == '\n' && forall i :: 0 <= i < |l| ==> a[i] == l[i];
    }
    NewlineFirst(a, r);
    assert a[..|l|] == l && a[|l| + 1..] == "" && "" + r == r;
    Associates(l, "\n", r);
  }

  /** The lines of a text on its own. */
  lemma {:induction false} ScanOwn(t: string)
    ensures ScanLines(t) == Full(t) + (if Tail(t) == "" then [] else [DropCR(Tail(t))])
    decreases |t|
  {
    var k := NewlineAt(t);
    if k < |t| {
      var rest := t[k + 1..];
      ScanOwn(rest);
      Associates([DropCR(t[..k])], Full(rest), if Tail(rest) == "" then [] else [DropCR(Tail(rest))]);
    }
  }

  lemma {:induction false} UnlinesConcat(a: seq<string>, b: seq<string>)
    ensures Unlines(a + b) == Unlines(a) + Unlines(b)
  {
    if a == [] {
      assert a + b == b;
    } else {
      assert (a + b)[1..] == a[1..] + b;
      UnlinesConcat(a[1..], b);
    }
  }

  lemma {:induction false} UnlinesEnded(ls: seq<string>)
    ensures Ended(Unlines(ls)) && (Unlines(ls) == "" <==> ls == [])
  {
    if ls != [] {
      UnlinesEnded(ls[1..]);
    }
  }

  /** Lines that scanning gives back: no newline in them, no carriage return at the end. */
  ghost predicate Clean(ls: seq<string>) {
    forall i :: 0 <= i < |ls| ==> DropCR(ls[i]) == ls[i] && NewlineAt(ls[i]) == |ls[i]|
  }

  /** Scanning undoes writing. */
  lemma {:induction false} ScanUnlines(ls: seq<string>)
    requires Clean(ls)
    ensures ScanLines(Unlines(ls)) == ls
  {
    if ls != [] {
      ScanUnlines(ls[1..]);
      Associates(ls[0], "\n", Unlines(ls[1..]));
      NewlineBehind(ls[0], Unlines(ls[1..]));
    }
  }

  /** The same lines with a carriage return in front of every newline. */
  function WithCRs(ls: seq<string>): seq<string> {
    seq(|ls|, i requires 0 <= i < |ls| => ls[i] + "\r")
  }

  lemma CRDropped(l: string)
    requires NewlineAt(l) == |l|
    ensures DropCR(l + "\r") == l && NewlineAt(l + "\r") == |l + "\r"|
  {
    assert (l + "\r")[..|l|] == l;
  }

  lemma ScanFirstCR(l: string, r: string)
    requires NewlineAt(l) == |l|
    ensures ScanLines(l + "\r" + "\n" + r) == [l] + ScanLines(r)
  {
    var line := l + "\r" + "\n";
    CRDropped(l);
    assert line[..|line| - 1] == l + "\r" && line[|l| + 1] == '\n';
    assert forall i :: 0 <= i < |l| + 1 ==> line[i] == (l + "\r")[i];
    assert FinishedLine(line);
    ScanFirst(line, r);
  }

  /** They scan to the same lines. */
  lemma {:induction false} ScanWithCRs(ls: seq<string>)
    requires Clean(ls)
    ensures ScanLines(Unlines(WithCRs(ls))) == ls
  {
    if ls != [] {
      assert WithCRs(ls)[1..] == WithCRs(ls[1..]);
      ScanWithCRs(ls[1..]);
      ScanFirstCR(ls[0], Unlines(WithCRs(ls[1..])));
    }
  }

  // ---- The payload ----

  /** The string the controller sends. */
  function ComposeText(y: string, baseConfig: string, b: string): string {
    "---\n" + y + "...\n" + baseConfig + "---\n" + b + "\n...\n"
  }

  function Texts(ls: seq<Line>): seq<string> {
    seq(|ls|, i requires 0 <= i < |ls| => ls[i].text)
  }

  /** Lines as the launcher writes them. */
  function TextOf(ls: seq<Line>): string {
    Unlines(Texts(ls))
  }

  function TextsOf(p: Parts): (string, string, string) {
    (TextOf(p.start), TextOf(p.user), TextOf(p.meta))
  }

  /** The three strings the launcher makes of a payload. */
  function SplitText(data: string): (string, string, string) {
    TextsOf(Split(ClassifyAll(ScanLines(data))))
  }

  ghost predicate Marked(ls: seq<string>) {
    exists i :: 0 <= i < |ls| && ("---" <= ls[i] || "..." <= ls[i])
  }

  /** Scanning loses nothing: the text is ended, and no line has a carriage return at its end. */
  ghost predicate Faithful(t: string) {
    Unlines(ScanLines(t)) == t
  }

  /** A marshalled command: its first line is its key, and no line of it looks like a marker. */
  ghost predicate Command(y: string) {
    var ls := ScanLines(y);
    Faithful(y) && ls != [] && IsStartKey(ls[0]) && !Marked(ls)
  }

  /** Marshalled metadata, which the controller ends with a newline. */
  ghost predicate Json(b: string) {
    Faithful(b + "\n") && !Marked(ScanLines(b + "\n"))
  }

  function LinesOf(t: string): seq<Line> {
    ClassifyAll(ScanLines(t))
  }

  /** The finished lines of a base configuration. */
  function BaseLines(base: string): seq<Line> {
    ClassifyAll(Full(base))
  }

  /** The line that the opening line of the metadata ends up in. */
  function Behind(base: string): Line {
    Classify(Tail(base) + "---")
  }

  /** The documents of a base configuration in front of the metadata. */
  function BaseDocs(base: string): seq<seq<Line>> {
    Middle(BaseLines(base), Behind(base))
  }

  lemma Rebracket(y: string, base: string, b: string)
    ensures ComposeText(y, base, b) == ("---\n" + (y + "...\n")) + (base + ("---\n" + ((b + "\n") + "...\n")))
  {
    assert b + "\n...\n" == (b + "\n") + "...\n";
  }

  lemma ScanMarkers()
    ensures ScanLines("---\n") == ["---"] && ScanLines("...\n") == ["..."]
  {
    NewlineBehind("---", "");
    NewlineBehind("...", "");
    assert "---" + ("\n" + "") == "---\n" && "..." + ("\n" + "") == "...\n";
  }

  /** Scanning the controller's string, for every base configuration. */
  lemma ScanComposed(y: string, base: string, b: string)
    requires Ended(y)
    ensures ScanLines(ComposeText(y, base, b)) ==
            (["---"] + (ScanLines(y) + ["..."])) + (Full(base) +
              ([Tail(base) + "---"] + (ScanLines(b + "\n") + ["..."])))
  {
    Rebracket(y, base, b);
    ScanMarkers();
    ScanAppend("---\n" + (y + "...\n"), base + ("---\n" + ((b + "\n") + "...\n")));
    ScanAppend("---\n", y + "...\n");
    ScanAppend(y, "...\n");
    ScanGlued(base, (b + "\n") + "...\n");
    ScanAppend(b + "\n", "...\n");
  }

  lemma ClassifyComposed(y: seq<string>, base: seq<string>, glued: string, meta: seq<string>)
    ensures ClassifyAll((["---"] + (y + ["..."])) + (base + ([glued] + (meta + ["..."])))) ==
            Compose(ClassifyAll(y), ClassifyAll(base), Classify(glued), ClassifyAll(meta))
  {
    ClassifyMarkers();
    ClassifyConcat(["---"] + (y + ["..."]), base + ([glued] + (meta + ["..."])));
    ClassifyConcat(base, [glued] + (meta + ["..."]));
    assert ClassifyAll(["---"] + (y + ["..."])) == Wrap([], Open(), ClassifyAll(y));
    assert ClassifyAll([glued] + (meta + ["..."])) == [Classify(glued)] + ClassifyAll(meta) + [Close()];
  }

  lemma UnmarkedLines(ls: seq<string>)
    requires !Marked(ls)
    ensures Unmarked(ClassifyAll(ls))
  {
  }

  lemma TextsClassify(ls: seq<string>)
    ensures Texts(ClassifyAll(ls)) == ls
  {
  }

  lemma CommandWellFormed(y: string, b: string)
    requires Command(y) && Json(b)
    ensures WellFormed(LinesOf(y), LinesOf(b + "\n")) && Ended(y)
    ensures TextOf(LinesOf(y)) == y && TextOf(LinesOf(b + "\n")) == b + "\n"
  {
    UnmarkedLines(ScanLines(y));
    UnmarkedLines(ScanLines(b + "\n"));
    UnlinesEnded(ScanLines(y));
    TextsClassify(ScanLines(y));
    TextsClassify(ScanLines(b + "\n"));
  }

  lemma BehindSeparates(base: string)
    ensures BaseDocs(base) == [] ==> Separates(Behind(base))
  {
    if !Separates(Behind(base)) {
      MiddleSome(BaseLines(base), Behind(base));
    }
  }

  /** What the launcher makes of the payload, by the documents of its base configuration. */
  function Received(y: string, base: string, b: string): Parts
    requires LinesOf(y) != []
  {
    BehindSeparates(base);
    Outcome(LinesOf(y), BaseDocs(base), Separates(Behind(base)), LinesOf(b + "\n"))
  }

  /** The whole way, for every base configuration at all. */
  lemma TextDelivered(y: string, base: string, b: string)
    requires Command(y) && Json(b)
    ensures SplitText(ComposeText(y, base, b)) == TextsOf(Received(y, base, b))
  {
    CommandWellFormed(y, b);
    ScanComposed(y, base, b);
    ClassifyComposed(ScanLines(y), Full(base), Tail(base) + "---", ScanLines(b + "\n"));
    Delivered(LinesOf(y), BaseLines(base), Behind(base), LinesOf(b + "\n"));
  }

  // ---- When the metadata arrives ----

  lemma SampleJson()
    ensures Json("a") && Json("b") && "a\n" != "b\n"
  {
    assert "a\n"[0] == 'a' && "b\n"[0] == 'b';
    OneLine("a");
    OneLine("b");
  }

  lemma OneLine(l: string)
    requires |l| == 1 && l[0] != '\n' && l[0] != '\r'
    ensures ScanLines(l + "\n") == [l] && Json(l)
  {
    assert l + ("\n" + "") == l + "\n";
    NewlineBehind(l, "");
    assert Unlines([l]) == l + "\n";
  }

  lemma TextConcat(a: seq<Line>, b: seq<Line>)
    ensures TextOf(a + b) == TextOf(a) + TextOf(b)
  {
    assert Texts(a + b) == Texts(a) + Texts(b);
    UnlinesConcat(Texts(a), Texts(b));
  }

  lemma TextSome(a: seq<Line>)
    requires a != []
    ensures TextOf(a) != ""
  {
    UnlinesEnded(Texts(a));
  }

  ghost predicate MetadataArrives(y: string, base: string, b: string) {
    SplitText(ComposeText(y, base, b)).2 == b + "\n"
  }

  lemma MetadataOk(y: string, base: string, b: string)
    requires Command(y) && Json(b) && Separates(Behind(base)) && |BaseDocs(base)| <= 1
    ensures MetadataArrives(y, base, b)
  {
    TextDelivered(y, base, b);
    CommandWellFormed(y, b);
  }

  /** Metadata behind an unfinished line has that line in front, or is displaced. */
  lemma MetadataSpoiled(y: string, base: string, b: string)
    requires Command(y) && Json(b) && !Separates(Behind(base)) && |BaseDocs(base)| <= 2
    ensures !MetadataArrives(y, base, b)
  {
    TextDelivered(y, base, b);
    CommandWellFormed(y, b);
    var m := BaseDocs(base);
    LastHasRest(BaseLines(base), Behind(base));
    TextConcat(Rest(m[|m| - 1]), LinesOf(b + "\n"));
    TextSome(Rest(m[|m| - 1]));
  }

  /** Metadata behind too many documents is replaced, whatever it is. */
  lemma MetadataDisplaced(y: string, base: string, b: string)
    requires Command(y) && Json(b) && |BaseDocs(base)| >= if Separates(Behind(base)) then 2 else 3
    ensures SplitText(ComposeText(y, base, b)).2 == TextOf(Body(BaseDocs(base)[1]))
  {
    TextDelivered(y, base, b);
  }

  lemma MetadataFails(y: string, base: string) returns (b: string)
    requires Command(y) && !(Separates(Behind(base)) && |BaseDocs(base)| <= 1)
    ensures Json(b) && !MetadataArrives(y, base, b)
  {
    SampleJson();
    if !Separates(Behind(base)) && |BaseDocs(base)| <= 2 {
      MetadataSpoiled(y, base, "a");
      return "a";
    }
    MetadataDisplaced(y, base, "a");
    MetadataDisplaced(y, base, "b");
    b := if MetadataArrives(y, base, "a") then "b" else "a";
    assert "a" + "\n" == "a\n" && "b" + "\n" == "b\n";
  }

  /**
    For every base configuration: the metadata arrives, whatever it is, if and only if the
    line behind the base configuration opens or closes a document and at most one document
    is in front of the metadata.
    */
  lemma MetadataArrivesTextIff(y: string, base: string)
    requires Command(y)
    ensures (forall b | Json(b) :: MetadataArrives(y, base, b)) <==>
            (Separates(Behind(base)) && |BaseDocs(base)| <= 1)
  {
    if Separates(Behind(base)) && |BaseDocs(base)| <= 1 {
      forall b | Json(b) ensures MetadataArrives(y, base, b) {
        MetadataOk(y, base, b);
      }
    } else {
      var b := MetadataFails(y, base);
    }
  }

  // ---- When everything arrives ----

  /** A base configuration without its markers, as the launcher writes lines. */
  function ConfigText(base: string): string {
    TextOf(Body(LinesOf(base)))
  }

  ghost predicate AllArrives(y: string, base: string, b: string) {
    SplitText(ComposeText(y, base, b)) == (y, ConfigText(base), b + "\n")
  }

  /**
    The condition on a base configuration. It is one document that its last line closes,
    finished or not; or it is one document, ended by a newline and without directives at its
    end; or there is no text in it at all, and the command is nested under its first line.
    */
  ghost predicate Deliverable(y: string, base: string) {
    match Behind(base).mark
    case DocEnd => |BaseDocs(base)| == 1
    case DocStart =>
      if BaseDocs(base) == [] then
        Nested(LinesOf(y)) && Body(LinesOf(base)) == []
      else
        |BaseDocs(base)| == 1 && Tail(base) == "" && Trunk(BaseLines(base)) == BaseLines(base)
    case _ => false
  }

  /** The lines of a base configuration on its own: the last one without the marker behind it. */
  lemma OwnLines(base: string)
    ensures LinesOf(base) == BaseLines(base) + (if Tail(base) == "" then [] else [Classify(DropCR(Tail(base)))])
    ensures Tail(base) != "" ==> (Classify(DropCR(Tail(base))).mark == DocEnd <==> Behind(base).mark == DocEnd)
    ensures Tail(base) == "" ==> Behind(base).mark == DocStart
  {
    ScanOwn(base);
    ClassifyConcat(Full(base), if Tail(base) == "" then [] else [DropCR(Tail(base))]);
    if Tail(base) != "" {
      ClosingTail(Tail(base));
    } else {
      assert Tail(base) + "---" == "---";
    }
  }

  lemma ClosingTail(t: string)
    ensures "..." <= DropCR(t) <==> "..." <= t
    ensures "..." <= t <==> "..." <= t + "---"
    ensures "..." <= t ==> !("---" <= t) && !("---" <= t + "---") && !("---" <= DropCR(t))
  {
    assert "..."[0] == '.' && "..."[1] == '.' && "..."[2] == '.' && "---"[0] == '-';
  }

  lemma ClosedConfig(lines: seq<Line>, close: Line)
    requires close.mark == DocEnd
    ensures Body(lines + [close]) == Rest(lines)
  {
    OpensNoStart(lines, [close], 0);
    BodyStartKept(lines, [close]);
  }

  /** One document of configuration, kept apart from the metadata. */
  lemma OneDelivered(y: string, base: string, b: string, d: seq<Line>)
    requires Command(y) && Json(b) && Separates(Behind(base))
    ensures BaseDocs(base) == [d] ==> SplitText(ComposeText(y, base, b)) == (y, TextOf(Body(d)), b + "\n")
  {
    TextDelivered(y, base, b);
    CommandWellFormed(y, b);
  }

  lemma OneDoc(d: seq<Line>)
    requires |Docs(d)| == 1
    ensures d != [] && Docs(d) == [d]
  {
    DocLengths(d);
  }

  lemma ArrivesClosed(y: string, base: string, b: string)
    requires Command(y) && Json(b) && Behind(base).mark == DocEnd && |BaseDocs(base)| == 1
    ensures AllArrives(y, base, b)
  {
    OneDoc(BaseLines(base) + [Behind(base)]);
    OneDelivered(y, base, b, BaseLines(base) + [Behind(base)]);
    OwnLines(base);
    ClosedConfig(BaseLines(base), Behind(base));
    ClosedConfig(BaseLines(base), Classify(DropCR(Tail(base))));
  }

  lemma ArrivesOpened(y: string, base: string, b: string)
    requires Command(y) && Json(b) && Behind(base).mark == DocStart && |BaseDocs(base)| == 1
    ensures AllArrives(y, base, b) <==> Tail(base) == "" && Trunk(BaseLines(base)) == BaseLines(base)
  {
    OpenedDelivered(y, base, b);
    OpenedConfig(base);
  }

  lemma OpenedDelivered(y: string, base: string, b: string)
    requires Command(y) && Json(b) && Behind(base).mark == DocStart && |BaseDocs(base)| == 1
    ensures Trunk(BaseLines(base)) != []
    ensures SplitText(ComposeText(y, base, b)) == (y, TextOf(Body(Trunk(BaseLines(base)))), b + "\n")
  {
    OneDoc(Trunk(BaseLines(base)));
    OneDelivered(y, base, b, Trunk(BaseLines(base)));
  }

  lemma OpenedConfig(base: string)
    requires Behind(base).mark == DocStart && Trunk(BaseLines(base)) != []
    ensures TextOf(Body(Trunk(BaseLines(base)))) == ConfigText(base) <==>
            Tail(base) == "" && Trunk(BaseLines(base)) == BaseLines(base)
  {
    OwnTrunk(base);
    ConfigSameIff(Trunk(BaseLines(base)), LinesOf(base));
  }

  /** `own` is `t` and perhaps more, which does not close a document. */
  ghost predicate Within(t: seq<Line>, own: seq<Line>) {
    && t != [] && t[|t| - 1].mark != Directive
    && t <= own && (own == t || own[|own| - 1].mark != DocEnd)
  }

  /** What a base configuration has behind its trunk does not close a document. */
  lemma OwnTrunk(base: string)
    requires Behind(base).mark == DocStart
    ensures var t, own := Trunk(BaseLines(base)), LinesOf(base);
            && (t != [] ==> Within(t, own))
            && (own == t <==> Tail(base) == "" && t == BaseLines(base))
  {
    OwnLines(base);
  }

  /** The text of a document and of one with more lines that do not close it. */
  lemma ConfigSameIff(t: seq<Line>, own: seq<Line>)
    requires Within(t, own)
    ensures TextOf(Body(t)) == TextOf(Body(own)) <==> own == t
  {
    if own != t {
      var extra := own[|t|..];
      assert own == t + extra && extra[|extra| - 1] == own[|own| - 1];
      var more := MoreBody(t, extra);
      TextConcat(Body(t), more);
      TextSome(more);
    }
  }

  lemma SliceFurther<T>(s: seq<T>, extra: seq<T>, i: nat, j: nat)
    requires i <= j <= |s|
    ensures (s + extra)[i..|s + extra|] == s[i..j] + (s[j..] + extra)
  {
  }

  lemma MoreBody(t: seq<Line>, extra: seq<Line>) returns (more: seq<Line>)
    requires t != [] && t[|t| - 1].mark != Directive && extra != [] && extra[|extra| - 1].mark != DocEnd
    ensures more != [] && Body(t + extra) == Body(t) + more
  {
    OpensPrefix(t, extra, 0);
    BodyStartKept(t, extra);
    BodyWithin(t);
    more := t[BodyEnd(t)..] + extra;
    SliceFurther(t, extra, BodyStart(t), BodyEnd(t));
    assert BodyEnd(t + extra) == |t + extra|;
  }

  lemma ArrivesAlone(y: string, base: string, b: string)
    requires Command(y) && Json(b) && Behind(base).mark == DocStart && BaseDocs(base) == []
    ensures AllArrives(y, base, b) <==> Nested(LinesOf(y)) && Body(LinesOf(base)) == []
  {
    TextDelivered(y, base, b);
    CommandWellFormed(y, b);
    AloneText(LinesOf(y));
    if Body(LinesOf(base)) != [] {
      TextSome(Body(LinesOf(base)));
    }
  }

  /** A command that is cut is a shorter text. */
  lemma AloneText(start: seq<Line>)
    requires start != []
    ensures Nested(start) ==> Alone(start) == (start, [])
    ensures !Nested(start) ==> TextOf(Alone(start).0) != TextOf(start)
  {
    StartAlone(start);
    if !Nested(start) {
      var cut := |Alone(start).0|;
      assert start == Alone(start).0 + start[cut..];
      TextConcat(Alone(start).0, start[cut..]);
      TextSome(start[cut..]);
    }
  }

  /**
    For every base configuration: command, configuration and metadata all arrive, whatever
    the metadata, if and only if the base configuration is deliverable.
    */
  lemma AllArrivesIff(y: string, base: string)
    requires Command(y)
    ensures (forall b | Json(b) :: AllArrives(y, base, b)) <==> Deliverable(y, base)
  {
    SampleJson();
    if !Separates(Behind(base)) || |BaseDocs(base)| > 1 {
      var b := MetadataFails(y, base);
      assert !AllArrives(y, base, b);
    } else {
      BehindSeparates(base);
      forall b | Json(b) ensures AllArrives(y, base, b) <==> Deliverable(y, base) {
        ArrivesWhen(y, base, b);
      }
    }
  }

  lemma ArrivesWhen(y: string, base: string, b: string)
    requires Command(y) && Json(b) && Separates(Behind(base)) && |BaseDocs(base)| <= 1
    ensures AllArrives(y, base, b) <==> Deliverable(y, base)
  {
    if Behind(base).mark == DocEnd {
      MiddleSome(BaseLines(base), Behind(base));
      ArrivesClosed(y, base, b);
    } else if BaseDocs(base) == [] {
      ArrivesAlone(y, base, b);
    } else {
      ArrivesOpened(y, base, b);
    }
  }

  // ---- Base configurations that do and do not arrive ----

  lemma {:induction false} EndedFull(t: string)
    requires Ended(t)
    ensures Tail(t) == "" && Full(t) == ScanLines(t)
    decreases |t|
  {
    if t != "" {
      EndedFull(t[NewlineAt(t) + 1..]);
    }
  }

  lemma EndedBehind(t: string)
    requires Ended(t)
    ensures Behind(t) == Open() && BaseLines(t) == LinesOf(t)
  {
    EndedFull(t);
    ClassifyMarkers();
    assert "" + "---" == "---";
  }

  lemma MarkerLines()
    ensures LinesOf("---\n") == [Open()] && LinesOf("...\n") == [Close()]
  {
    ScanMarkers();
    ClassifyMarkers();
  }

  lemma LinesAppend(t: string, r: string)
    requires Ended(t)
    ensures LinesOf(t + r) == LinesOf(t) + LinesOf(r)
  {
    ScanAppend(t, r);
    ClassifyConcat(ScanLines(t), ScanLines(r));
  }

  lemma LinesBetween(c: string)
    requires Ended(c)
    ensures Ended("---\n" + (c + "...\n"))
    ensures LinesOf("---\n" + (c + "...\n")) == Wrap([], Open(), LinesOf(c))
  {
    MarkerLines();
    LinesAppend("---\n", c + "...\n");
    LinesAppend(c, "...\n");
    Associates([Open()], LinesOf(c), [Close()]);
  }

  /** Round trip: a base configuration between its own markers arrives, with the command and the metadata. */
  lemma TextRoundTrip(y: string, c: string, b: string)
    requires Command(y) && Json(b) && Faithful(c) && !Marked(ScanLines(c))
    ensures SplitText(ComposeText(y, "---\n" + (c + "...\n"), b)) == (y, c, b + "\n")
  {
    var base, config := "---\n" + (c + "...\n"), LinesOf(c);
    UnlinesEnded(ScanLines(c));
    LinesBetween(c);
    EndedBehind(base);
    UnmarkedLines(ScanLines(c));
    assert Trunk(BaseLines(base)) == Wrap([], Open(), config) by { WrapShape([], Open(), config); }
    assert BaseDocs(base) == [Wrap([], Open(), config)] by { WrapIsDocument([], Open(), config); }
    WrapOpens([], Open(), config);
    TextsClassify(ScanLines(c));
    OneDelivered(y, base, b, Wrap([], Open(), config));
  }

  /** An unfinished line behind finished ones. */
  lemma {:induction false} FullAppend(t: string, l: string)
    requires Ended(t) && NewlineAt(l) == |l|
    ensures Full(t + l) == ScanLines(t) && Tail(t + l) == l
    decreases |t|
  {
    if t == "" {
      assert t + l == l;
    } else {
      NewlineFirst(t, l);
      FullAppend(t[NewlineAt(t) + 1..], l);
    }
  }

  /** The metadata is glued to the one document of configuration, and both arrive as metadata. */
  lemma GluedDelivered(y: string, base: string, b: string, d: seq<Line>)
    requires Command(y) && Json(b) && Nested(LinesOf(y)) && !Separates(Behind(base)) && BaseDocs(base) == [d]
    ensures SplitText(ComposeText(y, base, b)) == (y, "", TextOf(Rest(d)) + (b + "\n"))
  {
    TextDelivered(y, base, b);
    CommandWellFormed(y, b);
    StartAlone(LinesOf(y));
    TextConcat(Rest(d), LinesOf(b + "\n"));
  }

  lemma UnfinishedDocs(g: Line)
    requires !Separates(g)
    ensures Docs([Open()] + [g]) == [[Open(), g]] && Rest([Open(), g]) == [g]
  {
    assert [Open()] + [g] == [Open(), g];
    NoOpening([Open(), g], 1);
    Indivisible([Open(), g]);
  }

  lemma TextOne(g: Line)
    ensures TextOf([g]) == g.text + "\n"
  {
    var ls := Texts([g]);
    assert ls == [g.text] && ls[1..] == [];
    calc {
      Unlines(ls);
      ls[0] + "\n" + Unlines(ls[1..]);
      g.text + "\n" + "";
      g.text + "\n";
    }
  }

  /**
    A document of one line that is not finished: no configuration arrives, and its line,
    with the marker behind it, is in front of the metadata.
    */
  lemma UnfinishedLastLine(y: string, l: string, b: string)
    requires Command(y) && Json(b) && Nested(LinesOf(y)) && NewlineAt(l) == |l| && !Separates(Classify(l + "---"))
    ensures SplitText(ComposeText(y, "---\n" + l, b)) == (y, "", (l + "---") + "\n" + (b + "\n"))
  {
    var base, g := "---\n" + l, Classify(l + "---");
    FullAppend("---\n", l);
    MarkerLines();
    UnfinishedDocs(g);
    GluedDelivered(y, base, b, [Open(), g]);
    TextOne(g);
  }

  /** For example a line `foo`. */
  lemma UnfinishedExample()
    ensures NewlineAt("foo") == |"foo"| && !Separates(Classify("foo" + "---"))
  {
    var l := "foo" + "---";
    assert l[0] == 'f' && "---"[0] == '-' && "..."[0] == '.';
    assert "foo"[0] == 'f' && "foo"[1] == 'o' && "foo"[2] == 'o';
  }

  // Directives.

  lemma {:induction false} TrunkOf(ls: seq<Line>, d: Line)
    requires ls != [] && ls[|ls| - 1].mark != Directive && d.mark == Directive
    ensures Trunk(ls + [d]) == ls
  {
    assert (ls + [d])[..|ls|] == ls;
  }

  lemma LineAlone(l: string)
    requires NewlineAt(l) == |l| && DropCR(l) == l
    ensures LinesOf(l + "\n") == [Classify(l)] && Ended(l + "\n")
  {
    ScanAlone(l);
  }

  lemma ScanAlone(l: string)
    requires NewlineAt(l) == |l| && DropCR(l) == l
    ensures ScanLines(l + "\n") == [l]
  {
    var end: string := "\n";
    assert end + "" == end;
    NewlineBehind(l, "");
  }

  lemma PercentIsDirective(l: string)
    requires l != "" && l[0] == '%'
    ensures MarkOf(l) == Directive
  {
    assert "---"[0] == '-' && "..."[0] == '.' && "%"[0] == '%';
  }

  /** A directive at the end of a configuration does not arrive: it goes to the document of the metadata. */
  lemma DirectiveAtTheEnd(y: string, c: string, d: string, b: string)
    requires Command(y) && Json(b) && Faithful(c) && AllPlain(LinesOf(c))
    requires d != "" && d[0] == '%' && NewlineAt(d) == |d| && DropCR(d) == d
    ensures SplitText(ComposeText(y, c + (d + "\n"), b)) == (y, c, b + "\n")
  {
    var base, ls := c + (d + "\n"), LinesOf(c);
    UnlinesEnded(ScanLines(c));
    PercentIsDirective(d);
    LineAlone(d);
    LinesAppend(c, d + "\n");
    EndedBehind(base);
    TrunkOf(ls, Classify(d));
    assert BaseDocs(base) == [ls] by { PlainDocument(ls); }
    PlainBody(ls);
    TextsClassify(ScanLines(c));
    OneDelivered(y, base, b, ls);
  }

  // Two documents.

  lemma TwoDelivered(y: string, base: string, b: string, c: seq<Line>, d: seq<Line>)
    requires Command(y) && Json(b) && Separates(Behind(base)) && BaseDocs(base) == [c, d]
    ensures SplitText(ComposeText(y, base, b)) == (y, TextOf(Body(c)), TextOf(Body(d)))
  {
    TextDelivered(y, base, b);
    CommandWellFormed(y, b);
  }

  ghost predicate AllPlain(ls: seq<Line>) {
    ls != [] && forall i :: 0 <= i < |ls| ==> ls[i].mark == Plain
  }

  lemma PlainDocument(c: seq<Line>)
    requires AllPlain(c)
    ensures Docs(c) == [c]
    ensures Docs([Open()] + c) == [[Open()] + c]
  {
    forall j | 0 < j < |c| ensures !Boundary(c, j) {
      NoOpening(c, j);
    }
    Indivisible(c);
    forall j | 0 < j < |c| + 1 ensures !Boundary([Open()] + c, j) {
      NoOpening([Open()] + c, j);
    }
    Indivisible([Open()] + c);
  }

  lemma PlainBody(c: seq<Line>)
    requires AllPlain(c)
    ensures Body(c) == c && Body([Open()] + c) == c
  {
    NoOpening(c, 0);
    OpeningAt([Open()] + c, 0, 0);
  }

  lemma TwoDocs(c: seq<Line>, d: seq<Line>)
    requires AllPlain(c) && AllPlain(d)
    ensures Docs(Trunk(c + ([Open()] + d))) == [c, [Open()] + d]
  {
    var x := c + ([Open()] + d);
    assert x[|x| - 1] == d[|d| - 1];
    assert Opens(x, |c|);
    DocsConcat(c, [Open()] + d);
    PlainDocument(c);
    PlainDocument(d);
  }

  /** A base configuration of two documents: the second arrives in place of the metadata, whatever that is. */
  lemma TwoDocuments(y: string, c: string, d: string, b: string)
    requires Command(y) && Json(b) && Faithful(c) && Faithful(d) && AllPlain(LinesOf(c)) && AllPlain(LinesOf(d))
    ensures SplitText(ComposeText(y, c + ("---\n" + d), b)) == (y, c, d)
  {
    var base := c + ("---\n" + d);
    UnlinesEnded(ScanLines(c));
    UnlinesEnded(ScanLines(d));
    MarkerLines();
    LinesAppend(c, "---\n" + d);
    LinesAppend("---\n", d);
    EndedBehind(base);
    TwoDocs(LinesOf(c), LinesOf(d));
    PlainBody(LinesOf(c));
    PlainBody(LinesOf(d));
    TextsClassify(ScanLines(c));
    TextsClassify(ScanLines(d));
    TwoDelivered(y, base, b, LinesOf(c), [Open()] + LinesOf(d));
  }
}
