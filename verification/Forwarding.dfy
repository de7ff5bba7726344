/**
  The SSNTP server's forwarding index: for each operand, the sessions a frame with that
  operand goes to, kept up to date as clients come and go.
  */
module Forwarding {
  import opened Basics
  import opened Roles
  import opened Slices

  datatype Operand = Command(op: nat) | Status(op: nat) | Error(op: nat) | Event(op: nat)

  /** A session object, known by its identity. */
  datatype Session = Session(id: nat, uuid: Uuid, destRole: Role)

  /** A rule; operands that are none of the four kinds are ignored everywhere. */
  datatype Rule = Rule(operand: Option<Operand>, dest: Role, forwarder: Option<nat>)

  // ---- What the index should hold ----

  predicate Matches(r: Rule, op: Operand, s: Session) {
    r.operand == Some(op) && r.dest != UNKNOWN && HasRole(s.destRole, r.dest)
  }

  /** How many rules send frames with operand `op` to `s`. */
  function Copies(rules: seq<Rule>, op: Operand, s: Session): nat {
    if rules == [] then 0
    else Copies(rules[..|rules| - 1], op, s) + if Matches(rules[|rules| - 1], op, s) then 1 else 0
  }

  /** How many rules there are for `op`. */
  function RulesFor(rules: seq<Rule>, op: Operand): nat {
    if rules == [] then 0
    else RulesFor(rules[..|rules| - 1], op) + if rules[|rules| - 1].operand == Some(op) then 1 else 0
  }

  function Repeat(s: Session, n: nat): (r: seq<Session>)
    ensures |r| == n && forall i :: 0 <= i < n ==> r[i] == s
  {
    seq(n, i => s)
  }

  /** The destinations of `op`: the connected sessions in order, each as often as a rule matches it. */
  function Dests(rules: seq<Rule>, sessions: seq<Session>, op: Operand): seq<Session> {
    if sessions == [] then []
    else
      var last := sessions[|sessions| - 1];
      Dests(rules, sessions[..|sessions| - 1], op) + Repeat(last, Copies(rules, op, last))
  }

  /** The forwarder of `op`: that of the last rule that gives one. */
  function ForwarderFor(rules: seq<Rule>, op: Operand): Option<nat> {
    if rules == [] then None
    else
      var r := rules[|rules| - 1];
      if r.operand == Some(op) && r.forwarder.Some? then r.forwarder else ForwarderFor(rules[..|rules| - 1], op)
  }

  /** Rule `i` is the last one of `op` that gives a forwarder, and it gives `f`. */
  ghost predicate GivesLast(rules: seq<Rule>, op: Operand, f: nat, i: int) {
    && 0 <= i < |rules| && rules[i].operand == Some(op) && rules[i].forwarder == Some(f)
    && forall j :: i < j < |rules| && rules[j].operand == Some(op) ==> rules[j].forwarder.None?
  }

  ghost predicate LastForwarder(rules: seq<Rule>, op: Operand, f: nat) {
    exists i :: GivesLast(rules, op, f, i)
  }

  /** No rule of `op` gives a forwarder. */
  ghost predicate NoForwarder(rules: seq<Rule>, op: Operand) {
    forall i :: 0 <= i < |rules| && rules[i].operand == Some(op) ==> rules[i].forwarder.None?
  }

  lemma ForwarderFront(rules: seq<Rule>, op: Operand, f: nat)
    requires rules != [] && !(rules[|rules| - 1].operand == Some(op) && rules[|rules| - 1].forwarder.Some?)
    ensures LastForwarder(rules, op, f) <==> LastForwarder(rules[..|rules| - 1], op, f)
    ensures NoForwarder(rules, op) <==> NoForwarder(rules[..|rules| - 1], op)
  {
    var front := rules[..|rules| - 1];
    if i :| GivesLast(rules, op, f, i) {
      assert GivesLast(front, op, f, i);
    }
    if i :| GivesLast(front, op, f, i) {
      assert GivesLast(rules, op, f, i);
    }
  }

  /** The forwarder of an operand: that of the last rule of it that gives one, and none only if no rule of it does. */
  lemma {:induction false} ForwarderForIff(rules: seq<Rule>, op: Operand, f: nat)
    ensures ForwarderFor(rules, op) == Some(f) <==> LastForwarder(rules, op, f)
    ensures ForwarderFor(rules, op).None? <==> NoForwarder(rules, op)
  {
    if rules != [] {
      var n := |rules| - 1;
      var r := rules[n];
      if r.operand == Some(op) && r.forwarder.Some? {
        assert GivesLast(rules, op, r.forwarder.value, n);
      } else {
        ForwarderForIff(rules[..n], op, f);
        ForwarderFront(rules, op, f);
      }
    }
  }

  // ---- Removing copies ----

  function RemoveFirst(l: seq<Session>, s: Session): seq<Session> {
    if l == [] then [] else if l[0] == s then l[1..] else [l[0]] + RemoveFirst(l[1..], s)
  }

  function RemoveN(l: seq<Session>, s: Session, n: nat): seq<Session> {
    if n == 0 then l else RemoveFirst(RemoveN(l, s, n - 1), s)
  }

  function Occurs(l: seq<Session>, s: Session): nat {
    if l == [] then 0 else (if l[0] == s then 1 else 0) + Occurs(l[1..], s)
  }

  lemma {:induction false} RemoveFirstOccurs(l: seq<Session>, s: Session)
    ensures Occurs(RemoveFirst(l, s), s) == if Occurs(l, s) == 0 then 0 else Occurs(l, s) - 1
    ensures Without(RemoveFirst(l, s), s) == Without(l, s)
  {
    if l != [] && l[0] != s {
      RemoveFirstOccurs(l[1..], s);
      assert RemoveFirst(l, s)[1..] == RemoveFirst(l[1..], s);
    }
  }

  lemma {:induction false} NoneLeft(l: seq<Session>, s: Session)
    requires Occurs(l, s) == 0
    ensures Without(l, s) == l && RemoveFirst(l, s) == l
  {
    if l != [] {
      NoneLeft(l[1..], s);
    }
  }

  lemma {:induction false} RemoveNOccurs(l: seq<Session>, s: Session, n: nat)
    ensures Occurs(RemoveN(l, s, n), s) == if Occurs(l, s) <= n then 0 else Occurs(l, s) - n
    ensures Without(RemoveN(l, s, n), s) == Without(l, s)
  {
    if n > 0 {
      RemoveNOccurs(l, s, n - 1);
      RemoveFirstOccurs(RemoveN(l, s, n - 1), s);
    }
  }

  /** Removing one copy per rule removes them all, and nothing else, if there are no more copies than rules. */
  lemma RemoveNIsWithout(l: seq<Session>, s: Session, n: nat)
    requires Occurs(l, s) <= n
    ensures RemoveN(l, s, n) == Without(l, s)
  {
    RemoveNOccurs(l, s, n);
    NoneLeft(RemoveN(l, s, n), s);
  }

  lemma {:induction false} OccursConcat(a: seq<Session>, b: seq<Session>, s: Session)
    ensures Occurs(a + b, s) == Occurs(a, s) + Occurs(b, s)
  {
    if a == [] {
      assert a + b == b;
    } else {
      assert (a + b)[1..] == a[1..] + b;
      OccursConcat(a[1..], b, s);
    }
  }

  lemma {:induction false} RepeatOf(s: Session, n: nat, x: Session)
    ensures Occurs(Repeat(s, n), x) == if s == x then n else 0
    ensures Without(Repeat(s, n), x) == if s == x then [] else Repeat(s, n)
  {
    if n > 0 {
      RepeatOf(s, n - 1, x);
      assert Repeat(s, n)[1..] == Repeat(s, n - 1);
    }
  }

  lemma {:induction false} CopiesAtMostRules(rules: seq<Rule>, op: Operand, s: Session)
    ensures Copies(rules, op, s) <= RulesFor(rules, op)
  {
    if rules != [] {
      CopiesAtMostRules(rules[..|rules| - 1], op, s);
    }
  }

  lemma {:induction false} DestsOccurs(rules: seq<Rule>, sessions: seq<Session>, op: Operand, s: Session)
    requires Distinct(sessions)
    ensures Occurs(Dests(rules, sessions, op), s) == if s in sessions then Copies(rules, op, s) else 0
  {
    if sessions != [] {
      var front, last := sessions[..|sessions| - 1], sessions[|sessions| - 1];
      DestsOccurs(rules, front, op, s);
      OccursConcat(Dests(rules, front, op), Repeat(last, Copies(rules, op, last)), s);
      RepeatOf(last, Copies(rules, op, last), s);
      assert s in sessions <==> s in front || s == last;
    }
  }

  lemma {:induction false} DestsWithout(rules: seq<Rule>, sessions: seq<Session>, op: Operand, s: Session)
    ensures Without(Dests(rules, sessions, op), s) == Dests(rules, Without(sessions, s), op)
  {
    if sessions != [] {
      var front, last := sessions[..|sessions| - 1], sessions[|sessions| - 1];
      DestsWithout(rules, front, op, s);
      WithoutConcat(Dests(rules, front, op), Repeat(last, Copies(rules, op, last)), s);
      RepeatOf(last, Copies(rules, op, last), s);
      WithoutLast(sessions, s);
      if last == s {
        assert Without(Dests(rules, sessions, op), s) == Without(Dests(rules, front, op), s);
      } else {
        DestsAppend(rules, Without(front, s), op, last);
      }
    }
  }

  lemma WithoutLast(sessions: seq<Session>, s: Session)
    requires sessions != []
    ensures var front, last := sessions[..|sessions| - 1], sessions[|sessions| - 1];
            Without(sessions, s) == if last == s then Without(front, s) else Without(front, s) + [last]
  {
    var front, last := sessions[..|sessions| - 1], sessions[|sessions| - 1];
    assert sessions == front + [last];
    WithoutConcat(front, [last], s);
  }

  /** So a disconnect takes every copy of the session out and keeps the order of the others. */
  lemma DeleteRestoresDests(rules: seq<Rule>, sessions: seq<Session>, op: Operand, s: Session)
    requires Distinct(sessions)
    ensures RemoveN(Dests(rules, sessions, op), s, RulesFor(rules, op)) == Dests(rules, Without(sessions, s), op)
  {
    DestsOccurs(rules, sessions, op, s);
    CopiesAtMostRules(rules, op, s);
    RemoveNIsWithout(Dests(rules, sessions, op), s, RulesFor(rules, op));
    DestsWithout(rules, sessions, op, s);
  }

  // ---- The index ----

  function Lookup(dest: map<Operand, seq<Session>>, op: Operand): seq<Session> {
    if op in dest then dest[op] else []
  }

  /** The inner loop of a delete: drop the first copy and stop. */
  method DropFirst(sessions: seq<Session>, dest: Session) returns (rest: seq<Session>)
    ensures rest == RemoveFirst(sessions, dest)
  {
    for i := 0 to |sessions|
      invariant RemoveFirst(sessions, dest) == sessions[..i] + RemoveFirst(sessions[i..], dest)
    {
      if sessions[i] == dest {
        return sessions[..i] + sessions[i + 1..];
      }
      assert sessions[..i + 1] == sessions[..i] + [sessions[i]] && sessions[i..][1..] == sessions[i + 1..];
    }
    return sessions;
  }

  /** What one rule does to the index when `s` comes, and when it goes. */
  function RuleAdds(d: map<Operand, seq<Session>>, r: Rule, s: Session): map<Operand, seq<Session>> {
    if r.operand.Some? && Matches(r, r.operand.value, s) then
      d[r.operand.value := Lookup(d, r.operand.value) + [s]]
    else d
  }

  function RuleDrops(d: map<Operand, seq<Session>>, r: Rule, s: Session): map<Operand, seq<Session>> {
    if r.operand.Some? then d[r.operand.value := RemoveFirst(Lookup(d, r.operand.value), s)] else d
  }

  ghost predicate Indexed(d: map<Operand, seq<Session>>, rules: seq<Rule>, connected: seq<Session>) {
    forall op :: Lookup(d, op) == Dests(rules, connected, op)
  }

  /** What all rules do to it, in order. */
  function AddRules(d: map<Operand, seq<Session>>, rules: seq<Rule>, s: Session): map<Operand, seq<Session>> {
    if rules == [] then d else RuleAdds(AddRules(d, rules[..|rules| - 1], s), rules[|rules| - 1], s)
  }

  function DropRules(d: map<Operand, seq<Session>>, rules: seq<Rule>, s: Session): map<Operand, seq<Session>> {
    if rules == [] then d else RuleDrops(DropRules(d, rules[..|rules| - 1], s), rules[|rules| - 1], s)
  }

  /** Adding puts one copy of `s` behind the destinations of `op` for each rule that matches. */
  lemma {:induction false} AddRulesAt(d: map<Operand, seq<Session>>, rules: seq<Rule>, s: Session, op: Operand)
    ensures Lookup(AddRules(d, rules, s), op) == Lookup(d, op) + Repeat(s, Copies(rules, op, s))
  {
    if rules == [] {
      assert Repeat(s, 0) == [];
    } else {
      var front, r := rules[..|rules| - 1], rules[|rules| - 1];
      AddRulesAt(d, front, s, op);
      RuleAddsAt(AddRules(d, front, s), r, s, op);
      RepeatOneMore(Lookup(d, op), s, Copies(front, op, s));
    }
  }

  lemma RuleAddsAt(d: map<Operand, seq<Session>>, r: Rule, s: Session, op: Operand)
    ensures Lookup(RuleAdds(d, r, s), op) == if Matches(r, op, s) then Lookup(d, op) + [s] else Lookup(d, op)
  {
  }

  lemma RepeatOneMore(l: seq<Session>, s: Session, n: nat)
    ensures (l + Repeat(s, n)) + [s] == l + Repeat(s, n + 1)
  {
  }

  lemma RemoveOneMore(l: seq<Session>, s: Session, n: nat)
    ensures RemoveFirst(RemoveN(l, s, n), s) == RemoveN(l, s, n + 1)
  {
  }

  /** Dropping takes away the first copy of `s` once for each rule of `op`. */
  lemma {:induction false} DropRulesAt(d: map<Operand, seq<Session>>, rules: seq<Rule>, s: Session, op: Operand)
    ensures Lookup(DropRules(d, rules, s), op) == RemoveN(Lookup(d, op), s, RulesFor(rules, op))
  {
    if rules != [] {
      var front, r := rules[..|rules| - 1], rules[|rules| - 1];
      var before, n := DropRules(d, front, s), RulesFor(front, op);
      assert Lookup(before, op) == RemoveN(Lookup(d, op), s, n) by { DropRulesAt(d, front, s, op); }
      RuleDropsAt(before, r, s, op);
      RemoveOneMore(Lookup(d, op), s, n);
      assert RulesFor(rules, op) == if r.operand == Some(op) then n + 1 else n;
    }
  }

  lemma RuleDropsAt(d: map<Operand, seq<Session>>, r: Rule, s: Session, op: Operand)
    ensures Lookup(RuleDrops(d, r, s), op) ==
            if r.operand == Some(op) then RemoveFirst(Lookup(d, op), s) else Lookup(d, op)
  {
  }

  lemma DestsAppend(rules: seq<Rule>, connected: seq<Session>, op: Operand, s: Session)
    ensures Dests(rules, connected + [s], op) == Dests(rules, connected, op) + Repeat(s, Copies(rules, op, s))
  {
    assert (connected + [s])[..|connected|] == connected;
  }

  /** So an index that was right is right for one session more, and for one session less. */
  lemma AddKeepsIndex(d: map<Operand, seq<Session>>, rules: seq<Rule>, connected: seq<Session>, s: Session)
    requires Indexed(d, rules, connected)
    ensures Indexed(AddRules(d, rules, s), rules, connected + [s])
  {
    forall op ensures Lookup(AddRules(d, rules, s), op) == Dests(rules, connected + [s], op) {
      AddRulesAt(d, rules, s, op);
      DestsAppend(rules, connected, op, s);
    }
  }

  lemma DropKeepsIndex(d: map<Operand, seq<Session>>, rules: seq<Rule>, connected: seq<Session>, s: Session)
    requires Distinct(connected) && Indexed(d, rules, connected)
    ensures Indexed(DropRules(d, rules, s), rules, Without(connected, s))
  {
    forall op ensures Lookup(DropRules(d, rules, s), op) == Dests(rules, Without(connected, s), op) {
      DropRulesAt(d, rules, s, op);
      DeleteRestoresDests(rules, connected, op, s);
    }
  }

  lemma WithoutDistinct(connected: seq<Session>, s: Session)
    requires Distinct(connected)
    ensures Distinct(Without(connected, s))
  {
    if s in connected {
      var k := WithoutOnce(connected, s);
    } else {
      WithoutAbsent(connected, s);
    }
  }

  /** Where a frame is written: nowhere if its operand has a forwarder, else to all its destinations but its source. */
  function WrittenTo(rules: seq<Rule>, connected: seq<Session>, op: Operand, source: Session): seq<Session> {
    if ForwarderFor(rules, op).Some? then [] else Without(Dests(rules, connected, op), source)
  }

  class FrameForward {
    const rules: seq<Rule>
    var dest: map<Operand, seq<Session>>
    var func: map<Operand, nat>
    /** The sessions connected, in the order they were added. */
    ghost var connected: seq<Session>

    ghost predicate Valid()
      reads this
    {
      && Distinct(connected)
      && Indexed(dest, rules, connected)
      && (forall op :: (if op in func then Some(func[op]) else None) == ForwarderFor(rules, op))
    }

    constructor (rules: seq<Rule>)
      ensures Valid() && connected == [] && this.rules == rules
    {
      this.rules := rules;
      dest := map[];
      func := map[];
      connected := [];
      new;
      for i := 0 to |rules|
        invariant dest == map[] && connected == []
        invariant forall op :: (if op in func then Some(func[op]) else None) == ForwarderFor(rules[..i], op)
      {
        assert rules[..i + 1][..i] == rules[..i];
        var r := rules[i];
        if r.operand.Some? && r.forwarder.Some? {
          func := func[r.operand.value := r.forwarder.value];
        }
      }
      assert rules[..|rules|] == rules;
    }

    method AddForwardDestination(session: Session)
      requires Valid() && session !in connected
      modifies this`dest, this`connected
      ensures Valid() && connected == old(connected) + [session]
    {
      AddKeepsIndex(dest, rules, connected, session);
      AddToIndex(session);
      connected := connected + [session];
    }

    /** The loop over the rules. */
    method AddToIndex(session: Session)
      modifies this`dest
      ensures dest == AddRules(old(dest), rules, session)
    {
      for i := 0 to |rules|
        invariant dest == AddRules(old(dest), rules[..i], session)
      {
        assert rules[..i + 1][..i] == rules[..i];
        var r := rules[i];
        if r.dest == UNKNOWN {
          continue;
        }
        if r.operand.Some? && HasRole(session.destRole, r.dest) {
          dest := dest[r.operand.value := Lookup(dest, r.operand.value) + [session]];
        }
      }
      assert rules[..|rules|] == rules;
    }

    method DeleteForwardDestination(session: Session)
      requires Valid()
      modifies this`dest, this`connected
      ensures Valid() && connected == Without(old(connected), session)
    {
      DropKeepsIndex(dest, rules, connected, session);
      WithoutDistinct(connected, session);
      DeleteFromIndex(session);
      connected := Without(connected, session);
    }

    method DeleteFromIndex(session: Session)
      modifies this`dest
      ensures dest == DropRules(old(dest), rules, session)
    {
      for i := 0 to |rules|
        invariant dest == DropRules(old(dest), rules[..i], session)
      {
        assert rules[..i + 1][..i] == rules[..i];
        var r := rules[i];
        if r.operand.Some? {
          var rest := DropFirst(Lookup(dest, r.operand.value), session);
          dest := dest[r.operand.value := rest];
        }
      }
      assert rules[..|rules|] == rules;
    }

    /** A frame without a forwarder is written to its destinations, except back to its source. */
    method ForwardFrame(source: Session, op: Operand) returns (forwarder: Option<nat>, written: seq<Session>)
      requires Valid()
      ensures forwarder.None? <==> NoForwarder(rules, op)
      ensures forwarder.Some? ==> LastForwarder(rules, op, forwarder.value)
      ensures written == WrittenTo(rules, connected, op, source)
    {
      written := [];
      ForwarderForIff(rules, op, if op in func then func[op] else 0);
      if op in func {
        return Some(func[op]), [];
      }
      forwarder := None;
      var sessions := Lookup(dest, op);
      for i := 0 to |sessions|
        invariant written == Without(sessions[..i], source)
      {
        assert sessions[..i + 1] == sessions[..i] + [sessions[i]];
        WithoutConcat(sessions[..i], [sessions[i]], source);
        if sessions[i] == source {
          continue;
        }
        written := written + [sessions[i]];
      }
      assert sessions[..|sessions|] == sessions;
    }
  }

  /** A rule that sends frames with operand `op` to the clients of some role. */
  predicate Addresses(r: Rule, op: Operand) {
    r.operand == Some(op) && r.dest != UNKNOWN
  }

  predicate SendsTo(r: Rule, op: Operand, role: Role) {
    Addresses(r, op) && HasRole(role, r.dest)
  }

  /** The rules that send frames with operand `op` to a client with the roles of `s`. */
  function RulesTo(rules: seq<Rule>, op: Operand, s: Session): set<int> {
    set i | 0 <= i < |rules| && SendsTo(rules[i], op, s.destRole)
  }

  lemma RulesToLast(rules: seq<Rule>, op: Operand, s: Session)
    requires rules != []
    ensures var n := |rules| - 1;
            && n !in RulesTo(rules[..n], op, s)
            && RulesTo(rules, op, s) ==
               if SendsTo(rules[n], op, s.destRole) then RulesTo(rules[..n], op, s) + {n}
                   else RulesTo(rules[..n], op, s)
  {
    var n := |rules| - 1;
    assert forall i :: 0 <= i < n ==> rules[..n][i] == rules[i];
  }

  lemma MatchesIff(r: Rule, op: Operand, s: Session)
    ensures Matches(r, op, s) <==> SendsTo(r, op, s.destRole)
  {
  }

  lemma {:induction false} CopiesCount(rules: seq<Rule>, op: Operand, s: Session)
    ensures Copies(rules, op, s) == |RulesTo(rules, op, s)|
  {
    if rules != [] {
      CopiesCount(rules[..|rules| - 1], op, s);
      RulesToLast(rules, op, s);
      MatchesIff(rules[|rules| - 1], op, s);
    }
  }

  /**
    So a frame is written to exactly the connected sessions that have the destination role of
    a rule of its operand, other than its source, each of them once per such rule; and to none
    if some rule of its operand gives a forwarder.
    */
  lemma FrameReaches(rules: seq<Rule>, connected: seq<Session>, op: Operand, source: Session, s: Session)
    requires Distinct(connected)
    ensures var written, direct := WrittenTo(rules, connected, op, source), NoForwarder(rules, op);
            && Occurs(written, s) == (if direct && s in connected && s != source then |RulesTo(rules, op, s)| else 0)
            && (s in written <==> direct && s in connected && s != source && RulesTo(rules, op, s) != {})
  {
    ForwarderForIff(rules, op, 0);
    DestsWithout(rules, connected, op, source);
    if source in connected {
      var k := WithoutOnce(connected, source);
    } else {
      WithoutAbsent(connected, source);
    }
    DestsOccurs(rules, Without(connected, source), op, s);
    OccursPositive(Dests(rules, Without(connected, source), op), s);
    CopiesCount(rules, op, s);
    assert RulesTo(rules, op, s) == {} <==> |RulesTo(rules, op, s)| == 0;
  }

  /** For example: with two rules for one operand that match the same session, it gets the frame twice. */
  lemma WrittenTwice(op: Operand, role: Role, s: Session, source: Session)
    requires role != UNKNOWN && s.destRole == role && s != source
    ensures var rules := [Rule(Some(op), role, None), Rule(Some(op), role, None)];
            WrittenTo(rules, [s], op, source) == [s, s]
  {
    var r := Rule(Some(op), role, None);
    HasItself(role);
    assert ForwarderFor([r], op) == None by { assert [r][..0] == []; }
    assert ForwarderFor([r, r], op) == None by { assert [r, r][..1] == [r]; }
    assert Copies([r], op, s) == 1 by { assert [r][..0] == []; }
    assert Copies([r, r], op, s) == 2 by { assert [r, r][..1] == [r]; }
    assert Dests([r, r], [s], op) == [s, s] by { assert [s][..0] == []; }
    WithoutAbsent([s, s], source);
  }

  ghost predicate AtMostOnce(rules: seq<Rule>, op: Operand, connected: seq<Session>, source: Session, s: Session) {
    Occurs(WrittenTo(rules, connected, op, source), s) <= 1
  }

  lemma {:induction false} CopiesTwo(rules: seq<Rule>, op: Operand, s: Session)
    requires Copies(rules, op, s) >= 2
    ensures exists i, j :: 0 <= i < j < |rules| && Matches(rules[i], op, s) && Matches(rules[j], op, s)
  {
    var front, n := rules[..|rules| - 1], |rules| - 1;
    if Copies(front, op, s) >= 2 {
      CopiesTwo(front, op, s);
      var i, j :| 0 <= i < j < |front| && Matches(front[i], op, s) && Matches(front[j], op, s);
      assert Matches(rules[i], op, s) && Matches(rules[j], op, s);
    } else {
      CopiesPositive(front, op, s);
      var i :| 0 <= i < |front| && Matches(front[i], op, s);
      assert Matches(rules[i], op, s) && Matches(rules[n], op, s);
    }
  }

  lemma {:induction false} TwoCopies(rules: seq<Rule>, op: Operand, s: Session, i: nat, j: nat)
    requires i < j < |rules| && Matches(rules[i], op, s) && Matches(rules[j], op, s)
    ensures Copies(rules, op, s) >= 2
  {
    var front := rules[..|rules| - 1];
    if j < |front| {
      TwoCopies(front, op, s, i, j);
    } else {
      assert Matches(front[i], op, s);
      CopiesPositive(front, op, s);
    }
  }

  ghost predicate SharedOperand(rules: seq<Rule>, op: Operand) {
    exists i, j :: 0 <= i < j < |rules| && Addresses(rules[i], op) && Addresses(rules[j], op)
  }

  lemma SharedMatch(rules: seq<Rule>, op: Operand) returns (s: Session)
    requires SharedOperand(rules, op)
    ensures Copies(rules, op, s) >= 2
  {
    var i, j :| 0 <= i < j < |rules| && Addresses(rules[i], op) && Addresses(rules[j], op);
    var role := BothRoles(rules[i].dest, rules[j].dest);
    s := Session(0, Uuid(0), role);
    TwoCopies(rules, op, s, i, j);
  }

  lemma UnsharedOnce(rules: seq<Rule>, op: Operand, connected: seq<Session>, source: Session, s: Session)
    requires (!NoForwarder(rules, op) || !SharedOperand(rules, op)) && Distinct(connected)
    ensures AtMostOnce(rules, op, connected, source, s)
  {
    FrameReaches(rules, connected, op, source, s);
    CopiesCount(rules, op, s);
    if Copies(rules, op, s) >= 2 {
      CopiesTwo(rules, op, s);
    }
  }

  /**
    No session is written a frame twice, whatever is connected, if and only if its operand has
    a forwarder, or at most one rule addresses the clients of some role with it: a client may
    have several roles.
    */
  lemma WrittenOnceIff(rules: seq<Rule>, op: Operand)
    ensures (forall connected, source, s | Distinct(connected) :: AtMostOnce(rules, op, connected, source, s)) <==>
            (!NoForwarder(rules, op) || !SharedOperand(rules, op))
  {
    if NoForwarder(rules, op) && SharedOperand(rules, op) {
      var s := SharedMatch(rules, op);
      var source := s.(id := s.id + 1);
      FrameReaches(rules, [s], op, source, s);
      CopiesCount(rules, op, s);
      assert !AtMostOnce(rules, op, [s], source, s);
    } else {
      forall connected, source, s | Distinct(connected) ensures AtMostOnce(rules, op, connected, source, s) {
        UnsharedOnce(rules, op, connected, source, s);
      }
    }
  }

  lemma {:induction false} OccursPositive(l: seq<Session>, s: Session)
    ensures Occurs(l, s) > 0 <==> s in l
  {
    if l != [] {
      OccursPositive(l[1..], s);
    }
  }

  lemma {:induction false} CopiesPositive(rules: seq<Rule>, op: Operand, s: Session)
    ensures Copies(rules, op, s) > 0 <==> exists i :: 0 <= i < |rules| && Matches(rules[i], op, s)
  {
    if rules != [] {
      var front := rules[..|rules| - 1];
      CopiesPositive(front, op, s);
      if exists i :: 0 <= i < |rules| && Matches(rules[i], op, s) {
        var i :| 0 <= i < |rules| && Matches(rules[i], op, s);
        assert i < |front| ==> Matches(front[i], op, s);
      }
      if exists i :: 0 <= i < |front| && Matches(front[i], op, s) {
        var i :| 0 <= i < |front| && Matches(front[i], op, s);
        assert Matches(rules[i], op, s);
      }
    }
  }

  // ---- Whole runs ----

  datatype Change = Arrives(session: Session) | Leaves(session: Session)

  /** The sessions connected after a run; every connection has a session object of its own. */
  function Connected(h: Log<Change>): seq<Session> {
    match h
    case Empty => []
    case Then(before, Arrives(s)) => Connected(before) + [s]
    case Then(before, Leaves(s)) => Without(Connected(before), s)
  }

  ghost predicate OwnSessions(h: Log<Change>) {
    match h
    case Empty => true
    case Then(before, Arrives(s)) => OwnSessions(before) && s !in Connected(before)
    case Then(before, Leaves(_)) => OwnSessions(before)
  }

  /** After any run, the destinations of every operand are a function of the rules and the sessions connected. */
  method Replay(rules: seq<Rule>, h: Log<Change>) returns (f: FrameForward)
    requires OwnSessions(h)
    ensures fresh(f) && f.rules == rules && f.connected == Connected(h)
    ensures forall op :: Lookup(f.dest, op) == Dests(rules, Connected(h), op)
    ensures f.Valid()
  {
    match h {
      case Empty =>
        f := new FrameForward(rules);
      case Then(before, Arrives(s)) =>
        f := Replay(rules, before);
        f.AddForwardDestination(s);
      case Then(before, Leaves(s)) =>
        f := Replay(rules, before);
        f.DeleteForwardDestination(s);
    }
  }

  /** Writing a frame to the recipients a forwarder chose: those that are connected, in the order chosen. */
  method ForwardDestination(discard: bool, recipients: seq<Uuid>, sessions: map<Uuid, Session>)
      returns (written: seq<Session>)
    ensures discard ==> written == []
    ensures !discard ==> exists at :: Selects(recipients, sessions, written, at)
  {
    written := [];
    ghost var at := PresentSelects(recipients, sessions);
    if discard || recipients == [] {
      return;
    }
    for i := 0 to |recipients|
      invariant written == Present(recipients[..i], sessions)
    {
      assert recipients[..i + 1][..i] == recipients[..i];
      if recipients[i] !in sessions {
        continue;
      }
      written := written + [sessions[recipients[i]]];
    }
    assert recipients[..|recipients|] == recipients;
  }

  /** Positions of a list, in order. */
  ghost predicate Increasing(at: seq<int>, n: nat) {
    && (forall j :: 0 <= j < |at| ==> 0 <= at[j] < n)
    && (forall i, j :: 0 <= i < j < |at| ==> at[i] < at[j])
  }

  /** `at` are the positions of all recipients that have a session, and `written` are those sessions. */
  ghost predicate Selects(recipients: seq<Uuid>, sessions: map<Uuid, Session>, written: seq<Session>, at: seq<int>) {
    && Increasing(at, |recipients|) && |written| == |at|
    && (forall i :: 0 <= i < |recipients| ==> (recipients[i] in sessions <==> i in at))
    && (forall j :: 0 <= j < |at| ==> recipients[at[j]] in sessions && written[j] == sessions[recipients[at[j]]])
  }

  lemma SelectsOneMore(recipients: seq<Uuid>, sessions: map<Uuid, Session>, written: seq<Session>, at: seq<int>,
      u: Uuid)
    requires Selects(recipients, sessions, written, at) && u in sessions
    ensures Selects(recipients + [u], sessions, written + [sessions[u]], at + [|recipients|])
  {
    var all, at' := recipients + [u], at + [|recipients|];
    forall i | 0 <= i < |all| ensures all[i] in sessions <==> i in at' {
      assert i < |recipients| ==> all[i] == recipients[i];
    }
  }

  lemma SelectsNoMore(recipients: seq<Uuid>, sessions: map<Uuid, Session>, written: seq<Session>, at: seq<int>, u: Uuid)
    requires Selects(recipients, sessions, written, at) && u !in sessions
    ensures Selects(recipients + [u], sessions, written, at)
  {
    var all := recipients + [u];
    forall i | 0 <= i < |all| ensures all[i] in sessions <==> i in at {
      assert i < |recipients| ==> all[i] == recipients[i];
    }
  }

  lemma {:induction false} PresentSelects(recipients: seq<Uuid>, sessions: map<Uuid, Session>) returns (at: seq<int>)
    ensures Selects(recipients, sessions, Present(recipients, sessions), at)
  {
    at := [];
    if recipients != [] {
      var n := |recipients| - 1;
      var front, u := recipients[..n], recipients[n];
      at := PresentSelects(front, sessions);
      assert recipients == front + [u];
      if u in sessions {
        SelectsOneMore(front, sessions, Present(front, sessions), at, u);
        at := at + [n];
      } else {
        SelectsNoMore(front, sessions, Present(front, sessions), at, u);
        assert Present(front, sessions) + [] == Present(front, sessions);
      }
    }
  }

  function Present(recipients: seq<Uuid>, sessions: map<Uuid, Session>): seq<Session> {
    if recipients == [] then []
    else
      var last := recipients[|recipients| - 1];
      Present(recipients[..|recipients| - 1], sessions) + if last in sessions then [sessions[last]] else []
  }
}
