/**
  Go slices as the scheduler and the forwarding table use them: a list edited in
  place by `append(s[:i], s[i+1:]...)`, in one place while it is being ranged over.
  */
module Slices {

  ghost predicate Distinct<T>(s: seq<T>) {
    forall i, j :: 0 <= i < j < |s| ==> s[i] != s[j]
  }

  /** `s` with every occurrence of `x` dropped and the order of the others kept. */
  function Without<T(==)>(s: seq<T>, x: T): seq<T>
  {
    if s == [] then []
    else if s[0] == x then Without(s[1..], x)
    else [s[0]] + Without(s[1..], x)
  }

  lemma {:induction false} WithoutContains<T>(s: seq<T>, x: T, y: T)
    ensures y in Without(s, x) <==> y in s && y != x
  {
    if s != [] {
      WithoutContains(s[1..], x, y);
    }
  }

  lemma {:induction false} WithoutAbsent<T>(s: seq<T>, x: T)
    requires x !in s
    ensures Without(s, x) == s
  {
    if s != [] {
      WithoutAbsent(s[1..], x);
    }
  }

  lemma {:induction false} WithoutConcat<T>(a: seq<T>, b: seq<T>, x: T)
    ensures Without(a + b, x) == Without(a, x) + Without(b, x)
  {
    if a == [] {
      assert a + b == b;
    } else {
      assert (a + b)[1..] == a[1..] + b;
      WithoutConcat(a[1..], b, x);
    }
  }

  /** Dropping an element that occurs once is the splice at its position. */
  lemma {:induction false} WithoutAt<T>(s: seq<T>, i: nat)
    requires i < |s| && Distinct(s)
    ensures Without(s, s[i]) == s[..i] + s[i + 1..]
  {
    if i == 0 {
      WithoutAbsent(s[1..], s[0]);
    } else {
      WithoutAt(s[1..], i - 1);
      assert s[1..][..i - 1] == s[1..i] && s[1..][i..] == s[i + 1..];
    }
  }

  /** The same fact element by element. */
  lemma WithoutOnce<T>(s: seq<T>, x: T) returns (k: nat)
    requires Distinct(s) && x in s
    ensures k < |s| && s[k] == x
    ensures |Without(s, x)| == |s| - 1 && Distinct(Without(s, x))
    ensures forall i :: 0 <= i < |s| - 1 ==> Without(s, x)[i] == s[if i < k then i else i + 1]
    ensures forall y :: y in Without(s, x) <==> y in s && y != x
  {
    k :| 0 <= k < |s| && s[k] == x;
    WithoutAt(s, k);
    forall y ensures y in Without(s, x) <==> y in s && y != x {
      WithoutContains(s, x, y);
    }
  }

  /**
    The removal loop shared by the three disconnect functions. The range bound and
    the backing array are fixed when the loop starts, the loop does not stop at the
    match, and the splice shifts the tail of that same array to the left, so later
    iterations read shifted elements. `m` is the length of the slice left over.
    */
  method RangeRemove<T(==)>(a: array<T>, x: T) returns (m: nat)
    requires Distinct(a[..])
    modifies a
    ensures m <= a.Length && a[..m] == Without(old(a[..]), x)
    ensures m == if x in old(a[..]) then a.Length - 1 else a.Length
  {
    m := a.Length;
    ghost var was := a[..];
    ghost var hit: nat := a.Length;
    for i := 0 to a.Length
      invariant hit == a.Length || hit < i
      invariant hit == a.Length ==> m == a.Length && a[..] == was && x !in was[..i]
      invariant hit < i ==> was[hit] == x && m == a.Length - 1 && a[..m] == was[..hit] + was[hit + 1..]
      invariant hit < i ==> a[a.Length - 1] == was[a.Length - 1]
    {
      assert hit < i < m ==> a[i] == a[..m][i] == was[i + 1];
      if a[i] == x {
        assert hit == a.Length;
        forall j | i <= j < m - 1 {
          a[j] := a[j + 1];
        }
        m := m - 1;
        hit := i;
        assert a[..m] == was[..hit] + was[hit + 1..];
      }
    }
    if hit < a.Length {
      WithoutAt(was, hit);
    } else {
      WithoutAbsent(was, x);
    }
  }

  /** The same loop on the list field of an object: the field's slice is the backing array. */
  method RemoveWhileRanging<T(==)>(list: seq<T>, x: T) returns (rest: seq<T>)
    requires Distinct(list)
    ensures rest == Without(list, x)
  {
    var backing := new T[|list|](i requires 0 <= i < |list| => list[i]);
    assert backing[..] == list;
    var m := RangeRemove(backing, x);
    rest := backing[..m];
  }
}
