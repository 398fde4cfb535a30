/** Sorting of string lists. The application sorts with
    `(a, b) => a.localeCompare(b)`, a locale-sensitive collation; this model
    stands it in with the lexicographic order on code points, a total order,
    and proves what every such sort promises: the array ends up sorted and
    holds the same elements, and that outcome is unique. */
module Collation {

  /** `a` sorts no later than `b`: lexicographic order on code points. */
  predicate Below(a: string, b: string)
    decreases |a|
  {
    if a == [] then true
    else if b == [] then false
    else if a[0] != b[0] then a[0] < b[0]
    else Below(a[1..], b[1..])
  }

  lemma BelowTotal(a: string, b: string)
    ensures Below(a, b) || Below(b, a)
    decreases |a|
  {
    if a != [] && b != [] && a[0] == b[0] {
      BelowTotal(a[1..], b[1..]);
    }
  }

  lemma BelowAntisymmetric(a: string, b: string)
    requires Below(a, b) && Below(b, a)
    ensures a == b
    decreases |a|
  {
    if a != [] && b != [] {
      BelowAntisymmetric(a[1..], b[1..]);
      assert a == [a[0]] + a[1..] && b == [b[0]] + b[1..];
    }
  }

  lemma BelowTransitive(a: string, b: string, c: string)
    requires Below(a, b) && Below(b, c)
    ensures Below(a, c)
    decreases |a|
  {
    if a != [] && b != [] && c != [] && a[0] == b[0] && b[0] == c[0] {
      BelowTransitive(a[1..], b[1..], c[1..]);
    }
  }

  /** Every element sorts no later than every element after it. */
  predicate Sorted(s: seq<string>) {
    forall k, l :: 0 <= k < l < |s| ==> Below(s[k], s[l])
  }

  /** `a.sort((x, y) => x.localeCompare(y))`: sorts the array in place by
      insertion sort. */
  method SortInPlace(a: array<string>)
    modifies a
    ensures Sorted(a[..])
    ensures multiset(a[..]) == old(multiset(a[..]))
  {
    var i := 0;
    while i < a.Length
      invariant 0 <= i <= a.Length
      invariant Sorted(a[..i])
      invariant multiset(a[..]) == old(multiset(a[..]))
    {
      Insert(a, i);
      i := i + 1;
    }
    assert a[..a.Length] == a[..];
  }

  /** One insertion step: moves `a[i]` down by adjacent swaps until the
      first `i + 1` elements are sorted. */
  method Insert(a: array<string>, i: nat)
    requires i < a.Length && Sorted(a[..i])
    modifies a
    ensures Sorted(a[..i + 1])
    ensures multiset(a[..]) == old(multiset(a[..]))
  {
    var j := i;
    SortedPrefix(a[..], i);
    while j > 0 && !Below(a[j - 1], a[j])
      invariant 0 <= j <= i
      invariant SortedExcept(a[..], i, j)
      invariant multiset(a[..]) == old(multiset(a[..]))
    {
      ghost var s := a[..];
      a[j - 1], a[j] := a[j], a[j - 1];
      assert a[..] == s[j - 1 := s[j]][j := s[j - 1]];
      SwapDown(s, i, j);
      j := j - 1;
    }
    InsertDone(a[..], i, j);
  }

  /** The first `i + 1` elements are in order, except possibly for the
      element at `j` against those before it. */
  ghost predicate SortedExcept(s: seq<string>, i: nat, j: nat)
    requires i < |s|
  {
    forall k, l :: 0 <= k < l <= i && l != j ==> Below(s[k], s[l])
  }

  lemma SortedPrefix(s: seq<string>, i: nat)
    requires i < |s| && Sorted(s[..i])
    ensures SortedExcept(s, i, i)
  {
    forall k, l | 0 <= k < l <= i && l != i
      ensures Below(s[k], s[l])
    {
      assert s[k] == s[..i][k] && s[l] == s[..i][l];
    }
  }

  /** Swapping the element at `j` with the larger one before it moves the
      exception down by one place. */
  lemma SwapDown(s: seq<string>, i: nat, j: nat)
    requires 0 < j <= i < |s| && SortedExcept(s, i, j) && !Below(s[j - 1], s[j])
    ensures SortedExcept(s[j - 1 := s[j]][j := s[j - 1]], i, j - 1)
  {
    BelowTotal(s[j - 1], s[j]);
    var t := s[j - 1 := s[j]][j := s[j - 1]];
    forall k, l | 0 <= k < l <= i && l != j - 1
      ensures Below(t[k], t[l])
    {
      if l == j && k < j - 1 {
        assert t[k] == s[k] && t[l] == s[j - 1];
      } else if l == j {
        assert t[k] == s[j] && t[l] == s[j - 1];
      } else if k == j - 1 {
        assert t[k] == s[j] && t[l] == s[l];
        BelowTransitive(s[j], s[j - 1], s[l]);
      } else if k == j {
        assert t[k] == s[j - 1] && t[l] == s[l];
      } else {
        assert t[k] == s[k] && t[l] == s[l];
      }
    }
  }

  /** Once the element at `j` is in order against the one before it, the
      first `i + 1` elements are sorted. */
  lemma InsertDone(s: seq<string>, i: nat, j: nat)
    requires j <= i < |s| && SortedExcept(s, i, j)
    requires j == 0 || Below(s[j - 1], s[j])
    ensures Sorted(s[..i + 1])
  {
    var p := s[..i + 1];
    forall k, l | 0 <= k < l < |p|
      ensures Below(p[k], p[l])
    {
      assert p[k] == s[k] && p[l] == s[l];
      if l == j && k < j - 1 {
        BelowTransitive(s[k], s[j - 1], s[j]);
      }
    }
  }

  /** The sort of a sequence, as a method that copies it into an array,
      sorts the array in place and reads it back. */
  method SortedCopy(s: seq<string>) returns (r: seq<string>)
    ensures Sorted(r)
    ensures multiset(r) == multiset(s)
  {
    var a := new string[|s|](i requires 0 <= i < |s| => s[i]);
    assert a[..] == s;
    SortInPlace(a);
    r := a[..];
  }

  /** The first element of a sorted list sorts no later than any of its
      elements. */
  lemma SortedHeadBelow(a: seq<string>, x: string)
    requires Sorted(a) && x in a
    ensures Below(a[0], x)
  {
    var i :| 0 <= i < |a| && a[i] == x;
    if i == 0 {
      BelowTotal(x, x);
    }
  }

  lemma SortedTail(a: seq<string>)
    requires Sorted(a) && a != []
    ensures Sorted(a[1..])
  {
    var t := a[1..];
    forall k, l | 0 <= k < l < |t|
      ensures Below(t[k], t[l])
    {
      assert t[k] == a[k + 1] && t[l] == a[l + 1];
    }
  }

  lemma MultisetTail(a: seq<string>)
    requires a != []
    ensures multiset(a[1..]) == multiset(a) - multiset{a[0]}
  {
    assert a == [a[0]] + a[1..];
  }

  /** Two sorted sequences with the same elements are equal: the outcome of a
      sort does not depend on the order the elements came in. */
  lemma {:induction false} SortedUnique(a: seq<string>, b: seq<string>)
    requires Sorted(a) && Sorted(b)
    requires multiset(a) == multiset(b)
    ensures a == b
    decreases |a|
  {
    if a == [] {
      assert |b| == |multiset(b)| == 0;
    } else {
      assert b != [] by {
        assert |b| == |multiset(b)| == |multiset(a)| == |a|;
      }
      SameHead(a, b);
      MultisetTail(a);
      MultisetTail(b);
      SortedTail(a);
      SortedTail(b);
      SortedUnique(a[1..], b[1..]);
      HeadTailEqual(a, b);
    }
  }

  /** Two sorted lists with the same elements start with the same element. */
  lemma SameHead(a: seq<string>, b: seq<string>)
    requires Sorted(a) && Sorted(b) && a != [] && b != []
    requires multiset(a) == multiset(b)
    ensures a[0] == b[0]
  {
    assert a[0] in multiset(b) && b[0] in multiset(a);
    SortedHeadBelow(b, a[0]);
    SortedHeadBelow(a, b[0]);
    BelowAntisymmetric(a[0], b[0]);
  }

  lemma HeadTailEqual(a: seq<string>, b: seq<string>)
    requires a != [] && b != [] && a[0] == b[0] && a[1..] == b[1..]
    ensures a == b
  {
    assert a == [a[0]] + a[1..] && b == [b[0]] + b[1..];
  }
}
