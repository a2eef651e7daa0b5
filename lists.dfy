/**
 * The array methods the chat screen relies on, as functions on sequences:
 * `filter`, `slice().reverse()` and `find`, together with an index-based
 * reference definition of "the last element that satisfies p".
 */
module Lists {
  import opened Wrappers

  /** `s.filter(p)`: the elements of s that satisfy p, in their original order. */
  function Filter<T>(s: seq<T>, p: T -> bool): (r: seq<T>)
    ensures |r| <= |s|
    ensures forall i :: 0 <= i < |r| ==> r[i] in s && p(r[i])
    ensures forall i :: 0 <= i < |s| && p(s[i]) ==> s[i] in r
  {
    if s == [] then []
    else
      assert s == [s[0]] + s[1..];
      (if p(s[0]) then [s[0]] else []) + Filter(s[1..], p)
  }

  /** Filtering distributes over concatenation, so filtering keeps the order of the input. */
  lemma {:induction false} FilterConcat<T>(a: seq<T>, b: seq<T>, p: T -> bool)
    ensures Filter(a + b, p) == Filter(a, p) + Filter(b, p)
  {
    if a == [] {
      assert a + b == b;
    } else {
      assert (a + b)[0] == a[0];
      assert (a + b)[1..] == a[1..] + b;
      FilterConcat(a[1..], b, p);
    }
  }

  /** Nothing passes a filter that no element satisfies. */
  lemma {:induction false} FilterNone<T>(s: seq<T>, p: T -> bool)
    requires forall i :: 0 <= i < |s| ==> !p(s[i])
    ensures Filter(s, p) == []
  {
    if s != [] {
      FilterNone(s[1..], p);
    }
  }

  /** `s.slice().reverse()` */
  function Reverse<T>(s: seq<T>): (r: seq<T>)
    ensures |r| == |s|
    ensures forall i :: 0 <= i < |s| ==> r[i] == s[|s| - 1 - i]
  {
    if s == [] then [] else [s[|s| - 1]] + Reverse(s[..|s| - 1])
  }

  /** `s.find(p)`: the first element that satisfies p, if any. */
  function Find<T>(s: seq<T>, p: T -> bool): (r: Option<T>)
    ensures r.None? <==> forall i :: 0 <= i < |s| ==> !p(s[i])
    ensures r.Some? ==> r.value in s && p(r.value)
    ensures r.Some? ==> exists i :: 0 <= i < |s| && s[i] == r.value && p(s[i]) && forall j :: 0 <= j < i ==> !p(s[j])
  {
    if s == [] then None
    else if p(s[0]) then Some(s[0])
    else
      assert forall i :: 1 <= i < |s| ==> s[i] == s[1..][i - 1];
      Find(s[1..], p)
  }

  /** Reference definition: the position of the last element of s that satisfies p. */
  function LastIndex<T>(s: seq<T>, p: T -> bool): (r: Option<nat>)
    ensures r.None? <==> forall i :: 0 <= i < |s| ==> !p(s[i])
    ensures r.Some? ==> r.value < |s| && p(s[r.value]) && forall j :: r.value < j < |s| ==> !p(s[j])
  {
    if s == [] then None
    else if p(s[|s| - 1]) then Some(|s| - 1)
    else LastIndex(s[..|s| - 1], p)
  }

  /** Searching the reversed copy finds exactly the last element that satisfies p. */
  lemma {:induction false} FindReversedIsLast<T>(s: seq<T>, p: T -> bool)
    ensures Find(Reverse(s), p) == if LastIndex(s, p).Some? then Some(s[LastIndex(s, p).value]) else None
  {
    if s != [] {
      var init := s[..|s| - 1];
      assert Reverse(s) == [s[|s| - 1]] + Reverse(init);
      assert Reverse(s)[1..] == Reverse(init);
      if !p(s[|s| - 1]) {
        FindReversedIsLast(init, p);
      }
    }
  }

  /**
   * Filtering with p and then searching backwards for q finds the same element
   * as searching the unfiltered sequence backwards for "p and q".
   */
  lemma {:induction false} FindReversedAfterFilter<T>(s: seq<T>, p: T -> bool, q: T -> bool, pq: T -> bool)
    requires forall x :: pq(x) == (p(x) && q(x))
    ensures Find(Reverse(Filter(s, p)), q) == Find(Reverse(s), pq)
  {
    if s != [] {
      var init, last := s[..|s| - 1], s[|s| - 1];
      assert s == init + [last];
      FilterConcat(init, [last], p);
      var f := Filter(init, p);
      FindReversedAfterFilter(init, p, q, pq);
      assert Reverse(s)[1..] == Reverse(init);
      if p(last) {
        assert Filter([last], p) == [last];
        var g := f + [last];
        assert g[..|g| - 1] == f;
        assert Reverse(g)[1..] == Reverse(f);
      } else {
        assert Filter([last], p) == [];
        assert f + [] == f;
      }
    }
  }
}
