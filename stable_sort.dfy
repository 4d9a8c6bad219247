/** `Array.prototype.sort` with a comparator, which JavaScript requires to be
    stable. `lt(a, b)` holds when the comparator puts a strictly before b (it
    returns a negative number). The sort is an insertion sort in place on an
    array, specified by `Sort`, a function on sequences; its result is a
    permutation of the input, sorted when `lt` is a strict weak order, and it
    keeps the input order of the elements the comparator does not separate. */
module StableSort {
  import opened SeqUtil

  /** Inserts x into s after every element it does not come strictly before. */
  function InsertLast<T>(s: seq<T>, x: T, lt: (T, T) -> bool): (r: seq<T>)
    ensures |r| == |s| + 1
  {
    if s == [] || !lt(x, s[|s| - 1]) then s + [x]
    else InsertLast(s[..|s| - 1], x, lt) + [s[|s| - 1]]
  }

  /** The stably sorted sequence. */
  function Sort<T>(s: seq<T>, lt: (T, T) -> bool): (r: seq<T>)
    ensures |r| == |s|
  {
    if s == [] then []
    else InsertLast(Sort(s[..|s| - 1], lt), s[|s| - 1], lt)
  }

  lemma {:induction false} InsertLastPermutation<T>(s: seq<T>, x: T, lt: (T, T) -> bool)
    ensures multiset(InsertLast(s, x, lt)) == multiset(s) + multiset{x}
    decreases |s|
  {
    if s != [] && lt(x, s[|s| - 1]) {
      InsertLastPermutation(s[..|s| - 1], x, lt);
      assert s == s[..|s| - 1] + [s[|s| - 1]];
    }
  }

  /** The sorted sequence is a permutation of the input. */
  lemma {:induction false} SortPermutation<T>(s: seq<T>, lt: (T, T) -> bool)
    ensures multiset(Sort(s, lt)) == multiset(s)
    decreases |s|
  {
    if s != [] {
      SortPermutation(s[..|s| - 1], lt);
      InsertLastPermutation(Sort(s[..|s| - 1], lt), s[|s| - 1], lt);
      assert s == s[..|s| - 1] + [s[|s| - 1]];
    }
  }

  /** lt is a strict weak order on the values dom admits: irreflexive,
      transitive, and whatever lies strictly between two values is strictly
      above the first or strictly below the second. */
  ghost predicate StrictWeakOrder<T(!new)>(lt: (T, T) -> bool, dom: T -> bool) {
    (forall a :: dom(a) ==> !lt(a, a)) &&
    (forall a, b, c :: dom(a) && dom(b) && dom(c) && lt(a, b) && lt(b, c) ==> lt(a, c)) &&
    (forall a, b, c :: dom(a) && dom(b) && dom(c) && lt(a, c) ==> lt(a, b) || lt(b, c))
  }

  predicate AllIn<T>(s: seq<T>, dom: T -> bool) {
    forall i :: 0 <= i < |s| ==> dom(s[i])
  }

  /** No element is strictly before one that precedes it. */
  predicate Sorted<T>(s: seq<T>, lt: (T, T) -> bool) {
    forall i, j :: 0 <= i < j < |s| ==> !lt(s[j], s[i])
  }

  /** Inserting into a sorted sequence keeps it sorted. */
  lemma {:induction false} InsertLastSorted<T(!new)>(s: seq<T>, x: T, lt: (T, T) -> bool, dom: T -> bool)
    requires StrictWeakOrder(lt, dom) && AllIn(s, dom) && dom(x) && Sorted(s, lt)
    ensures Sorted(InsertLast(s, x, lt), lt)
    decreases |s|
  {
    if s == [] || !lt(x, s[|s| - 1]) {
      if s != [] {
        var last := s[|s| - 1];
        forall i | 0 <= i < |s|
          ensures !lt(x, s[i])
        {
          var si := s[i];
          assert lt(x, si) ==> lt(x, last) || lt(last, si);
        }
      }
    } else {
      var init, last := s[..|s| - 1], s[|s| - 1];
      InsertLastSorted(init, x, lt, dom);
      var r' := InsertLast(init, x, lt);
      InsertLastPermutation(init, x, lt);
      forall e | e in r'
        ensures !lt(last, e)
      {
        assert e in multiset(r');
        assert e == x || e in init;
        if e != x {
          var k :| 0 <= k < |init| && init[k] == e;
          assert s[k] == e;
        } else {
          assert lt(last, x) ==> lt(x, x);
        }
      }
      var r := r' + [last];
      forall i, j | 0 <= i < j < |r|
        ensures !lt(r[j], r[i])
      {
        if j == |r| - 1 {
          assert r[i] in r';
        }
      }
    }
  }

  /** The sorted sequence is sorted, when the comparator is consistent. */
  lemma {:induction false} SortSorted<T(!new)>(s: seq<T>, lt: (T, T) -> bool, dom: T -> bool)
    requires StrictWeakOrder(lt, dom) && AllIn(s, dom)
    ensures Sorted(Sort(s, lt), lt)
    decreases |s|
  {
    if s != [] {
      var init := s[..|s| - 1];
      SortSorted(init, lt, dom);
      SortPermutation(init, lt);
      forall i | 0 <= i < |Sort(init, lt)|
        ensures dom(Sort(init, lt)[i])
      {
        assert Sort(init, lt)[i] in multiset(init);
      }
      InsertLastSorted(Sort(init, lt), s[|s| - 1], lt, dom);
    }
  }

  /** Inserting x changes the elements with property p only by adding x last
      among them, when x comes strictly before none of them. */
  lemma {:induction false} InsertLastFilter<T>(s: seq<T>, x: T, lt: (T, T) -> bool, p: T -> bool)
    requires forall y :: y in s && p(x) && p(y) ==> !lt(x, y)
    ensures Filter(InsertLast(s, x, lt), p) == Filter(s, p) + (if p(x) then [x] else [])
    decreases |s|
  {
    if s == [] || !lt(x, s[|s| - 1]) {
      FilterAppend(s, [x], p);
    } else {
      var init, last := s[..|s| - 1], s[|s| - 1];
      assert forall y :: y in init ==> y in s;
      var xs := if p(x) then [x] else [];
      var ls := Filter([last], p);
      InsertLastFilter(init, x, lt, p);
      assert InsertLast(s, x, lt) == InsertLast(init, x, lt) + [last];
      FilterAppend(InsertLast(init, x, lt), [last], p);
      assert Filter(InsertLast(s, x, lt), p) == Filter(init, p) + xs + ls;
      assert s == init + [last];
      FilterAppend(init, [last], p);
      assert Filter(s, p) == Filter(init, p) + ls;
      assert xs == [] || ls == [];
    }
  }

  /** Neither is strictly before the other. */
  predicate Tied<T>(lt: (T, T) -> bool, a: T, b: T) {
    !lt(a, b) && !lt(b, a)
  }

  /** Two elements tied with the same element are not strictly ordered. */
  lemma TiedNotBefore<T(!new)>(lt: (T, T) -> bool, dom: T -> bool, a: T, b: T, e: T)
    requires StrictWeakOrder(lt, dom) && dom(a) && dom(b) && dom(e)
    requires Tied(lt, a, e) && Tied(lt, b, e)
    ensures !lt(a, b)
  {
    assert lt(a, b) ==> lt(a, e) || lt(e, b);
  }

  /** Stability: the elements tied with e come out in their input order. */
  lemma SortStable<T(!new)>(s: seq<T>, lt: (T, T) -> bool, dom: T -> bool, e: T)
    requires StrictWeakOrder(lt, dom) && AllIn(s, dom) && dom(e)
    ensures Filter(Sort(s, lt), y => Tied(lt, y, e)) == Filter(s, y => Tied(lt, y, e))
  {
    var p := y => Tied(lt, y, e);
    forall x, y | x in s && y in s && p(x) && p(y)
      ensures !lt(x, y)
    {
      TiedNotBefore(lt, dom, x, y, e);
    }
    FilterUnordered(s, lt, p);
  }

  /** The sort keeps the input order of any class of elements none of which
      comes strictly before another. */
  lemma {:induction false} FilterUnordered<T>(s: seq<T>, lt: (T, T) -> bool, p: T -> bool)
    requires forall x, y :: x in s && y in s && p(x) && p(y) ==> !lt(x, y)
    ensures Filter(Sort(s, lt), p) == Filter(s, p)
    decreases |s|
  {
    if s != [] {
      var init, last := s[..|s| - 1], s[|s| - 1];
      assert s == init + [last];
      assert forall y :: y in init ==> y in s;
      FilterUnordered(init, lt, p);
      FilterUnorderedStep(init, last, lt, p);
    }
  }

  /** One step of FilterUnordered: appending `last` to the input appends it
      to the kept class, when it is not strictly before any of that class. */
  lemma FilterUnorderedStep<T>(init: seq<T>, last: T, lt: (T, T) -> bool, p: T -> bool)
    requires forall y :: y in init && p(last) && p(y) ==> !lt(last, y)
    requires Filter(Sort(init, lt), p) == Filter(init, p)
    ensures Filter(Sort(init + [last], lt), p) == Filter(init + [last], p)
  {
    SortPermutation(init, lt);
    forall y | y in Sort(init, lt) && p(last) && p(y)
      ensures !lt(last, y)
    {
      assert y in multiset(init);
    }
    InsertLastFilter(Sort(init, lt), last, lt, p);
    assert (init + [last])[..|init|] == init;
    assert Sort(init + [last], lt) == InsertLast(Sort(init, lt), last, lt);
    FilterAppend(init, [last], p);
    assert Filter([last], p) == if p(last) then [last] else [];
  }

  lemma SortStep<T>(s: seq<T>, i: nat, lt: (T, T) -> bool)
    requires i < |s|
    ensures Sort(s[..i + 1], lt) == InsertLast(Sort(s[..i], lt), s[i], lt)
  {
    assert s[..i + 1][..i] == s[..i];
  }

  lemma InsertLastShift<T>(sorted: seq<T>, x: T, j: nat, lt: (T, T) -> bool)
    requires 0 < j <= |sorted| && lt(x, sorted[j - 1])
    ensures InsertLast(sorted[..j], x, lt) + sorted[j..] == InsertLast(sorted[..j - 1], x, lt) + sorted[j - 1..]
  {
    assert sorted[..j][..j - 1] == sorted[..j - 1];
    assert sorted[j - 1..] == [sorted[j - 1]] + sorted[j..];
  }

  /** Where the shifting of an insertion stops, x goes last. */
  lemma InsertLastStop<T>(sorted: seq<T>, x: T, j: nat, lt: (T, T) -> bool)
    requires j <= |sorted| && (j == 0 || !lt(x, sorted[j - 1]))
    ensures InsertLast(sorted[..j], x, lt) == sorted[..j] + [x]
  {
  }

  /** Sorts a in place: insertion sort, each element shifted left past the
      elements it comes strictly before. */
  method InsertionSort<T>(a: array<T>, lt: (T, T) -> bool)
    modifies a
    ensures a[..] == Sort(old(a[..]), lt)
  {
    ghost var s := a[..];
    var i := 0;
    while i < a.Length
      invariant 0 <= i <= a.Length
      invariant a[..i] == Sort(s[..i], lt)
      invariant a[i..] == s[i..]
    {
      Insert(a, i, lt);
      SortStep(s, i, lt);
      assert a[i + 1..] == s[i + 1..];
      i := i + 1;
    }
    assert s[..a.Length] == s;
  }

  /** One step of the insertion sort: a[i] moves into the prefix a[..i]. */
  method Insert<T>(a: array<T>, i: nat, lt: (T, T) -> bool)
    requires i < a.Length
    modifies a
    ensures a[..i + 1] == InsertLast(old(a[..i]), old(a[i]), lt)
    ensures a[i + 1..] == old(a[i + 1..])
  {
    var x := a[i];
    ghost var sorted, rest := a[..i], a[i + 1..];
    var j := i;
    assert a[..] == sorted[..j] + [a[j]] + sorted[j..] + rest by {
      assert a[..] == a[..i] + [a[i]] + a[i + 1..];
    }
    assert sorted[..j] == sorted && sorted[j..] == [];
    while j > 0 && lt(x, a[j - 1])
      invariant 0 <= j <= i
      invariant a[..] == sorted[..j] + [a[j]] + sorted[j..] + rest
      invariant InsertLast(sorted, x, lt) == InsertLast(sorted[..j], x, lt) + sorted[j..]
    {
      Shift(sorted, a[j], j, rest);
      InsertLastShift(sorted, x, j, lt);
      a[j] := a[j - 1];
      j := j - 1;
    }
    Put(sorted, a[j], x, j, rest);
    a[j] := x;
    InsertLastStop(sorted, x, j, lt);
    Halves(sorted[..j] + [x] + sorted[j..], rest);
  }

  /** Shifting the element before the gap into the gap moves the gap left. */
  lemma Shift<T>(s: seq<T>, g: T, j: nat, rest: seq<T>)
    requires 0 < j <= |s|
    ensures (s[..j] + [g] + s[j..] + rest)[j - 1] == s[j - 1]
    ensures (s[..j] + [g] + s[j..] + rest)[j := s[j - 1]] == s[..j - 1] + [s[j - 1]] + s[j - 1..] + rest
  {
    var t := s[..j] + [g] + s[j..] + rest;
    assert t[j - 1] == s[..j][j - 1];
    var u := s[..j - 1] + [s[j - 1]] + s[j - 1..] + rest;
    assert |t[j := s[j - 1]]| == |u|;
    forall k | 0 <= k < |u|
      ensures t[j := s[j - 1]][k] == u[k]
    {
      if k < j - 1 {
      } else if k == j - 1 || k == j {
      } else if k <= |s| {
        assert t[k] == s[k - 1] && u[k] == s[k - 1];
      } else {
        assert t[k] == rest[k - |s| - 1] && u[k] == rest[k - |s| - 1];
      }
    }
  }

  /** Writing x into the gap. */
  lemma Put<T>(s: seq<T>, g: T, x: T, j: nat, rest: seq<T>)
    requires j <= |s|
    ensures (s[..j] + [g] + s[j..] + rest)[j := x] == s[..j] + [x] + s[j..] + rest
  {
    var t := s[..j] + [g] + s[j..] + rest;
    var u := s[..j] + [x] + s[j..] + rest;
    forall k | 0 <= k < |u|
      ensures t[j := x][k] == u[k]
    {
      if k < j {
      } else if k == j {
      } else {
        assert t[k] == u[k];
      }
    }
  }

  lemma Halves<T>(p: seq<T>, r: seq<T>)
    ensures (p + r)[..|p|] == p && (p + r)[|p|..] == r
  {
  }

  /** `[...s].sort(lt)`: copies s into a fresh array and sorts that in place. */
  method SortedCopy<T>(s: seq<T>, lt: (T, T) -> bool) returns (r: seq<T>)
    ensures r == Sort(s, lt)
  {
    var a := new T[|s|](i requires 0 <= i < |s| => s[i]);
    assert a[..] == s;
    InsertionSort(a, lt);
    r := a[..];
  }
}
