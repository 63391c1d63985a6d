/** Sequence tools shared by the repositories: list-comprehension filtering
    and Python's stable `sorted(..., key=...)` on an integer key. */
module Seqs {

  /** `[x for x in s if p(x)]`, keeping the order of `s`. */
  function Filter<T(!new)>(s: seq<T>, p: T -> bool): (r: seq<T>)
    ensures |r| <= |s|
    ensures forall x :: x in r <==> x in s && p(x)
    ensures forall i :: 0 <= i < |r| ==> p(r[i])
    ensures multiset(r) <= multiset(s)
  {
    if |s| == 0 then []
    else if p(s[0]) then
      assert s == [s[0]] + s[1..];
      [s[0]] + Filter(s[1..], p)
    else
      assert s == [s[0]] + s[1..];
      Filter(s[1..], p)
  }

  lemma {:induction false} FilterAppend<T(!new)>(a: seq<T>, b: seq<T>, p: T -> bool)
    ensures Filter(a + b, p) == Filter(a, p) + Filter(b, p)
    decreases |a|
  {
    if |a| == 0 {
      assert a + b == b;
    } else {
      assert (a + b)[0] == a[0];
      assert (a + b)[1..] == a[1..] + b;
      FilterAppend(a[1..], b, p);
    }
  }

  /** Two filters in a row keep exactly what their conjunction keeps. */
  lemma {:induction false} FilterFilter<T(!new)>(s: seq<T>, p: T -> bool, q: T -> bool, pq: T -> bool)
    requires forall x :: pq(x) == (p(x) && q(x))
    ensures Filter(Filter(s, p), q) == Filter(s, pq)
    decreases |s|
  {
    if |s| > 0 {
      FilterFilter(s[1..], p, q, pq);
    }
  }

  /** A filter whose predicate keeps everything changes nothing. */
  lemma {:induction false} FilterAll<T(!new)>(s: seq<T>, p: T -> bool)
    requires forall x :: p(x)
    ensures Filter(s, p) == s
    decreases |s|
  {
    if |s| > 0 {
      FilterAll(s[1..], p);
      assert s == [s[0]] + s[1..];
    }
  }

  lemma ConcatAssoc<T>(a: seq<T>, b: seq<T>, c: seq<T>)
    ensures (a + b) + c == a + (b + c)
  {
  }

  /** Two conditions that agree on every element keep the same elements. */
  lemma {:induction false} FilterSame<T(!new)>(s: seq<T>, p: T -> bool, q: T -> bool)
    requires forall x :: p(x) == q(x)
    ensures Filter(s, p) == Filter(s, q)
    decreases |s|
  {
    if |s| > 0 {
      FilterSame(s[1..], p, q);
    }
  }

  /** Filtering by a condition that is one of two exclusive cases gives the
      elements of both cases, with their multiplicities. */
  lemma {:induction false} FilterSplit<T(!new)>(s: seq<T>, p: T -> bool, q: T -> bool, pq: T -> bool)
    requires forall x :: pq(x) == (p(x) || q(x))
    requires forall x :: !(p(x) && q(x))
    ensures multiset(Filter(s, pq)) == multiset(Filter(s, p)) + multiset(Filter(s, q))
    decreases |s|
  {
    if |s| > 0 {
      FilterSplit(s[1..], p, q, pq);
    }
  }

  /** An optional second comprehension, applied only when `narrow` holds
      (the `if run_id is not None:` step of the repository queries). */
  function Narrow<T(!new)>(s: seq<T>, narrow: bool, q: T -> bool): seq<T> {
    if narrow then Filter(s, q) else s
  }

  /** An optional filter on its own is a filter whose condition holds of
      everything when the filter is skipped. */
  lemma NarrowIsFilter<T(!new)>(s: seq<T>, narrow: bool, q: T -> bool, p: T -> bool)
    requires forall x :: p(x) == (!narrow || q(x))
    ensures Narrow(s, narrow, q) == Filter(s, p)
  {
    if narrow {
      FilterSame(s, q, p);
    } else {
      FilterAll(s, p);
    }
  }

  /** A filter optionally followed by a second one keeps exactly what the
      combined condition keeps. */
  lemma TwoStageFilter<T(!new)>(s: seq<T>, p: T -> bool, narrow: bool, q: T -> bool, pq: T -> bool)
    requires forall x :: pq(x) == (p(x) && (!narrow || q(x)))
    ensures Narrow(Filter(s, p), narrow, q) == Filter(s, pq)
  {
    if narrow {
      FilterFilter(s, p, q, pq);
    } else {
      FilterFilter(s, p, _ => true, pq);
      FilterAll(Filter(s, p), _ => true);
    }
  }

  /** The position of the first element satisfying `p`, or `|s|` when there
      is none: a `for` loop that returns on its first match. */
  function FirstIndex<T>(s: seq<T>, p: T -> bool): (i: nat)
    ensures i <= |s|
    ensures forall j :: 0 <= j < i ==> !p(s[j])
    ensures i < |s| ==> p(s[i])
    decreases |s|
  {
    if |s| == 0 then 0
    else if p(s[0]) then 0
    else
      var i := FirstIndex(s[1..], p);
      assert forall j :: 1 <= j <= i ==> s[j] == s[1..][j - 1];
      1 + i
  }

  ghost predicate SortedBy<T>(s: seq<T>, key: T -> int) {
    forall i, j :: 0 <= i < j < |s| ==> key(s[i]) <= key(s[j])
  }

  lemma SortedTail<T>(s: seq<T>, key: T -> int)
    requires SortedBy(s, key) && |s| > 0
    ensures SortedBy(s[1..], key)
  {
    forall i, j | 0 <= i < j < |s| - 1
      ensures key(s[1..][i]) <= key(s[1..][j])
    {
      assert s[1..][i] == s[i + 1] && s[1..][j] == s[j + 1];
    }
  }

  lemma SortedCons<T>(h: T, t: seq<T>, key: T -> int)
    requires SortedBy(t, key)
    requires forall y :: y in multiset(t) ==> key(h) <= key(y)
    ensures SortedBy([h] + t, key)
  {
    var s := [h] + t;
    forall i, j | 0 <= i < j < |s|
      ensures key(s[i]) <= key(s[j])
    {
      assert s[j] == t[j - 1];
      assert t[j - 1] in multiset(t);
      if i > 0 {
        assert s[i] == t[i - 1];
      }
    }
  }

  /** Inserts `x` into a sorted sequence after every element whose key is
      not greater than `key(x)`, which is what makes `SortBy` stable. */
  function InsertBy<T>(x: T, s: seq<T>, key: T -> int): (r: seq<T>)
    requires SortedBy(s, key)
    ensures SortedBy(r, key)
    ensures multiset(r) == multiset(s) + multiset{x}
    ensures |r| == |s| + 1
    decreases |s|
  {
    if |s| == 0 then [x]
    else if key(x) < key(s[0]) then
      assert forall y :: y in multiset(s) ==> key(s[0]) <= key(y) by {
        forall y | y in multiset(s) ensures key(s[0]) <= key(y) {
          var j :| 0 <= j < |s| && s[j] == y;
          if j > 0 { assert key(s[0]) <= key(s[j]); }
        }
      }
      SortedCons(x, s, key);
      [x] + s
    else
      SortedTail(s, key);
      var rest := InsertBy(x, s[1..], key);
      assert s == [s[0]] + s[1..];
      assert forall y :: y in multiset(rest) ==> key(s[0]) <= key(y) by {
        forall y | y in multiset(rest) ensures key(s[0]) <= key(y) {
          if y != x {
            assert y in multiset(s[1..]);
            var j :| 0 <= j < |s[1..]| && s[1..][j] == y;
            assert s[j + 1] == y;
          }
        }
      }
      SortedCons(s[0], rest, key);
      [s[0]] + rest
  }

  /** The elements whose key is `k`. */
  function KeyIs<T>(key: T -> int, k: int): T -> bool {
    (x: T) => key(x) == k
  }

  /** `sorted(s, key=key)`: elements taken in their original order, each one
      inserted after the equal keys already placed. Like Python's `sorted`
      it is stable: the elements sharing a key keep their relative order. */
  function SortBy<T(!new)>(s: seq<T>, key: T -> int): (r: seq<T>)
    ensures SortedBy(r, key)
    ensures multiset(r) == multiset(s)
    ensures |r| == |s|
    ensures forall k :: Filter(r, KeyIs(key, k)) == Filter(s, KeyIs(key, k))
    decreases |s|
  {
    if |s| == 0 then []
    else
      var n := |s| - 1;
      assert s == s[..n] + [s[n]];
      var sorted := SortBy(s[..n], key);
      InsertStable(s[..n], s[n], sorted, key);
      InsertBy(s[n], sorted, key)
  }

  /** The step that keeps `SortBy` stable: inserting the next element into a
      stable sort of the elements before it. */
  lemma InsertStable<T(!new)>(u: seq<T>, x: T, sorted: seq<T>, key: T -> int)
    requires SortedBy(sorted, key)
    requires forall k :: Filter(sorted, KeyIs(key, k)) == Filter(u, KeyIs(key, k))
    ensures forall k :: Filter(InsertBy(x, sorted, key), KeyIs(key, k)) == Filter(u + [x], KeyIs(key, k))
  {
    forall k ensures Filter(InsertBy(x, sorted, key), KeyIs(key, k)) == Filter(u + [x], KeyIs(key, k)) {
      InsertStableAt(u, x, sorted, key, k);
    }
  }

  lemma InsertStableAt<T(!new)>(u: seq<T>, x: T, sorted: seq<T>, key: T -> int, k: int)
    requires SortedBy(sorted, key)
    requires Filter(sorted, KeyIs(key, k)) == Filter(u, KeyIs(key, k))
    ensures Filter(InsertBy(x, sorted, key), KeyIs(key, k)) == Filter(u + [x], KeyIs(key, k))
  {
    var q := KeyIs(key, k);
    var f := Filter(sorted, q);
    InsertByFilter(x, sorted, key, q);
    FilterAppend(u, [x], q);
    FilterCons(x, [], q);
    assert [x] + [] == [x];
    if q(x) {
      KeyIsAll(f, key, k);
      InsertAtEnd(x, f, key);
      assert Filter(InsertBy(x, sorted, key), q) == f + [x];
      assert Filter(u + [x], q) == Filter(u, q) + [x];
    } else {
      assert Filter(InsertBy(x, sorted, key), q) == f;
      assert Filter(u + [x], q) == Filter(u, q) + [];
      assert Filter(u, q) + [] == Filter(u, q);
    }
  }

  /** Every element kept by a key filter has that key. */
  lemma KeyIsAll<T(!new)>(f: seq<T>, key: T -> int, k: int)
    requires forall i :: 0 <= i < |f| ==> KeyIs(key, k)(f[i])
    ensures forall i :: 0 <= i < |f| ==> key(f[i]) == k
  {
  }

  /** Sorting one more element is inserting it into the sorted rest. */
  lemma SortBySnoc<T(!new)>(u: seq<T>, x: T, key: T -> int)
    ensures SortBy(u + [x], key) == InsertBy(x, SortBy(u, key), key)
  {
    assert (u + [x])[..|u|] == u;
    assert (u + [x])[|u|] == x;
  }

  /** One step of a comprehension. */
  lemma FilterCons<T(!new)>(h: T, t: seq<T>, p: T -> bool)
    ensures Filter([h] + t, p) == if p(h) then [h] + Filter(t, p) else Filter(t, p)
  {
    assert ([h] + t)[0] == h;
    assert ([h] + t)[1..] == t;
  }

  /** Inserting below the first key puts the element in front. */
  lemma InsertFront<T>(x: T, t: seq<T>, key: T -> int)
    requires SortedBy(t, key)
    requires |t| == 0 || key(x) < key(t[0])
    ensures InsertBy(x, t, key) == [x] + t
  {
  }

  /** Inserting at or above the first key keeps that first element first. */
  lemma InsertBehindHead<T>(x: T, h: T, t: seq<T>, key: T -> int)
    requires SortedBy([h] + t, key) && key(h) <= key(x)
    ensures SortedBy(t, key)
    ensures InsertBy(x, [h] + t, key) == [h] + InsertBy(x, t, key)
  {
    SortedTail([h] + t, key);
    assert ([h] + t)[0] == h;
    assert ([h] + t)[1..] == t;
  }

  /** Filtering after an insertion is inserting into the filtered sequence,
      because where `InsertBy` puts an element depends on keys alone. */
  lemma {:induction false} InsertByFilter<T(!new)>(x: T, t: seq<T>, key: T -> int, q: T -> bool)
    requires SortedBy(t, key)
    ensures SortedBy(Filter(t, q), key)
    ensures Filter(InsertBy(x, t, key), q) == if q(x) then InsertBy(x, Filter(t, q), key) else Filter(t, q)
    decreases |t|, 1
  {
    FilterSorted(t, q, key);
    if |t| == 0 {
      FilterCons(x, [], q);
    } else if key(x) < key(t[0]) {
      InsertByFilterFront(x, t, key, q);
    } else {
      InsertByFilterBehind(x, t, key, q);
    }
  }

  /** `InsertByFilter` when the element goes in front. */
  lemma InsertByFilterFront<T(!new)>(x: T, t: seq<T>, key: T -> int, q: T -> bool)
    requires SortedBy(t, key) && SortedBy(Filter(t, q), key)
    requires |t| > 0 && key(x) < key(t[0])
    ensures Filter(InsertBy(x, t, key), q) == if q(x) then InsertBy(x, Filter(t, q), key) else Filter(t, q)
  {
    var f := Filter(t, q);
    InsertFront(x, t, key);
    FilterCons(x, t, q);
    if q(x) && |f| > 0 {
      assert f[0] in t;
      var j :| 0 <= j < |t| && t[j] == f[0];
      if j > 0 { assert key(t[0]) <= key(t[j]); }
    }
    if q(x) {
      InsertFront(x, f, key);
    }
  }

  /** `InsertByFilter` when the element goes behind the head. */
  lemma {:induction false} InsertByFilterBehind<T(!new)>(x: T, t: seq<T>, key: T -> int, q: T -> bool)
    requires SortedBy(t, key) && SortedBy(Filter(t, q), key)
    requires |t| > 0 && key(t[0]) <= key(x)
    ensures Filter(InsertBy(x, t, key), q) == if q(x) then InsertBy(x, Filter(t, q), key) else Filter(t, q)
    decreases |t|, 0
  {
    var h, tl := t[0], t[1..];
    assert t == [h] + tl;
    InsertBehindHead(x, h, tl, key);
    InsertByFilter(x, tl, key, q);
    FilterCons(h, InsertBy(x, tl, key), q);
    FilterCons(h, tl, q);
    if q(h) && q(x) {
      InsertBehindHead(x, h, Filter(tl, q), key);
    }
  }

  /** An element whose key is not below any key of a sorted sequence is
      inserted at its end. */
  lemma {:induction false} InsertAtEnd<T>(x: T, t: seq<T>, key: T -> int)
    requires SortedBy(t, key)
    requires forall i :: 0 <= i < |t| ==> key(t[i]) <= key(x)
    ensures InsertBy(x, t, key) == t + [x]
    decreases |t|
  {
    if |t| > 0 {
      SortedTail(t, key);
      assert forall i :: 0 <= i < |t| - 1 ==> t[1..][i] == t[i + 1];
      InsertAtEnd(x, t[1..], key);
      assert t + [x] == [t[0]] + (t[1..] + [x]);
    }
  }

  /** Sorting and filtering commute: the stable sort of a filtered sequence
      is the filtered stable sort. */
  lemma {:induction false} SortByFilter<T(!new)>(s: seq<T>, key: T -> int, q: T -> bool)
    ensures Filter(SortBy(s, key), q) == SortBy(Filter(s, q), key)
    decreases |s|
  {
    if |s| > 0 {
      var n := |s| - 1;
      assert s == s[..n] + [s[n]];
      SortByFilter(s[..n], key, q);
      SortByFilterStep(s[..n], s[n], key, q);
    }
  }

  lemma SortByFilterStep<T(!new)>(u: seq<T>, x: T, key: T -> int, q: T -> bool)
    requires Filter(SortBy(u, key), q) == SortBy(Filter(u, q), key)
    ensures Filter(SortBy(u + [x], key), q) == SortBy(Filter(u + [x], q), key)
  {
    var su := SortBy(u, key);
    var fu := Filter(u, q);
    SortBySnoc(u, x, key);
    InsertByFilter(x, su, key, q);
    FilterAppend(u, [x], q);
    FilterCons(x, [], q);
    assert [x] + [] == [x];
    if q(x) {
      SortBySnoc(fu, x, key);
      assert Filter(u + [x], q) == fu + [x];
      assert Filter(SortBy(u + [x], key), q) == InsertBy(x, Filter(su, q), key);
      assert InsertBy(x, Filter(su, q), key) == InsertBy(x, SortBy(fu, key), key);
    } else {
      assert Filter(u + [x], q) == fu + [];
      assert fu + [] == fu;
      assert Filter(SortBy(u + [x], key), q) == Filter(su, q);
    }
  }

  /** Python's `sorted(s, key=key)[-1]`: the position of the last element
      whose key is maximal. */
  function LastMaxIndex<T>(s: seq<T>, key: T -> int): (i: nat)
    requires |s| > 0
    ensures i < |s|
    ensures forall j :: 0 <= j < |s| ==> key(s[j]) <= key(s[i])
    ensures forall j :: i < j < |s| ==> key(s[j]) < key(s[i])
    decreases |s|
  {
    if |s| == 1 then 0
    else
      var m := LastMaxIndex(s[..|s| - 1], key);
      assert forall j :: 0 <= j < |s| - 1 ==> s[..|s| - 1][j] == s[j];
      if key(s[|s| - 1]) >= key(s[m]) then |s| - 1 else m
  }

  /** The last element after an insertion. */
  lemma {:induction false} InsertByLast<T>(x: T, t: seq<T>, key: T -> int)
    requires SortedBy(t, key)
    ensures var r := InsertBy(x, t, key);
      r[|r| - 1] == if |t| == 0 || key(x) >= key(t[|t| - 1]) then x else t[|t| - 1]
    decreases |t|
  {
    if |t| > 0 && key(x) >= key(t[0]) {
      SortedTail(t, key);
      InsertByLast(x, t[1..], key);
    } else if |t| > 1 {
      assert key(t[0]) <= key(t[|t| - 1]);
    }
  }

  /** The stable sort ends with the last of the elements whose key is
      maximal. */
  lemma {:induction false} SortByLast<T(!new)>(s: seq<T>, key: T -> int)
    requires |s| > 0
    ensures SortBy(s, key)[|s| - 1] == s[LastMaxIndex(s, key)]
    decreases |s|
  {
    var n := |s| - 1;
    assert s == s[..n] + [s[n]];
    if n > 0 {
      SortByLast(s[..n], key);
    }
    SortByLastStep(s[..n], s[n], key);
  }

  lemma SortByLastStep<T(!new)>(u: seq<T>, x: T, key: T -> int)
    requires |u| > 0 ==> SortBy(u, key)[|u| - 1] == u[LastMaxIndex(u, key)]
    ensures SortBy(u + [x], key)[|u|] == (u + [x])[LastMaxIndex(u + [x], key)]
  {
    var su := SortBy(u, key);
    SortBySnoc(u, x, key);
    InsertByLast(x, su, key);
    LastMaxSnoc(u, x, key);
  }

  /** The last element of a filtered stable sort is the last element of
      maximal key among those the filter keeps. */
  lemma LastOfFilteredSort<T(!new)>(s: seq<T>, key: T -> int, q: T -> bool)
    requires |Filter(SortBy(s, key), q)| > 0
    ensures var bs := Filter(SortBy(s, key), q);
      var g := Filter(s, q);
      |g| == |bs| && bs[|bs| - 1] == g[LastMaxIndex(g, key)]
  {
    SortByFilter(s, key, q);
    SortByLast(Filter(s, q), key);
  }

  /** Where the last maximal key is once one more element is appended. */
  lemma LastMaxSnoc<T>(u: seq<T>, x: T, key: T -> int)
    ensures |u| == 0 ==> LastMaxIndex(u + [x], key) == 0 && (u + [x])[0] == x
    ensures |u| > 0 ==> var m := LastMaxIndex(u, key);
      && (u + [x])[m] == u[m] && (u + [x])[|u|] == x
      && LastMaxIndex(u + [x], key) == if key(x) >= key(u[m]) then |u| else m
  {
    var s := u + [x];
    assert s[..|u|] == u;
  }

  /** Filtering keeps a sorted sequence sorted. */
  lemma {:induction false} FilterSorted<T(!new)>(s: seq<T>, p: T -> bool, key: T -> int)
    requires SortedBy(s, key)
    ensures SortedBy(Filter(s, p), key)
    decreases |s|
  {
    if |s| > 0 {
      SortedTail(s, key);
      FilterSorted(s[1..], p, key);
      var rest := Filter(s[1..], p);
      if p(s[0]) {
        assert forall y :: y in multiset(rest) ==> key(s[0]) <= key(y) by {
          forall y | y in multiset(rest) ensures key(s[0]) <= key(y) {
            assert y in rest;
            var j :| 0 <= j < |s[1..]| && s[1..][j] == y;
            assert s[j + 1] == y;
          }
        }
        SortedCons(s[0], rest, key);
      }
    }
  }

  /** `filter` followed by `sorted`: the query shape of every repository. */
  function Query<T(!new)>(s: seq<T>, p: T -> bool, key: T -> int): (r: seq<T>)
    ensures SortedBy(r, key)
    ensures multiset(r) == multiset(Filter(s, p))
    ensures forall x :: x in r <==> x in s && p(x)
  {
    var f := Filter(s, p);
    var r := SortBy(f, key);
    assert forall x :: x in r <==> x in multiset(f);
    r
  }

  /** A filter, an optional narrowing filter, then `sorted`: the same list
      the single combined filter gives. */
  function StagedQuery<T(!new)>(s: seq<T>, p: T -> bool, narrow: bool, q: T -> bool, pq: T -> bool, key: T -> int): (r: seq<T>)
    requires forall x :: pq(x) == (p(x) && (!narrow || q(x)))
    ensures r == Query(s, pq, key)
    ensures r == SortBy(Filter(s, pq), key)
    ensures SortedBy(r, key)
    ensures forall x :: x in r <==> x in s && pq(x)
  {
    TwoStageFilter(s, p, narrow, q, pq);
    SortBy(Narrow(Filter(s, p), narrow, q), key)
  }

  /** In a sorted sequence the last element carries a maximal key. */
  lemma LastIsMax<T>(s: seq<T>, key: T -> int)
    requires SortedBy(s, key) && |s| > 0
    ensures forall x :: x in s ==> key(x) <= key(s[|s| - 1])
  {
    forall x | x in s ensures key(x) <= key(s[|s| - 1]) {
      var i :| 0 <= i < |s| && s[i] == x;
      if i < |s| - 1 {
        assert key(s[i]) <= key(s[|s| - 1]);
      }
    }
  }

  /** Python's `max(s, key=key)`: the position of the first element whose
      key is maximal. */
  function FirstMaxIndex<T>(s: seq<T>, key: T -> int): (i: nat)
    requires |s| > 0
    ensures i < |s|
    ensures forall j :: 0 <= j < |s| ==> key(s[j]) <= key(s[i])
    ensures forall j :: 0 <= j < i ==> key(s[j]) < key(s[i])
    decreases |s|
  {
    if |s| == 1 then 0
    else
      var m := FirstMaxIndex(s[..|s| - 1], key);
      assert forall j :: 0 <= j < |s| - 1 ==> s[..|s| - 1][j] == s[j];
      if key(s[|s| - 1]) > key(s[m]) then |s| - 1 else m
  }
}
