/** Python's `sorted(entries, key=lambda x: x.norm_amps)`: a stable sort of
    line codes by their normal current rating.

    Stability is stated through `WithAmps(s, k)`, the subsequence of `s` made
    of the entries rated exactly `k` amps. A sort is stable exactly when every
    such subsequence is the same before and after, and together with
    sortedness this determines the result completely (`SortedGroupsDetermine`),
    which gives an independent definition, `IsStableSortOf`, to check the
    insertion sort against. */
module NormAmpsSort {
  import opened LinecodeCatalogue

  /** Nondecreasing in `normAmps`. */
  predicate Sorted(s: seq<LC>) {
    forall i, j | 0 <= i < j < |s| :: s[i].normAmps <= s[j].normAmps
  }

  /** The entries of `s` rated exactly `k` amps, in their order in `s`. */
  function WithAmps(s: seq<LC>, k: real): seq<LC> {
    if |s| == 0 then []
    else (if s[0].normAmps == k then [s[0]] else []) + WithAmps(s[1..], k)
  }

  /** What a stable sort by `normAmps` must return for `s`: a sorted sequence
      in which the entries of every rating appear in their order in `s`. */
  ghost predicate IsStableSortOf(r: seq<LC>, s: seq<LC>) {
    Sorted(r) && forall k :: WithAmps(r, k) == WithAmps(s, k)
  }

  /** Places `x` in front of the first entry of `s` rated at least as high,
      so that it precedes the entries of its own rating already in `s`. */
  function Insert(x: LC, s: seq<LC>): (r: seq<LC>)
    ensures multiset(r) == multiset(s) + multiset{x}
    ensures |r| == |s| + 1
  {
    if |s| == 0 || x.normAmps <= s[0].normAmps then [x] + s
    else
      assert s == [s[0]] + s[1..];
      [s[0]] + Insert(x, s[1..])
  }

  /** `sorted(s, key=lambda x: x.norm_amps)`, as an insertion sort that
      inserts each entry in front of the already sorted entries after it. */
  function SortByNormAmps(s: seq<LC>): (r: seq<LC>)
    ensures Sorted(r)
    ensures multiset(r) == multiset(s)
    ensures |r| == |s|
  {
    if |s| == 0 then []
    else
      assert s == [s[0]] + s[1..];
      InsertSorted(s[0], SortByNormAmps(s[1..]));
      Insert(s[0], SortByNormAmps(s[1..]))
  }

  /** Inserting into entries all rated at least `b` an entry rated at least
      `b` gives entries all rated at least `b`. */
  lemma {:induction false} InsertBounded(x: LC, s: seq<LC>, b: real)
    requires b <= x.normAmps
    requires forall i | 0 <= i < |s| :: b <= s[i].normAmps
    ensures forall i | 0 <= i < |Insert(x, s)| :: b <= Insert(x, s)[i].normAmps
  {
    if |s| > 0 && s[0].normAmps < x.normAmps {
      InsertBounded(x, s[1..], b);
      assert Insert(x, s) == [s[0]] + Insert(x, s[1..]);
    }
  }

  /** Inserting into a sorted sequence keeps it sorted. */
  lemma {:induction false} InsertSorted(x: LC, s: seq<LC>)
    requires Sorted(s)
    ensures Sorted(Insert(x, s))
  {
    if |s| > 0 && s[0].normAmps < x.normAmps {
      var t := Insert(x, s[1..]);
      InsertSorted(x, s[1..]);
      InsertBounded(x, s[1..], s[0].normAmps);
      assert Insert(x, s) == [s[0]] + t;
    }
  }

  /** The group of a sequence with `x` in front: `x`, if it has rating `k`,
      in front of the group of the rest. */
  lemma WithAmpsCons(x: LC, s: seq<LC>, k: real)
    ensures WithAmps([x] + s, k) == (if x.normAmps == k then [x] else []) + WithAmps(s, k)
  {
    assert ([x] + s)[1..] == s;
  }

  lemma {:induction false} WithAmpsAppend(a: seq<LC>, b: seq<LC>, k: real)
    ensures WithAmps(a + b, k) == WithAmps(a, k) + WithAmps(b, k)
  {
    if |a| == 0 {
      assert a + b == b;
    } else {
      assert (a + b)[1..] == a[1..] + b;
      WithAmpsAppend(a[1..], b, k);
    }
  }

  /** No entry of `s` is rated `k`: the `k` group is empty. */
  lemma {:induction false} WithAmpsAbsent(s: seq<LC>, k: real)
    requires forall i | 0 <= i < |s| :: s[i].normAmps != k
    ensures WithAmps(s, k) == []
  {
    if |s| > 0 {
      WithAmpsAbsent(s[1..], k);
    }
  }

  /** Every entry of `s` is rated `k`: the `k` group is all of `s`. */
  lemma {:induction false} WithAmpsAll(s: seq<LC>, k: real)
    requires forall i | 0 <= i < |s| :: s[i].normAmps == k
    ensures WithAmps(s, k) == s
  {
    if |s| > 0 {
      WithAmpsAll(s[1..], k);
    }
  }

  /** A group only ever holds entries of `s` with that rating. */
  lemma {:induction false} WithAmpsMembers(s: seq<LC>, k: real)
    ensures forall i | 0 <= i < |WithAmps(s, k)| ::
      WithAmps(s, k)[i] in s && WithAmps(s, k)[i].normAmps == k
  {
    if |s| > 0 {
      WithAmpsMembers(s[1..], k);
    }
  }

  /** Every entry of `s` is in the group of its own rating. */
  lemma {:induction false} WithAmpsHas(s: seq<LC>, x: LC)
    requires x in s
    ensures x in WithAmps(s, x.normAmps)
  {
    if s[0] != x {
      WithAmpsHas(s[1..], x);
    }
  }

  /** Inserting `x` adds `x` at the front of its own rating's group and leaves
      every other group alone. */
  lemma {:induction false} InsertWithAmps(x: LC, s: seq<LC>, k: real)
    ensures WithAmps(Insert(x, s), k)
         == (if x.normAmps == k then [x] else []) + WithAmps(s, k)
  {
    if |s| == 0 || x.normAmps <= s[0].normAmps {
      WithAmpsCons(x, s, k);
    } else {
      var t := Insert(x, s[1..]);
      var rest := WithAmps(s[1..], k);
      assert Insert(x, s) == [s[0]] + t;
      assert s == [s[0]] + s[1..];
      InsertWithAmps(x, s[1..], k);
      WithAmpsCons(s[0], t, k);
      WithAmpsCons(s[0], s[1..], k);
      if s[0].normAmps == k {
        // Then x, rated above s[0], is not rated k.
        assert WithAmps(Insert(x, s), k) == [s[0]] + rest;
      } else {
        assert WithAmps(Insert(x, s), k) == WithAmps(t, k);
      }
    }
  }

  /** The sort is stable: every rating's entries keep their relative order. */
  lemma {:induction false} SortIsStable(s: seq<LC>, k: real)
    ensures WithAmps(SortByNormAmps(s), k) == WithAmps(s, k)
  {
    if |s| > 0 {
      SortIsStable(s[1..], k);
      InsertWithAmps(s[0], SortByNormAmps(s[1..]), k);
    }
  }

  /** In a sorted sequence, a rating that has entries is at least the rating
      of the first entry. */
  lemma SortedGroupBound(s: seq<LC>, k: real)
    requires Sorted(s) && WithAmps(s, k) != []
    ensures |s| > 0 && s[0].normAmps <= k
  {
    WithAmpsMembers(s, k);
    var e := WithAmps(s, k)[0];
    var j :| 0 <= j < |s| && s[j] == e;
  }

  /** In a sorted sequence rated no lower than `m` throughout, the entries
      rated `m` are exactly its first few. */
  lemma {:induction false} SortedLowestGroupIsPrefix(s: seq<LC>, m: real)
    requires Sorted(s)
    requires forall i | 0 <= i < |s| :: m <= s[i].normAmps
    ensures |WithAmps(s, m)| <= |s|
    ensures WithAmps(s, m) == s[..|WithAmps(s, m)|]
  {
    if |s| > 0 {
      if s[0].normAmps == m {
        SortedLowestGroupIsPrefix(s[1..], m);
        assert WithAmps(s, m) == [s[0]] + WithAmps(s[1..], m);
        assert s[..|WithAmps(s, m)|] == [s[0]] + s[1..][..|WithAmps(s[1..], m)|];
      } else {
        WithAmpsAbsent(s, m);
      }
    }
  }

  /** Two sorted sequences with the same group for every rating are equal:
      sortedness fixes the order between groups, the groups fix the order
      within them. */
  lemma {:induction false} SortedGroupsDetermine(a: seq<LC>, b: seq<LC>)
    requires Sorted(a) && Sorted(b)
    requires forall k :: WithAmps(a, k) == WithAmps(b, k)
    ensures a == b
    decreases |a|
  {
    if |a| > 0 {
      assert WithAmps(a, a[0].normAmps) == WithAmps(b, a[0].normAmps);
      SortedGroupBound(b, a[0].normAmps);
    }
    if |b| > 0 {
      assert WithAmps(b, b[0].normAmps) == WithAmps(a, b[0].normAmps);
      SortedGroupBound(a, b[0].normAmps);
    }
    if |a| > 0 {
      var k0 := a[0].normAmps;
      assert b[0].normAmps == k0;
      assert WithAmps(a, k0) == [a[0]] + WithAmps(a[1..], k0);
      assert WithAmps(b, k0) == [b[0]] + WithAmps(b[1..], k0);
      assert WithAmps(a, k0) == WithAmps(b, k0);
      assert a[0] == WithAmps(a, k0)[0] == b[0];
      forall k
        ensures WithAmps(a[1..], k) == WithAmps(b[1..], k)
      {
        var head := if a[0].normAmps == k then [a[0]] else [];
        assert WithAmps(a, k) == head + WithAmps(a[1..], k);
        assert WithAmps(b, k) == head + WithAmps(b[1..], k);
        assert WithAmps(a, k) == WithAmps(b, k);
        assert WithAmps(a[1..], k) == WithAmps(a, k)[|head|..];
        assert WithAmps(b[1..], k) == WithAmps(b, k)[|head|..];
      }
      SortedGroupsDetermine(a[1..], b[1..]);
      assert a == [a[0]] + a[1..];
      assert b == [b[0]] + b[1..];
    }
  }

  /** The group of `s` rated `k`, for a `k` carried by the entries at
      `lo..hi` only, is that run of entries. */
  lemma GroupIsRun(s: seq<LC>, k: real, lo: nat, hi: nat)
    requires lo <= hi <= |s|
    requires forall i | 0 <= i < |s| :: s[i].normAmps == k <==> lo <= i < hi
    ensures WithAmps(s, k) == s[lo..hi]
  {
    WithAmpsSplit(s, k, lo, hi);
    WithAmpsAbsentIn(s, k, 0, lo);
    WithAmpsAllIn(s, k, lo, hi);
    WithAmpsAbsentIn(s, k, hi, |s|);
  }

  /** No entry of `s[lo..hi]` is rated `k`: its `k` group is empty. */
  lemma WithAmpsAbsentIn(s: seq<LC>, k: real, lo: nat, hi: nat)
    requires lo <= hi <= |s|
    requires forall i | lo <= i < hi :: s[i].normAmps != k
    ensures WithAmps(s[lo..hi], k) == []
  {
    var t := s[lo..hi];
    forall i | 0 <= i < |t|
      ensures t[i].normAmps != k
    {
      assert t[i] == s[lo + i];
    }
    WithAmpsAbsent(t, k);
  }

  /** Every entry of `s[lo..hi]` is rated `k`: its `k` group is all of it. */
  lemma WithAmpsAllIn(s: seq<LC>, k: real, lo: nat, hi: nat)
    requires lo <= hi <= |s|
    requires forall i | lo <= i < hi :: s[i].normAmps == k
    ensures WithAmps(s[lo..hi], k) == s[lo..hi]
  {
    var t := s[lo..hi];
    forall i | 0 <= i < |t|
      ensures t[i].normAmps == k
    {
      assert t[i] == s[lo + i];
    }
    WithAmpsAll(t, k);
  }

  /** The group of `s` is the groups of three consecutive pieces of it,
      one after the other. */
  lemma WithAmpsSplit(s: seq<LC>, k: real, b: nat, c: nat)
    requires b <= c <= |s|
    ensures WithAmps(s, k) == WithAmps(s[0..b], k) + WithAmps(s[b..c], k) + WithAmps(s[c..|s|], k)
  {
    assert s == s[0..b] + s[b..c] + s[c..|s|];
    WithAmpsAppend(s[0..b] + s[b..c], s[c..|s|], k);
    WithAmpsAppend(s[0..b], s[b..c], k);
  }

  /** Within `s[lo..hi]`, if only the entry at `a` is rated `k`, the group
      rated `k` is that entry. */
  lemma GroupOfOneIn(s: seq<LC>, k: real, lo: nat, hi: nat, a: nat)
    requires lo <= a < hi <= |s|
    requires forall i | lo <= i < hi :: s[i].normAmps == k <==> i == a
    ensures WithAmps(s[lo..hi], k) == [s[a]]
  {
    var t := s[lo..hi];
    forall i | 0 <= i < |t|
      ensures t[i].normAmps == k <==> lo + i == a
    {
      assert t[i] == s[lo + i];
    }
    GroupIsRun(t, k, a - lo, a - lo + 1);
    assert t[a - lo..a - lo + 1] == [s[a]];
  }

  /** The group of `s` rated `k`, for a `k` carried by the entries at
      `a < b < c` only, is those three entries in that order. */
  lemma GroupOfThree(s: seq<LC>, k: real, a: nat, b: nat, c: nat)
    requires a < b < c < |s|
    requires forall i | 0 <= i < |s| :: s[i].normAmps == k <==> i == a || i == b || i == c
    ensures WithAmps(s, k) == [s[a], s[b], s[c]]
  {
    GroupOfOneIn(s, k, 0, b, a);
    GroupOfOneIn(s, k, b, c, b);
    GroupOfOneIn(s, k, c, |s|, c);
    WithAmpsSplit(s, k, b, c);
  }

  /** Sequences with the same groups hold the same entries. */
  lemma SameGroupsSameMembers(r: seq<LC>, s: seq<LC>)
    requires forall k :: WithAmps(r, k) == WithAmps(s, k)
    ensures forall x | x in r :: x in s
  {
    forall x | x in r
      ensures x in s
    {
      WithAmpsHas(r, x);
      WithAmpsMembers(s, x.normAmps);
      var i :| 0 <= i < |WithAmps(s, x.normAmps)| && WithAmps(s, x.normAmps)[i] == x;
    }
  }

  /** A stable sort of `s` starts with the group of the lowest rating in `s`,
      in its order in `s`. */
  lemma StableSortStartsWithLowestGroup(s: seq<LC>, r: seq<LC>, m: real)
    requires IsStableSortOf(r, s)
    requires forall x | x in s :: m <= x.normAmps
    ensures |WithAmps(s, m)| <= |r| && r[..|WithAmps(s, m)|] == WithAmps(s, m)
  {
    SameGroupsSameMembers(r, s);
    SortedLowestGroupIsPrefix(r, m);
    assert WithAmps(r, m) == WithAmps(s, m);
  }

  /** A stable sort of `s` ends with the entry of `s` that is alone in its
      group and rated at least as high as every other entry. */
  lemma StableSortEndsWithTop(s: seq<LC>, r: seq<LC>, top: LC)
    requires IsStableSortOf(r, s)
    requires WithAmps(s, top.normAmps) == [top]
    requires forall x | x in s :: x.normAmps <= top.normAmps
    ensures |r| > 0 && r[|r| - 1] == top
  {
    SameGroupsSameMembers(r, s);
    assert WithAmps(r, top.normAmps) == [top];
    WithAmpsMembers(r, top.normAmps);
    assert WithAmps(r, top.normAmps)[0] == top;
    var p :| 0 <= p < |r| && r[p] == top;
    var last := r[|r| - 1];
    assert last in r;
    assert last.normAmps == top.normAmps;
    WithAmpsHas(r, last);
  }

  /** The insertion sort returns exactly the stable sort of its input, and
      nothing else is a stable sort of it. */
  lemma SortMeetsReference(s: seq<LC>, r: seq<LC>)
    ensures IsStableSortOf(r, s) <==> r == SortByNormAmps(s)
  {
    var t := SortByNormAmps(s);
    forall k
      ensures WithAmps(t, k) == WithAmps(s, k)
    {
      SortIsStable(s, k);
    }
    if IsStableSortOf(r, s) {
      SortedGroupsDetermine(r, t);
    }
  }

  /** A stable sort of `s` is a rearrangement of `s`: the same entries, each
      as often as in `s`. */
  lemma StableSortIsPermutation(r: seq<LC>, s: seq<LC>)
    requires IsStableSortOf(r, s)
    ensures multiset(r) == multiset(s) && |r| == |s|
  {
    SortMeetsReference(s, r);
  }

  /** Sorting a sequence that is already sorted changes nothing. */
  lemma {:induction false} SortOfSorted(s: seq<LC>)
    requires Sorted(s)
    ensures SortByNormAmps(s) == s
  {
    if |s| > 0 {
      SortOfSorted(s[1..]);
      assert Insert(s[0], s[1..]) == [s[0]] + s[1..];
      assert s == [s[0]] + s[1..];
    }
  }

  /** Sorting twice is sorting once. */
  lemma {:induction false} SortIdempotent(s: seq<LC>)
    ensures SortByNormAmps(SortByNormAmps(s)) == SortByNormAmps(s)
  {
    SortOfSorted(SortByNormAmps(s));
  }
}
