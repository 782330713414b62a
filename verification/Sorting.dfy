/** Stable sorting by descending score, as `sort(key=..., reverse=True)` does it. */
module Sorting {
  import opened Prelude

  function Insert<T>(x: T, s: seq<T>, score: T -> real): seq<T> {
    if s == [] || score(x) >= score(s[0]) then [x] + s else [s[0]] + Insert(x, s[1..], score)
  }

  function SortDescending<T>(s: seq<T>, score: T -> real): seq<T> {
    if s == [] then [] else Insert(s[0], SortDescending(s[1..], score), score)
  }

  function Take<T>(s: seq<T>, k: nat): seq<T> {
    if |s| <= k then s else s[..k]
  }

  /** No later element scores above an earlier one. */
  ghost predicate Descending<T>(s: seq<T>, score: T -> real) {
    s == [] || ((forall y :: y in s[1..] ==> score(s[0]) >= score(y)) && Descending(s[1..], score))
  }

  lemma {:induction false} DescendingPairs<T>(s: seq<T>, score: T -> real, i: nat, j: nat)
    requires Descending(s, score) && i <= j < |s|
    ensures score(s[i]) >= score(s[j])
  {
    if 0 < i {
      DescendingPairs(s[1..], score, i - 1, j - 1);
    } else if 0 < j {
      assert s[j] == s[1..][j - 1];
    }
  }

  lemma {:induction false} InsertContents<T>(x: T, s: seq<T>, score: T -> real)
    ensures multiset(Insert(x, s, score)) == multiset(s) + multiset{x}
    ensures forall y :: y in Insert(x, s, score) <==> y == x || y in s
  {
    if s != [] {
      assert s == [s[0]] + s[1..];
      InsertContents(x, s[1..], score);
    }
  }

  lemma {:induction false} InsertKeepsOrder<T>(x: T, s: seq<T>, score: T -> real)
    requires Descending(s, score)
    ensures Descending(Insert(x, s, score), score)
  {
    var r := Insert(x, s, score);
    if s == [] || score(x) >= score(s[0]) {
      assert r[1..] == s;
    } else {
      InsertKeepsOrder(x, s[1..], score);
      InsertContents(x, s[1..], score);
      assert r[1..] == Insert(x, s[1..], score);
    }
  }

  /** Sorted, and nothing gained or lost. */
  lemma {:induction false} SortIsSortedPermutation<T>(s: seq<T>, score: T -> real)
    ensures Descending(SortDescending(s, score), score)
    ensures multiset(SortDescending(s, score)) == multiset(s)
  {
    if s != [] {
      SortIsSortedPermutation(s[1..], score);
      InsertKeepsOrder(s[0], SortDescending(s[1..], score), score);
      InsertContents(s[0], SortDescending(s[1..], score), score);
      assert s == [s[0]] + s[1..];
    }
  }

  function Without<T>(s: seq<T>, k: nat): seq<T>
    requires k < |s|
  {
    s[..k] + s[k + 1..]
  }

  lemma WithoutContents<T>(s: seq<T>, k: nat)
    requires k < |s|
    ensures multiset(Without(s, k)) == multiset(s) - multiset{s[k]}
  {
    assert s == s[..k] + [s[k]] + s[k + 1..];
  }

  /** The head of `a` stands somewhere in `b`, and the rests are permutations again. */
  lemma MatchHead<T>(a: seq<T>, b: seq<T>) returns (k: nat)
    requires multiset(a) == multiset(b) && a != []
    ensures k < |b| && b[k] == a[0]
    ensures multiset(a[1..]) == multiset(Without(b, k))
  {
    assert a[0] in multiset(a);
    assert a[0] in b;
    k :| 0 <= k < |b| && b[k] == a[0];
    WithoutContents(a, 0);
    WithoutContents(b, k);
    assert Without(a, 0) == a[1..];
  }

  lemma SameLength<T>(a: seq<T>, b: seq<T>)
    requires multiset(a) == multiset(b)
    ensures |a| == |b|
  {
    assert |multiset(a)| == |a| && |multiset(b)| == |b|;
  }

  /** A list is its element `k` set between what stands before it and after it. */
  lemma SplitAt<T>(s: seq<T>, k: nat)
    requires k < |s|
    ensures s == s[..k] + ([s[k]] + s[k + 1..])
    ensures ([s[k]] + s[k + 1..])[1..] == s[k + 1..]
  {
  }

  lemma MapWithout<T, U>(s: seq<T>, k: nat, f: T -> U)
    requires k < |s|
    ensures multiset(Map(s, f)) == multiset{f(s[k])} + multiset(Map(Without(s, k), f))
  {
    SplitAt(s, k);
    MapConcat(s[..k], s[k + 1..], f);
    MapConcat(s[..k], [s[k]] + s[k + 1..], f);
  }

  lemma {:induction false} MapOfPermutation<T, U>(a: seq<T>, b: seq<T>, f: T -> U)
    requires multiset(a) == multiset(b)
    ensures multiset(Map(a, f)) == multiset(Map(b, f))
    decreases |a|
  {
    SameLength(a, b);
    if a != [] {
      var k := MatchHead(a, b);
      MapOfPermutation(a[1..], Without(b, k), f);
      MapWithout(b, k, f);
    }
  }

  function OneIf<T>(x: T, p: T -> bool): multiset<T> {
    if p(x) then multiset{x} else multiset{}
  }

  lemma FilterFirst<T>(x: T, s: seq<T>, p: T -> bool)
    ensures multiset(Filter([x] + s, p)) == OneIf(x, p) + multiset(Filter(s, p))
  {
    assert ([x] + s)[1..] == s;
  }

  lemma FilterWithout<T>(s: seq<T>, k: nat, p: T -> bool)
    requires k < |s|
    ensures multiset(Filter(s, p)) == multiset(Filter(Without(s, k), p)) + OneIf(s[k], p)
  {
    SplitAt(s, k);
    FilterConcat(s[..k], s[k + 1..], p);
    FilterConcat(s[..k], [s[k]] + s[k + 1..], p);
    FilterFirst(s[k], s[k + 1..], p);
  }

  lemma {:induction false} FilterOfPermutation<T>(a: seq<T>, b: seq<T>, p: T -> bool)
    requires multiset(a) == multiset(b)
    ensures multiset(Filter(a, p)) == multiset(Filter(b, p))
    decreases |a|
  {
    SameLength(a, b);
    if a != [] {
      var k := MatchHead(a, b);
      FilterOfPermutation(a[1..], Without(b, k), p);
      FilterWithout(a, 0, p);
      FilterWithout(b, k, p);
      assert Without(a, 0) == a[1..];
    }
  }

  /** A multiset of scores has one descending arrangement. */
  lemma {:induction false} DescendingIsUnique<T>(a: seq<T>, b: seq<T>, score: T -> real)
    requires Descending(a, score) && Descending(b, score)
    requires multiset(Map(a, score)) == multiset(Map(b, score))
    ensures Map(a, score) == Map(b, score)
    decreases |a|
  {
    MapAt(a, score);
    MapAt(b, score);
    SameLength(Map(a, score), Map(b, score));
    if a != [] {
      HeadIsLargest(a, score);
      HeadIsLargest(b, score);
      SameLargest(Map(a, score), Map(b, score));
      DescendingIsUnique(a[1..], b[1..], score);
    }
  }

  lemma SameLargest(p: seq<real>, q: seq<real>)
    requires multiset(p) == multiset(q) && p != [] && q != []
    requires forall v :: v in p ==> v <= p[0]
    requires forall v :: v in q ==> v <= q[0]
    ensures p[0] == q[0] && multiset(p[1..]) == multiset(q[1..])
  {
    assert p[0] in multiset(p) && q[0] in multiset(q);
    assert p[0] in q && q[0] in p;
    WithoutContents(p, 0);
    WithoutContents(q, 0);
    assert Without(p, 0) == p[1..] && Without(q, 0) == q[1..];
  }

  lemma HeadIsLargest<T>(s: seq<T>, score: T -> real)
    requires Descending(s, score) && s != []
    ensures forall v :: v in Map(s, score) ==> v <= Map(s, score)[0]
  {
    MapAt(s, score);
    forall v | v in Map(s, score)
      ensures v <= Map(s, score)[0]
    {
      var i :| 0 <= i < |s| && Map(s, score)[i] == v;
      DescendingPairs(s, score, 0, i);
    }
  }

  lemma InCut<T>(s: seq<T>, k: nat, i: nat)
    requires i < |s| && i < k
    ensures s[i] in Take(s, k)
  {
    assert Take(s, k)[i] == s[i];
  }

  /** Cutting a descending list leaves out nothing better than what it keeps. */
  lemma CutKeepsTheBest<T>(s: seq<T>, k: nat, score: T -> real, x: T, y: T)
    requires Descending(s, score)
    requires x in s && x !in Take(s, k) && y in Take(s, k)
    ensures |Take(s, k)| == k && score(x) <= score(y)
  {
    var i :| 0 <= i < |s| && s[i] == x;
    var j :| 0 <= j < |Take(s, k)| && Take(s, k)[j] == y;
    if i < k {
      InCut(s, k, i);
    }
    DescendingPairs(s, score, j, i);
  }

  /** `p` holds of whatever scores at least as much as something it holds of. */
  ghost predicate UpwardClosed<T>(s: seq<T>, score: T -> real, p: T -> bool) {
    forall x, y :: x in s && y in s && p(y) && score(x) >= score(y) ==> p(x)
  }

  /** On a descending list an upward closed filter keeps a prefix, so cutting first, no shorter, changes nothing. */
  lemma {:induction false} FilterAfterCut<T>(s: seq<T>, k: nat, n: nat, score: T -> real, p: T -> bool)
    requires Descending(s, score) && k <= n && UpwardClosed(s, score, p)
    ensures Take(Filter(Take(s, n), p), k) == Take(Filter(s, p), k)
    decreases |s|
  {
    if 0 < n < |s| {
      FilterHead(s, p);
      FilterHead(s[..n], p);
      assert s[..n][1..] == s[1..][..n - 1];
      if p(s[0]) {
        if k > 0 {
          FilterAfterCut(s[1..], k - 1, n - 1, score, p);
          TakeHead(s[0], Filter(s[1..], p), k);
          TakeHead(s[0], Filter(s[1..][..n - 1], p), k);
        }
      } else {
        NoneAfterHead(s, score, p);
        FilterNone(s, p);
        FilterNone(s[..n], p);
      }
    }
  }

  lemma NoneAfterHead<T>(s: seq<T>, score: T -> real, p: T -> bool)
    requires Descending(s, score) && s != [] && !p(s[0]) && UpwardClosed(s, score, p)
    ensures forall x :: x in s ==> !p(x)
  {
    assert s == [s[0]] + s[1..];
  }

  lemma FilterNone<T>(s: seq<T>, p: T -> bool)
    requires forall x :: x in s ==> !p(x)
    ensures Filter(s, p) == []
  {
    if s != [] {
      assert s == [s[0]] + s[1..];
      FilterNone(s[1..], p);
    }
  }

  lemma TakeHead<T>(x: T, s: seq<T>, k: nat)
    requires k > 0
    ensures Take([x] + s, k) == [x] + Take(s, k - 1)
  {
  }

  lemma {:induction false} FilterKeepsOrder<T>(s: seq<T>, score: T -> real, p: T -> bool)
    requires Descending(s, score)
    ensures Descending(Filter(s, p), score)
  {
    if s != [] {
      FilterKeepsOrder(s[1..], score, p);
      FilterHead(s, p);
      forall y | y in Filter(s[1..], p)
        ensures score(s[0]) >= score(y)
      {
        FilterMember(s[1..], p, y);
      }
      assert p(s[0]) ==> Filter(s, p)[1..] == Filter(s[1..], p);
    }
  }

  lemma MapTake<T, U>(s: seq<T>, f: T -> U, n: nat)
    ensures Map(Take(s, n), f) == Take(Map(s, f), n)
  {
    MapAt(s, f);
    MapAt(Take(s, n), f);
  }

  lemma {:induction false} TakeKeepsOrder<T>(s: seq<T>, k: nat, score: T -> real)
    requires Descending(s, score)
    ensures Descending(Take(s, k), score)
  {
    if s != [] && k > 0 {
      TakeKeepsOrder(s[1..], k - 1, score);
      assert s == [s[0]] + s[1..];
      TakeHead(s[0], s[1..], k);
      assert Take(s, k)[1..] == Take(s[1..], k - 1);
    }
  }

  lemma {:induction false} FilterPart<T>(s: seq<T>, p: T -> bool)
    ensures multiset(Filter(s, p)) <= multiset(s)
  {
    if s != [] {
      FilterPart(s[1..], p);
      FilterHead(s, p);
      assert s == [s[0]] + s[1..];
    }
  }

  lemma TakePart<T>(s: seq<T>, k: nat)
    ensures multiset(Take(s, k)) <= multiset(s)
  {
    if k < |s| {
      assert s == s[..k] + s[k..];
    }
  }

  lemma {:induction false} DistinctCount<T>(s: seq<T>, x: T)
    requires Distinct(s)
    ensures multiset(s)[x] == if x in s then 1 else 0
  {
    if s != [] {
      assert s == [s[0]] + s[1..];
      assert s[0] !in s[1..];
      DistinctCount(s[1..], x);
    }
  }

  /** A permutation of a list without repetitions has none. */
  lemma DistinctPermutation<T>(a: seq<T>, b: seq<T>)
    requires Distinct(a) && multiset(a) == multiset(b)
    ensures Distinct(b)
  {
    forall i, j | 0 <= i < j < |b|
      ensures b[i] != b[j]
    {
      if b[i] == b[j] {
        TwiceCounted(b, i, j);
        DistinctCount(a, b[i]);
      }
    }
  }

  lemma TwiceCounted<T>(s: seq<T>, i: nat, j: nat)
    requires i < j < |s| && s[i] == s[j]
    ensures multiset(s)[s[i]] >= 2
  {
    assert s == s[..j] + s[j..];
    assert s[..j][i] == s[i] && s[j..][0] == s[i];
  }

  lemma InsertIsStable<T>(x: T, s: seq<T>, score: T -> real, p: T -> bool)
    requires p(x) ==> forall y :: p(y) ==> score(y) == score(x)
    ensures Filter(Insert(x, s, score), p) == Filter([x] + s, p)
  {
    assert ([x] + s)[1..] == s;
    if s != [] && score(x) < score(s[0]) {
      var r := Insert(x, s[1..], score);
      InsertIsStable(x, s[1..], score, p);
      assert ([x] + s[1..])[1..] == s[1..];
      assert ([s[0]] + r)[1..] == r;
    }
  }

  /** Elements of one score keep their order: filtering by a condition that fixes the score commutes with sorting. */
  lemma {:induction false} SortIsStable<T>(s: seq<T>, score: T -> real, p: T -> bool)
    requires forall x, y :: p(x) && p(y) ==> score(x) == score(y)
    ensures Filter(SortDescending(s, score), p) == Filter(s, p)
  {
    if s != [] {
      SortIsStable(s[1..], score, p);
      var r := SortDescending(s[1..], score);
      InsertIsStable(s[0], r, score, p);
      assert ([s[0]] + r)[1..] == r;
    }
  }

  lemma {:induction false} MappedFrom<T, U>(s: seq<T>, f: T -> U, y: U) returns (x: T)
    requires y in Map(s, f)
    ensures x in s && y == f(x)
  {
    MapAt(s, f);
    var i :| 0 <= i < |Map(s, f)| && Map(s, f)[i] == y;
    x := s[i];
  }

  lemma {:induction false} MapMember<T, U>(s: seq<T>, f: T -> U, x: T)
    requires x in s
    ensures f(x) in Map(s, f)
  {
    MapAt(s, f);
    var i :| 0 <= i < |s| && s[i] == x;
    assert Map(s, f)[i] == f(x);
  }
}
