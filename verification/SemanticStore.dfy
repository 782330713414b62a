/** The vector store: one table, searched natively by distance or in the fallback by similarity. */
module SemanticStores {
  import opened Prelude
  import opened Sorting
  import opened Embeddings

  datatype Row = Row(id: string, vector: Vector)

  datatype Match = Match(id: string, similarity: real)

  function BySimilarity(): Match -> real {
    (m: Match) => m.similarity
  }

  function Passing(minimum: real): Match -> bool {
    (m: Match) => m.similarity >= minimum
  }

  /** The database's cosine distance between vectors of one dimension: NULL if either is zero. */
  function Distance(sqrt: real -> real, query: Vector, v: Vector): Option<real> {
    if Comparable(query, v) then Some(1.0 - Cosine(sqrt, query, v)) else None
  }

  function NativeSimilarity(sqrt: real -> real, query: Vector, v: Vector): real {
    var distance := Distance(sqrt, query, v);
    Clamp(1.0 - (if distance.Some? then distance.value else 1.0) / 2.0)
  }

  function NativeMatch(sqrt: real -> real, query: Vector): Row -> Match {
    (row: Row) => Match(row.id, NativeSimilarity(sqrt, query, row.vector))
  }

  function FallbackMatch(sqrt: real -> real, query: Vector): Row -> Match {
    (row: Row) => Match(row.id, CosineSimilarity(sqrt, query, row.vector))
  }

  /** Ascending distance as the database sorts it: NULL before every number. */
  predicate NoFarther(a: Option<real>, b: Option<real>) {
    a.None? || (b.Some? && a.value <= b.value)
  }

  ghost predicate NearestFirst(sqrt: real -> real, query: Vector, rows: seq<Row>) {
    rows == [] ||
    (NearestFirst(sqrt, query, rows[1..]) &&
     forall row :: row in rows[1..] ==>
       NoFarther(Distance(sqrt, query, rows[0].vector), Distance(sqrt, query, row.vector)))
  }

  predicate AllComparable(query: Vector, rows: seq<Row>) {
    forall row :: row in rows ==> Comparable(query, row.vector)
  }

  /** `LIMIT n`: a negative limit is none. */
  function Limit(rows: seq<Row>, n: int): seq<Row> {
    if n < 0 then rows else Take(rows, n)
  }

  /** The slice `s[:k]`, whose negative bound counts from the end. */
  function Slice<T>(s: seq<T>, k: int): seq<T> {
    if k >= 0 then Take(s, k) else s[..Max(0, |s| + k)]
  }

  /** What ordering by distance can handle: every stored vector has the query's dimension, which is not 0. */
  predicate Measurable(query: Vector, rows: seq<Row>) {
    forall row :: row in rows ==> query != [] && |row.vector| == |query|
  }

  function NearestMatches(sqrt: real -> real, query: Vector, rows: seq<Row>, topK: int, minimum: real): seq<Match> {
    if topK < 0 then Filter(Map(Take(rows, 1), NativeMatch(sqrt, query)), Passing(minimum))
    else Take(Filter(Map(Take(rows, 2 * topK), NativeMatch(sqrt, query)), Passing(minimum)), topK)
  }

  /** Where a distance cannot be measured the query fails, and a failed search is empty. */
  function NativeSearch(sqrt: real -> real, query: Vector, rows: seq<Row>, topK: int, minimum: real): seq<Match> {
    if Measurable(query, rows) then NearestMatches(sqrt, query, rows, topK, minimum) else []
  }

  function FallbackSearch(sqrt: real -> real, query: Vector, rows: seq<Row>, topK: int, minimum: real): seq<Match> {
    Slice(SortDescending(Filter(Map(rows, FallbackMatch(sqrt, query)), Passing(minimum)), BySimilarity()), topK)
  }

  /** `rows` lists the table, each row once. */
  ghost predicate Lists(table: map<string, Vector>, rows: seq<Row>) {
    Distinct(rows) && forall row :: row in rows <==> row.id in table && table[row.id] == row.vector
  }

  class SemanticMemoryStore {
    const degraded: bool
    const sqrt: real -> real
    var table: map<string, Vector>

    constructor (degraded: bool, sqrt: real -> real)
      ensures this.degraded == degraded && this.sqrt == sqrt && table == map[]
    {
      this.degraded, this.sqrt := degraded, sqrt;
      table := map[];
    }

    /** One row an id: the latest vector replaces an earlier one. */
    method IndexRecord(id: string, vector: Vector)
      modifies this
      ensures table == old(table)[id := vector]
    {
      table := table[id := vector];
    }

    method DeleteRecord(id: string) returns (found: bool)
      modifies this
      ensures found <==> id in old(table)
      ensures table == old(table) - {id}
    {
      found := id in table;
      table := table - {id};
    }

    /** The database fixes the order of `rows`: by distance for the native query, any order otherwise. */
    method SearchKnn(query: Vector, topK: int, minimum: real, rows: seq<Row>) returns (r: seq<Match>)
      requires Lists(table, rows) && (!degraded ==> NearestFirst(sqrt, query, rows))
      ensures r == if degraded then FallbackSearch(sqrt, query, rows, topK, minimum)
                   else NativeSearch(sqrt, query, rows, topK, minimum)
    {
      if degraded {
        r := ScanFallback(query, topK, minimum, rows);
      } else if !Measurable(query, rows) {
        r := [];
      } else {
        r := ScanNative(query, topK, minimum, Limit(rows, topK * 2));
        LimitedScan(sqrt, query, rows, topK, minimum);
      }
    }

    method ScanNative(query: Vector, topK: int, minimum: real, fetched: seq<Row>) returns (results: seq<Match>)
      ensures results == Scanned(sqrt, query, fetched, topK, minimum)
    {
      results := [];
      ghost var match_, pass := NativeMatch(sqrt, query), Passing(minimum);
      for i := 0 to |fetched|
        invariant results == Filter(Map(fetched[..i], match_), pass)
        invariant i > 0 ==> |results| < topK
      {
        var similarity := NativeSimilarity(sqrt, query, fetched[i].vector);
        ScanStep(fetched, i, match_, pass);
        if similarity >= minimum {
          results := results + [Match(fetched[i].id, similarity)];
        }
        if |results| >= topK {
          ScanStops(fetched, i + 1, match_, pass);
          return;
        }
      }
      assert fetched[..|fetched|] == fetched;
    }

    method ScanFallback(query: Vector, topK: int, minimum: real, rows: seq<Row>) returns (results: seq<Match>)
      ensures results == FallbackSearch(sqrt, query, rows, topK, minimum)
    {
      var scored := [];
      ghost var match_, pass := FallbackMatch(sqrt, query), Passing(minimum);
      for i := 0 to |rows|
        invariant scored == Filter(Map(rows[..i], match_), pass)
      {
        var similarity := CosineSimilarity(sqrt, query, rows[i].vector);
        ScanStep(rows, i, match_, pass);
        if similarity >= minimum {
          scored := scored + [Match(rows[i].id, similarity)];
        }
      }
      assert rows[..|rows|] == rows;
      scored := SortDescending(scored, BySimilarity());
      results := Slice(scored, topK);
    }
  }

  // ---------- the scans ----------

  /** What the native loop leaves: it stops at `topK` results, so below 1 after the first row. */
  function Scanned(sqrt: real -> real, query: Vector, fetched: seq<Row>, topK: int, minimum: real): seq<Match> {
    if topK <= 0 then Filter(Map(Take(fetched, 1), NativeMatch(sqrt, query)), Passing(minimum))
    else Take(Filter(Map(fetched, NativeMatch(sqrt, query)), Passing(minimum)), topK)
  }

  lemma LimitedScan(sqrt: real -> real, query: Vector, rows: seq<Row>, topK: int, minimum: real)
    ensures Scanned(sqrt, query, Limit(rows, topK * 2), topK, minimum) ==
              NearestMatches(sqrt, query, rows, topK, minimum)
  {
  }

  lemma ScanStep(rows: seq<Row>, i: nat, f: Row -> Match, p: Match -> bool)
    requires i < |rows|
    ensures Filter(Map(rows[..i + 1], f), p) ==
              Filter(Map(rows[..i], f), p) + if p(f(rows[i])) then [f(rows[i])] else []
  {
    assert rows[..i + 1] == rows[..i] + [rows[i]];
    MapConcat(rows[..i], [rows[i]], f);
    FilterConcat(Map(rows[..i], f), [f(rows[i])], p);
    assert Map([rows[i]], f) == [f(rows[i])];
  }

  lemma ScanStops(rows: seq<Row>, i: nat, f: Row -> Match, p: Match -> bool)
    requires i <= |rows|
    ensures var found := Filter(Map(rows[..i], f), p); Take(Filter(Map(rows, f), p), |found|) == found
  {
    assert rows == rows[..i] + rows[i..];
    MapConcat(rows[..i], rows[i..], f);
    FilterConcat(Map(rows[..i], f), Map(rows[i..], f), p);
  }

  // ---------- both paths rank alike ----------

  /** Per row of the query's dimension, the two similarities agree exactly where neither vector is zero. */
  lemma SimilaritiesAgreeIffNonZero(sqrt: real -> real, query: Vector, v: Vector)
    requires IsSquareRoot(sqrt) && |v| == |query|
    ensures NativeSimilarity(sqrt, query, v) == CosineSimilarity(sqrt, query, v) <==>
              Dot(query, query) != 0.0 && Dot(v, v) != 0.0
    ensures !Comparable(query, v) ==> NativeSimilarity(sqrt, query, v) == 0.5 && CosineSimilarity(sqrt, query, v) == 0.0
  {
    SimilarityIsCosine(sqrt, query, v);
    if Comparable(query, v) {
      CosineInRange(sqrt, query, v);
    }
  }

  lemma {:induction false} SameMatches(sqrt: real -> real, query: Vector, rows: seq<Row>)
    requires IsSquareRoot(sqrt) && AllComparable(query, rows)
    ensures Map(rows, NativeMatch(sqrt, query)) == Map(rows, FallbackMatch(sqrt, query))
  {
    if rows != [] {
      assert rows == [rows[0]] + rows[1..];
      SameMatches(sqrt, query, rows[1..]);
      SimilaritiesAgreeIffNonZero(sqrt, query, rows[0].vector);
    }
  }

  lemma {:induction false} NearestIsMostSimilar(sqrt: real -> real, query: Vector, rows: seq<Row>)
    requires IsSquareRoot(sqrt) && AllComparable(query, rows) && NearestFirst(sqrt, query, rows)
    ensures Descending(Map(rows, NativeMatch(sqrt, query)), BySimilarity())
  {
    if rows != [] {
      assert rows == [rows[0]] + rows[1..];
      NearestIsMostSimilar(sqrt, query, rows[1..]);
      var f := NativeMatch(sqrt, query);
      forall m | m in Map(rows[1..], f)
        ensures BySimilarity()(f(rows[0])) >= BySimilarity()(m)
      {
        var row := MappedFrom(rows[1..], f, m);
        assert NoFarther(Distance(sqrt, query, rows[0].vector), Distance(sqrt, query, row.vector));
      }
      assert Map(rows, f)[1..] == Map(rows[1..], f);
    }
  }

  lemma ComparableIsMeasurable(query: Vector, rows: seq<Row>)
    requires AllComparable(query, rows)
    ensures Measurable(query, rows)
  {
  }

  /** What either path returns: the cut of a descending arrangement of the passing matches. */
  lemma NativeIsCut(sqrt: real -> real, query: Vector, rows: seq<Row>, topK: nat, minimum: real)
    requires IsSquareRoot(sqrt) && AllComparable(query, rows) && NearestFirst(sqrt, query, rows)
    ensures var passing := Filter(Map(rows, NativeMatch(sqrt, query)), Passing(minimum));
            Descending(passing, BySimilarity()) && NativeSearch(sqrt, query, rows, topK, minimum) == Take(passing, topK)
  {
    ComparableIsMeasurable(query, rows);
    var f, p := NativeMatch(sqrt, query), Passing(minimum);
    NearestIsMostSimilar(sqrt, query, rows);
    FilterKeepsOrder(Map(rows, f), BySimilarity(), p);
    MapTake(rows, f, 2 * topK);
    FilterAfterCut(Map(rows, f), topK, 2 * topK, BySimilarity(), p);
  }

  /** `r` holds the best `topK` of the matches that reach the minimum, best first, each once. */
  ghost predicate IsTopK(r: seq<Match>, all: seq<Match>, topK: nat, minimum: real) {
    |r| <= topK &&
    Descending(r, BySimilarity()) &&
    multiset(r) <= multiset(all) &&
    (forall m :: m in r ==> m.similarity >= minimum) &&
    (forall m, n :: m in all && m.similarity >= minimum && m !in r ==>
       |r| == topK && (n in r ==> m.similarity <= n.similarity))
  }

  lemma CutIsTopK(all: seq<Match>, arranged: seq<Match>, topK: nat, minimum: real)
    requires Descending(arranged, BySimilarity())
    requires multiset(arranged) == multiset(Filter(all, Passing(minimum)))
    ensures IsTopK(Take(arranged, topK), all, topK, minimum)
  {
    var r := Take(arranged, topK);
    var passing := Filter(all, Passing(minimum));
    TakeKeepsOrder(arranged, topK, BySimilarity());
    FilterPart(all, Passing(minimum));
    TakePart(arranged, topK);
    forall m | m in r
      ensures m.similarity >= minimum
    {
      assert m in multiset(arranged);
      FilterMember(all, Passing(minimum), m);
    }
    forall m, n | m in all && m.similarity >= minimum && m !in r
      ensures |r| == topK && (n in r ==> m.similarity <= n.similarity)
    {
      FilterMember(all, Passing(minimum), m);
      assert m in multiset(passing);
      assert m in arranged;
      if n in r {
        CutKeepsTheBest(arranged, topK, BySimilarity(), m, n);
      }
    }
  }

  /** The fallback returns the best matches whatever is stored; the native path does where every cosine is defined. */
  lemma SearchIsTopK(sqrt: real -> real, query: Vector, rows: seq<Row>, topK: nat, minimum: real)
    requires IsSquareRoot(sqrt)
    ensures IsTopK(FallbackSearch(sqrt, query, rows, topK, minimum), Map(rows, FallbackMatch(sqrt, query)),
                   topK, minimum)
    ensures AllComparable(query, rows) && NearestFirst(sqrt, query, rows) ==>
              IsTopK(NativeSearch(sqrt, query, rows, topK, minimum), Map(rows, FallbackMatch(sqrt, query)),
                     topK, minimum)
  {
    var all, p := Map(rows, FallbackMatch(sqrt, query)), Passing(minimum);
    SortIsSortedPermutation(Filter(all, p), BySimilarity());
    CutIsTopK(all, SortDescending(Filter(all, p), BySimilarity()), topK, minimum);
    if AllComparable(query, rows) && NearestFirst(sqrt, query, rows) {
      SameMatches(sqrt, query, rows);
      NativeIsCut(sqrt, query, rows, topK, minimum);
      CutIsTopK(all, Filter(all, p), topK, minimum);
    }
  }

  /** The two searches return the same sequence of similarities. */
  ghost predicate Agree(sqrt: real -> real, query: Vector, stored: seq<Row>, nearest: seq<Row>,
                        topK: nat, minimum: real) {
    Map(NativeSearch(sqrt, query, nearest, topK, minimum), BySimilarity()) ==
    Map(FallbackSearch(sqrt, query, stored, topK, minimum), BySimilarity())
  }

  lemma PathsAgree(sqrt: real -> real, query: Vector, stored: seq<Row>, nearest: seq<Row>, topK: nat, minimum: real)
    requires IsSquareRoot(sqrt) && AllComparable(query, nearest) && NearestFirst(sqrt, query, nearest)
    requires multiset(stored) == multiset(nearest)
    ensures Agree(sqrt, query, stored, nearest, topK, minimum)
  {
    var f, p, score := FallbackMatch(sqrt, query), Passing(minimum), BySimilarity();
    NativeIsCut(sqrt, query, nearest, topK, minimum);
    SameMatches(sqrt, query, nearest);
    var a, b := Filter(Map(nearest, f), p), Filter(Map(stored, f), p);
    MapOfPermutation(nearest, stored, f);
    FilterOfPermutation(Map(nearest, f), Map(stored, f), p);
    SortIsSortedPermutation(b, score);
    MapOfPermutation(a, SortDescending(b, score), score);
    DescendingIsUnique(a, SortDescending(b, score), score);
    MapTake(a, score, topK);
    MapTake(SortDescending(b, score), score, topK);
  }

  /** With a minimum of one half the native path lets rows with a zero vector pass, the fallback does not. */
  lemma {:induction false} UndefinedRowsPass(sqrt: real -> real, query: Vector, rows: seq<Row>)
    requires IsSquareRoot(sqrt) && Measurable(query, rows)
    ensures var native := |Filter(Map(rows, NativeMatch(sqrt, query)), Passing(0.5))|;
            var fallback := |Filter(Map(rows, FallbackMatch(sqrt, query)), Passing(0.5))|;
            native >= fallback && (native == fallback <==> AllComparable(query, rows))
    ensures |Filter(Map(rows, NativeMatch(sqrt, query)), Passing(0.5))| <= |rows|
  {
    if rows != [] {
      assert rows == [rows[0]] + rows[1..];
      assert forall row :: row in rows[1..] ==> row in rows;
      UndefinedRowsPass(sqrt, query, rows[1..]);
      SimilaritiesAgreeIffNonZero(sqrt, query, rows[0].vector);
      FilterHead(Map(rows, NativeMatch(sqrt, query)), Passing(0.5));
      FilterHead(Map(rows, FallbackMatch(sqrt, query)), Passing(0.5));
    }
  }

  lemma ListingsArePermutations(table: map<string, Vector>, a: seq<Row>, b: seq<Row>)
    requires Lists(table, a) && Lists(table, b)
    ensures multiset(a) == multiset(b)
  {
    forall row: Row
      ensures multiset(a)[row] == multiset(b)[row]
    {
      DistinctCount(a, row);
      DistinctCount(b, row);
    }
  }

  /** The paths agree on every cut, minimum and storage order exactly when every stored cosine is defined. */
  lemma PathsAgreeIffComparable(sqrt: real -> real, query: Vector, table: map<string, Vector>, nearest: seq<Row>)
    requires IsSquareRoot(sqrt) && Lists(table, nearest) && NearestFirst(sqrt, query, nearest)
    ensures (forall stored: seq<Row>, topK: nat, minimum: real | Lists(table, stored) ::
               Agree(sqrt, query, stored, nearest, topK, minimum))
            <==> forall id :: id in table ==> Comparable(query, table[id])
  {
    assert AllComparable(query, nearest) <==> forall id :: id in table ==> Comparable(query, table[id]) by {
      assert forall id :: id in table ==> Row(id, table[id]) in nearest;
    }
    if AllComparable(query, nearest) {
      forall stored: seq<Row>, topK: nat, minimum: real | Lists(table, stored)
        ensures Agree(sqrt, query, stored, nearest, topK, minimum)
      {
        ListingsArePermutations(table, stored, nearest);
        PathsAgree(sqrt, query, stored, nearest, topK, minimum);
      }
    } else if Measurable(query, nearest) {
      ZeroRowsShow(sqrt, query, nearest);
    } else {
      MismatchShows(sqrt, query, nearest);
    }
  }

  lemma ZeroRowsShow(sqrt: real -> real, query: Vector, rows: seq<Row>)
    requires IsSquareRoot(sqrt) && Measurable(query, rows) && !AllComparable(query, rows)
    ensures !Agree(sqrt, query, rows, rows, |rows|, 0.5)
  {
    var n := |rows|;
    UndefinedRowsPass(sqrt, query, rows);
    var passing := Filter(Map(rows, FallbackMatch(sqrt, query)), Passing(0.5));
    SortIsSortedPermutation(passing, BySimilarity());
    SameLength(passing, SortDescending(passing, BySimilarity()));
    MapAt(NativeSearch(sqrt, query, rows, n, 0.5), BySimilarity());
    MapAt(FallbackSearch(sqrt, query, rows, n, 0.5), BySimilarity());
  }

  lemma {:induction false} FallbackScoresAll(sqrt: real -> real, query: Vector, rows: seq<Row>)
    requires IsSquareRoot(sqrt)
    ensures |Filter(Map(rows, FallbackMatch(sqrt, query)), Passing(0.0))| == |rows|
  {
    if rows != [] {
      FallbackScoresAll(sqrt, query, rows[1..]);
      SimilarityIsCosine(sqrt, query, rows[0].vector);
      FilterHead(Map(rows, FallbackMatch(sqrt, query)), Passing(0.0));
    }
  }

  /** One vector of another dimension empties every native search, while the fallback still scores all rows. */
  lemma MismatchShows(sqrt: real -> real, query: Vector, rows: seq<Row>)
    requires IsSquareRoot(sqrt) && !Measurable(query, rows)
    ensures forall topK: int, minimum: real :: NativeSearch(sqrt, query, rows, topK, minimum) == []
    ensures |FallbackSearch(sqrt, query, rows, |rows|, 0.0)| == |rows| > 0
    ensures !Agree(sqrt, query, rows, rows, |rows|, 0.0)
  {
    FallbackScoresAll(sqrt, query, rows);
    var passing := Filter(Map(rows, FallbackMatch(sqrt, query)), Passing(0.0));
    SortIsSortedPermutation(passing, BySimilarity());
    SameLength(passing, SortDescending(passing, BySimilarity()));
    MapAt(FallbackSearch(sqrt, query, rows, |rows|, 0.0), BySimilarity());
  }

  // ---------- indexing and searching ----------

  function NotOf(id: string): Row -> bool {
    (row: Row) => row.id != id
  }

  /** Indexing replaces the row of its id, or adds one; deleting takes it away. The other rows stay as they are. */
  lemma ListingsFollow(table: map<string, Vector>, rows: seq<Row>, id: string, vector: Vector)
    requires Lists(table, rows)
    ensures Lists(table[id := vector], Filter(rows, NotOf(id)) + [Row(id, vector)])
    ensures Lists(table - {id}, Filter(rows, NotOf(id)))
  {
    var others := Filter(rows, NotOf(id));
    FilterDistinct(rows, NotOf(id));
    forall row
      ensures row in others <==> row in rows && row.id != id
    {
      FilterMember(rows, NotOf(id), row);
    }
    forall row
      ensures row in others + [Row(id, vector)] <==> row in others || row == Row(id, vector)
    {
    }
  }

  /** Below zero the two paths part: the fallback drops that many of the worst matches, and the native loop stops after
      its first row. */
  lemma NegativeTopK(sqrt: real -> real, query: Vector, rows: seq<Row>, topK: int, minimum: real)
    requires topK < 0
    ensures var found := FallbackSearch(sqrt, query, rows, topK, minimum);
            var all := SortDescending(Filter(Map(rows, FallbackMatch(sqrt, query)), Passing(minimum)), BySimilarity());
            found <= all && |all| - |found| == Min(|all|, -topK)
    ensures var found := NativeSearch(sqrt, query, rows, topK, minimum);
            |found| <= 1 && forall m :: m in found ==> rows != [] && m == NativeMatch(sqrt, query)(rows[0])
  {
    if rows != [] {
      assert Take(rows, 1) == [rows[0]];
    }
  }

  /** A stored non-zero vector is found by itself: whatever else is stored, either search it is comparable with
      begins with a perfect match. */
  lemma StoredVectorIsFound(sqrt: real -> real, rows: seq<Row>, row: Row, topK: nat, minimum: real)
    requires IsSquareRoot(sqrt) && row in rows && Dot(row.vector, row.vector) != 0.0 && topK >= 1 && minimum <= 1.0
    ensures var r := FallbackSearch(sqrt, row.vector, rows, topK, minimum); r != [] && r[0].similarity == 1.0
    ensures AllComparable(row.vector, rows) && NearestFirst(sqrt, row.vector, rows) ==>
              var r := NativeSearch(sqrt, row.vector, rows, topK, minimum); r != [] && r[0].similarity == 1.0
  {
    SearchIsTopK(sqrt, row.vector, rows, topK, minimum);
    BestIsPerfect(sqrt, rows, row, FallbackSearch(sqrt, row.vector, rows, topK, minimum), topK, minimum);
    if AllComparable(row.vector, rows) && NearestFirst(sqrt, row.vector, rows) {
      BestIsPerfect(sqrt, rows, row, NativeSearch(sqrt, row.vector, rows, topK, minimum), topK, minimum);
    }
  }

  lemma {:induction false} UnitScale(v: Vector)
    ensures Scale(1.0, v) == v
  {
    if v != [] {
      UnitScale(v[1..]);
    }
  }

  lemma BestIsPerfect(sqrt: real -> real, rows: seq<Row>, row: Row, r: seq<Match>, topK: nat, minimum: real)
    requires IsSquareRoot(sqrt) && row in rows && Dot(row.vector, row.vector) != 0.0 && topK >= 1 && minimum <= 1.0
    requires IsTopK(r, Map(rows, FallbackMatch(sqrt, row.vector)), topK, minimum)
    ensures r != [] && r[0].similarity == 1.0
  {
    var f := FallbackMatch(sqrt, row.vector);
    UnitScale(row.vector);
    SelfSimilarity(sqrt, row.vector, 1.0);
    var m := f(row);
    MapMember(rows, f, row);
    assert r != [] by {
      if m !in r {
        assert |r| == topK;
      }
    }
    assert r[0] in multiset(r);
    var best := MappedFrom(rows, f, r[0]);
    SimilarityIsCosine(sqrt, row.vector, best.vector);
    if m in r {
      var i :| 0 <= i < |r| && r[i] == m;
      DescendingPairs(r, BySimilarity(), 0, i);
    }
  }
}
