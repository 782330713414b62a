/** Hybrid retrieval: structured matches, vector hits, isolation by project, one ranking. */
module Retrieval {
  import opened Prelude
  import opened Sorting
  import opened Embeddings
  import opened Ranking
  import opened SemanticStores

  /** A search, at a point in time. */
  datatype Query = Query(scope: Option<Scope>, project: string, topK: nat, includeExpired: bool, now: int)

  /** The semantic phase: not configured, finished, or raised after some hits were handled. */
  datatype Semantic =
    | NotConfigured
    | Finished(hits: seq<Match>, storeDegraded: bool)
    | Broken(hits: seq<Match>)

  datatype RetrievalResult = RetrievalResult(results: seq<ScoredMemory>, degraded: bool)

  type Repository = map<string, Record>

  /** Rows are looked up by their primary key. */
  ghost predicate Keyed(repository: Repository) {
    forall id :: id in repository ==> repository[id].id == id
  }

  function IdOf(): ScoredMemory -> string {
    (c: ScoredMemory) => c.record.id
  }

  function ByFinal(): ScoredMemory -> real {
    (c: ScoredMemory) => c.finalScore
  }

  /** The candidate dictionary, keyed by record id, in insertion order. */
  type Candidates = seq<ScoredMemory>

  function Find(cs: Candidates, id: string): Option<ScoredMemory> {
    if cs == [] then None
    else if cs[0].record.id == id then Some(cs[0])
    else Find(cs[1..], id)
  }

  /** Overwrites in place, or appends. */
  function Put(cs: Candidates, c: ScoredMemory): Candidates {
    if cs == [] then [c]
    else if cs[0].record.id == c.record.id then [c] + cs[1..]
    else [cs[0]] + Put(cs[1..], c)
  }

  /** The candidates, as a dictionary: one entry an id. */
  ghost predicate OnePerId(cs: Candidates) {
    Distinct(Map(cs, IdOf()))
  }

  // ---------- one scoring context ----------

  /** Everything fixed during one retrieval. */
  datatype Context = Context(weights: Weights, recency: string -> real, repository: Repository, query: Query)
  {
    function Score(record: Record, semantic: real): ScoredMemory {
      ScoreRecord(weights, recency, record, semantic, Target(query.scope, query.project, ""))
    }

    predicate Conflicts(record: Record) {
      Conflicting(record.project, query.project)
    }

    /** Not expired, as the structured search sees it. */
    predicate Current(record: Record) {
      record.expiresAt.Some? ==> record.expiresAt.value > query.now
    }

    /** A record known only from the vector index must carry no expiry date and no other project. */
    predicate Admissible(record: Record) {
      (query.includeExpired || record.expiresAt.None?) && !Conflicts(record)
    }

    function NoConflict(): ScoredMemory -> bool {
      (c: ScoredMemory) => !Conflicts(c.record)
    }
  }

  function Structured(k: Context, records: seq<Record>): Candidates {
    if records == [] then []
    else
      var n := |records| - 1;
      Put(Structured(k, records[..n]), k.Score(records[n], 0.0))
  }

  function AfterHit(k: Context, cs: Candidates, hit: Match): Candidates {
    var known := Find(cs, hit.id);
    if known.Some? then Put(cs, k.Score(known.value.record, hit.similarity))
    else if hit.id in k.repository && k.Admissible(k.repository[hit.id])
    then Put(cs, k.Score(k.repository[hit.id], hit.similarity))
    else cs
  }

  function AfterHits(k: Context, cs: Candidates, hits: seq<Match>): Candidates {
    if hits == [] then cs
    else
      var n := |hits| - 1;
      AfterHit(k, AfterHits(k, cs, hits[..n]), hits[n])
  }

  function Hits(semantic: Semantic): seq<Match> {
    if semantic.NotConfigured? then [] else semantic.hits
  }

  function Gathered(k: Context, records: seq<Record>, semantic: Semantic): Candidates {
    AfterHits(k, Structured(k, records), Hits(semantic))
  }

  function Ranked(k: Context, records: seq<Record>, semantic: Semantic): seq<ScoredMemory> {
    SortDescending(Filter(Gathered(k, records, semantic), k.NoConflict()), ByFinal())
  }

  class MemoryRetriever {
    const repository: Repository
    const weights: Weights
    const recency: string -> real

    constructor (repository: Repository, weights: Weights, recency: string -> real)
      ensures this.repository == repository && this.weights == weights && this.recency == recency
    {
      this.repository, this.weights, this.recency := repository, weights, recency;
    }

    /** `records` is what the structured search returned, `semantic` how the vector phase went. */
    method Retrieve(query: Query, records: seq<Record>, semantic: Semantic) returns (r: RetrievalResult)
      ensures r.results == Take(Ranked(Context(weights, recency, repository, query), records, semantic), query.topK)
      ensures !r.degraded <==> semantic.Finished? && !semantic.storeDegraded
    {
      var k := Context(weights, recency, repository, query);
      var candidates := ScoreStructured(k, records);
      if !semantic.NotConfigured? {
        candidates := HandleHits(k, candidates, semantic.hits);
      }
      var kept := Isolate(k, candidates);
      var ranked := SortDescending(kept, ByFinal());
      r := RetrievalResult(Take(ranked, query.topK), !semantic.Finished? || semantic.storeDegraded);
    }

    method ScoreStructured(k: Context, records: seq<Record>) returns (candidates: Candidates)
      ensures candidates == Structured(k, records)
    {
      candidates := [];
      for i := 0 to |records|
        invariant candidates == Structured(k, records[..i])
      {
        assert records[..i + 1][..i] == records[..i];
        candidates := Put(candidates, k.Score(records[i], 0.0));
      }
      assert records[..|records|] == records;
    }

    method HandleHits(k: Context, found: Candidates, hits: seq<Match>) returns (candidates: Candidates)
      ensures candidates == AfterHits(k, found, hits)
    {
      candidates := found;
      for i := 0 to |hits|
        invariant candidates == AfterHits(k, found, hits[..i])
      {
        assert hits[..i + 1][..i] == hits[..i];
        candidates := HandleHit(k, candidates, hits[i]);
      }
      assert hits[..|hits|] == hits;
    }

    method HandleHit(k: Context, found: Candidates, hit: Match) returns (candidates: Candidates)
      ensures candidates == AfterHit(k, found, hit)
    {
      candidates := found;
      var known := Find(candidates, hit.id);
      if known.Some? {
        candidates := Put(candidates, k.Score(known.value.record, hit.similarity));
      } else if hit.id in k.repository {
        var record := k.repository[hit.id];
        if k.query.includeExpired || record.expiresAt.None? {
          if !(k.query.project != "" && record.project != "" && record.project != k.query.project) {
            candidates := Put(candidates, k.Score(record, hit.similarity));
          }
        }
      }
    }

    method Isolate(k: Context, candidates: Candidates) returns (kept: Candidates)
      ensures kept == Filter(candidates, k.NoConflict())
    {
      kept := [];
      for i := 0 to |candidates|
        invariant kept == Filter(candidates[..i], k.NoConflict())
      {
        assert candidates[..i + 1] == candidates[..i] + [candidates[i]];
        FilterConcat(candidates[..i], [candidates[i]], k.NoConflict());
        if !k.Conflicts(candidates[i].record) {
          kept := kept + [candidates[i]];
        }
      }
      assert candidates[..|candidates|] == candidates;
    }
  }

  // ---------- the dictionary ----------

  lemma {:induction false} PutFind(cs: Candidates, c: ScoredMemory, id: string)
    ensures Find(Put(cs, c), id) == if id == c.record.id then Some(c) else Find(cs, id)
  {
    if cs != [] && cs[0].record.id != c.record.id {
      PutFind(cs[1..], c, id);
    }
  }

  lemma {:induction false} FindId(cs: Candidates, id: string)
    ensures Find(cs, id).Some? ==> Find(cs, id).value.record.id == id
  {
    if cs != [] {
      FindId(cs[1..], id);
    }
  }

  lemma {:induction false} PutIds(cs: Candidates, c: ScoredMemory)
    ensures Map(Put(cs, c), IdOf()) ==
              if c.record.id in Map(cs, IdOf()) then Map(cs, IdOf()) else Map(cs, IdOf()) + [c.record.id]
  {
    if cs != [] {
      var ids := Map(cs, IdOf());
      assert ids == [cs[0].record.id] + Map(cs[1..], IdOf());
      if cs[0].record.id != c.record.id {
        PutIds(cs[1..], c);
      }
    }
  }

  lemma PutOnePerId(cs: Candidates, c: ScoredMemory)
    requires OnePerId(cs)
    ensures OnePerId(Put(cs, c))
  {
    PutIds(cs, c);
  }

  lemma {:induction false} FindMember(cs: Candidates, c: ScoredMemory)
    requires OnePerId(cs)
    ensures c in cs <==> Find(cs, c.record.id) == Some(c)
  {
    if cs != [] {
      var ids := Map(cs, IdOf());
      assert cs == [cs[0]] + cs[1..];
      assert ids[1..] == Map(cs[1..], IdOf());
      assert Distinct(ids[1..]);
      FindMember(cs[1..], c);
      if c in cs[1..] {
        MapMember(cs[1..], IdOf(), c);
        assert c.record.id in ids[1..];
        assert ids[0] == cs[0].record.id;
      }
    }
  }

  lemma {:induction false} GatheredOnePerId(k: Context, records: seq<Record>, hits: seq<Match>)
    ensures OnePerId(AfterHits(k, Structured(k, records), hits))
    decreases |records| + |hits|
  {
    if hits != [] {
      var n := |hits| - 1;
      GatheredOnePerId(k, records, hits[..n]);
      AfterHitOnePerId(k, AfterHits(k, Structured(k, records), hits[..n]), hits[n]);
    } else if records != [] {
      var n := |records| - 1;
      GatheredOnePerId(k, records[..n], []);
      PutOnePerId(Structured(k, records[..n]), k.Score(records[n], 0.0));
    }
  }

  lemma AfterHitOnePerId(k: Context, cs: Candidates, hit: Match)
    requires OnePerId(cs)
    ensures OnePerId(AfterHit(k, cs, hit))
  {
    var known := Find(cs, hit.id);
    if known.Some? {
      PutOnePerId(cs, k.Score(known.value.record, hit.similarity));
    } else if hit.id in k.repository {
      PutOnePerId(cs, k.Score(k.repository[hit.id], hit.similarity));
    }
  }

  // ---------- who is a candidate, and with what score ----------

  function LastRecord(records: seq<Record>, id: string): Option<Record> {
    if records == [] then None
    else
      var n := |records| - 1;
      if records[n].id == id then Some(records[n]) else LastRecord(records[..n], id)
  }

  function LastSimilarity(hits: seq<Match>, id: string): Option<real> {
    if hits == [] then None
    else
      var n := |hits| - 1;
      if hits[n].id == id then Some(hits[n].similarity) else LastSimilarity(hits[..n], id)
  }

  /** The record an id stands for: the structured match, else an admissible row the vector phase found. */
  function CandidateRecord(k: Context, records: seq<Record>, hits: seq<Match>, id: string): Option<Record> {
    if LastRecord(records, id).Some? then LastRecord(records, id)
    else if LastSimilarity(hits, id).Some? && id in k.repository && k.Admissible(k.repository[id])
    then Some(k.repository[id])
    else None
  }

  function CandidateSimilarity(hits: seq<Match>, id: string): real {
    if LastSimilarity(hits, id).Some? then LastSimilarity(hits, id).value else 0.0
  }

  function ScoredOption(k: Context, record: Option<Record>, semantic: real): Option<ScoredMemory> {
    if record.Some? then Some(k.Score(record.value, semantic)) else None
  }

  lemma {:induction false} LastRecordId(records: seq<Record>, id: string)
    ensures LastRecord(records, id).Some? ==> LastRecord(records, id).value.id == id
  {
    if records != [] {
      LastRecordId(records[..|records| - 1], id);
    }
  }

  lemma {:induction false} StructuredFind(k: Context, records: seq<Record>, id: string)
    ensures Find(Structured(k, records), id) == ScoredOption(k, LastRecord(records, id), 0.0)
  {
    if records != [] {
      var n := |records| - 1;
      StructuredFind(k, records[..n], id);
      PutFind(Structured(k, records[..n]), k.Score(records[n], 0.0), id);
    }
  }

  /** Every id is a candidate exactly when it has a record to stand for, scored with its latest similarity or none. */
  lemma {:induction false} CandidatesAreExact(k: Context, records: seq<Record>, hits: seq<Match>, id: string)
    requires Keyed(k.repository)
    ensures Find(AfterHits(k, Structured(k, records), hits), id) ==
              ScoredOption(k, CandidateRecord(k, records, hits, id), CandidateSimilarity(hits, id))
  {
    if hits == [] {
      StructuredFind(k, records, id);
    } else {
      var n := |hits| - 1;
      CandidatesAreExact(k, records, hits[..n], id);
      HitFind(k, AfterHits(k, Structured(k, records), hits[..n]), hits[n], id);
      if hits[n].id == id {
        LastRecordId(records, id);
      }
    }
  }

  /** A hit scores its own id anew, or brings it in if the row is admissible, and leaves the others alone. */
  lemma HitFind(k: Context, cs: Candidates, hit: Match, id: string)
    requires Keyed(k.repository)
    ensures Find(AfterHit(k, cs, hit), id) ==
              if id != hit.id then Find(cs, id)
              else if Find(cs, id).Some? then Some(k.Score(Find(cs, id).value.record, hit.similarity))
              else if id in k.repository && k.Admissible(k.repository[id])
              then Some(k.Score(k.repository[id], hit.similarity))
              else None
  {
    var known := Find(cs, hit.id);
    FindId(cs, hit.id);
    if known.Some? {
      PutFind(cs, k.Score(known.value.record, hit.similarity), id);
    } else if hit.id in k.repository {
      PutFind(cs, k.Score(k.repository[hit.id], hit.similarity), id);
    }
  }

  // ---------- expiry ----------

  /** A row that only the vector phase found, of no other project, becomes a candidate exactly if it has no expiry at
      all or expired records are asked for; the time of the query plays no part. */
  lemma VectorOnlyIff(k: Context, records: seq<Record>, hits: seq<Match>, id: string)
    requires Keyed(k.repository) && id in k.repository && !k.Conflicts(k.repository[id])
    requires LastRecord(records, id).None? && LastSimilarity(hits, id).Some?
    ensures Find(AfterHits(k, Structured(k, records), hits), id).Some? <==>
              k.query.includeExpired || k.repository[id].expiresAt.None?
  {
    CandidatesAreExact(k, records, hits, id);
  }

  /** So a record that has not expired yet is dropped, though the structured search would return it. */
  lemma UnexpiredIsDropped(k: Context, record: Record, similarity: real)
    requires k.repository == map[record.id := record] && !k.query.includeExpired && !k.Conflicts(record)
    requires record.expiresAt == Some(k.query.now + 1)
    ensures k.Current(record)
    ensures Find(AfterHits(k, Structured(k, []), [Match(record.id, similarity)]), record.id) == None
  {
    var hits := [Match(record.id, similarity)];
    assert LastSimilarity(hits, record.id) == Some(similarity);
    VectorOnlyIff(k, [], hits, record.id);
  }

  /** Nothing expired is ever returned, as long as the structured search returns nothing expired. */
  lemma CandidatesAreCurrent(k: Context, records: seq<Record>, semantic: Semantic, c: ScoredMemory)
    requires Keyed(k.repository) && !k.query.includeExpired && forall r :: r in records ==> k.Current(r)
    requires c in Gathered(k, records, semantic)
    ensures k.Current(c.record)
  {
    var hits := Hits(semantic);
    GatheredOnePerId(k, records, hits);
    FindMember(Gathered(k, records, semantic), c);
    CandidatesAreExact(k, records, hits, c.record.id);
    LastRecordIsListed(records, c.record.id);
  }

  lemma {:induction false} LastRecordIsListed(records: seq<Record>, id: string)
    ensures LastRecord(records, id).Some? ==> LastRecord(records, id).value in records
  {
    if records != [] {
      LastRecordIsListed(records[..|records| - 1], id);
    }
  }

  // ---------- main results ----------

  /** The query and the record each name a project, and not the same one. */
  predicate Foreign(query: Query, record: Record) {
    query.project != "" && record.project != "" && query.project != record.project
  }

  /** The returned list: bounded, best first, one entry an id, nothing of another project, nothing better left out. */
  ghost predicate Sound(k: Context, gathered: Candidates, results: seq<ScoredMemory>) {
    && |results| <= k.query.topK
    && Descending(results, ByFinal())
    && OnePerId(results)
    && (forall c :: c in results ==> c in gathered && !Foreign(k.query, c.record))
    && (forall c, d :: c in gathered && !Foreign(k.query, c.record) && c !in results ==>
          |results| == k.query.topK && (d in results ==> c.finalScore <= d.finalScore))
  }

  lemma RetrievalIsSound(k: Context, records: seq<Record>, semantic: Semantic)
    ensures Sound(k, Gathered(k, records, semantic), Take(Ranked(k, records, semantic), k.query.topK))
  {
    var gathered := Gathered(k, records, semantic);
    GatheredOnePerId(k, records, Hits(semantic));
    CutIsSound(k, gathered);
  }

  lemma CutIsSound(k: Context, gathered: Candidates)
    requires OnePerId(gathered)
    ensures Sound(k, gathered, Take(SortDescending(Filter(gathered, k.NoConflict()), ByFinal()), k.query.topK))
  {
    var kept := Filter(gathered, k.NoConflict());
    var ranked := SortDescending(kept, ByFinal());
    var results := Take(ranked, k.query.topK);
    SortIsSortedPermutation(kept, ByFinal());
    TakeKeepsOrder(ranked, k.query.topK, ByFinal());
    RankedOnePerId(k, gathered);
    forall c | c in results
      ensures c in gathered && !Foreign(k.query, c.record)
    {
      assert c in multiset(ranked);
      FilterMember(gathered, k.NoConflict(), c);
    }
    forall c, d | c in gathered && !Foreign(k.query, c.record) && c !in results
      ensures |results| == k.query.topK && (d in results ==> c.finalScore <= d.finalScore)
    {
      FilterMember(gathered, k.NoConflict(), c);
      assert c in multiset(kept);
      assert c in ranked;
      if d in results {
        CutKeepsTheBest(ranked, k.query.topK, ByFinal(), c, d);
      }
    }
  }

  lemma RankedOnePerId(k: Context, gathered: Candidates)
    requires OnePerId(gathered)
    ensures OnePerId(Take(SortDescending(Filter(gathered, k.NoConflict()), ByFinal()), k.query.topK))
  {
    var kept := Filter(gathered, k.NoConflict());
    var ranked := SortDescending(kept, ByFinal());
    SortIsSortedPermutation(kept, ByFinal());
    FilterOnePerKey(gathered, k.NoConflict(), IdOf());
    MapOfPermutation(kept, ranked, IdOf());
    DistinctPermutation(Map(kept, IdOf()), Map(ranked, IdOf()));
    MapTake(ranked, IdOf(), k.query.topK);
  }

  lemma {:induction false} FilterOnePerKey<T, U>(s: seq<T>, p: T -> bool, key: T -> U)
    requires Distinct(Map(s, key))
    ensures Distinct(Map(Filter(s, p), key))
  {
    if s != [] {
      var keys := Map(s, key);
      assert keys[1..] == Map(s[1..], key) && keys[0] == key(s[0]);
      FilterOnePerKey(s[1..], p, key);
      FilterHead(s, p);
      var rest := Filter(s[1..], p);
      if p(s[0]) && key(s[0]) in Map(rest, key) {
        var x := MappedFrom(rest, key, key(s[0]));
        FilterMember(s[1..], p, x);
        MapMember(s[1..], key, x);
      }
      assert p(s[0]) ==> Map(Filter(s, p), key) == [key(s[0])] + Map(rest, key);
    }
  }

  /** The score of every candidate, from the record's fields: it is compared with the scope and project of the query
      and with no task. */
  lemma CandidateScore(k: Context, records: seq<Record>, semantic: Semantic, c: ScoredMemory)
    requires Keyed(k.repository) && NonNegative(ListedWeights(k.weights)) && UnitRange(k.recency)
    requires c in Gathered(k, records, semantic)
    ensures CandidateRecord(k, records, Hits(semantic), c.record.id) == Some(c.record)
    ensures var m := c.record;
            var similarity := CandidateSimilarity(Hits(semantic), m.id);
            var aligned := ScopeScore(m.scope, m.project, Target(k.query.scope, k.query.project, ""));
            var mix := Mix(k.weights, Clamp(similarity), k.recency(m.createdAt), Clamp(m.importance),
                           Clamp(m.confidence), aligned, 0.5);
            c.finalScore == Round4(mix / TotalWeight(k.weights))
  {
    var hits, target := Hits(semantic), Target(k.query.scope, k.query.project, "");
    GatheredOnePerId(k, records, hits);
    FindMember(Gathered(k, records, semantic), c);
    CandidatesAreExact(k, records, hits, c.record.id);
    var similarity := CandidateSimilarity(hits, c.record.id);
    FinalScoreIsRoundedAverage(k.weights, k.recency, c.record, similarity, target);
    ScoreFormula(k.weights, k.recency, c.record, similarity, target);
  }

  /** Candidates of equal score stay in the order they were gathered. */
  lemma TiesKeepGatheringOrder(k: Context, records: seq<Record>, semantic: Semantic, score: real)
    ensures var tied := (c: ScoredMemory) => c.finalScore == score;
            Filter(Ranked(k, records, semantic), tied) ==
            Filter(Filter(Gathered(k, records, semantic), k.NoConflict()), tied)
  {
    SortIsStable(Filter(Gathered(k, records, semantic), k.NoConflict()), ByFinal(),
                 (c: ScoredMemory) => c.finalScore == score);
  }

  /** No candidate scores below what it would score without the vector phase. */
  lemma HitsNeverLower(k: Context, records: seq<Record>, semantic: Semantic, c: ScoredMemory)
    requires Keyed(k.repository) && k.weights.semantic >= 0.0
    requires c in Gathered(k, records, semantic)
    ensures c.finalScore >= k.Score(c.record, 0.0).finalScore
  {
    var hits := Hits(semantic);
    var id := c.record.id;
    GatheredOnePerId(k, records, hits);
    FindMember(Gathered(k, records, semantic), c);
    CandidatesAreExact(k, records, hits, id);
    SimilarityNeverLowers(k.weights, k.recency, c.record, 0.0, CandidateSimilarity(hits, id),
                          Target(k.query.scope, k.query.project, ""));
  }
}
