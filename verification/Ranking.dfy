/** Six-factor relevance scores, over the reals. */
module Ranking {
  import opened Prelude
  import opened Embeddings

  datatype Scope = SessionScope | ConversationScope | UserScope | ProjectScope | GlobalScope

  /** A stored memory; an absent text field is empty, an expiry is a point in time or absent. */
  datatype Record = Record(
    id: string,
    importance: real,
    confidence: real,
    createdAt: string,
    expiresAt: Option<int>,
    scope: Scope,
    project: string,
    task: string)

  datatype Weights = Weights(semantic: real, recency: real, importance: real, confidence: real, scope: real, task: real)

  datatype Factors = Factors(semantic: real, recency: real, importance: real, confidence: real, scope: real, task: real)

  /** A record with its final score and factors, each rounded to four decimals. */
  datatype ScoredMemory = ScoredMemory(record: Record, finalScore: real, factors: Factors)

  /** What a record is scored against. */
  datatype Target = Target(scope: Option<Scope>, project: string, task: string)

  predicate Conflicting(project: string, target: string) {
    target != "" && project != "" && project != target
  }

  function ScopeScore(scope: Scope, project: string, target: Target): real {
    if Conflicting(project, target.project) then 0.0
    else if target.scope.None? then 0.8
    else if scope == target.scope.value then 1.0
    else if scope == GlobalScope then 0.85
    else if scope == UserScope then 0.8
    else 0.3
  }

  function TaskScore(task: string, target: string): real {
    if target == "" then 0.5
    else if task != "" && task == target then 1.0
    else 0.2
  }

  function RoundHalfEven(x: real): int {
    var below := x.Floor;
    var rest := x - below as real;
    if rest < 0.5 || (rest == 0.5 && below % 2 == 0) then below else below + 1
  }

  function Round4(x: real): real {
    RoundHalfEven(x * 10000.0) as real / 10000.0
  }

  function Listed(f: Factors): Vector {
    [f.semantic, f.recency, f.importance, f.confidence, f.scope, f.task]
  }

  function ListedWeights(w: Weights): Vector {
    [w.semantic, w.recency, w.importance, w.confidence, w.scope, w.task]
  }

  function Sum(v: Vector): real {
    if v == [] then 0.0 else v[0] + Sum(v[1..])
  }

  /** The inner product of factors and weights over the total weight, or over 1 without any weight. */
  function WeightedAverage(v: Vector, w: Vector): real
    requires |v| == |w|
  {
    Dot(v, w) / (if Sum(w) <= 0.0 then 1.0 else Sum(w))
  }

  function RawScore(f: Factors, w: Weights): real {
    WeightedAverage(Listed(f), ListedWeights(w))
  }

  /** The factors of a record; `recency` is the decay by age at the fixed time of the query. */
  function FactorsOf(record: Record, semantic: real, target: Target, recency: string -> real): Factors {
    Factors(
      Clamp(semantic),
      recency(record.createdAt),
      Clamp(record.importance),
      Clamp(record.confidence),
      ScopeScore(record.scope, record.project, target),
      TaskScore(record.task, target.task))
  }

  function Rounded(f: Factors): Factors {
    Factors(Round4(f.semantic), Round4(f.recency), Round4(f.importance),
            Round4(f.confidence), Round4(f.scope), Round4(f.task))
  }

  function ScoreRecord(w: Weights, recency: string -> real, record: Record, semantic: real, target: Target)
    : ScoredMemory
  {
    var f := FactorsOf(record, semantic, target, recency);
    ScoredMemory(record, Round4(Clamp(RawScore(f, w))), Rounded(f))
  }

  // ---------- rounding ----------

  lemma RoundMonotone(x: real, y: real)
    requires x <= y
    ensures RoundHalfEven(x) <= RoundHalfEven(y)
  {
  }

  /** A nearest integer, and of two equally near ones the even one. */
  lemma RoundingLaw(x: real)
    ensures -0.5 <= RoundHalfEven(x) as real - x <= 0.5
    ensures RoundHalfEven(x) as real - x == 0.5 || RoundHalfEven(x) as real - x == -0.5 ==> RoundHalfEven(x) % 2 == 0
  {
  }

  /** Rounding keeps order, stays within half a unit of the fourth decimal, and keeps the unit interval. */
  lemma Round4Laws(x: real, y: real)
    ensures x <= y ==> Round4(x) <= Round4(y)
    ensures -0.00005 <= Round4(x) - x <= 0.00005
    ensures 0.0 <= x <= 1.0 ==> 0.0 <= Round4(x) <= 1.0
  {
    if x <= y {
      RoundMonotone(x * 10000.0, y * 10000.0);
    }
    var n := RoundHalfEven(x * 10000.0);
    assert -0.5 <= n as real - x * 10000.0 <= 0.5;
  }

  // ---------- the weighted average ----------

  ghost predicate AllWithin(v: Vector, low: real, high: real) {
    forall i :: 0 <= i < |v| ==> low <= v[i] <= high
  }

  ghost predicate NonNegative(w: Vector) {
    forall i :: 0 <= i < |w| ==> w[i] >= 0.0
  }

  ghost predicate Between(d: real, total: real, low: real, high: real) {
    low * total <= d <= high * total
  }

  lemma OneMoreTerm(d: real, total: real, low: real, high: real, f: real, w: real, d1: real, total1: real)
    requires w >= 0.0 && low <= f <= high && Between(d, total, low, high)
    requires d1 == f * w + d && total1 == w + total
    ensures Between(d1, total1, low, high)
  {
    Distribute(low, w, total);
    Distribute(high, w, total);
    TermOrder(low, f, w);
    TermOrder(f, high, w);
  }

  lemma Distribute(c: real, x: real, y: real)
    ensures c * (x + y) == c * x + c * y
  {
  }

  lemma TermOrder(x: real, y: real, w: real)
    requires x <= y && w >= 0.0
    ensures x * w <= y * w
  {
  }

  lemma {:induction false} DotBounds(v: Vector, w: Vector, low: real, high: real)
    requires |v| == |w| && NonNegative(w) && AllWithin(v, low, high)
    ensures Between(Dot(v, w), Sum(w), low, high)
  {
    if v == [] {
      assert Dot(v, w) == 0.0 && Sum(w) == 0.0;
    } else {
      DotBounds(v[1..], w[1..], low, high);
      OneMoreTerm(Dot(v[1..], w[1..]), Sum(w[1..]), low, high, v[0], w[0], Dot(v, w), Sum(w));
    }
  }

  lemma DivideBounds(x: real, d: real, low: real, high: real, q: real)
    requires d > 0.0 && Between(x, d, low, high) && q == x / d
    ensures low <= q <= high
  {
    assert q * d == x;
    assert (low - q) * d == low * d - q * d && (q - high) * d == q * d - high * d;
    if q < low {
      Positive(low - q, d);
    } else if q > high {
      Positive(q - high, d);
    }
  }

  /** With positive total weight the average lies between its smallest and its largest factor. */
  lemma AverageIsBetween(v: Vector, w: Vector, low: real, high: real)
    requires |v| == |w| && NonNegative(w) && Sum(w) > 0.0 && AllWithin(v, low, high)
    ensures low <= WeightedAverage(v, w) <= high
  {
    DotBounds(v, w, low, high);
    DivideBounds(Dot(v, w), Sum(w), low, high, WeightedAverage(v, w));
  }

  lemma {:induction false} NoWeight(v: Vector, w: Vector)
    requires |v| == |w| && NonNegative(w) && Sum(w) <= 0.0
    ensures Dot(v, w) == 0.0
  {
    if v != [] {
      SumNonNegative(w[1..]);
      NoWeight(v[1..], w[1..]);
      assert w[0] == 0.0;
    }
  }

  lemma {:induction false} SumNonNegative(w: Vector)
    requires NonNegative(w)
    ensures Sum(w) >= 0.0
  {
    if w != [] {
      SumNonNegative(w[1..]);
    }
  }

  lemma AverageInUnit(v: Vector, w: Vector)
    requires |v| == |w| && NonNegative(w) && AllWithin(v, 0.0, 1.0)
    ensures 0.0 <= WeightedAverage(v, w) <= 1.0
  {
    if Sum(w) > 0.0 {
      AverageIsBetween(v, w, 0.0, 1.0);
    } else {
      NoWeight(v, w);
    }
  }

  // ---------- which field counts for what ----------

  lemma DotFrom(v: Vector, w: Vector, i: nat)
    requires |v| == |w| && i < |v|
    ensures Dot(v[i..], w[i..]) == v[i] * w[i] + Dot(v[i + 1..], w[i + 1..])
  {
    assert v[i..][1..] == v[i + 1..] && w[i..][1..] == w[i + 1..];
  }

  lemma DotOfSix(v: Vector, w: Vector)
    requires |v| == |w| == 6
    ensures Dot(v, w) ==
              v[0] * w[0] + (v[1] * w[1] + (v[2] * w[2] + (v[3] * w[3] + (v[4] * w[4] + (v[5] * w[5] + 0.0)))))
  {
    assert v[0..] == v && w[0..] == w && v[6..] == [] && w[6..] == [];
    DotFrom(v, w, 0);
    DotFrom(v, w, 1);
    DotFrom(v, w, 2);
    DotFrom(v, w, 3);
    DotFrom(v, w, 4);
    DotFrom(v, w, 5);
  }

  /** The divisor: the sum of all six weights, or 1 without any. */
  function TotalWeight(w: Weights): real {
    var total := w.semantic + w.recency + w.importance + w.confidence + w.scope + w.task;
    if total <= 0.0 then 1.0 else total
  }

  /** Six values, each counted with its own weight. */
  function Mix(w: Weights, semantic: real, recency: real, importance: real, confidence: real, scope: real, task: real)
    : real
  {
    semantic * w.semantic + (recency * w.recency + (importance * w.importance
    + (confidence * w.confidence + (scope * w.scope + (task * w.task + 0.0)))))
  }

  lemma MixOfFactors(f: Factors, w: Weights)
    ensures Dot(Listed(f), ListedWeights(w)) ==
              Mix(w, f.semantic, f.recency, f.importance, f.confidence, f.scope, f.task)
  {
    DotOfSix(Listed(f), ListedWeights(w));
  }

  lemma TotalOfWeights(w: Weights)
    ensures (if Sum(ListedWeights(w)) <= 0.0 then 1.0 else Sum(ListedWeights(w))) == TotalWeight(w) > 0.0
  {
    SumOfSix(ListedWeights(w));
  }

  lemma SameQuotient(x: real, y: real, d: real, e: real)
    requires x == y && d == e && d > 0.0
    ensures x / d == y / e
  {
  }

  lemma AverageOfFactors(f: Factors, w: Weights)
    ensures RawScore(f, w) ==
              Mix(w, f.semantic, f.recency, f.importance, f.confidence, f.scope, f.task) / TotalWeight(w)
  {
    MixOfFactors(f, w);
    TotalOfWeights(w);
    var total := Sum(ListedWeights(w));
    SameQuotient(Dot(Listed(f), ListedWeights(w)),
                 Mix(w, f.semantic, f.recency, f.importance, f.confidence, f.scope, f.task),
                 if total <= 0.0 then 1.0 else total, TotalWeight(w));
  }

  /** The unrounded score, field by field: each field of the record counts with its own weight. */
  lemma ScoreFormula(w: Weights, recency: string -> real, record: Record, semantic: real, target: Target)
    ensures RawScore(FactorsOf(record, semantic, target, recency), w) ==
              Mix(w, Clamp(semantic), recency(record.createdAt), Clamp(record.importance), Clamp(record.confidence),
                  ScopeScore(record.scope, record.project, target), TaskScore(record.task, target.task))
              / TotalWeight(w)
  {
    AverageOfFactors(FactorsOf(record, semantic, target, recency), w);
  }

  /** Every reported factor is the rounding of its own field. */
  lemma FactorsAreReported(w: Weights, recency: string -> real, record: Record, semantic: real, target: Target)
    ensures var s := ScoreRecord(w, recency, record, semantic, target);
            && s.record == record
            && s.factors.semantic == Round4(Clamp(semantic))
            && s.factors.recency == Round4(recency(record.createdAt))
            && s.factors.importance == Round4(Clamp(record.importance))
            && s.factors.confidence == Round4(Clamp(record.confidence))
            && s.factors.scope == Round4(ScopeScore(record.scope, record.project, target))
            && s.factors.task == Round4(TaskScore(record.task, target.task))
  {
  }

  lemma QuotientDifference(x: real, y: real, difference: real, d: real)
    requires d > 0.0 && x - y == difference
    ensures x / d - y / d == difference / d
  {
  }

  lemma TermDifference(x: real, y: real, w: real)
    ensures x * w - y * w == (x - y) * w
  {
  }

  /** A change of importance moves the unrounded score by its weighted difference, whatever the other fields. */
  lemma ImportanceCounts(w: Weights, recency: string -> real, record: Record, semantic: real, target: Target, x: real)
    ensures RawScore(FactorsOf(record.(importance := x), semantic, target, recency), w)
            - RawScore(FactorsOf(record, semantic, target, recency), w)
              == (Clamp(x) - Clamp(record.importance)) * w.importance / TotalWeight(w)
  {
    var f := FactorsOf(record, semantic, target, recency);
    FieldCounts(w, f, f.(importance := Clamp(x)), (Clamp(x) - f.importance) * w.importance);
    assert FactorsOf(record.(importance := x), semantic, target, recency) == f.(importance := Clamp(x));
  }

  lemma ConfidenceCounts(w: Weights, recency: string -> real, record: Record, semantic: real, target: Target, x: real)
    ensures RawScore(FactorsOf(record.(confidence := x), semantic, target, recency), w)
            - RawScore(FactorsOf(record, semantic, target, recency), w)
              == (Clamp(x) - Clamp(record.confidence)) * w.confidence / TotalWeight(w)
  {
    var f := FactorsOf(record, semantic, target, recency);
    FieldCounts(w, f, f.(confidence := Clamp(x)), (Clamp(x) - f.confidence) * w.confidence);
    assert FactorsOf(record.(confidence := x), semantic, target, recency) == f.(confidence := Clamp(x));
  }

  lemma SimilarityCounts(w: Weights, recency: string -> real, record: Record, semantic: real, target: Target, x: real)
    ensures RawScore(FactorsOf(record, x, target, recency), w)
            - RawScore(FactorsOf(record, semantic, target, recency), w)
              == (Clamp(x) - Clamp(semantic)) * w.semantic / TotalWeight(w)
  {
    var f := FactorsOf(record, semantic, target, recency);
    FieldCounts(w, f, f.(semantic := Clamp(x)), (Clamp(x) - f.semantic) * w.semantic);
    assert FactorsOf(record, x, target, recency) == f.(semantic := Clamp(x));
  }

  lemma AgeCounts(w: Weights, recency: string -> real, record: Record, semantic: real, target: Target, t: string)
    ensures RawScore(FactorsOf(record.(createdAt := t), semantic, target, recency), w)
            - RawScore(FactorsOf(record, semantic, target, recency), w)
              == (recency(t) - recency(record.createdAt)) * w.recency / TotalWeight(w)
  {
    var f := FactorsOf(record, semantic, target, recency);
    FieldCounts(w, f, f.(recency := recency(t)), (recency(t) - f.recency) * w.recency);
    assert FactorsOf(record.(createdAt := t), semantic, target, recency) == f.(recency := recency(t));
  }

  /** Two averages whose factors differ in one place. */
  lemma FieldCounts(w: Weights, f: Factors, g: Factors, difference: real)
    requires || (g == f.(importance := g.importance) && difference == (g.importance - f.importance) * w.importance)
             || (g == f.(confidence := g.confidence) && difference == (g.confidence - f.confidence) * w.confidence)
             || (g == f.(semantic := g.semantic) && difference == (g.semantic - f.semantic) * w.semantic)
             || (g == f.(recency := g.recency) && difference == (g.recency - f.recency) * w.recency)
    ensures RawScore(g, w) - RawScore(f, w) == difference / TotalWeight(w)
  {
    AverageOfFactors(f, w);
    AverageOfFactors(g, w);
    TotalOfWeights(w);
    TermDifference(g.importance, f.importance, w.importance);
    TermDifference(g.confidence, f.confidence, w.confidence);
    TermDifference(g.semantic, f.semantic, w.semantic);
    TermDifference(g.recency, f.recency, w.recency);
    QuotientDifference(Mix(w, g.semantic, g.recency, g.importance, g.confidence, g.scope, g.task),
                       Mix(w, f.semantic, f.recency, f.importance, f.confidence, f.scope, f.task),
                       difference, TotalWeight(w));
  }

  /** Alignment of scopes: the same one before the global one before the user's before any other, and none at all
      only across projects. Without a scope to compare, four fifths. */
  lemma ScopeOrder(scope: Scope, project: string, target: Target)
    ensures Conflicting(project, target.project) ==> ScopeScore(scope, project, target) == 0.0
    ensures !Conflicting(project, target.project) && target.scope.None? ==> ScopeScore(scope, project, target) == 0.8
    ensures !Conflicting(project, target.project) && target.scope.Some? ==>
              var wanted := target.scope.value;
              && ScopeScore(wanted, project, target) == 1.0
              && (wanted != GlobalScope ==> 1.0 > ScopeScore(GlobalScope, project, target) == 0.85)
              && (wanted != UserScope ==> 0.85 > ScopeScore(UserScope, project, target) == 0.8)
              && (scope !in {wanted, GlobalScope, UserScope} ==> 0.8 > ScopeScore(scope, project, target) == 0.3)
  {
  }

  /** A project conflicts exactly if both sides name one and the names differ. */
  lemma ConflictLaw(project: string, target: string)
    ensures Conflicting(project, target) <==> project != target && project != "" && target != ""
  {
  }

  /** Alignment of tasks: the task asked for before none being asked for before another task or none. */
  lemma TaskOrder(task: string, target: string)
    ensures target != "" ==> TaskScore(target, target) == 1.0
    ensures TaskScore(task, "") == 0.5
    ensures target != "" && task != target ==> 0.5 > TaskScore(task, target) == 0.2
  {
  }

  lemma SumFrom(v: Vector, i: nat)
    requires i < |v|
    ensures Sum(v[i..]) == v[i] + Sum(v[i + 1..])
  {
    assert v[i..][1..] == v[i + 1..];
  }

  lemma SumOfSix(v: Vector)
    requires |v| == 6
    ensures Sum(v) == v[0] + v[1] + v[2] + v[3] + v[4] + v[5]
  {
    assert v[0..] == v && v[6..] == [];
    SumFrom(v, 0);
    SumFrom(v, 1);
    SumFrom(v, 2);
    SumFrom(v, 3);
    SumFrom(v, 4);
    SumFrom(v, 5);
  }

  ghost predicate UnitRange(recency: string -> real) {
    forall t :: 0.0 <= recency(t) <= 1.0
  }

  lemma ScopeScoreRange(scope: Scope, project: string, target: Target)
    ensures 0.0 <= ScopeScore(scope, project, target) <= 1.0
    ensures ScopeScore(scope, project, target) == 0.0 <==> Conflicting(project, target.project)
  {
  }

  lemma FactorsInUnit(semantic: real, recency: string -> real, record: Record, target: Target)
    requires UnitRange(recency)
    ensures AllWithin(Listed(FactorsOf(record, semantic, target, recency)), 0.0, 1.0)
  {
    ScopeScoreRange(record.scope, record.project, target);
  }

  /** The clamp never bites: the final score is the rounded average, and stays in the unit interval. */
  lemma FinalScoreIsRoundedAverage(w: Weights, recency: string -> real, record: Record, semantic: real, target: Target)
    requires NonNegative(ListedWeights(w)) && UnitRange(recency)
    ensures var final := ScoreRecord(w, recency, record, semantic, target).finalScore;
            var raw := RawScore(FactorsOf(record, semantic, target, recency), w);
            0.0 <= raw <= 1.0 && final == Round4(raw) && 0.0 <= final <= 1.0
  {
    var f := FactorsOf(record, semantic, target, recency);
    FactorsInUnit(semantic, recency, record, target);
    AverageInUnit(Listed(f), ListedWeights(w));
    Round4Laws(RawScore(f, w), RawScore(f, w));
  }

  lemma DivideOrder(x: real, y: real, d: real)
    requires d > 0.0 && x <= y
    ensures x / d <= y / d
  {
  }

  /** Raising the first factor never lowers the average. */
  lemma AverageOrder(v: Vector, w: Vector, more: real)
    requires |v| == |w| && v != [] && w[0] >= 0.0 && v[0] <= more
    ensures WeightedAverage(v, w) <= WeightedAverage([more] + v[1..], w)
  {
    var u := [more] + v[1..];
    assert u[1..] == v[1..];
    TermOrder(v[0], more, w[0]);
    DivideOrder(Dot(v, w), Dot(u, w), if Sum(w) <= 0.0 then 1.0 else Sum(w));
  }

  /** More semantic similarity never lowers a final score. */
  lemma SimilarityNeverLowers(w: Weights, recency: string -> real, record: Record, less: real, more: real,
                              target: Target)
    requires w.semantic >= 0.0 && Clamp(less) <= Clamp(more)
    ensures ScoreRecord(w, recency, record, less, target).finalScore <=
              ScoreRecord(w, recency, record, more, target).finalScore
  {
    var f, g := FactorsOf(record, less, target, recency), FactorsOf(record, more, target, recency);
    assert Listed(g) == [Clamp(more)] + Listed(f)[1..];
    AverageOrder(Listed(f), ListedWeights(w), Clamp(more));
    Round4Laws(Clamp(RawScore(f, w)), Clamp(RawScore(g, w)));
  }
}
