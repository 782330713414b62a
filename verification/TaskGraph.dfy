/** Dependency graphs of execution plans, and what it means for waves to layer them. */
module TaskGraph {
  import opened Prelude

  /** Maps a task id to the ids it depends on; an id may be listed more than once. */
  type Graph = map<string, seq<string>>

  ghost predicate Closed(g: Graph) {
    forall t, d :: t in g && d in g[t] ==> d in g
  }

  ghost predicate Edge(g: Graph, p: seq<string>, i: nat)
    requires i + 1 < |p|
  {
    p[i] in g && p[i + 1] in g[p[i]]
  }

  /** A walk along dependency edges: every element depends on the next one. */
  ghost predicate IsPath(g: Graph, p: seq<string>) {
    && |p| >= 1
    && p[0] in g
    && forall i :: 0 <= i < |p| - 1 ==> Edge(g, p, i)
  }

  /** `a` depends on `b`, directly or through other tasks. */
  ghost predicate Reaches(g: Graph, a: string, b: string) {
    exists p :: IsPath(g, p) && |p| >= 2 && p[0] == a && p[|p| - 1] == b
  }

  ghost predicate OnCycle(g: Graph, t: string) {
    Reaches(g, t, t)
  }

  ghost predicate Acyclic(g: Graph) {
    forall t :: t in g ==> !OnCycle(g, t)
  }

  /** `t` lies on a cycle or transitively depends on one. */
  ghost predicate Stuck(g: Graph, t: string) {
    OnCycle(g, t) || exists c :: Reaches(g, t, c) && OnCycle(g, c)
  }

  /** A task above level 0 directly depends on one exactly one level below it. */
  ghost predicate RestsOnPrevious(g: Graph, level: map<string, nat>, t: string)
    requires t in level && t in g
  {
    level[t] > 0 ==> exists d :: d in g[t] && d in level && level[d] == level[t] - 1
  }

  /** `level` is downward closed, and gives each task one more than the largest level it depends on. */
  ghost predicate Longest(g: Graph, level: map<string, nat>) {
    && level.Keys <= g.Keys
    && (forall t, d :: t in level && d in g[t] ==> d in level && level[d] < level[t])
    && (forall t {:trigger RestsOnPrevious(g, level, t)} :: t in level ==> RestsOnPrevious(g, level, t))
  }

  /** `wave` lists, once each, the tasks of level `i`. */
  ghost predicate ListsLevel(wave: seq<string>, level: map<string, nat>, i: nat) {
    Distinct(wave) && forall t :: t in wave <==> t in level && level[t] == i
  }

  /** The waves partition the tasks of `level`: wave `i` lists, once each, the tasks of level `i`. */
  ghost predicate Layered(g: Graph, waves: seq<seq<string>>, level: map<string, nat>) {
    && Longest(g, level)
    && (forall t :: t in level ==> level[t] < |waves|)
    && (forall i {:trigger ListsLevel(waves[i], level, i)} :: 0 <= i < |waves| ==>
          ListsLevel(waves[i], level, i))
    && (forall i :: 0 <= i < |waves| ==> waves[i] != [])
  }

  lemma SuffixIsPath(g: Graph, p: seq<string>, k: nat)
    requires Closed(g) && IsPath(g, p) && k < |p|
    ensures IsPath(g, p[k..])
  {
    var q := p[k..];
    forall i | 0 <= i < |q| - 1
      ensures Edge(g, q, i)
    {
      assert Edge(g, p, k + i);
    }
    if k > 0 {
      assert Edge(g, p, k - 1);
    }
  }

  lemma PrefixIsPath(g: Graph, p: seq<string>, k: nat)
    requires IsPath(g, p) && 0 < k <= |p|
    ensures IsPath(g, p[..k])
  {
    forall i | 0 <= i < k - 1
      ensures Edge(g, p[..k], i)
    {
      assert Edge(g, p, i);
    }
  }

  lemma JoinIsPath(g: Graph, p: seq<string>, q: seq<string>)
    requires IsPath(g, p) && IsPath(g, q)
    requires p[|p| - 1] in g && q[0] in g[p[|p| - 1]]
    ensures IsPath(g, p + q)
  {
    var r := p + q;
    forall i | 0 <= i < |r| - 1
      ensures Edge(g, r, i)
    {
      if i < |p| - 1 {
        assert Edge(g, p, i);
      } else if i >= |p| {
        assert Edge(g, q, i - |p|);
      }
    }
  }

  /** Walking along dependencies loses at least one level a step and never leaves the levelled tasks. */
  lemma {:induction false} PathDescends(g: Graph, level: map<string, nat>, p: seq<string>)
    requires Closed(g) && Longest(g, level) && IsPath(g, p) && p[0] in level
    ensures p[|p| - 1] in level && level[p[|p| - 1]] + |p| - 1 <= level[p[0]]
    decreases |p|
  {
    if |p| > 1 {
      assert Edge(g, p, 0);
      var q := p[1..];
      SuffixIsPath(g, p, 1);
      PathDescends(g, level, q);
    }
  }

  lemma LevelledIsOffCycles(g: Graph, level: map<string, nat>, t: string)
    requires Closed(g) && Longest(g, level) && t in level
    ensures !OnCycle(g, t)
  {
    if OnCycle(g, t) {
      var p :| IsPath(g, p) && |p| >= 2 && p[0] == t && p[|p| - 1] == t;
      PathDescends(g, level, p);
    }
  }

  /** A levelled task neither lies on a cycle nor depends on one. */
  lemma LevelledIsNotStuck(g: Graph, level: map<string, nat>, t: string)
    requires Closed(g) && Longest(g, level) && t in level
    ensures !Stuck(g, t)
  {
    LevelledIsOffCycles(g, level, t);
    forall c | Reaches(g, t, c)
      ensures !OnCycle(g, c)
    {
      var p :| IsPath(g, p) && |p| >= 2 && p[0] == t && p[|p| - 1] == c;
      PathDescends(g, level, p);
      LevelledIsOffCycles(g, level, c);
    }
  }

  ghost predicate WaitsFor(g: Graph, blocked: set<string>, t: string)
    requires t in g
  {
    exists d :: d in g[t] && d in blocked
  }

  /** When each blocked task waits for a blocked task, following those edges must close a cycle. */
  lemma {:induction false} BlockedIsStuck(g: Graph, blocked: set<string>, unseen: set<string>, p: seq<string>)
    requires Closed(g) && blocked <= g.Keys
    requires forall t {:trigger WaitsFor(g, blocked, t)} :: t in blocked ==> WaitsFor(g, blocked, t)
    requires IsPath(g, p) && (forall i :: 0 <= i < |p| ==> p[i] in blocked)
    requires forall t :: t in blocked ==> t in unseen || t in p
    ensures Stuck(g, p[0])
    decreases unseen
  {
    var last := p[|p| - 1];
    assert WaitsFor(g, blocked, last);
    var d :| d in g[last] && d in blocked;
    var q := p + [d];
    JoinIsPath(g, p, [d]);
    if d in p {
      var i :| 0 <= i < |p| && p[i] == d;
      var loop := q[i..];
      SuffixIsPath(g, q, i);
      assert loop[0] == d && loop[|loop| - 1] == d;
      assert OnCycle(g, d);
      if i > 0 {
        var stem := p[..i + 1];
        PrefixIsPath(g, p, i + 1);
        assert stem[0] == p[0] && stem[|stem| - 1] == d;
        assert Reaches(g, p[0], d);
      }
    } else {
      BlockedIsStuck(g, blocked, unseen - {d}, q);
    }
  }

  /** A wave index is the length of a longest dependency chain below the task. */
  lemma {:induction false} LevelIsLongestChain(g: Graph, level: map<string, nat>, t: string)
    requires Closed(g) && Longest(g, level) && t in level
    ensures exists p :: IsPath(g, p) && p[0] == t && |p| == level[t] + 1
    ensures forall p :: IsPath(g, p) && p[0] == t ==> |p| <= level[t] + 1
    decreases level[t]
  {
    forall p | IsPath(g, p) && p[0] == t
      ensures |p| <= level[t] + 1
    {
      PathDescends(g, level, p);
    }
    if level[t] == 0 {
      assert IsPath(g, [t]);
    } else {
      assert RestsOnPrevious(g, level, t);
      var d :| d in g[t] && d in level && level[d] == level[t] - 1;
      LevelIsLongestChain(g, level, d);
      var q :| IsPath(g, q) && q[0] == d && |q| == level[d] + 1;
      JoinIsPath(g, [t], q);
      var p := [t] + q;
      assert IsPath(g, p) && p[0] == t && |p| == level[t] + 1;
    }
  }

  /** Any numbering that puts dependencies strictly first dominates the levels pointwise. */
  lemma {:induction false} LevelIsMinimal(g: Graph, level: map<string, nat>, f: map<string, nat>, t: string)
    requires Longest(g, level) && t in level && level.Keys <= f.Keys
    requires forall a, d :: a in level && d in g[a] ==> f[d] < f[a]
    ensures level[t] <= f[t]
    decreases level[t]
  {
    if level[t] > 0 {
      assert RestsOnPrevious(g, level, t);
      var d :| d in g[t] && d in level && level[d] == level[t] - 1;
      LevelIsMinimal(g, level, f, d);
    }
  }

  /** No schedule that respects the dependencies fits into fewer waves. */
  lemma NoFewerWaves(g: Graph, waves: seq<seq<string>>, level: map<string, nat>, f: map<string, nat>, bound: nat)
    requires Layered(g, waves, level) && level.Keys <= f.Keys
    requires forall a, d :: a in level && d in g[a] ==> f[d] < f[a]
    requires forall a :: a in level ==> f[a] < bound
    ensures |waves| <= bound
  {
    if |waves| > 0 {
      var top := |waves| - 1;
      assert ListsLevel(waves[top], level, top);
      var t := waves[top][0];
      assert t in waves[top];

      LevelIsMinimal(g, level, f, t);
    }
  }
}
