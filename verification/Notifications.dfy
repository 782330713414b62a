/** Duplicate cooldown and sliding-window limit over a pruned record of past notifications. */
module Notifications {
  import opened Prelude

  /** Milliseconds, and a count. The shipped values are 2500, 5 and 10000. */
  datatype Limits = Limits(cooldown: int, maxInWindow: int, window: int)

  const SHIPPED_LIMITS := Limits(2500, 5, 10000)

  /** The title as it is shown. */
  function ShownTitle(title: string): string {
    if title == "" then "ZARVIS" else title
  }

  function KeyOf(title: string, body: string): string {
    ShownTitle(title) + "::" + body
  }

  /** A notification without a title counts as one titled ZARVIS. */
  lemma KeyReads(title: string, body: string)
    ensures title != "" ==> KeyOf(title, body) == title + "::" + body
    ensures KeyOf("", body) == KeyOf("ZARVIS", body) == "ZARVIS::" + body
  {
  }

  /** One title, with the separator, begins the other. */
  predicate Leads(title1: string, title2: string) {
    ShownTitle(title1) + "::" <= ShownTitle(title2) + "::"
  }

  /** Different notifications share a key exactly if their titles allow it: under one title never, and under two for
      some pair of bodies exactly if one title, with the separator, begins the other. */
  lemma KeysCollideIff(title1: string, title2: string)
    ensures ShownTitle(title1) == ShownTitle(title2) ==>
              forall body1, body2 :: KeyOf(title1, body1) == KeyOf(title2, body2) ==> body1 == body2
    ensures (exists body1, body2 :: KeyOf(title1, body1) == KeyOf(title2, body2)) <==>
              Leads(title1, title2) || Leads(title2, title1)
  {
    var a, b := ShownTitle(title1) + "::", ShownTitle(title2) + "::";
    forall body1, body2 | KeyOf(title1, body1) == KeyOf(title2, body2)
      ensures (a <= b || b <= a) && (a == b ==> body1 == body2)
    {
      var k := KeyOf(title1, body1);
      assert k == a + body1 == b + body2;
      assert k[..|a|] == a && k[..|b|] == b && k[|a|..] == body1 && k[|b|..] == body2;
      assert |a| <= |b| ==> k[..|b|][..|a|] == a;
      assert |b| <= |a| ==> k[..|a|][..|b|] == b;
    }
    if a <= b {
      assert KeyOf(title1, b[|a|..]) == KeyOf(title2, "");
    } else if b <= a {
      assert KeyOf(title2, a[|b|..]) == KeyOf(title1, "");
    }
  }

  /** Two notifications, one key. */
  lemma KeysCollide()
    ensures KeyOf("a::b", "c") == KeyOf("a", "b::c")
  {
  }

  function Within(window: int, now: int): int -> bool {
    ts => now - ts < window
  }

  // ---------- the pruned record ----------

  datatype Record = Record(recent: map<string, int>, timestamps: seq<int>)

  const EMPTY_RECORD := Record(map[], [])

  function Fresh(recent: map<string, int>, window: int, now: int): map<string, int> {
    map k | k in recent && now - recent[k] <= window :: recent[k]
  }

  /** One call. A recorded time of zero counts as absent, as falsy values do in the source. */
  function Show(l: Limits, r: Record, key: string, now: int): (Record, bool) {
    if key in r.recent && r.recent[key] != 0 && now - r.recent[key] < l.cooldown then (r, false)
    else
      var timestamps := Filter(r.timestamps, Within(l.window, now));
      if |timestamps| >= l.maxInWindow then (r.(timestamps := timestamps), false)
      else (Record(Fresh(r.recent[key := now], l.window, now), timestamps + [now]), true)
  }

  class NotificationManager {
    const limits: Limits
    var recentNotifications: map<string, int>
    var timestamps: seq<int>

    ghost function AsRecord(): Record
      reads this
    {
      Record(recentNotifications, timestamps)
    }

    constructor (limits: Limits)
      ensures this.limits == limits && AsRecord() == EMPTY_RECORD
    {
      this.limits, recentNotifications, timestamps := limits, map[], [];
    }

    method ShowNotification(title: string, body: string, now: int) returns (shown: bool)
      modifies this
      ensures (AsRecord(), shown) == Show(limits, old(AsRecord()), KeyOf(title, body), now)
    {
      var key := KeyOf(title, body);
      if key in recentNotifications {
        var lastTime := recentNotifications[key];
        if lastTime != 0 && now - lastTime < limits.cooldown {
          return false;
        }
      }
      timestamps := Filter(timestamps, Within(limits.window, now));
      if |timestamps| >= limits.maxInWindow {
        return false;
      }
      recentNotifications := recentNotifications[key := now];
      timestamps := timestamps + [now];
      PruneStaleKeys(now);
      shown := true;
    }

    method PruneStaleKeys(now: int)
      modifies this`recentNotifications
      ensures recentNotifications == Fresh(old(recentNotifications), limits.window, now)
    {
      var entries := recentNotifications;
      var todo := entries.Keys;
      while todo != {}
        invariant todo <= entries.Keys
        invariant recentNotifications ==
                    map k | k in entries && (k in todo || now - entries[k] <= limits.window) :: entries[k]
        decreases todo
      {
        var k :| k in todo;
        todo := todo - {k};
        if now - entries[k] > limits.window {
          recentNotifications := recentNotifications - {k};
        }
      }
    }

    method ResetHistory()
      modifies this
      ensures AsRecord() == EMPTY_RECORD
    {
      recentNotifications, timestamps := map[], [];
    }
  }

  // ---------- the full history ----------

  datatype Call = Call(key: string, time: int)

  function Times(history: seq<Call>): seq<int> {
    if history == [] then [] else Times(history[..|history| - 1]) + [history[|history| - 1].time]
  }

  /** When `key` was last accepted, over the whole history. */
  function LastTime(history: seq<Call>, key: string): Option<int> {
    if history == [] then None
    else
      var last := history[|history| - 1];
      if last.key == key then Some(last.time) else LastTime(history[..|history| - 1], key)
  }

  /** What the limiter promises to decide, given everything it ever accepted. */
  function Admits(l: Limits, history: seq<Call>, c: Call): bool {
    var last := LastTime(history, c.key);
    && !(last.Some? && c.time - last.value < l.cooldown)
    && |Filter(Times(history), Within(l.window, c.time))| < l.maxInWindow
  }

  /** A positive clock that never runs backwards, starting no earlier than `from`. */
  ghost predicate Clocked(calls: seq<Call>, from: int) {
    && from >= 0
    && (forall i :: 0 <= i < |calls| ==> calls[i].time > 0 && calls[i].time >= from)
    && (forall i, j :: 0 <= i < j < |calls| ==> calls[i].time <= calls[j].time)
  }

  function Decisions(l: Limits, r: Record, calls: seq<Call>): seq<bool>
    decreases |calls|
  {
    if calls == [] then []
    else
      var (r', shown) := Show(l, r, calls[0].key, calls[0].time);
      [shown] + Decisions(l, r', calls[1..])
  }

  function FullDecisions(l: Limits, history: seq<Call>, calls: seq<Call>): seq<bool>
    decreases |calls|
  {
    if calls == [] then []
    else if Admits(l, history, calls[0]) then [true] + FullDecisions(l, history + [calls[0]], calls[1..])
    else [false] + FullDecisions(l, history, calls[1..])
  }

  /** Everything accepted after a series of calls. */
  function Accepted(l: Limits, history: seq<Call>, calls: seq<Call>): seq<Call>
    decreases |calls|
  {
    if calls == [] then history
    else Accepted(l, Advance(l, history, calls[0]), calls[1..])
  }

  /** The full history after one more call. */
  function Advance(l: Limits, history: seq<Call>, c: Call): seq<Call> {
    if Admits(l, history, c) then history + [c] else history
  }

  // ---------- refinement ----------

  /** Keys are only ever forgotten when something is accepted more than a window after them. */
  ghost predicate KeyKept(l: Limits, r: Record, history: seq<Call>, clock: int, key: string) {
    var last := LastTime(history, key);
    && (last.Some? ==> history != [] && last.value <= clock)
    && if key in r.recent then last == Some(r.recent[key]) && r.recent[key] > 0
       else last.Some? ==> history[|history| - 1].time - last.value > l.window
  }

  /** From `clock` on, both see the same timestamps in the window. */
  ghost predicate WindowKept(l: Limits, r: Record, history: seq<Call>, clock: int) {
    forall now :: now >= clock ==>
      Filter(r.timestamps, Within(l.window, now)) == Filter(Times(history), Within(l.window, now))
  }

  ghost predicate Refines(l: Limits, r: Record, history: seq<Call>, clock: int) {
    && WindowKept(l, r, history, clock)
    && (history != [] ==> history[|history| - 1].time <= clock)
    && forall key :: KeyKept(l, r, history, clock, key)
  }

  lemma FilterAgain(times: seq<int>, window: int, early: int, late: int)
    requires early <= late
    ensures Filter(Filter(times, Within(window, early)), Within(window, late)) == Filter(times, Within(window, late))
  {
    FilterTwice(times, Within(window, early), Within(window, late), Within(window, late));
  }

  lemma HistoryAppend(history: seq<Call>, c: Call)
    ensures Times(history + [c]) == Times(history) + [c.time]
    ensures forall key :: LastTime(history + [c], key) == if key == c.key then Some(c.time) else LastTime(history, key)
  {
    assert (history + [c])[..|history|] == history;
  }

  /** How long a cooldown the pruned record can keep: the key that is forgotten when another is accepted comes back
      at once, or with room for one only after one more window. */
  function Patience(l: Limits): int {
    if l.window < 0 then 0 else if l.maxInWindow == 1 then 2 * l.window + 1 else l.window + 1
  }

  predicate Patient(l: Limits) {
    l.maxInWindow <= 0 || l.cooldown <= Patience(l)
  }

  /** With room for one, whatever is admitted comes a whole window after the last accepted call. */
  lemma LastIsOutside(l: Limits, history: seq<Call>, now: int)
    requires history != [] && |Filter(Times(history), Within(l.window, now))| < 1
    ensures now - history[|history| - 1].time >= l.window
  {
    var last := history[|history| - 1].time;
    assert Times(history)[|Times(history)| - 1] == last;
    FilterMember(Times(history), Within(l.window, now), last);
  }

  lemma SameDecision(l: Limits, r: Record, history: seq<Call>, clock: int, c: Call)
    requires Patient(l) && Refines(l, r, history, clock) && clock <= c.time
    ensures Show(l, r, c.key, c.time).1 == Admits(l, history, c)
  {
    assert KeyKept(l, r, history, clock, c.key);
    if l.maxInWindow == 1 && history != [] && |Filter(Times(history), Within(l.window, c.time))| < 1 {
      LastIsOutside(l, history, c.time);
    }
  }

  lemma WindowStepAt(l: Limits, r: Record, history: seq<Call>, clock: int, c: Call, now: int)
    requires WindowKept(l, r, history, clock) && clock <= c.time <= now
    ensures var kept := Filter(r.timestamps, Within(l.window, c.time));
            && Filter(kept, Within(l.window, now)) == Filter(Times(history), Within(l.window, now))
            && Filter(kept + [c.time], Within(l.window, now)) ==
               Filter(Times(history) + [c.time], Within(l.window, now))
  {
    var kept := Filter(r.timestamps, Within(l.window, c.time));
    FilterAgain(r.timestamps, l.window, c.time, now);
    FilterConcat(kept, [c.time], Within(l.window, now));
    FilterConcat(Times(history), [c.time], Within(l.window, now));
  }

  /** The timestamps after a call, in terms of those before it. */
  lemma StampsAfter(l: Limits, r: Record, c: Call)
    ensures var (r', shown) := Show(l, r, c.key, c.time);
            var kept := Filter(r.timestamps, Within(l.window, c.time));
            r'.timestamps == (if shown then kept + [c.time] else kept) || (r' == r && !shown)
  {
  }

  lemma WindowStepTo(l: Limits, r: Record, history: seq<Call>, clock: int, c: Call, now: int)
    requires WindowKept(l, r, history, clock) && clock <= c.time <= now
    ensures var (r', shown) := Show(l, r, c.key, c.time);
            Filter(r'.timestamps, Within(l.window, now)) ==
            Filter(Times(if shown then history + [c] else history), Within(l.window, now))
  {
    HistoryAppend(history, c);
    StampsAfter(l, r, c);
    WindowStepAt(l, r, history, clock, c, now);
  }

  lemma WindowStep(l: Limits, r: Record, history: seq<Call>, clock: int, c: Call)
    requires WindowKept(l, r, history, clock) && clock <= c.time
    ensures var (r', shown) := Show(l, r, c.key, c.time);
            WindowKept(l, r', if shown then history + [c] else history, c.time)
  {
    forall now | now >= c.time
      ensures var (r', shown) := Show(l, r, c.key, c.time);
              Filter(r'.timestamps, Within(l.window, now)) ==
              Filter(Times(if shown then history + [c] else history), Within(l.window, now))
    {
      WindowStepTo(l, r, history, clock, c, now);
    }
  }

  lemma KeysStep(l: Limits, r: Record, history: seq<Call>, clock: int, c: Call, key: string)
    requires KeyKept(l, r, history, clock, key) && clock <= c.time && c.time > 0
    requires history != [] ==> history[|history| - 1].time <= clock
    ensures var (r', shown) := Show(l, r, c.key, c.time);
            KeyKept(l, r', if shown then history + [c] else history, c.time, key)
  {
    HistoryAppend(history, c);
  }

  lemma RefinesStep(l: Limits, r: Record, history: seq<Call>, clock: int, c: Call)
    requires Refines(l, r, history, clock) && clock <= c.time && c.time > 0
    ensures var (r', shown) := Show(l, r, c.key, c.time);
            Refines(l, r', if shown then history + [c] else history, c.time)
  {
    WindowStep(l, r, history, clock, c);
    var (r', shown) := Show(l, r, c.key, c.time);
    var history' := if shown then history + [c] else history;
    forall key
      ensures KeyKept(l, r', history', c.time, key)
    {
      assert KeyKept(l, r, history, clock, key);
      KeysStep(l, r, history, clock, c, key);
    }
  }

  lemma {:induction false} SameDecisionsFrom(l: Limits, r: Record, history: seq<Call>, clock: int, calls: seq<Call>)
    requires Patient(l) && Refines(l, r, history, clock) && Clocked(calls, clock)
    ensures Decisions(l, r, calls) == FullDecisions(l, history, calls)
    decreases |calls|
  {
    if calls != [] {
      var c := calls[0];
      var (r', shown) := Show(l, r, c.key, c.time);
      SameDecision(l, r, history, clock, c);
      RefinesStep(l, r, history, clock, c);
      SameDecisionsFrom(l, r', if shown then history + [c] else history, c.time, calls[1..]);
    }
  }

  /** Pruning never changes a decision, over any series of calls, when the record can keep the cooldown. */
  lemma PruningIsExact(l: Limits, calls: seq<Call>)
    requires Patient(l) && Clocked(calls, 0)
    ensures Decisions(l, EMPTY_RECORD, calls) == FullDecisions(l, [], calls)
  {
    SameDecisionsFrom(l, EMPTY_RECORD, [], 0, calls);
  }

  /** The limits the desktop ships with qualify. */
  lemma ShippedLimitsAreExact(calls: seq<Call>)
    requires Clocked(calls, 0)
    ensures Decisions(SHIPPED_LIMITS, EMPTY_RECORD, calls) == FullDecisions(SHIPPED_LIMITS, [], calls)
  {
    PruningIsExact(SHIPPED_LIMITS, calls);
  }

  /** When the key of the first call is let in again. */
  function Comeback(l: Limits): int {
    if l.window < 0 then 1 else 1 + Patience(l)
  }

  /** Two keys, and then the first again. */
  function Forgetting(l: Limits): seq<Call> {
    if l.window < 0 then [Call("a", 1), Call("a", 1)]
    else [Call("a", 1), Call("b", l.window + 2), Call("a", Comeback(l))]
  }

  lemma ForgettingIsClocked(l: Limits)
    ensures Clocked(Forgetting(l), 0)
  {
  }

  lemma EmptyWindow(window: int, now: int, time: int)
    requires now - time >= window
    ensures Filter([time], Within(window, now)) == []
  {
    assert [time][1..] == [];
  }

  lemma OneInWindow(window: int, now: int, time: int)
    ensures |Filter([time], Within(window, now))| <= 1
  {
    assert [time][1..] == [];
  }

  lemma PrunedLetsIn(l: Limits)
    requires l.maxInWindow >= 1 && l.cooldown > Patience(l)
    ensures var d := Decisions(l, EMPTY_RECORD, Forgetting(l)); d != [] && d[|d| - 1]
  {
    var a := Call("a", 1);
    var (r1, s1) := Show(l, EMPTY_RECORD, a.key, a.time);
    var calls := Forgetting(l);
    if l.window < 0 {
      assert s1 && r1 == Record(map[], [1]);
      EmptyWindow(l.window, 1, 1);
      assert calls[1..] == [a] && [a][1..] == [];
      assert Show(l, r1, a.key, a.time).1;
      assert Decisions(l, r1, [a]) == [true];
      assert Decisions(l, EMPTY_RECORD, calls) == [true] + Decisions(l, r1, [a]);
    } else {
      var b, a2 := Call("b", l.window + 2), Call("a", Comeback(l));
      assert s1 && r1 == Record(map["a" := 1], [1]);
      EmptyWindow(l.window, b.time, 1);
      var (r2, s2) := Show(l, r1, b.key, b.time);
      assert s2 && "a" !in r2.recent && r2.timestamps == [b.time];
      if l.maxInWindow == 1 {
        EmptyWindow(l.window, a2.time, b.time);
      } else {
        OneInWindow(l.window, a2.time, b.time);
      }
      assert Show(l, r2, a2.key, a2.time).1;
      LastOfThree(l, a, b, a2, r1, r2);
    }
  }

  lemma LastOfThree(l: Limits, a: Call, b: Call, a2: Call, r1: Record, r2: Record)
    requires r1 == Show(l, EMPTY_RECORD, a.key, a.time).0 && r2 == Show(l, r1, b.key, b.time).0
    ensures var d := Decisions(l, EMPTY_RECORD, [a, b, a2]);
            |d| == 3 && d[2] == Show(l, r2, a2.key, a2.time).1
  {
    assert [a, b, a2][1..] == [b, a2] && [b, a2][1..] == [a2] && [a2][1..] == [];
    assert |Decisions(l, r2, [a2])| == 1 && Decisions(l, r2, [a2])[0] == Show(l, r2, a2.key, a2.time).1;
    assert Decisions(l, r1, [b, a2]) == [Show(l, r1, b.key, b.time).1] + Decisions(l, r2, [a2]);
    assert Decisions(l, EMPTY_RECORD, [a, b, a2]) ==
             [Show(l, EMPTY_RECORD, a.key, a.time).1] + Decisions(l, r1, [b, a2]);
  }

  lemma FullKeepsOut(l: Limits)
    requires l.maxInWindow >= 1 && l.cooldown > Patience(l)
    ensures var d := FullDecisions(l, [], Forgetting(l)); d != [] && !d[|d| - 1]
  {
    var a := Call("a", 1);
    var calls := Forgetting(l);
    HistoryAppend([], a);
    assert [] + [a] == [a] && Times([]) == [] && Times([a]) == [1];
    assert Admits(l, [], a);
    if l.window < 0 {
      assert LastTime([a], "a") == Some(1);
      assert !Admits(l, [a], a);
      assert calls[1..] == [a] && [a][1..] == [];
      assert FullDecisions(l, [a], [a]) == [false];
      assert FullDecisions(l, [], calls) == [true] + FullDecisions(l, [a], [a]);
    } else {
      var b, a2 := Call("b", l.window + 2), Call("a", Comeback(l));
      HistoryAppend([a], b);
      assert [a] + [b] == [a, b];
      EmptyWindow(l.window, b.time, 1);
      assert Admits(l, [a], b);
      assert LastTime([a, b], "a") == Some(1);
      assert !Admits(l, [a, b], a2);
      assert calls[1..] == [b, a2] && [b, a2][1..] == [a2] && [a2][1..] == [];
      assert FullDecisions(l, [a, b], [a2]) == [false];
      assert FullDecisions(l, [a], [b, a2]) == [true] + FullDecisions(l, [a, b], [a2]);
      assert FullDecisions(l, [], calls) == [true] + FullDecisions(l, [a], [b, a2]);
    }
  }

  /** For all limits, pruning is exact on every series of calls if and only if nothing is ever admitted or the record
      can keep the cooldown. */
  lemma PruningExactIff(l: Limits)
    ensures (forall calls :: Clocked(calls, 0) ==> Decisions(l, EMPTY_RECORD, calls) == FullDecisions(l, [], calls))
       <==> Patient(l)
  {
    if Patient(l) {
      forall calls | Clocked(calls, 0)
        ensures Decisions(l, EMPTY_RECORD, calls) == FullDecisions(l, [], calls)
      {
        PruningIsExact(l, calls);
      }
    } else {
      ForgettingIsClocked(l);
      PrunedLetsIn(l);
      FullKeepsOut(l);
    }
  }

  // ---------- what the limits guarantee ----------

  /** Accepted calls at times in `[x, x + window)`. */
  function CountIn(history: seq<Call>, x: int, window: int): nat {
    if history == [] then 0
    else
      var t := history[|history| - 1].time;
      CountIn(history[..|history| - 1], x, window) + if x <= t < x + window then 1 else 0
  }

  ghost predicate Spaced(l: Limits, history: seq<Call>) {
    forall i, j :: 0 <= i < j < |history| && history[i].key == history[j].key ==>
      history[j].time - history[i].time >= l.cooldown
  }

  ghost predicate Ordered(history: seq<Call>, clock: int) {
    && (forall i, j :: 0 <= i < j < |history| ==> history[i].time <= history[j].time)
    && (forall i :: 0 <= i < |history| ==> history[i].time <= clock)
  }

  ghost predicate Guaranteed(l: Limits, history: seq<Call>, clock: int) {
    && Ordered(history, clock) && Spaced(l, history)
    && forall x :: CountIn(history, x, l.window) <= Max(0, l.maxInWindow)
  }

  /** An interval that contains `now` sees no more of the past than the window ending at `now`. */
  lemma {:induction false} IntervalInsideWindow(history: seq<Call>, x: int, window: int, now: int)
    requires x <= now < x + window
    ensures CountIn(history, x, window) <= |Filter(Times(history), Within(window, now))|
  {
    if history != [] {
      var n := |history| - 1;
      IntervalInsideWindow(history[..n], x, window, now);
      FilterConcat(Times(history[..n]), [history[n].time], Within(window, now));
    }
  }

  lemma {:induction false} LastIsLatest(history: seq<Call>, clock: int, key: string, i: nat)
    requires Ordered(history, clock) && i < |history| && history[i].key == key
    ensures LastTime(history, key).Some? && history[i].time <= LastTime(history, key).value
  {
    var n := |history| - 1;
    if history[n].key != key {
      LastIsLatest(history[..n], clock, key, i);
    }
  }

  lemma AdmitKeepsGuarantee(l: Limits, history: seq<Call>, clock: int, c: Call)
    requires Guaranteed(l, history, clock) && clock <= c.time && Admits(l, history, c)
    ensures Guaranteed(l, history + [c], c.time)
  {
    var history' := history + [c];
    assert history'[..|history|] == history;
    forall x
      ensures CountIn(history', x, l.window) <= Max(0, l.maxInWindow)
    {
      if x <= c.time < x + l.window {
        IntervalInsideWindow(history, x, l.window, c.time);
      }
    }
    forall i | 0 <= i < |history| && history[i].key == c.key
      ensures c.time - history[i].time >= l.cooldown
    {
      LastIsLatest(history, clock, c.key, i);
    }
  }

  lemma GuaranteeStep(l: Limits, history: seq<Call>, clock: int, c: Call)
    requires Guaranteed(l, history, clock) && clock <= c.time
    ensures Guaranteed(l, Advance(l, history, c), c.time)
  {
    if Admits(l, history, c) {
      AdmitKeepsGuarantee(l, history, clock, c);
    }
  }

  function Latest(calls: seq<Call>, clock: int): int {
    if calls == [] then clock else calls[|calls| - 1].time
  }

  lemma {:induction false} GuaranteeFrom(l: Limits, history: seq<Call>, clock: int, calls: seq<Call>)
    requires Guaranteed(l, history, clock) && Clocked(calls, Max(0, clock))
    ensures Guaranteed(l, Accepted(l, history, calls), Latest(calls, clock))
    decreases |calls|
  {
    if calls != [] {
      var c := calls[0];
      GuaranteeStep(l, history, clock, c);
      GuaranteeFrom(l, Advance(l, history, c), c.time, calls[1..]);
    }
  }

  /** No half-open interval of one window's length holds more than the maximum, and equal keys keep their distance. */
  lemma LimitsHold(l: Limits, calls: seq<Call>)
    requires Clocked(calls, 0)
    ensures Spaced(l, Accepted(l, [], calls))
    ensures forall x :: CountIn(Accepted(l, [], calls), x, l.window) <= Max(0, l.maxInWindow)
  {
    GuaranteeFrom(l, [], 0, calls);
  }

  /** The calls answered with `true`. */
  function Shown(calls: seq<Call>, decisions: seq<bool>): seq<Call>
    requires |calls| == |decisions|
  {
    if calls == [] then []
    else (if decisions[0] then [calls[0]] else []) + Shown(calls[1..], decisions[1..])
  }

  lemma {:induction false} ShownIsAccepted(l: Limits, history: seq<Call>, calls: seq<Call>)
    ensures |FullDecisions(l, history, calls)| == |calls|
    ensures history + Shown(calls, FullDecisions(l, history, calls)) == Accepted(l, history, calls)
    decreases |calls|
  {
    if calls == [] {
      assert history + [] == history;
    } else {
      var c, rest := calls[0], calls[1..];
      var ds := FullDecisions(l, history, calls);
      if Admits(l, history, c) {
        ShownIsAccepted(l, history + [c], rest);
        assert ds[1..] == FullDecisions(l, history + [c], rest);
        ConcatAssociative(history, [c], Shown(rest, ds[1..]));
      } else {
        ShownIsAccepted(l, history, rest);
        assert ds[1..] == FullDecisions(l, history, rest);
        assert Shown(calls, ds) == Shown(rest, ds[1..]);
      }
    }
  }

  /** The guarantee, for the calls the pruned limiter itself answers with `true`. */
  lemma ShownNotificationsAreLimited(l: Limits, calls: seq<Call>)
    requires Patient(l) && Clocked(calls, 0)
    ensures |Decisions(l, EMPTY_RECORD, calls)| == |calls|
    ensures var shown := Shown(calls, Decisions(l, EMPTY_RECORD, calls));
            Spaced(l, shown) && forall x :: CountIn(shown, x, l.window) <= Max(0, l.maxInWindow)
  {
    PruningIsExact(l, calls);
    ShownIsAccepted(l, [], calls);
    var shown := Shown(calls, FullDecisions(l, [], calls));
    assert [] + shown == shown;
    LimitsHold(l, calls);
  }
}
