/** The sliding window of recent messages: storage, eviction, overflow summary, snapshots. */
module WorkingMemories {
  import opened Prelude

  datatype Message = Message(
    id: string,
    role: string,
    content: string,
    tokens: nat,
    expiresAt: Option<int>,
    priority: int)

  /** About four characters a token, rounded up. */
  function EstimateTokens(text: string): (n: nat)
    ensures 4 * (n - 1) < |text| <= 4 * n
  {
    if text == "" then 0 else Max(1, (|text| + 3) / 4)
  }

  function Tokens(ms: seq<Message>): nat {
    if ms == [] then 0 else ms[0].tokens + Tokens(ms[1..])
  }

  predicate Expired(m: Message, now: int) {
    m.expiresAt.Some? && now >= m.expiresAt.value
  }

  function LiveAt(now: int): Message -> bool {
    (m: Message) => !Expired(m, now)
  }

  function ExpiredAt(now: int): Message -> bool {
    (m: Message) => Expired(m, now)
  }

  function Live(ms: seq<Message>, now: int): seq<Message> {
    Filter(ms, LiveAt(now))
  }

  function OtherThan(id: string): Message -> bool {
    (m: Message) => m.id != id
  }

  /** A message as the buffer stores it. */
  function Stored(m: Message): Message {
    if m.tokens == 0 then m.(tokens := EstimateTokens(m.content)) else m
  }

  /** A message keeps its own token count, or gets the estimate of its content; nothing else about it changes. */
  lemma StoredLaw(m: Message)
    ensures Stored(m) == m.(tokens := Stored(m).tokens)
    ensures m.tokens > 0 ==> Stored(m).tokens == m.tokens
    ensures m.tokens == 0 ==> 4 * (Stored(m).tokens - 1) < |m.content| <= 4 * Stored(m).tokens
    ensures Stored(Stored(m)) == Stored(m)
  {
  }

  /** A message lives until its expiry, and is gone from that instant on. */
  lemma LiveMember(ms: seq<Message>, now: int, m: Message)
    ensures m in Live(ms, now) <==> m in ms && (m.expiresAt.None? || now < m.expiresAt.value)
  {
    FilterMember(ms, LiveAt(now), m);
  }

  function StoredAll(ms: seq<Message>): (r: seq<Message>)
    ensures |r| == |ms| && forall i :: 0 <= i < |ms| ==> r[i] == Stored(ms[i])
  {
    seq(|ms|, i requires 0 <= i < |ms| => Stored(ms[i]))
  }

  ghost predicate DistinctIds(ms: seq<Message>) {
    forall i, j :: 0 <= i < j < |ms| ==> ms[i].id != ms[j].id
  }

  /** Exactly the messages with the id are missing; with distinct ids that is at most one. */
  lemma {:induction false} OthersCount(ms: seq<Message>, id: string)
    ensures |Filter(ms, OtherThan(id))| <= |ms|
    ensures |Filter(ms, OtherThan(id))| < |ms| <==> exists m :: m in ms && m.id == id
    ensures DistinctIds(ms) ==> |Filter(ms, OtherThan(id))| >= |ms| - 1
  {
    if ms != [] {
      assert ms == [ms[0]] + ms[1..];
      OthersCount(ms[1..], id);
      if ms[0].id == id && DistinctIds(ms) {
        OthersOnly(ms[1..], id);
      }
    }
  }

  lemma OthersOnly(ms: seq<Message>, id: string)
    requires forall m :: m in ms ==> m.id != id
    ensures Filter(ms, OtherThan(id)) == ms
  {
    FilterAll(ms, OtherThan(id));
  }

  class WorkingBuffer {
    var messages: seq<Message>

    constructor ()
      ensures messages == []
    {
      messages := [];
    }

    method Append(m: Message)
      modifies this
      ensures messages == old(messages) + [Stored(m)]
    {
      var kept := m;
      if kept.tokens <= 0 {
        kept := kept.(tokens := EstimateTokens(kept.content));
      }
      messages := messages + [kept];
    }

    /** Splits off the expired messages, keeping the order on both sides. */
    method RemoveExpired(now: int) returns (removed: seq<Message>)
      modifies this
      ensures messages == Live(old(messages), now)
      ensures removed == Filter(old(messages), ExpiredAt(now))
    {
      var valid := [];
      removed := [];
      for i := 0 to |messages|
        invariant messages == old(messages)
        invariant valid == Filter(messages[..i], LiveAt(now))
        invariant removed == Filter(messages[..i], ExpiredAt(now))
      {
        assert messages[..i + 1] == messages[..i] + [messages[i]];
        FilterConcat(messages[..i], [messages[i]], LiveAt(now));
        FilterConcat(messages[..i], [messages[i]], ExpiredAt(now));
        if Expired(messages[i], now) {
          removed := removed + [messages[i]];
        } else {
          valid := valid + [messages[i]];
        }
      }
      assert messages[..|messages|] == messages;
      messages := valid;
    }

    /** Takes the message with the id out, if there is one, and says so. */
    method RemoveById(id: string) returns (removed: bool)
      modifies this
      ensures messages == Filter(old(messages), OtherThan(id))
      ensures removed <==> exists m :: m in old(messages) && m.id == id
      ensures DistinctIds(old(messages)) ==> |messages| == |old(messages)| - if removed then 1 else 0
    {
      var kept := Filter(messages, OtherThan(id));
      OthersCount(messages, id);
      removed := |kept| < |messages|;
      messages := kept;
    }

    method Clear()
      modifies this
      ensures messages == []
    {
      messages := [];
    }
  }

  // ---------- eviction ----------

  /** Pydantic bounds every field: at least one message, ten tokens and a hundred summary characters. */
  datatype Config = Config(maxMessages: nat, maxTokens: nat, maxSummaryLength: nat, priorityThreshold: int)

  ghost predicate ValidConfig(c: Config) {
    c.maxMessages >= 1 && c.maxTokens >= 10 && c.maxSummaryLength >= 100
  }

  predicate Fits(c: Config, ms: seq<Message>) {
    |ms| <= c.maxMessages && Tokens(ms) <= c.maxTokens
  }

  function Below(threshold: int): Message -> bool {
    (m: Message) => m.priority < threshold
  }

  function AtLeast(threshold: int): Message -> bool {
    (m: Message) => m.priority >= threshold
  }

  /** Below-threshold messages oldest first, then the rest oldest first. */
  function EvictionOrder(ms: seq<Message>, threshold: int): seq<Message> {
    Filter(ms, Below(threshold)) + Filter(ms, AtLeast(threshold))
  }

  function Outside(victims: seq<Message>): Message -> bool {
    (m: Message) => m !in victims
  }

  /** What is left, in arrival order, after evicting the first `k` of the eviction order. */
  function Survivors(ms: seq<Message>, threshold: int, k: nat): seq<Message>
    requires k <= |EvictionOrder(ms, threshold)|
  {
    Filter(ms, Outside(EvictionOrder(ms, threshold)[..k]))
  }

  /** The least number, from `k` on, of evictions after which both bounds hold. */
  function Evictions(c: Config, ms: seq<Message>, k: nat): (n: nat)
    requires k <= |EvictionOrder(ms, c.priorityThreshold)|
    ensures k <= n <= |EvictionOrder(ms, c.priorityThreshold)|
    decreases |EvictionOrder(ms, c.priorityThreshold)| - k
  {
    if k == |EvictionOrder(ms, c.priorityThreshold)| || Fits(c, Survivors(ms, c.priorityThreshold, k)) then k
    else Evictions(c, ms, k + 1)
  }

  lemma {:induction false} EvictionsIsLeast(c: Config, ms: seq<Message>, k: nat)
    requires k <= |EvictionOrder(ms, c.priorityThreshold)|
    ensures var n := Evictions(c, ms, k);
            && (forall j :: k <= j < n ==> !Fits(c, Survivors(ms, c.priorityThreshold, j)))
            && (n < |EvictionOrder(ms, c.priorityThreshold)| ==> Fits(c, Survivors(ms, c.priorityThreshold, n)))
    decreases |EvictionOrder(ms, c.priorityThreshold)| - k
  {
    if k < |EvictionOrder(ms, c.priorityThreshold)| && !Fits(c, Survivors(ms, c.priorityThreshold, k)) {
      EvictionsIsLeast(c, ms, k + 1);
    }
  }

  lemma {:induction false} OrderIsPermutation(ms: seq<Message>, threshold: int)
    ensures |EvictionOrder(ms, threshold)| == |ms|
    ensures forall m :: m in EvictionOrder(ms, threshold) <==> m in ms
  {
    if ms != [] {
      assert ms == [ms[0]] + ms[1..];
      OrderIsPermutation(ms[1..], threshold);
      forall m
        ensures m in EvictionOrder(ms, threshold) <==> m in ms
      {
        FilterMember(ms, Below(threshold), m);
        FilterMember(ms, AtLeast(threshold), m);
      }
    }
  }

  lemma {:induction false} DropHead(ms: seq<Message>)
    requires ms != [] && DistinctIds(ms)
    ensures Filter(ms, OtherThan(ms[0].id)) == ms[1..]
  {
    assert forall m :: m in ms[1..] ==> m.id != ms[0].id;
    FilterAll(ms[1..], OtherThan(ms[0].id));
  }

  lemma {:induction false} FilterKeepsDistinctIds(ms: seq<Message>, p: Message -> bool)
    requires DistinctIds(ms)
    ensures DistinctIds(Filter(ms, p))
  {
    if ms != [] {
      FilterKeepsDistinctIds(ms[1..], p);
      var rest := Filter(ms[1..], p);
      forall i | 0 <= i < |rest|
        ensures rest[i].id != ms[0].id
      {
        FilterMember(ms[1..], p, rest[i]);
      }
      assert Filter(ms, p) == (if p(ms[0]) then [ms[0]] else []) + rest;
    }
  }

  function BothOf(p: Message -> bool, q: Message -> bool): Message -> bool {
    (m: Message) => p(m) && q(m)
  }

  lemma FiltersCommute(ms: seq<Message>, p: Message -> bool, q: Message -> bool)
    ensures Filter(Filter(ms, p), q) == Filter(Filter(ms, q), p)
  {
    FilterTwice(ms, p, q, BothOf(p, q));
    FilterTwice(ms, q, p, BothOf(p, q));
  }

  lemma NoneElsewhere(ms: seq<Message>, threshold: int)
    requires DistinctIds(ms) && Filter(ms, Below(threshold)) != []
    ensures var id := Filter(ms, Below(threshold))[0].id;
            Filter(Filter(ms, AtLeast(threshold)), OtherThan(id)) == Filter(ms, AtLeast(threshold))
  {
    var low, high := Filter(ms, Below(threshold)), Filter(ms, AtLeast(threshold));
    FilterMember(ms, Below(threshold), low[0]);
    forall m | m in high
      ensures m.id != low[0].id
    {
      FilterMember(ms, AtLeast(threshold), m);
      SameIdSameMessage(ms, m, low[0]);
    }
    FilterAll(high, OtherThan(low[0].id));
  }

  /** Removing the first of the eviction order removes exactly the head of that order. */
  lemma EvictingTheHead(ms: seq<Message>, threshold: int)
    requires DistinctIds(ms) && EvictionOrder(ms, threshold) != []
    ensures var order := EvictionOrder(ms, threshold);
            EvictionOrder(Filter(ms, OtherThan(order[0].id)), threshold) == order[1..]
  {
    var low, high := Filter(ms, Below(threshold)), Filter(ms, AtLeast(threshold));
    var id := EvictionOrder(ms, threshold)[0].id;
    var rest := Filter(ms, OtherThan(id));
    assert Filter(rest, Below(threshold)) == Filter(low, OtherThan(id)) by {
      FiltersCommute(ms, OtherThan(id), Below(threshold));
    }
    assert Filter(rest, AtLeast(threshold)) == Filter(high, OtherThan(id)) by {
      FiltersCommute(ms, OtherThan(id), AtLeast(threshold));
    }
    if low != [] {
      FilterKeepsDistinctIds(ms, Below(threshold));
      HeadOfBoth(low, high);
      NoneElsewhere(ms, threshold);
    } else {
      FilterKeepsDistinctIds(ms, AtLeast(threshold));
      HeadOfSecond(high);
    }
  }

  lemma HeadOfBoth(low: seq<Message>, high: seq<Message>)
    requires low != [] && DistinctIds(low)
    ensures Filter(low, OtherThan((low + high)[0].id)) + high == (low + high)[1..]
  {
    DropHead(low);
  }

  lemma HeadOfSecond(high: seq<Message>)
    requires high != [] && DistinctIds(high)
    ensures Filter([], OtherThan(([] + high)[0].id)) + Filter(high, OtherThan(([] + high)[0].id)) == ([] + high)[1..]
  {
    DropHead(high);
    assert [] + high == high;
  }

  /** One more eviction. */
  lemma NextSurvivors(ms: seq<Message>, threshold: int, k: nat)
    requires DistinctIds(ms) && k < |EvictionOrder(ms, threshold)|
    ensures var victim := EvictionOrder(ms, threshold)[k];
            Filter(Survivors(ms, threshold, k), OtherThan(victim.id)) == Survivors(ms, threshold, k + 1)
  {
    var order := EvictionOrder(ms, threshold);
    OrderIsPermutation(ms, threshold);
    assert order[..k + 1] == order[..k] + [order[k]];
    assert order[k] in ms;
    forall m | m in ms
      ensures Outside(order[..k + 1])(m) <==> Outside(order[..k])(m) && OtherThan(order[k].id)(m)
    {
      SameIdSameMessage(ms, m, order[k]);
    }
    FilterTwice(ms, Outside(order[..k]), OtherThan(order[k].id), Outside(order[..k + 1]));
  }

  lemma SameIdSameMessage(ms: seq<Message>, a: Message, b: Message)
    requires DistinctIds(ms) && a in ms && b in ms
    ensures a.id == b.id <==> a == b
  {
    var i :| 0 <= i < |ms| && ms[i] == a;
    var j :| 0 <= j < |ms| && ms[j] == b;
  }

  lemma NoVictims(ms: seq<Message>, threshold: int)
    ensures Survivors(ms, threshold, 0) == ms
  {
    FilterAll(ms, Outside(EvictionOrder(ms, threshold)[..0]));
  }

  lemma {:induction false} SurvivorsOrder(ms: seq<Message>, threshold: int, k: nat)
    requires DistinctIds(ms) && k <= |EvictionOrder(ms, threshold)|
    ensures EvictionOrder(Survivors(ms, threshold, k), threshold) == EvictionOrder(ms, threshold)[k..]
  {
    if k == 0 {
      NoVictims(ms, threshold);
    } else {
      SurvivorsOrder(ms, threshold, k - 1);
      NextSurvivors(ms, threshold, k - 1);
      FilterKeepsDistinctIds(ms, Outside(EvictionOrder(ms, threshold)[..k - 1]));
      EvictingTheHead(Survivors(ms, threshold, k - 1), threshold);
    }
  }

  /** Survivors are an arrival-ordered selection of the messages, with exactly `k` fewer. */
  lemma SurvivorsCount(ms: seq<Message>, threshold: int, k: nat)
    requires DistinctIds(ms) && k <= |ms| == |EvictionOrder(ms, threshold)|
    ensures var s := Survivors(ms, threshold, k);
            && EvictionOrder(s, threshold) == EvictionOrder(ms, threshold)[k..]
            && DistinctIds(s) && |s| == |ms| - k
  {
    FilterKeepsDistinctIds(ms, Outside(EvictionOrder(ms, threshold)[..k]));
    SurvivorsOrder(ms, threshold, k);
    OrderIsPermutation(Survivors(ms, threshold, k), threshold);
  }

  // ---------- overflow summary ----------

  function Snippet(m: Message): string {
    m.role + ": " + m.content[..Min(80, |m.content|)]
  }

  /** The last `n` characters, as Python's `s[-n:]` for positive `n`. */
  function LastChars(s: string, n: nat): string {
    if |s| <= n then s else s[|s| - n..]
  }

  function Summarize(maxLength: nat, summary: Option<string>, m: Message): string {
    var longer :=
      if summary.None? || summary.value == "" then "Prior conversation: " + Snippet(m)
      else summary.value + " | " + Snippet(m);
    if |longer| > maxLength then "..." + LastChars(longer, maxLength) else longer
  }

  function SummarizeAll(maxLength: nat, summary: Option<string>, evicted: seq<Message>): Option<string> {
    if evicted == [] then summary
    else
      var n := |evicted| - 1;
      Some(Summarize(maxLength, SummarizeAll(maxLength, summary, evicted[..n]), evicted[n]))
  }

  /** Everything evicted, untruncated. */
  function FullLog(evicted: seq<Message>): string
    requires evicted != []
  {
    var n := |evicted| - 1;
    if n == 0 then "Prior conversation: " + Snippet(evicted[0])
    else FullLog(evicted[..n]) + " | " + Snippet(evicted[n])
  }

  /** A snippet is the role and the first eighty characters. */
  lemma SnippetReads(m: Message)
    ensures |Snippet(m)| == |m.role| + 2 + Min(80, |m.content|)
    ensures m.role + ": " <= Snippet(m) && Snippet(m) <= m.role + ": " + m.content
  {
  }

  /** The snippets of the messages, a bar between two. */
  function Snippets(evicted: seq<Message>): string {
    if evicted == [] then ""
    else if |evicted| == 1 then Snippet(evicted[0])
    else Snippet(evicted[0]) + " | " + Snippets(evicted[1..])
  }

  lemma {:induction false} SnippetsAppend(evicted: seq<Message>, m: Message)
    requires evicted != []
    ensures Snippets(evicted + [m]) == Snippets(evicted) + " | " + Snippet(m)
  {
    assert (evicted + [m])[1..] == evicted[1..] + [m];
    if |evicted| > 1 {
      SnippetsAppend(evicted[1..], m);
    } else {
      assert evicted[1..] + [m] == [m];
    }
  }

  /** The full log: its title, then every evicted message in the order of eviction. */
  lemma {:induction false} LogReads(evicted: seq<Message>)
    requires evicted != []
    ensures FullLog(evicted) == "Prior conversation: " + Snippets(evicted)
  {
    var n := |evicted| - 1;
    if n > 0 {
      LogReads(evicted[..n]);
      SnippetsAppend(evicted[..n], evicted[n]);
      assert evicted == evicted[..n] + [evicted[n]];
    }
  }

  /** What truncation leaves of a log. */
  function Truncated(maxLength: nat, log: string): string {
    if |log| <= maxLength then log else "..." + log[|log| - maxLength..]
  }

  /** Truncating early loses nothing that truncating late would keep. */
  lemma TruncateThenExtend(maxLength: nat, log: string, added: string)
    requires maxLength >= 1 && added != ""
    ensures Truncated(maxLength, Truncated(maxLength, log) + added) == Truncated(maxLength, log + added)
  {
    if |log| > maxLength {
      var head, tail := log[..|log| - maxLength], log[|log| - maxLength..];
      assert log == head + tail;
      ConcatAssociative("...", tail, added);
      ConcatAssociative(head, tail, added);
      SameTruncation(maxLength, "...", head, tail + added);
    }
  }

  lemma SameTruncation(maxLength: nat, a: string, b: string, long: string)
    requires |long| > maxLength
    ensures Truncated(maxLength, a + long) == Truncated(maxLength, b + long)
  {
    SuffixOfConcat(a, long, maxLength);
    SuffixOfConcat(b, long, maxLength);
  }

  lemma SuffixOfConcat(a: string, b: string, n: nat)
    requires n <= |b|
    ensures (a + b)[|a + b| - n..] == b[|b| - n..]
  {
  }

  lemma LogStep(evicted: seq<Message>, rest: seq<Message>, m: Message)
    requires rest != [] && evicted == rest + [m]
    ensures FullLog(evicted) == FullLog(rest) + " | " + Snippet(m)
  {
    assert evicted[..|evicted| - 1] == rest;
  }

  lemma SummaryStep(maxLength: nat, start: Option<string>, evicted: seq<Message>, rest: seq<Message>, m: Message)
    requires evicted == rest + [m]
    ensures SummarizeAll(maxLength, start, evicted) ==
              Some(Summarize(maxLength, SummarizeAll(maxLength, start, rest), m))
  {
    assert evicted[..|evicted| - 1] == rest;
  }

  /** The running summary is the full log if that fits, else an ellipsis and exactly its tail. */
  lemma {:induction false} SummaryIsTailOfLog(maxLength: nat, start: Option<string>, evicted: seq<Message>)
    requires maxLength >= 1 && evicted != [] && (start.None? || start.value == "")
    ensures SummarizeAll(maxLength, start, evicted) == Some(Truncated(maxLength, FullLog(evicted)))
    decreases |evicted|
  {
    var rest, m := evicted[..|evicted| - 1], evicted[|evicted| - 1];
    SummaryStep(maxLength, start, evicted, rest, m);
    if rest == [] {
      FirstSummary(maxLength, start, m);
      assert evicted == [m];
    } else {
      SummaryIsTailOfLog(maxLength, start, rest);
      LogIsNotEmpty(rest);
      LogStep(evicted, rest, m);
      SummarizeStep(maxLength, FullLog(rest), m);
    }
  }

  lemma FirstSummary(maxLength: nat, start: Option<string>, m: Message)
    requires start.None? || start.value == ""
    ensures Summarize(maxLength, SummarizeAll(maxLength, start, []), m) == Truncated(maxLength, FullLog([m]))
  {
  }

  lemma {:induction false} LogIsNotEmpty(evicted: seq<Message>)
    requires evicted != []
    ensures FullLog(evicted) != ""
  {
  }

  lemma SummarizeOn(maxLength: nat, summary: string, m: Message)
    requires summary != ""
    ensures Summarize(maxLength, Some(summary), m) == Truncated(maxLength, summary + (" | " + Snippet(m)))
  {
    ConcatAssociative(summary, " | ", Snippet(m));
  }

  /** Summarizing on top of a truncated log is truncating the longer log. */
  lemma SummarizeStep(maxLength: nat, log: string, m: Message)
    requires maxLength >= 1 && log != ""
    ensures Summarize(maxLength, Some(Truncated(maxLength, log)), m) == Truncated(maxLength, log + " | " + Snippet(m))
  {
    SummarizeOn(maxLength, Truncated(maxLength, log), m);
    TruncateThenExtend(maxLength, log, " | " + Snippet(m));
    ConcatAssociative(log, " | ", Snippet(m));
  }

  /** Evicting in several rounds summarizes like evicting in one. */
  lemma {:induction false} SummaryAccumulates(maxLength: nat, start: Option<string>, a: seq<Message>, b: seq<Message>)
    ensures SummarizeAll(maxLength, SummarizeAll(maxLength, start, a), b) == SummarizeAll(maxLength, start, a + b)
    decreases |b|
  {
    if b == [] {
      assert a + b == a;
    } else {
      var n := |b| - 1;
      assert (a + b)[..|a + b| - 1] == a + b[..n];
      SummaryAccumulates(maxLength, start, a, b[..n]);
    }
  }

  // ---------- the eviction loop ----------

  /** `messages` and `summary` after `k` evictions, none of which was superfluous. */
  ghost predicate Evicted(c: Config, live: seq<Message>, start: Option<string>, k: nat,
                          messages: seq<Message>, summary: Option<string>) {
    && k <= |EvictionOrder(live, c.priorityThreshold)|
    && messages == Survivors(live, c.priorityThreshold, k)
    && Evictions(c, live, 0) == Evictions(c, live, k)
    && summary == SummarizeAll(c.maxSummaryLength, start, EvictionOrder(live, c.priorityThreshold)[..k])
  }

  lemma EvictedStart(c: Config, live: seq<Message>, start: Option<string>)
    ensures Evicted(c, live, start, 0, live, start)
  {
    NoVictims(live, c.priorityThreshold);
  }

  /** While the bounds are exceeded there is a next victim, the head of what is left of the order. */
  lemma NextVictim(c: Config, live: seq<Message>, start: Option<string>, k: nat,
                   messages: seq<Message>, summary: Option<string>)
    requires DistinctIds(live) && Evicted(c, live, start, k, messages, summary) && !Fits(c, messages)
    ensures messages != [] && k < |live| == |EvictionOrder(live, c.priorityThreshold)|
    ensures EvictionOrder(messages, c.priorityThreshold) == EvictionOrder(live, c.priorityThreshold)[k..]
  {
    OrderIsPermutation(live, c.priorityThreshold);
    SurvivorsCount(live, c.priorityThreshold, k);
    assert messages != [];
  }

  lemma EvictionsGoOn(c: Config, live: seq<Message>, k: nat)
    requires k < |EvictionOrder(live, c.priorityThreshold)| && !Fits(c, Survivors(live, c.priorityThreshold, k))
    ensures Evictions(c, live, k) == Evictions(c, live, k + 1)
  {
  }

  lemma OneMoreSummarized(c: Config, order: seq<Message>, start: Option<string>, k: nat, summary: Option<string>)
    requires k < |order| && summary == SummarizeAll(c.maxSummaryLength, start, order[..k])
    ensures SummarizeAll(c.maxSummaryLength, start, order[..k + 1]) ==
              Some(Summarize(c.maxSummaryLength, summary, order[k]))
  {
    var longer, rest := order[..k + 1], order[..k];
    assert longer == rest + [order[k]];
    SummaryStep(c.maxSummaryLength, start, longer, rest, order[k]);
  }

  lemma EvictedStep(c: Config, live: seq<Message>, start: Option<string>, k: nat,
                    messages: seq<Message>, summary: Option<string>, victim: Message)
    requires DistinctIds(live) && Evicted(c, live, start, k, messages, summary) && !Fits(c, messages)
    requires k < |EvictionOrder(live, c.priorityThreshold)| && victim == EvictionOrder(live, c.priorityThreshold)[k]
    ensures Evicted(c, live, start, k + 1, Filter(messages, OtherThan(victim.id)),
                    Some(Summarize(c.maxSummaryLength, summary, victim)))
  {
    NextSurvivors(live, c.priorityThreshold, k);
    EvictionsGoOn(c, live, k);
    OneMoreSummarized(c, EvictionOrder(live, c.priorityThreshold), start, k, summary);
  }

  lemma EvictedEnd(c: Config, live: seq<Message>, start: Option<string>, k: nat,
                   messages: seq<Message>, summary: Option<string>)
    requires DistinctIds(live) && Evicted(c, live, start, k, messages, summary) && Fits(c, messages)
    ensures k == Evictions(c, live, 0) && DistinctIds(messages)
  {
    FilterKeepsDistinctIds(live, Outside(EvictionOrder(live, c.priorityThreshold)[..k]));
  }

  // ---------- the memory ----------

  datatype View = View(
    systemContext: Option<string>,
    taskContext: Option<string>,
    messages: seq<Message>,
    summary: Option<string>)

  datatype Snapshot = Snapshot(
    systemContext: Option<string>,
    taskContext: Option<string>,
    messages: seq<Message>,
    summary: Option<string>,
    totalTokens: nat)

  /** Prunes what has expired, then evicts the least prefix of the eviction order that restores the bounds. */
  ghost function Enforce(c: Config, v: View, now: int): View {
    var live := Live(v.messages, now);
    var k := Evictions(c, live, 0);
    v.(messages := Survivors(live, c.priorityThreshold, k),
       summary := SummarizeAll(c.maxSummaryLength, v.summary, EvictionOrder(live, c.priorityThreshold)[..k]))
  }

  /** Both bounds hold afterwards, and no shorter prefix would have done. */
  lemma EnforceIsMinimal(c: Config, v: View, now: int)
    requires DistinctIds(v.messages)
    ensures var r := Enforce(c, v, now);
            && |r.messages| <= c.maxMessages && Tokens(r.messages) <= c.maxTokens && DistinctIds(r.messages)
            && r.systemContext == v.systemContext && r.taskContext == v.taskContext
    ensures var r, live := Enforce(c, v, now), Live(v.messages, now);
            exists k ::
              && 0 <= k <= |EvictionOrder(live, c.priorityThreshold)|
              && r.messages == Survivors(live, c.priorityThreshold, k)
              && |r.messages| == |live| - k
              && r.summary == SummarizeAll(c.maxSummaryLength, v.summary, EvictionOrder(live, c.priorityThreshold)[..k])
              && forall j :: 0 <= j < k ==>
                   var earlier := Survivors(live, c.priorityThreshold, j);
                   |earlier| > c.maxMessages || Tokens(earlier) > c.maxTokens
  {
    var live := Live(v.messages, now);
    var k := Evictions(c, live, 0);
    EvictionsIsLeast(c, live, 0);
    FilterKeepsDistinctIds(v.messages, LiveAt(now));
    OrderIsPermutation(live, c.priorityThreshold);
    SurvivorsCount(live, c.priorityThreshold, k);
    if k == |live| {
      assert Survivors(live, c.priorityThreshold, k) == [];
    }
  }

  /** A settled memory in which nothing expires is left alone. */
  lemma EnforceIsIdentity(c: Config, v: View, now: int)
    requires Fits(c, v.messages) && forall m :: m in v.messages ==> !Expired(m, now)
    ensures Enforce(c, v, now) == v
  {
    FilterAll(v.messages, LiveAt(now));
    NoVictims(v.messages, c.priorityThreshold);
  }

  function SnapshotOf(v: View): Snapshot {
    Snapshot(v.systemContext, v.taskContext, v.messages, v.summary, Tokens(v.messages))
  }

  ghost function Restored(c: Config, s: Snapshot, now: int): View {
    Enforce(c, View(s.systemContext, s.taskContext, StoredAll(s.messages), s.summary), now)
  }

  /** Restoring one's own snapshot changes nothing, as long as nothing expires in between. */
  lemma RestoreSnapshotIsIdentity(c: Config, v: View, now: int)
    requires Fits(c, v.messages) && v.messages == StoredAll(v.messages)
    requires forall m :: m in v.messages ==> !Expired(m, now)
    ensures Restored(c, SnapshotOf(v), now) == v
  {
    EnforceIsIdentity(c, v, now);
  }

  class WorkingMemory {
    const config: Config
    const buffer: WorkingBuffer
    var systemContext: Option<string>
    var taskContext: Option<string>
    var summary: Option<string>

    ghost function AsView(): View
      reads this, buffer
    {
      View(systemContext, taskContext, buffer.messages, summary)
    }

    /** Between operations: distinct ids, token counts filled in, both bounds respected. */
    ghost predicate Valid()
      reads this, buffer
    {
      && ValidConfig(config)
      && DistinctIds(buffer.messages)
      && buffer.messages == StoredAll(buffer.messages)
      && Fits(config, buffer.messages)
    }

    constructor (config: Config)
      requires ValidConfig(config)
      ensures Valid() && fresh(buffer) && this.config == config && AsView() == View(None, None, [], None)
    {
      this.config := config;
      buffer := new WorkingBuffer();
      systemContext, taskContext, summary := None, None, None;
    }

    method SetSystemContext(context: Option<string>)
      requires Valid()
      modifies this
      ensures Valid() && AsView() == old(AsView()).(systemContext := context)
    {
      systemContext := context;
    }

    method SetTaskContext(context: Option<string>)
      requires Valid()
      modifies this
      ensures Valid() && AsView() == old(AsView()).(taskContext := context)
    {
      taskContext := context;
    }

    method AppendMessage(id: string, role: string, content: string, priority: int, expiresAt: Option<int>, now: int)
      returns (m: Message)
      requires Valid() && forall x :: x in buffer.messages ==> x.id != id
      modifies this, buffer
      ensures Valid() && m == Message(id, role, content, EstimateTokens(content), expiresAt, priority)
      ensures AsView() == Enforce(config, old(AsView()).(messages := old(buffer.messages) + [m]), now)
    {
      m := Message(id, role, content, EstimateTokens(content), expiresAt, priority);
      buffer.Append(m);
      assert Stored(m) == m;
      EnforceBounds(now);
    }

    /** Prunes, then evicts until both bounds hold. */
    method EnforceBounds(now: int)
      requires ValidConfig(config) && DistinctIds(buffer.messages) && buffer.messages == StoredAll(buffer.messages)
      modifies this`summary, buffer
      ensures Valid() && AsView() == Enforce(config, old(AsView()), now)
    {
      FilterKeepsDistinctIds(buffer.messages, LiveAt(now));
      StoredSelection(buffer.messages, LiveAt(now));
      var _ := buffer.RemoveExpired(now);
      ghost var live := buffer.messages;
      ghost var k := EvictionLoop();
      StoredSelection(live, Outside(EvictionOrder(live, config.priorityThreshold)[..k]));
    }

    /** The eviction loop, starting from `live` messages. */
    method EvictionLoop() returns (ghost k: nat)
      requires ValidConfig(config) && DistinctIds(buffer.messages)
      modifies this`summary, buffer
      ensures Evicted(config, old(buffer.messages), old(summary), k, buffer.messages, summary)
      ensures k == Evictions(config, old(buffer.messages), 0)
      ensures Fits(config, buffer.messages) && DistinctIds(buffer.messages)
    {
      ghost var live, start := buffer.messages, summary;
      k := 0;
      EvictedStart(config, live, start);
      while |buffer.messages| > config.maxMessages || Tokens(buffer.messages) > config.maxTokens
        invariant Evicted(config, live, start, k, buffer.messages, summary)
        decreases |EvictionOrder(live, config.priorityThreshold)| - k
      {
        ghost var before, told := buffer.messages, summary;
        NextVictim(config, live, start, k, before, told);
        ghost var victim := EvictOne();
        EvictedStep(config, live, start, k, before, told, victim);
        k := k + 1;
      }
      EvictedEnd(config, live, start, k, buffer.messages, summary);
    }

    /** One turn of the eviction loop takes the head of the eviction order. */
    method EvictOne() returns (ghost victim: Message)
      requires ValidConfig(config) && buffer.messages != []
      modifies this`summary, buffer
      ensures EvictionOrder(old(buffer.messages), config.priorityThreshold) != []
      ensures victim == EvictionOrder(old(buffer.messages), config.priorityThreshold)[0]
      ensures buffer.messages == Filter(old(buffer.messages), OtherThan(victim.id))
      ensures summary == Some(Summarize(config.maxSummaryLength, old(summary), victim))
    {
      var all := buffer.messages;
      var candidate := OldestBelow(all);
      FirstOfOrder(all, config.priorityThreshold, candidate);
      var _ := buffer.RemoveById(candidate.id);
      UpdateOverflowSummary(candidate);
      victim := candidate;
    }

    /** The oldest message below the threshold, or the oldest of all. */
    method OldestBelow(all: seq<Message>) returns (m: Message)
      requires all != []
      ensures exists i :: 0 <= i < |all| && m == all[i] &&
                if m.priority < config.priorityThreshold
                then forall j :: 0 <= j < i ==> all[j].priority >= config.priorityThreshold
                else i == 0 && forall j :: 0 <= j < |all| ==> all[j].priority >= config.priorityThreshold
    {
      for i := 0 to |all|
        invariant forall j :: 0 <= j < i ==> all[j].priority >= config.priorityThreshold
      {
        if all[i].priority < config.priorityThreshold {
          return all[i];
        }
      }
      m := all[0];
    }

    method UpdateOverflowSummary(evicted: Message)
      requires config.maxSummaryLength >= 1
      modifies this`summary
      ensures summary == Some(Summarize(config.maxSummaryLength, old(summary), evicted))
    {
      var snippet := Snippet(evicted);
      var text: string;
      if summary.None? || summary.value == "" {
        text := "Prior conversation: " + snippet;
      } else {
        text := summary.value + " | " + snippet;
      }
      if |text| > config.maxSummaryLength {
        text := "..." + text[|text| - config.maxSummaryLength..];
      }
      summary := Some(text);
    }

    /** Drops what has expired. */
    method Prune(now: int)
      requires Valid()
      modifies buffer
      ensures Valid() && AsView() == old(AsView()).(messages := Live(old(buffer.messages), now))
    {
      PruneKeepsValid(now);
      var _ := buffer.RemoveExpired(now);
    }

    /** The most recent messages, at most `limit` of them when a positive limit is given. */
    method GetRecentMessages(limit: Option<int>, now: int) returns (r: seq<Message>)
      requires Valid()
      modifies buffer
      ensures Valid() && AsView() == old(AsView()).(messages := Live(old(buffer.messages), now))
      ensures r == if limit.Some? && 0 < limit.value < |buffer.messages|
                   then buffer.messages[|buffer.messages| - limit.value..] else buffer.messages
    {
      Prune(now);
      r := buffer.messages;
      if limit.Some? && limit.value > 0 && limit.value < |r| {
        r := r[|r| - limit.value..];
      }
    }

    /** The longest suffix of the live messages within the token limit. */
    method GetMessagesWithinTokens(limit: int, now: int) returns (r: seq<Message>)
      requires Valid()
      modifies buffer
      ensures Valid() && AsView() == old(AsView()).(messages := Live(old(buffer.messages), now))
      ensures |r| <= |buffer.messages| && r == buffer.messages[|buffer.messages| - |r|..]
      ensures r == [] || Tokens(r) <= limit
      ensures forall j :: 0 <= j < |buffer.messages| - |r| ==> Tokens(buffer.messages[j..]) > limit
    {
      Prune(now);
      r := NewestWithin(buffer.messages, limit);
    }

    /** Walks back from the newest message until one does not fit. */
    method NewestWithin(messages: seq<Message>, limit: int) returns (r: seq<Message>)
      ensures |r| <= |messages| && r == messages[|messages| - |r|..]
      ensures r == [] || Tokens(r) <= limit
      ensures forall j :: 0 <= j < |messages| - |r| ==> Tokens(messages[j..]) > limit
    {
      var accumulated := 0;
      r := [];
      var i := |messages|;
      while i > 0
        invariant 0 <= i <= |messages| && r == messages[i..] && accumulated == Tokens(r)
        invariant r == [] || Tokens(r) <= limit
      {
        OneMoreBack(messages, i);
        if accumulated + messages[i - 1].tokens > limit {
          TokensGrowBackwards(messages, i - 1);
          break;
        }
        i := i - 1;
        r := [messages[i]] + r;
        accumulated := accumulated + messages[i].tokens;
      }
    }

    lemma PruneKeepsValid(now: int)
      requires Valid()
      ensures var live := Live(buffer.messages, now);
              DistinctIds(live) && live == StoredAll(live) && Fits(config, live)
    {
      FilterKeepsDistinctIds(buffer.messages, LiveAt(now));
      StoredSelection(buffer.messages, LiveAt(now));
      SelectionIsLighter(buffer.messages, LiveAt(now));
    }

    method Clear()
      requires Valid()
      modifies this, buffer
      ensures Valid() && AsView() == old(AsView()).(messages := [], taskContext := None, summary := None)
    {
      buffer.Clear();
      taskContext, summary := None, None;
    }

    method TakeSnapshot() returns (s: Snapshot)
      ensures s == SnapshotOf(AsView())
      ensures s.systemContext == systemContext && s.taskContext == taskContext
      ensures s.messages == buffer.messages && s.summary == summary
    {
      s := Snapshot(systemContext, taskContext, buffer.messages, summary, Tokens(buffer.messages));
    }

    method Restore(s: Snapshot, now: int)
      requires ValidConfig(config) && DistinctIds(s.messages)
      modifies this, buffer
      ensures Valid() && AsView() == Restored(config, s, now)
      ensures systemContext == s.systemContext && taskContext == s.taskContext
    {
      systemContext, taskContext, summary := s.systemContext, s.taskContext, s.summary;
      buffer.Clear();
      for i := 0 to |s.messages|
        invariant buffer.messages == StoredAll(s.messages)[..i]
        invariant systemContext == s.systemContext && taskContext == s.taskContext && summary == s.summary
      {
        buffer.Append(s.messages[i]);
      }
      assert buffer.messages == StoredAll(s.messages);
      EnforceBounds(now);
    }
  }

  lemma {:induction false} StoredSelection(ms: seq<Message>, p: Message -> bool)
    requires ms == StoredAll(ms)
    ensures Filter(ms, p) == StoredAll(Filter(ms, p))
  {
    forall i | 0 <= i < |Filter(ms, p)|
      ensures Filter(ms, p)[i] == Stored(Filter(ms, p)[i])
    {
      FilterMember(ms, p, Filter(ms, p)[i]);
    }
  }

  lemma {:induction false} SelectionIsLighter(ms: seq<Message>, p: Message -> bool)
    ensures |Filter(ms, p)| <= |ms| && Tokens(Filter(ms, p)) <= Tokens(ms)
  {
    if ms != [] {
      SelectionIsLighter(ms[1..], p);
      FilterHead(ms, p);
      if p(ms[0]) {
        assert Filter(ms, p)[1..] == Filter(ms[1..], p);
      }
    }
  }

  lemma OneMoreBack(ms: seq<Message>, i: nat)
    requires 0 < i <= |ms|
    ensures ms[i - 1..] == [ms[i - 1]] + ms[i..] && Tokens(ms[i - 1..]) == ms[i - 1].tokens + Tokens(ms[i..])
  {
    assert ms[i - 1..][1..] == ms[i..];
  }

  lemma {:induction false} TokensGrowBackwards(ms: seq<Message>, i: nat)
    requires i <= |ms|
    ensures forall j :: 0 <= j <= i ==> Tokens(ms[j..]) >= Tokens(ms[i..])
  {
    if i > 0 {
      assert ms[i - 1..][1..] == ms[i..];
      TokensGrowBackwards(ms, i - 1);
    }
  }

  /** The loop's candidate is the head of the eviction order. */
  lemma FirstOfOrder(ms: seq<Message>, threshold: int, m: Message)
    requires exists i :: 0 <= i < |ms| && m == ms[i] &&
               if m.priority < threshold then forall j :: 0 <= j < i ==> ms[j].priority >= threshold
               else i == 0 && forall j :: 0 <= j < |ms| ==> ms[j].priority >= threshold
    ensures EvictionOrder(ms, threshold) != [] && EvictionOrder(ms, threshold)[0] == m
  {
    var i :| 0 <= i < |ms| && m == ms[i] &&
             if m.priority < threshold then forall j :: 0 <= j < i ==> ms[j].priority >= threshold
             else i == 0 && forall j :: 0 <= j < |ms| ==> ms[j].priority >= threshold;
    if m.priority < threshold {
      FirstSelected(ms, Below(threshold), i);
    } else {
      NoneSelected(ms, Below(threshold));
    }
  }

  lemma {:induction false} NoneSelected(ms: seq<Message>, p: Message -> bool)
    requires forall j :: 0 <= j < |ms| ==> !p(ms[j])
    ensures Filter(ms, p) == []
  {
    if ms != [] { NoneSelected(ms[1..], p); }
  }
}
