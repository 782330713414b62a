/** The table of in-flight requests shared in shape by the gateway's IPC client and the desktop's gateway connection.
    Events of a single-threaded runtime happen one at a time, in any order. */
module PendingRequests {
  import opened Prelude

  datatype Outcome = Responded | InvalidResponse | TimedOut | WriteFailed | ConnectionClosed

  /** A request is its index in `sent`, which lists the ids used. `outcome` holds what each promise settled to,
      `timers` the requests whose timeout is still armed, `writes` those whose write callback is still to come, and
      `resettled` the attempts to settle a promise that had settled before. */
  datatype Table = Table(
    sent: seq<string>,
    pending: map<string, nat>,
    timers: set<nat>,
    writes: set<nat>,
    outcome: map<nat, Outcome>,
    resettled: multiset<nat>)

  const EMPTY_TABLE := Table([], map[], {}, {}, map[], multiset{})

  datatype Write = NoSocket | Queued | Throws

  datatype Event =
    | Send(id: string, write: Write)
    | WriteDone(request: nat, failed: bool)
    | TimerFires(request: nat)
    | Frame(id: string, valid: bool)
    | Close

  /** Resolves or rejects a promise. The runtime ignores a second attempt; the table notes it. */
  function Settle(t: Table, r: nat, o: Outcome): Table {
    if r in t.outcome then t.(resettled := t.resettled + multiset{r}) else t.(outcome := t.outcome[r := o])
  }

  /** Disarms the timer of `r`, drops the entry of `id`, and settles `r`. */
  function Finish(t: Table, id: string, r: nat, o: Outcome): Table {
    Settle(t.(timers := t.timers - {r}, pending := t.pending - {id}), r, o)
  }

  function Register(t: Table, id: string): Table {
    t.(sent := t.sent + [id], timers := t.timers + {|t.sent|}, pending := t.pending[id := |t.sent|])
  }

  ghost predicate Enabled(t: Table, e: Event) {
    match e
    case WriteDone(r, _) => r in t.writes && r < |t.sent|
    case TimerFires(r) => r in t.timers && r < |t.sent|
    case _ => true
  }

  function Closing(t: Table, done: set<nat>): map<nat, Outcome> {
    map r | r in done && r !in t.outcome :: ConnectionClosed
  }

  /** Disarms and settles the requests `done`, leaving the entries. */
  function CloseSome(t: Table, done: set<nat>): Table {
    t.(timers := t.timers - done,
       outcome := t.outcome + Closing(t, done),
       resettled := t.resettled + multiset(done * t.outcome.Keys))
  }

  function CloseAll(t: Table): Table {
    CloseSome(t, t.pending.Values).(pending := map[])
  }

  function Step(t: Table, e: Event): Table
    requires Enabled(t, e)
  {
    match e
    case Send(id, w) =>
      var t' := Register(t, id);
      (match w
       case NoSocket => t'
       case Queued => t'.(writes := t'.writes + {|t.sent|})
       case Throws => Finish(t', id, |t.sent|, WriteFailed))
    case WriteDone(r, failed) =>
      var t' := t.(writes := t.writes - {r});
      if failed then Finish(t', t.sent[r], r, WriteFailed) else t'
    case TimerFires(r) => Finish(t, t.sent[r], r, TimedOut)
    case Frame(id, valid) =>
      if id in t.pending then Finish(t, id, t.pending[id], if valid then Responded else InvalidResponse) else t
    case Close => CloseAll(t)
  }

  // ---------- what the table promises ----------

  ghost predicate Unsettled(t: Table, r: nat) {
    r < |t.sent| && r !in t.outcome
  }

  /** The entries are exactly the unsettled requests, and exactly those have a live timer. */
  ghost predicate Exact(t: Table) {
    && (forall id :: id in t.pending ==> Unsettled(t, t.pending[id]) && t.sent[t.pending[id]] == id)
    && (forall r: nat :: Unsettled(t, r) ==> t.sent[r] in t.pending && t.pending[t.sent[r]] == r)
    && (forall r: nat :: r in t.timers <==> Unsettled(t, r))
    && (forall r: nat :: r in t.writes ==> r < |t.sent|)
    && (forall r: nat :: r in t.outcome ==> r < |t.sent|)
  }

  /** A new request must not reuse the id of a request in flight; and a failed write must not find its id taken over. */
  ghost predicate Safe(t: Table, e: Event)
    requires Enabled(t, e)
  {
    match e
    case Send(id, _) => id !in t.pending
    case WriteDone(r, failed) => failed && t.sent[r] in t.pending ==> t.pending[t.sent[r]] == r
    case _ => true
  }

  lemma FinishKeepsExact(t: Table, id: string, o: Outcome)
    requires Exact(t) && id in t.pending
    ensures Exact(Finish(t, id, t.pending[id], o))
  {
  }

  lemma SendKeepsExact(t: Table, id: string, w: Write)
    requires Exact(t) && id !in t.pending
    ensures Exact(Step(t, Send(id, w)))
  {
    var t' := Register(t, id);
    assert Exact(t') by {
      assert forall r: nat :: r < |t.sent| ==> t'.sent[r] == t.sent[r];
    }
    if w.Throws? {
      FinishKeepsExact(t', id, WriteFailed);
    }
  }

  lemma CloseKeepsExact(t: Table)
    requires Exact(t)
    ensures Exact(CloseAll(t)) && CloseAll(t).timers == {} && forall r: nat :: r < |t.sent| ==> r in CloseAll(t).outcome
  {
    var t' := CloseAll(t);
    forall r: nat | r < |t.sent|
      ensures r in t'.outcome
    {
      if Unsettled(t, r) {
        assert t.sent[r] in t.pending && r in t.pending.Values;
      }
    }
    assert t'.timers == {} by {
      forall r | r in t.timers
        ensures r in t.pending.Values
      {
        assert Unsettled(t, r) && t.sent[r] in t.pending;
      }
    }
  }

  lemma WriteDoneKeepsExact(t: Table, r: nat, failed: bool)
    requires Exact(t) && Enabled(t, WriteDone(r, failed)) && Safe(t, WriteDone(r, failed))
    ensures Exact(Step(t, WriteDone(r, failed)))
  {
    var t' := t.(writes := t.writes - {r});
    assert Exact(t');
    if failed {
      if t.sent[r] in t.pending {
        FinishKeepsExact(t', t.sent[r], WriteFailed);
      } else {
        assert !Unsettled(t, r);
        assert t'.timers - {r} == t'.timers && t'.pending - {t.sent[r]} == t'.pending;
      }
    }
  }

  lemma SafeStepKeepsExact(t: Table, e: Event)
    requires Exact(t) && Enabled(t, e) && Safe(t, e)
    ensures Exact(Step(t, e))
  {
    match e
    case Send(id, w) => SendKeepsExact(t, id, w);
    case WriteDone(r, failed) => WriteDoneKeepsExact(t, r, failed);
    case TimerFires(r) =>
      assert Unsettled(t, r);
      FinishKeepsExact(t, t.sent[r], TimedOut);
    case Frame(id, valid) =>
      if id in t.pending {
        FinishKeepsExact(t, id, if valid then Responded else InvalidResponse);
      }
    case Close => CloseKeepsExact(t);
  }

  lemma UnsafeStepBreaksExact(t: Table, e: Event)
    requires Exact(t) && Enabled(t, e) && !Safe(t, e)
    ensures !Exact(Step(t, e))
  {
    var t' := Step(t, e);
    match e
    case Send(id, _) =>
      var first := t.pending[id];
      assert t'.sent[first] == id && Unsettled(t', first);
      assert id !in t'.pending || t'.pending[id] != first;
    case WriteDone(r, _) =>
      var other := t.pending[t.sent[r]];
      assert Unsettled(t', other) && t'.sent[other] !in t'.pending;
  }

  /** One event keeps the table exact if and only if it is safe. */
  lemma ExactIffSafe(t: Table, e: Event)
    requires Exact(t) && Enabled(t, e)
    ensures Exact(Step(t, e)) <==> Safe(t, e)
  {
    if Safe(t, e) {
      SafeStepKeepsExact(t, e);
    } else {
      UnsafeStepBreaksExact(t, e);
    }
  }

  // ---------- whole runs ----------

  ghost function Run(t: Table, es: seq<Event>): Option<Table>
    decreases |es|
  {
    if es == [] then Some(t)
    else if Enabled(t, es[0]) then Run(Step(t, es[0]), es[1..])
    else None
  }

  /** The id is neither in flight nor still waiting for an earlier write callback. */
  ghost predicate UnusedId(t: Table, id: string) {
    id !in t.pending && forall r: nat :: r in t.writes ==> r < |t.sent| && t.sent[r] != id
  }

  ghost predicate UnusedIds(t: Table, es: seq<Event>)
    decreases |es|
  {
    es == [] || (
      && (es[0].Send? ==> UnusedId(t, es[0].id))
      && (Enabled(t, es[0]) ==> UnusedIds(Step(t, es[0]), es[1..])))
  }

  /** An entry under an id with an outstanding write belongs to that very write. */
  ghost predicate WritesOwnTheirIds(t: Table) {
    forall r: nat :: r in t.writes && r < |t.sent| && t.sent[r] in t.pending ==> t.pending[t.sent[r]] == r
  }

  lemma OwnershipStep(t: Table, e: Event)
    requires Exact(t) && WritesOwnTheirIds(t) && Enabled(t, e) && (e.Send? ==> UnusedId(t, e.id))
    ensures Safe(t, e) && WritesOwnTheirIds(Step(t, e))
  {
  }

  /** As long as ids are not reused too early, every reachable table is exact. */
  lemma {:induction false} RunsStayExact(t: Table, es: seq<Event>)
    requires Exact(t) && WritesOwnTheirIds(t) && UnusedIds(t, es) && Run(t, es).Some?
    ensures Exact(Run(t, es).value)
    decreases |es|
  {
    if es != [] {
      OwnershipStep(t, es[0]);
      SafeStepKeepsExact(t, es[0]);
      RunsStayExact(Step(t, es[0]), es[1..]);
    }
  }

  /** Whatever follows without reusing an id too early finds the table exact. */
  ghost predicate StaysExact(t: Table) {
    forall es :: UnusedIds(t, es) && Run(t, es).Some? ==> Exact(Run(t, es).value)
  }

  lemma {:induction false} UnusedIdStaysExact(t: Table, id: string)
    requires Exact(t) && WritesOwnTheirIds(t) && UnusedId(t, id)
    ensures StaysExact(Step(t, Send(id, Queued)))
  {
    var t' := Step(t, Send(id, Queued));
    SendKeepsExact(t, id, Queued);
    OwnershipStep(t, Send(id, Queued));
    forall es | UnusedIds(t', es) && Run(t', es).Some?
      ensures Exact(Run(t', es).value)
    {
      RunsStayExact(t', es);
    }
  }

  /** An id still in flight is lost at once, one still being written is lost as soon as that write fails. */
  lemma UsedIdGoesWrong(t: Table, id: string)
    requires Exact(t) && !UnusedId(t, id)
    ensures !StaysExact(Step(t, Send(id, Queued)))
  {
    var t' := Step(t, Send(id, Queued));
    if id in t.pending {
      UnsafeStepBreaksExact(t, Send(id, Queued));
      assert UnusedIds(t', []) && Run(t', []) == Some(t');
    } else {
      var r: nat :| r in t.writes && r < |t.sent| && t.sent[r] == id;
      SendKeepsExact(t, id, Queued);
      var e := WriteDone(r, true);
      UnsafeStepBreaksExact(t', e);
      assert [e][1..] == [];
      assert Run(t', [e]) == Run(Step(t', e), []);
      assert UnusedIds(t', [e]);
    }
  }

  /** What a sender can check: a new request is safe, whatever comes later, exactly if its id is neither in flight
      nor waiting for an earlier write callback. */
  lemma SendIsSafeIffUnused(t: Table, id: string)
    requires Exact(t) && WritesOwnTheirIds(t)
    ensures StaysExact(Step(t, Send(id, Queued))) <==> UnusedId(t, id)
  {
    if UnusedId(t, id) {
      UnusedIdStaysExact(t, id);
    } else {
      UsedIdGoesWrong(t, id);
    }
  }

  // ---------- settling ----------

  lemma StepKeepsOutcomes(t: Table, e: Event)
    requires Enabled(t, e)
    ensures t.sent <= Step(t, e).sent
    ensures KeepsOutcomes(t, Step(t, e))
  {
    match e
    case Send(id, w) =>
      FinishKeepsOutcomes(Register(t, id), id, |t.sent|, WriteFailed);
    case WriteDone(r, failed) =>
      FinishKeepsOutcomes(t.(writes := t.writes - {r}), t.sent[r], r, WriteFailed);
    case TimerFires(r) =>
      FinishKeepsOutcomes(t, t.sent[r], r, TimedOut);
    case Frame(id, valid) =>
      if id in t.pending {
        FinishKeepsOutcomes(t, id, t.pending[id], if valid then Responded else InvalidResponse);
      }
    case Close =>
  }

  ghost predicate KeepsOutcomes(t: Table, t': Table) {
    forall r: nat :: r in t.outcome ==> r in t'.outcome && t'.outcome[r] == t.outcome[r]
  }

  lemma FinishKeepsOutcomes(t: Table, id: string, r: nat, o: Outcome)
    ensures Finish(t, id, r, o).sent == t.sent && KeepsOutcomes(t, Finish(t, id, r, o))
  {
  }

  /** A promise settles at most once: no later event, safe or not, changes an outcome. */
  lemma {:induction false} OutcomesAreFinal(t: Table, es: seq<Event>, r: nat)
    requires Run(t, es).Some? && r in t.outcome
    ensures r in Run(t, es).value.outcome && Run(t, es).value.outcome[r] == t.outcome[r]
    decreases |es|
  {
    if es != [] {
      StepKeepsOutcomes(t, es[0]);
      OutcomesAreFinal(Step(t, es[0]), es[1..], r);
    }
  }

  /** The one event that settles a request of an exact table again: a write failing after the request has settled. */
  function SecondAttempt(t: Table, e: Event): multiset<nat> {
    if e.WriteDone? && e.failed && e.request in t.outcome then multiset{e.request} else multiset{}
  }

  lemma ResettlesExactly(t: Table, e: Event)
    requires Exact(t) && Enabled(t, e)
    ensures Step(t, e).resettled == t.resettled + SecondAttempt(t, e)
  {
    if e.Close? {
      assert t.pending.Values * t.outcome.Keys == {};
    }
  }

  /** Over whole runs: a promise is settled a second time only by its own write callback, failing late. */
  lemma {:induction false} ResettledOnlyByLateWrites(t: Table, es: seq<Event>, r: nat)
    requires Exact(t) && WritesOwnTheirIds(t) && UnusedIds(t, es) && Run(t, es).Some?
    requires WriteDone(r, true) !in es
    ensures Run(t, es).value.resettled[r] == t.resettled[r]
    decreases |es|
  {
    if es != [] {
      OwnershipStep(t, es[0]);
      SafeStepKeepsExact(t, es[0]);
      ResettlesExactly(t, es[0]);
      assert es[0] in es && forall e :: e in es[1..] ==> e in es;
      ResettledOnlyByLateWrites(Step(t, es[0]), es[1..], r);
    }
  }

  /** What an event settles a request to. */
  function Cause(e: Event): Outcome {
    match e
    case WriteDone(_, _) => WriteFailed
    case TimerFires(_) => TimedOut
    case Frame(_, valid) => if valid then Responded else InvalidResponse
    case Send(_, _) => WriteFailed
    case Close => ConnectionClosed
  }

  /** In an exact table an event settles only its own request: a frame or timer the one it names, a close all. */
  lemma EventsSettleTheirOwn(t: Table, e: Event, r: nat)
    requires Exact(t) && Enabled(t, e) && r < |t.sent| && r !in t.outcome
    ensures r in Step(t, e).outcome <==>
              match e
              case Send(_, _) => false
              case WriteDone(q, failed) => failed && q == r
              case TimerFires(q) => q == r
              case Frame(id, _) => id == t.sent[r]
              case Close => true
    ensures r in Step(t, e).outcome ==> Step(t, e).outcome[r] == Cause(e)
  {
    assert Unsettled(t, r) && t.sent[r] in t.pending && r in t.pending.Values;
  }

  /** The callback of a write comes at most once, and only for a frame that was queued. */
  lemma {:induction false} WriteCallbackOnce(t: Table, r: nat, failed: bool, after: seq<Event>)
    requires Enabled(t, WriteDone(r, failed)) && Run(Step(t, WriteDone(r, failed)), after).Some?
    ensures forall again :: WriteDone(r, again) !in after
  {
    NoCallback(Step(t, WriteDone(r, failed)), r, after);
  }

  lemma {:induction false} NoCallback(t: Table, r: nat, es: seq<Event>)
    requires r < |t.sent| && r !in t.writes && Run(t, es).Some?
    ensures forall again :: WriteDone(r, again) !in es
    decreases |es|
  {
    if es != [] {
      NotQueued(t, es[0], r);
      NoCallback(Step(t, es[0]), r, es[1..]);
      assert es == [es[0]] + es[1..];
    }
  }

  /** Only its own send queues a write. */
  lemma NotQueued(t: Table, e: Event, r: nat)
    requires r < |t.sent| && r !in t.writes && Enabled(t, e)
    ensures r < |Step(t, e).sent| && r !in Step(t, e).writes
  {
  }

  /** A send under an unused id registers the request and arms its timer, and waits for the write callback if the frame
      was queued; if writing throws, the request has failed at once and nothing of it stays behind. */
  lemma SendsRegister(t: Table, id: string, w: Write)
    requires Exact(t) && id !in t.pending
    ensures var r := |t.sent|;
            Step(t, Send(id, w)) ==
              if w.Throws? then t.(sent := t.sent + [id], outcome := t.outcome[r := WriteFailed])
              else t.(sent := t.sent + [id], pending := t.pending[id := r], timers := t.timers + {r},
                      writes := if w.Queued? then t.writes + {r} else t.writes)
  {
    if w.Throws? {
      assert t.pending[id := |t.sent|] - {id} == t.pending;
      assert t.timers + {|t.sent|} - {|t.sent|} == t.timers;
    }
  }

  /** From the start: after a close, every request ever sent has settled and no timer is left. */
  lemma CloseSettlesEverything(es: seq<Event>)
    requires UnusedIds(EMPTY_TABLE, es) && Run(EMPTY_TABLE, es).Some?
    ensures var t := CloseAll(Run(EMPTY_TABLE, es).value);
            t.pending == map[] && t.timers == {} && forall r: nat :: r < |t.sent| ==> r in t.outcome
  {
    RunsStayExact(EMPTY_TABLE, es);
    CloseKeepsExact(Run(EMPTY_TABLE, es).value);
  }

  const LATE_WRITE_FAILURE: seq<Event> := [Send("x", Queued), TimerFires(0), Send("x", Queued), WriteDone(0, true)]

  /** Keeping ids distinct among the unsettled requests alone is not enough: a write callback that fails after its
      request timed out removes a younger request with the same id, whose timer stays armed. */
  lemma LateWriteFailureLosesRequest()
    ensures Run(EMPTY_TABLE, LATE_WRITE_FAILURE).Some?
    ensures forall k :: 0 <= k < |LATE_WRITE_FAILURE| && LATE_WRITE_FAILURE[k].Send? ==>
              && Run(EMPTY_TABLE, LATE_WRITE_FAILURE[..k]).Some?
              && LATE_WRITE_FAILURE[k].id !in Run(EMPTY_TABLE, LATE_WRITE_FAILURE[..k]).value.pending
    ensures !Exact(Run(EMPTY_TABLE, LATE_WRITE_FAILURE).value)
  {
    var es := LATE_WRITE_FAILURE;
    var t1 := Step(EMPTY_TABLE, es[0]);
    assert t1 == Table(["x"], map["x" := 0], {0}, {0}, map[], multiset{});
    var t2 := Step(t1, es[1]);
    assert t2 == Table(["x"], map[], {}, {0}, map[0 := TimedOut], multiset{});
    var t3 := Step(t2, es[2]);
    assert t3 == Table(["x", "x"], map["x" := 1], {1}, {0, 1}, map[0 := TimedOut], multiset{});
    var t4 := Step(t3, es[3]);
    assert t4.pending == map[] && Unsettled(t4, 1);
    assert es[1..] == [es[1], es[2], es[3]] && es[1..][1..] == [es[2], es[3]];
    assert es[1..][1..][1..] == [es[3]] && es[1..][1..][1..][1..] == [];
    assert Run(EMPTY_TABLE, es) == Run(t1, es[1..]);
    assert Run(t1, es[1..]) == Run(t2, [es[2], es[3]]);
    assert [es[2], es[3]][1..] == [es[3]] && [es[3]][1..] == [];
    assert Run(t2, [es[2], es[3]]) == Run(t3, [es[3]]);
    assert Run(t3, [es[3]]) == Run(t4, []);
    assert es[..0] == [] && Run(EMPTY_TABLE, es[..0]) == Some(EMPTY_TABLE);
    var two := es[..2];
    assert two == [es[0], es[1]] && two[1..] == [es[1]] && two[1..][1..] == [];
    assert Run(EMPTY_TABLE, two) == Run(t1, [es[1]]);
    assert Run(t1, [es[1]]) == Run(t2, []);
  }
}
