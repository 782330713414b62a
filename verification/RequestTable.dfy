/** The object that keeps the in-flight requests of a client: every handler that touches it. */
module RequestTables {
  import opened Prelude
  import opened PendingRequests

  class RequestTable {
    var sent: seq<string>
    var pendingRequests: map<string, nat>
    var timers: set<nat>
    var writes: set<nat>
    var outcomes: map<nat, Outcome>
    ghost var resettled: multiset<nat>

    ghost function AsTable(): Table
      reads this
    {
      Table(sent, pendingRequests, timers, writes, outcomes, resettled)
    }

    /** Every entry stands under the id of its own request. */
    ghost predicate Valid()
      reads this
    {
      Labelled(AsTable())
    }

    constructor ()
      ensures Valid() && AsTable() == EMPTY_TABLE
    {
      sent, pendingRequests, timers, writes, outcomes, resettled := [], map[], {}, {}, map[], multiset{};
    }

    /** Settling a promise twice has no effect but to be noted. */
    method SettleRequest(r: nat, o: Outcome)
      modifies this`outcomes, this`resettled
      ensures AsTable() == Settle(old(AsTable()), r, o)
    {
      if r in outcomes {
        resettled := resettled + multiset{r};
      } else {
        outcomes := outcomes[r := o];
      }
    }

    /** Disarms the timer, drops the entry, settles the promise. */
    method FinishRequest(id: string, r: nat, o: Outcome)
      modifies this`pendingRequests, this`timers, this`outcomes, this`resettled
      ensures AsTable() == Finish(old(AsTable()), id, r, o)
    {
      timers := timers - {r};
      pendingRequests := pendingRequests - {id};
      SettleRequest(r, o);
    }

    /** Registers a request, arms its timer and writes its frame, if there is a socket to write to. */
    method Submit(id: string, write: Write) returns (r: nat)
      requires Valid()
      modifies this
      ensures Valid()
      ensures r == |old(sent)| && AsTable() == Step(old(AsTable()), Send(id, write))
    {
      r := |sent|;
      sent := sent + [id];
      timers := timers + {r};
      pendingRequests := pendingRequests[id := r];
      match write
      case NoSocket =>
      case Queued => writes := writes + {r};
      case Throws => FinishRequest(id, r, WriteFailed);
    }

    method OnTimeout(r: nat)
      requires Valid()
      requires Enabled(AsTable(), TimerFires(r))
      modifies this
      ensures Valid()
      ensures AsTable() == Step(old(AsTable()), TimerFires(r))
    {
      FinishRequest(sent[r], r, TimedOut);
    }

    /** The write callback, which may come long after the request has settled. */
    method OnWritten(r: nat, failed: bool)
      requires Valid()
      requires Enabled(AsTable(), WriteDone(r, failed))
      modifies this
      ensures Valid()
      ensures AsTable() == Step(old(AsTable()), WriteDone(r, failed))
    {
      writes := writes - {r};
      if failed {
        FinishRequest(sent[r], r, WriteFailed);
      }
    }

    /** A frame answers a request only if it carries a text id that is pending. */
    method OnFrame(id: Option<string>, valid: bool) returns (answered: bool)
      requires Valid()
      modifies this
      ensures Valid()
      ensures AsTable() == if id.Some? then Step(old(AsTable()), Frame(id.value, valid)) else old(AsTable())
      ensures answered <==> id.Some? && id.value in old(pendingRequests)
    {
      answered := id.Some? && id.value in pendingRequests;
      if answered {
        FinishRequest(id.value, pendingRequests[id.value], if valid then Responded else InvalidResponse);
      }
    }

    method CloseOne(r: nat, ghost t: Table, ghost done: set<nat>)
      requires AsTable() == CloseSome(t, done) && r !in done
      modifies this`timers, this`outcomes, this`resettled
      ensures AsTable() == CloseSome(t, done + {r})
    {
      timers := timers - {r};
      SettleRequest(r, ConnectionClosed);
      OneMoreClosed(t, done, r);
    }

    /** Settles every entry in turn. */
    method CloseEntries()
      requires Injective(pendingRequests)
      modifies this`timers, this`outcomes, this`resettled
      ensures AsTable() == CloseSome(old(AsTable()), old(pendingRequests).Values)
    {
      ghost var t := AsTable();
      var rest := pendingRequests.Keys;
      NoneClosed(t);
      while rest != {}
        invariant rest <= pendingRequests.Keys && pendingRequests == t.pending
        invariant AsTable() == CloseSome(t, Passed(t.pending, rest))
        decreases rest
      {
        var id :| id in rest;
        NextEntry(t.pending, rest, id);
        CloseOne(pendingRequests[id], t, Passed(t.pending, rest));
        rest := rest - {id};
      }
      assert Passed(t.pending, {}) == t.pending.Values;
    }

    /** Settles everything in flight and empties the table. */
    method FailAll()
      requires Valid()
      modifies this
      ensures Valid() && AsTable() == Step(old(AsTable()), Close)
    {
      LabelledStep(AsTable(), Close);
      CloseEntries();
      pendingRequests := map[];
    }
  }

  /** No two ids stand for one request. */
  ghost predicate Injective(entries: map<string, nat>) {
    forall a, b :: a in entries && b in entries && entries[a] == entries[b] ==> a == b
  }

  /** The requests whose entries have been gone through. */
  ghost function Passed(entries: map<string, nat>, rest: set<string>): set<nat> {
    set id | id in entries && id !in rest :: entries[id]
  }

  lemma NoneClosed(t: Table)
    ensures Passed(t.pending, t.pending.Keys) == {} && CloseSome(t, {}) == t
  {
    assert t.outcome.Keys * {} == {};
  }

  lemma OneMoreOutcome(t: Table, done: set<nat>, r: nat)
    requires r !in done
    ensures t.outcome + Closing(t, done + {r}) ==
              if r in t.outcome then t.outcome + Closing(t, done)
              else (t.outcome + Closing(t, done))[r := ConnectionClosed]
    ensures r in t.outcome + Closing(t, done) <==> r in t.outcome
  {
  }

  lemma OneMoreClosed(t: Table, done: set<nat>, r: nat)
    requires r !in done
    ensures var before := CloseSome(t, done);
            CloseSome(t, done + {r}) == Settle(before.(timers := before.timers - {r}), r, ConnectionClosed)
  {
    OneMoreOutcome(t, done, r);
    assert t.timers - (done + {r}) == t.timers - done - {r};
    if r in t.outcome {
      assert (done + {r}) * t.outcome.Keys == done * t.outcome.Keys + {r};
    } else {
      assert (done + {r}) * t.outcome.Keys == done * t.outcome.Keys;
    }
  }

  lemma NextEntry(entries: map<string, nat>, rest: set<string>, id: string)
    requires Injective(entries) && id in rest && rest <= entries.Keys
    ensures Passed(entries, rest - {id}) == Passed(entries, rest) + {entries[id]}
    ensures entries[id] !in Passed(entries, rest)
  {
  }

  ghost predicate Labelled(t: Table) {
    forall id :: id in t.pending ==> t.pending[id] < |t.sent| && t.sent[t.pending[id]] == id
  }

  lemma LabelledStep(t: Table, e: Event)
    requires Labelled(t) && Enabled(t, e)
    ensures Labelled(Step(t, e)) && Injective(t.pending)
  {
  }
}
