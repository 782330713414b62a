/** The gateway's IPC client: its request table, its reconnect discipline, and the delays between attempts. */
module IpcClients {
  import opened Prelude
  import opened PendingRequests
  import opened RequestTables
  import opened Reconnects

  datatype LinkState = Disconnected | Connecting | Online | Degraded | Reconnecting | Error | Stopping | Stopped

  // ---------- delays ----------

  /** The grown interval in milliseconds, capped at ten seconds. */
  function CappedInterval(intervalMs: real, attempt: nat): real
    requires attempt >= 1
  {
    MinReal(intervalMs * Power(1.5, attempt - 1), 10000.0)
  }

  /** Milliseconds before the given reconnect attempt, for a random draw in [0, 1). */
  function ReconnectDelay(intervalMs: real, attempt: nat, draw: real): int
    requires attempt >= 1
  {
    (CappedInterval(intervalMs, attempt) * (0.8 + draw * 0.4)).Floor
  }

  predicate Draw(x: real) {
    0.0 <= x < 1.0
  }

  /** Every draw leaves the delay at or below `most`. */
  ghost predicate NeverOver(intervalMs: real, attempt: nat, most: int)
    requires attempt >= 1
  {
    forall draw :: Draw(draw) ==> ReconnectDelay(intervalMs, attempt, draw) <= most
  }

  ghost predicate NeverUnder(intervalMs: real, attempt: nat, least: int)
    requires attempt >= 1
  {
    forall draw :: Draw(draw) ==> ReconnectDelay(intervalMs, attempt, draw) >= least
  }

  lemma Scaled(base: real, draw: real)
    requires Draw(draw)
    ensures base >= 0.0 ==> base * 0.8 <= base * (0.8 + draw * 0.4) <= base * 1.2
    ensures base > 0.0 ==> base * (0.8 + draw * 0.4) < base * 1.2
    ensures base < 0.0 ==> base * (0.8 + draw * 0.4) < 0.0
  {
    var factor := 0.8 + draw * 0.4;
    if base >= 0.0 {
      assert base * (factor - 0.8) >= 0.0;
    }
    if base > 0.0 {
      assert base * (1.2 - factor) > 0.0;
    }
    if base < 0.0 {
      assert -base * factor > 0.0;
    }
  }

  lemma ProductOrder(x: real, y: real, base: real)
    requires base > 0.0 && x <= y
    ensures x * base <= y * base
  {
  }

  lemma Between(ratio: real, base: real, target: real)
    requires base > 0.0 && target == ratio * base && base * 0.8 <= target < base * 1.2
    ensures 0.8 <= ratio < 1.2
  {
    assert (0.8 - ratio) * base == base * 0.8 - target;
    if ratio >= 1.2 {
      ProductOrder(1.2, ratio, base);
    } else if ratio < 0.8 {
      Positive(0.8 - ratio, base);
    }
  }

  /** A draw that brings the scaled base exactly to `target`. */
  lemma DrawFor(base: real, target: real) returns (draw: real)
    requires base > 0.0 && base * 0.8 <= target < base * 1.2
    ensures Draw(draw) && base * (0.8 + draw * 0.4) == target
  {
    var ratio := target / base;
    assert ratio * base == target;
    Between(ratio, base, target);
    draw := (ratio - 0.8) / 0.4;
    assert 0.8 + draw * 0.4 == ratio;
  }

  /** The ten seconds of the comment hold for every draw exactly if the capped interval is small enough for the jitter
      applied after the cap. */
  lemma TenSecondsIff(intervalMs: real, attempt: nat)
    requires attempt >= 1
    ensures NeverOver(intervalMs, attempt, 10000) <==> CappedInterval(intervalMs, attempt) * 1.2 <= 10001.0
  {
    var base := CappedInterval(intervalMs, attempt);
    if base * 1.2 <= 10001.0 {
      forall draw | Draw(draw)
        ensures ReconnectDelay(intervalMs, attempt, draw) <= 10000
      {
        Scaled(base, draw);
      }
    } else {
      var draw := DrawFor(base, 10001.0);
      assert ReconnectDelay(intervalMs, attempt, draw) == 10001;
    }
  }

  /** And its one second exactly if four fifths of the capped interval reach it. */
  lemma OneSecondIff(intervalMs: real, attempt: nat)
    requires attempt >= 1
    ensures NeverUnder(intervalMs, attempt, 1000) <==> CappedInterval(intervalMs, attempt) * 0.8 >= 1000.0
  {
    var base := CappedInterval(intervalMs, attempt);
    if base * 0.8 >= 1000.0 {
      forall draw | Draw(draw)
        ensures ReconnectDelay(intervalMs, attempt, draw) >= 1000
      {
        Scaled(base, draw);
      }
    } else {
      assert Draw(0.0) && ReconnectDelay(intervalMs, attempt, 0.0) < 1000;
    }
  }

  /** With the interval the client ships with, the first reconnect may come early and the seventh late. */
  lemma ShippedDelays()
    ensures ReconnectDelay(1000.0, 1, 0.0) == 800 && ReconnectDelay(1000.0, 7, 0.75) == 11000
  {
    assert Power(1.5, 6) == 11.390625;
  }

  /** Every delay is under twelve seconds, and at least four fifths of the interval or of ten seconds. */
  lemma DelayBounds(intervalMs: real, attempt: nat, draw: real)
    requires attempt >= 1 && intervalMs >= 0.0 && Draw(draw)
    ensures ReconnectDelay(intervalMs, attempt, draw) < 12000
    ensures (MinReal(intervalMs, 10000.0) * 0.8).Floor <= ReconnectDelay(intervalMs, attempt, draw)
  {
    PowerGrows(attempt - 1);
    var power := Power(1.5, attempt - 1);
    assert intervalMs * (power - 1.0) >= 0.0;
    assert intervalMs * power >= intervalMs;
    Scaled(CappedInterval(intervalMs, attempt), draw);
  }

  lemma {:induction false} PowerGrows(exponent: nat)
    ensures Power(1.5, exponent) >= 1.0
  {
    if exponent > 0 {
      PowerGrows(exponent - 1);
    }
  }

  // ---------- the client ----------

  class IpcClient {
    const table: RequestTable
    const link: Reconnector
    const intervalMs: real
    var state: LinkState
    var hasSocket: bool

    ghost predicate Valid()
      reads this, table
    {
      table.Valid()
    }

    constructor (intervalMs: real)
      ensures Valid() && fresh(table) && fresh(link) && this.intervalMs == intervalMs
      ensures table.AsTable() == EMPTY_TABLE && link.AsLink() == NEW_LINK && state == Disconnected && !hasSocket
    {
      table := new RequestTable();
      link := new Reconnector();
      this.intervalMs, state, hasSocket := intervalMs, Disconnected, false;
    }

    /** Requests of the client itself go out whatever the state; without a socket they wait for their timeout. */
    method SendRequestInternal(id: string, write: Write) returns (r: nat)
      requires Valid()
      modifies table
      ensures Valid() && r == |old(table.sent)|
      ensures table.AsTable() ==
                PendingRequests.Step(old(table.AsTable()), Send(id, if hasSocket then write else NoSocket))
    {
      r := table.Submit(id, if hasSocket then write else NoSocket);
    }

    /** Requests of others are refused at once, with nothing registered, unless connected. */
    method SendRequest(id: string, write: Write) returns (r: Option<nat>)
      requires Valid()
      modifies table
      ensures Valid() && (r.None? <==> state != Online)
      ensures table.AsTable() ==
                if r.None? then old(table.AsTable())
                else PendingRequests.Step(old(table.AsTable()), Send(id, if hasSocket then write else NoSocket))
    {
      if state != Online {
        return None;
      }
      var request := SendRequestInternal(id, write);
      r := Some(request);
    }

    /** Begins a connection unless there is one, or one under way. */
    method Connect()
      modifies this`state, this`hasSocket, link
      ensures var refused := old(state) in {Online, Connecting};
              && link.AsLink() == Reconnects.Step(old(link.AsLink()), Reconnects.Connect(refused))
              && state == (if refused then old(state) else Connecting)
              && hasSocket == (refused ==> old(hasSocket))
    {
      if state == Online || state == Connecting {
        return;
      }
      state := Connecting;
      hasSocket := true;
      link.BeginConnection();
    }

    /** The handshake over a fresh socket has been answered. */
    method OnHandshakeDone(accepted: bool)
      modifies this`state, link
      ensures state == (if accepted then Online else Error)
      ensures link.AsLink() == if accepted then Reconnects.Step(old(link.AsLink()), Connected) else old(link.AsLink())
    {
      if accepted {
        state := Online;
        link.OnConnected();
      } else {
        state := Error;
      }
    }

    /** The socket is gone: everything in flight is settled, and a reconnect is due unless the close was asked for. */
    method HandleSocketClose(draw: real) returns (delay: Option<int>)
      requires Valid()
      modifies this`state, this`hasSocket, table, link
      ensures Valid() && table.AsTable() == PendingRequests.Step(old(table.AsTable()), Close)
      ensures link.AsLink() == Reconnects.Step(old(link.AsLink()), SocketClosed) && !hasSocket
      ensures state == if link.isIntentionallyClosed then Stopped else if delay.Some? then Reconnecting else Degraded
      ensures delay.Some? <==> link.attempts > old(link.attempts)
      ensures delay.Some? ==> delay.value == ReconnectDelay(intervalMs, link.attempts, draw)
    {
      hasSocket := false;
      table.FailAll();
      if link.isIntentionallyClosed {
        state := Stopped;
        return None;
      }
      state := Degraded;
      delay := ScheduleReconnect(draw);
    }

    /** Arms a timer for the delay of the next attempt, unless one is remembered or the close was asked for. */
    method ScheduleReconnect(draw: real) returns (delay: Option<int>)
      modifies this`state, link
      ensures link.AsLink() == Schedule(old(link.AsLink()))
      ensures state == if delay.Some? then Reconnecting else old(state)
      ensures delay.Some? <==> link.attempts > old(link.attempts)
      ensures delay.Some? ==> delay.value == ReconnectDelay(intervalMs, link.attempts, draw)
    {
      var armed := link.ScheduleReconnect();
      if !armed {
        return None;
      }
      state := Reconnecting;
      delay := Some(ReconnectDelay(intervalMs, link.attempts, draw));
    }

    method OnReconnectTimer(timer: nat)
      requires timer in link.live
      modifies this`state, this`hasSocket, link
      ensures var refused := old(state) in {Online, Connecting};
              && link.AsLink() == Reconnects.Step(old(link.AsLink()), LinkEvent.TimerFires(timer, refused))
              && (old(link.isIntentionallyClosed) || refused ==> state == old(state) && hasSocket == old(hasSocket))
              && (!old(link.isIntentionallyClosed) && !refused ==> state == Connecting && hasSocket)
    {
      var connect := link.OnTimer(timer, state == Online || state == Connecting);
      if connect {
        state, hasSocket := Connecting, true;
      }
    }

    /** Stops for good. In-flight requests wait for the socket's close event. */
    method Disconnect()
      modifies this`state, this`hasSocket, link
      ensures link.AsLink() == Reconnects.Step(old(link.AsLink()), Reconnects.Disconnect)
      ensures state == Stopped && !hasSocket
    {
      state := Stopping;
      link.CloseOnPurpose();
      hasSocket := false;
      state := Stopped;
    }
  }
}
