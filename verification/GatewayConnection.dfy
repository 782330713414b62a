/** The desktop's gateway connection: the same table and link under a WebSocket, which reports no writes. */
module GatewayConnections {
  import opened Prelude
  import opened PendingRequests
  import opened RequestTables
  import opened Reconnects

  class GatewayConnection {
    const table: RequestTable
    const link: Reconnector
    var hasSocket: bool
    var isOpen: bool

    ghost predicate Valid()
      reads this, table
    {
      table.Valid() && (isOpen ==> hasSocket)
    }

    constructor ()
      ensures Valid() && fresh(table) && fresh(link)
      ensures table.AsTable() == EMPTY_TABLE && link.AsLink() == NEW_LINK && !hasSocket
    {
      table := new RequestTable();
      link := new Reconnector();
      hasSocket, isOpen := false, false;
    }

    /** Opens another socket unless the present one is open. */
    method Connect()
      requires Valid()
      modifies this`hasSocket, this`isOpen, link
      ensures Valid()
      ensures link.AsLink() == Reconnects.Step(old(link.AsLink()), Reconnects.Connect(old(isOpen)))
      ensures hasSocket && isOpen == old(isOpen)
    {
      if isOpen {
        return;
      }
      link.BeginConnection();
      hasSocket := true;
    }

    /** The present socket has opened. */
    method OnOpen()
      requires Valid() && hasSocket
      modifies this`isOpen, link
      ensures Valid() && isOpen && link.AsLink() == Reconnects.Step(old(link.AsLink()), Connected)
    {
      isOpen := true;
      link.OnConnected();
    }

    /** Resolves at once as offline, touching nothing, unless the socket is open. */
    method SendRequest(id: string, throws: bool) returns (r: Option<nat>)
      requires Valid()
      modifies table
      ensures Valid() && (r.None? <==> !isOpen)
      ensures table.AsTable() ==
                if r.None? then old(table.AsTable())
                else PendingRequests.Step(old(table.AsTable()), Send(id, if throws then Throws else NoSocket))
    {
      if !isOpen {
        return None;
      }
      var request := table.Submit(id, if throws then Throws else NoSocket);
      r := Some(request);
    }

    /** The socket is gone: everything in flight is settled, and a reconnect is due unless asked to stop. */
    method HandleClose()
      requires Valid()
      modifies this`hasSocket, this`isOpen, table, link
      ensures Valid() && !hasSocket && table.AsTable() == PendingRequests.Step(old(table.AsTable()), Close)
      ensures link.AsLink() == Reconnects.Step(old(link.AsLink()), SocketClosed)
    {
      hasSocket, isOpen := false, false;
      table.FailAll();
      var _ := link.ScheduleReconnect();
    }

    method OnReconnectTimer(timer: nat)
      requires Valid() && timer in link.live
      modifies this`hasSocket, link
      ensures Valid() && link.AsLink() == Reconnects.Step(old(link.AsLink()), LinkEvent.TimerFires(timer, isOpen))
      ensures hasSocket <==> old(hasSocket) || !old(link.isIntentionallyClosed)
    {
      var connect := link.OnTimer(timer, isOpen);
      if connect {
        hasSocket := true;
      }
    }

    /** Unlike the IPC client, settles everything in flight at once. */
    method Disconnect()
      requires Valid()
      modifies this`hasSocket, this`isOpen, table, link
      ensures Valid() && !hasSocket && table.AsTable() == PendingRequests.Step(old(table.AsTable()), Close)
      ensures link.AsLink() == Reconnects.Step(old(link.AsLink()), Reconnects.Disconnect)
    {
      link.CloseOnPurpose();
      table.FailAll();
      hasSocket, isOpen := false, false;
    }
  }

  /** New requests have ids that are not in flight, and no write reports back. */
  ghost predicate DistinctInFlight(t: Table, es: seq<Event>)
    decreases |es|
  {
    es == [] || (
      && (es[0].Send? ==> es[0].id !in t.pending && es[0].write != Queued)
      && (Enabled(t, es[0]) ==> DistinctInFlight(PendingRequests.Step(t, es[0]), es[1..])))
  }

  /** Without write callbacks, distinct ids among the requests in flight are all it takes: every reachable table is
      exact, and no promise is ever settled twice. */
  lemma {:induction false} InFlightStaysExact(t: Table, es: seq<Event>)
    requires Exact(t) && t.writes == {} && DistinctInFlight(t, es) && PendingRequests.Run(t, es).Some?
    ensures Exact(PendingRequests.Run(t, es).value)
    ensures PendingRequests.Run(t, es).value.resettled == t.resettled
    decreases |es|
  {
    if es != [] {
      SafeStepKeepsExact(t, es[0]);
      ResettlesExactly(t, es[0]);
      InFlightStaysExact(PendingRequests.Step(t, es[0]), es[1..]);
    }
  }
}
