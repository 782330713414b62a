/** When a client opens sockets: asked to, or by the one reconnect timer it keeps. */
module Reconnects {
  import opened Prelude

  /** `live` are the timers the runtime still holds, `handle` the one the client remembers, `made` numbers them.
      `sockets` counts the sockets opened so far. */
  datatype Link = Link(
    live: set<nat>,
    handle: Option<nat>,
    made: nat,
    closedOnPurpose: bool,
    attempts: nat,
    sockets: nat)

  const NEW_LINK := Link({}, None, 0, false, 0, 0)

  /** `refused`: there is a connection, or one under way, and asking for another has no effect. */
  datatype LinkEvent =
    | Connect(refused: bool)
    | Connected
    | SocketClosed
    | TimerFires(timer: nat, refused: bool)
    | Disconnect

  function Open(l: Link, refused: bool): Link {
    if refused then l else l.(closedOnPurpose := false, sockets := l.sockets + 1)
  }

  /** Arms a timer, unless one is remembered or the client was closed on purpose. */
  function Schedule(l: Link): Link {
    if l.handle.Some? || l.closedOnPurpose then l
    else l.(live := l.live + {l.made}, handle := Some(l.made), made := l.made + 1, attempts := l.attempts + 1)
  }

  /** Whichever timer fires, the client forgets the one it remembers. */
  function Fire(l: Link, timer: nat, refused: bool): Link {
    var fired := l.(live := l.live - {timer}, handle := None);
    if l.closedOnPurpose then fired else Open(fired, refused)
  }

  /** Clears the timer that is remembered. */
  function Stop(l: Link): Link {
    l.(closedOnPurpose := true,
       live := if l.handle.Some? then l.live - {l.handle.value} else l.live,
       handle := None)
  }

  predicate Possible(l: Link, e: LinkEvent) {
    e.TimerFires? ==> e.timer in l.live
  }

  function Step(l: Link, e: LinkEvent): Link {
    match e
    case Connect(refused) => Open(l, refused)
    case Connected => l.(attempts := 0)
    case SocketClosed => Schedule(l)
    case TimerFires(timer, refused) => Fire(l, timer, refused)
    case Disconnect => Stop(l)
  }

  ghost function Run(l: Link, es: seq<LinkEvent>): Option<Link>
    decreases |es|
  {
    if es == [] then Some(l)
    else if Possible(l, es[0]) then Run(Step(l, es[0]), es[1..])
    else None
  }

  /** The timers alive are exactly the one remembered, and none after a close on purpose. */
  ghost predicate Sole(l: Link) {
    && l.live == (if l.handle.Some? then {l.handle.value} else {})
    && (l.closedOnPurpose ==> l.handle.None?)
  }

  lemma StepKeepsSole(l: Link, e: LinkEvent)
    requires Sole(l) && Possible(l, e)
    ensures Sole(Step(l, e))
  {
  }

  lemma {:induction false} RunKeepsSole(l: Link, es: seq<LinkEvent>)
    requires Sole(l) && Run(l, es).Some?
    ensures Sole(Run(l, es).value)
    decreases |es|
  {
    if es != [] {
      StepKeepsSole(l, es[0]);
      RunKeepsSole(Step(l, es[0]), es[1..]);
    }
  }

  /** However connects, closes, timers and disconnects interleave, at most one reconnect timer is ever alive. */
  lemma OneTimerAtMost(es: seq<LinkEvent>)
    requires Run(NEW_LINK, es).Some?
    ensures |Run(NEW_LINK, es).value.live| <= 1
  {
    RunKeepsSole(NEW_LINK, es);
  }

  predicate Requested(e: LinkEvent) {
    e.Connect? && !e.refused
  }

  lemma {:induction false} SilentRun(l: Link, es: seq<LinkEvent>)
    requires Sole(l) && l.closedOnPurpose && Run(l, es).Some? && forall e :: e in es ==> !Requested(e)
    ensures var l' := Run(l, es).value;
            l'.closedOnPurpose && l'.live == {} && l'.sockets == l.sockets
    decreases |es|
  {
    if es != [] {
      assert es[0] in es && forall e :: e in es[1..] ==> e in es;
      StepKeepsSole(l, es[0]);
      SilentRun(Step(l, es[0]), es[1..]);
    }
  }

  /** After a disconnect, whatever timers and late close events are still to come, no timer is alive and
      no socket is opened until somebody asks for a connection. */
  lemma DisconnectIsFinal(before: seq<LinkEvent>, after: seq<LinkEvent>)
    requires Run(NEW_LINK, before).Some?
    requires var l := Stop(Run(NEW_LINK, before).value);
             Run(l, after).Some? && forall e :: e in after ==> !Requested(e)
    ensures var l := Stop(Run(NEW_LINK, before).value);
            Run(l, after).value.live == {} && Run(l, after).value.sockets == l.sockets
  {
    RunKeepsSole(NEW_LINK, before);
    var l := Run(NEW_LINK, before).value;
    StepKeepsSole(l, Disconnect);
    SilentRun(Stop(l), after);
  }

  /** A socket that closes brings a reconnect about, unless the client was closed on purpose: the timer is alive, and
      firing it opens a socket. */
  lemma CloseLeadsToReconnect(es: seq<LinkEvent>)
    requires Run(NEW_LINK, es).Some?
    ensures var l := Step(Run(NEW_LINK, es).value, SocketClosed);
            if l.closedOnPurpose then l.live == {}
            else l.handle.Some? && l.handle.value in l.live &&
                 Step(l, TimerFires(l.handle.value, false)).sockets == l.sockets + 1
  {
    RunKeepsSole(NEW_LINK, es);
  }

  lemma {:induction false} WantedRun(l: Link, es: seq<LinkEvent>)
    requires !l.closedOnPurpose && Run(l, es).Some? && Disconnect !in es
    ensures !Run(l, es).value.closedOnPurpose
    decreases |es|
  {
    if es != [] {
      assert es[0] in es && forall e :: e in es[1..] ==> e in es;
      WantedRun(Step(l, es[0]), es[1..]);
    }
  }

  /** Asking for a connection, even after a disconnect, brings reconnecting back: until the next disconnect every socket
      that closes leaves a live timer. */
  lemma RequestRevives(before: seq<LinkEvent>, after: seq<LinkEvent>)
    requires Run(NEW_LINK, before).Some? && Disconnect !in after
    requires Run(Step(Run(NEW_LINK, before).value, Connect(false)), after).Some?
    ensures var l := Step(Run(Step(Run(NEW_LINK, before).value, Connect(false)), after).value, SocketClosed);
            l.handle.Some? && l.live == {l.handle.value}
  {
    RunKeepsSole(NEW_LINK, before);
    var l := Step(Run(NEW_LINK, before).value, Connect(false));
    RunKeepsSole(l, after);
    WantedRun(l, after);
  }

  /** How often a run sets a timer. */
  ghost function TimersSet(l: Link, es: seq<LinkEvent>): nat
    decreases |es|
  {
    if es == [] then 0
    else (if l.live < Step(l, es[0]).live then 1 else 0) + TimersSet(Step(l, es[0]), es[1..])
  }

  /** The number of the attempt, on which the delay depends, counts the timers set since the last connection. */
  lemma AttemptsCountTimers(before: seq<LinkEvent>, after: seq<LinkEvent>)
    requires Run(NEW_LINK, before).Some? && Connected !in after
    requires Run(Step(Run(NEW_LINK, before).value, Connected), after).Some?
    ensures var l := Step(Run(NEW_LINK, before).value, Connected);
            Run(l, after).value.attempts == TimersSet(l, after)
  {
    RunKeepsSole(NEW_LINK, before);
    AttemptsFrom(Step(Run(NEW_LINK, before).value, Connected), after);
  }

  lemma {:induction false} AttemptsFrom(l: Link, es: seq<LinkEvent>)
    requires Sole(l) && Run(l, es).Some? && Connected !in es
    ensures Run(l, es).value.attempts == l.attempts + TimersSet(l, es)
    decreases |es|
  {
    if es != [] {
      var l' := Step(l, es[0]);
      assert es[0] in es && forall e :: e in es[1..] ==> e in es;
      StepKeepsSole(l, es[0]);
      assert l.live < l'.live <==> l'.attempts == l.attempts + 1;
      AttemptsFrom(l', es[1..]);
    }
  }

  /** The object that keeps it. */
  class Reconnector {
    var live: set<nat>
    var handle: Option<nat>
    var made: nat
    var isIntentionallyClosed: bool
    var attempts: nat
    ghost var sockets: nat

    ghost function AsLink(): Link
      reads this
    {
      Link(live, handle, made, isIntentionallyClosed, attempts, sockets)
    }

    constructor ()
      ensures AsLink() == NEW_LINK
    {
      live, handle, made, isIntentionallyClosed, attempts, sockets := {}, None, 0, false, 0, 0;
    }

    method BeginConnection()
      modifies this
      ensures AsLink() == Open(old(AsLink()), false)
    {
      isIntentionallyClosed := false;
      sockets := sockets + 1;
    }

    method OnConnected()
      modifies this
      ensures AsLink() == Step(old(AsLink()), Connected)
    {
      attempts := 0;
    }

    method ScheduleReconnect() returns (armed: bool)
      modifies this
      ensures AsLink() == Schedule(old(AsLink()))
      ensures armed <==> old(handle).None? && !isIntentionallyClosed
    {
      armed := handle.None? && !isIntentionallyClosed;
      if armed {
        attempts := attempts + 1;
        live, handle, made := live + {made}, Some(made), made + 1;
      }
    }

    /** A timer fires; the caller connects if it may. */
    method OnTimer(timer: nat, refused: bool) returns (connect: bool)
      requires timer in live
      modifies this
      ensures AsLink() == Step(old(AsLink()), TimerFires(timer, refused))
      ensures connect <==> !old(isIntentionallyClosed) && !refused
    {
      live, handle := live - {timer}, None;
      connect := !isIntentionallyClosed && !refused;
      if connect {
        BeginConnection();
      }
    }

    method CloseOnPurpose()
      modifies this
      ensures AsLink() == Step(old(AsLink()), Disconnect)
    {
      isIntentionallyClosed := true;
      if handle.Some? {
        live, handle := live - {handle.value}, None;
      }
    }
  }
}
