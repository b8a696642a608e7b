/** The WebSocket gateway that counts online visitors. The stored count is
    the `ONLINE_COUNT` configuration entry; the `emitted` log records, in
    order, what the server broadcast to all clients. */
module OnlineCounter {

  datatype Emission =
    | OnlineCount(count: int)   // event 'onlineCount' with payload { count }
    | Reply(count: int)         // event 'reply' with "broadcasting online count <count>..."

  /** The three events the gateway reacts to. */
  datatype GatewayEvent = Connect | Disconnect | Message

  /** The gateway state as the handlers see it. */
  datatype GatewayState = GatewayState(count: int, emitted: seq<Emission>)

  function Max(a: int, b: int): int { if a >= b then a else b }

  /** One handler run, as a function of the state before it. */
  function Step(s: GatewayState, e: GatewayEvent): GatewayState {
    match e
    case Connect =>
      var count := s.count + 1;
      GatewayState(count, s.emitted + [OnlineCount(count)])
    case Disconnect =>
      var count := Max(0, s.count - 1);
      GatewayState(count, s.emitted + [OnlineCount(count)])
    case Message =>
      var count := s.count + 1;
      GatewayState(count, s.emitted + [Reply(count)])
  }

  /** The handlers run one after another over a sequence of events. */
  function Replay(s: GatewayState, events: seq<GatewayEvent>): GatewayState
    decreases |events|
  {
    if events == [] then s else Step(Replay(s, events[..|events| - 1]), events[|events| - 1])
  }

  function CountOf(events: seq<GatewayEvent>, e: GatewayEvent): nat
    decreases |events|
  {
    if events == [] then 0
    else CountOf(events[..|events| - 1], e) + (if events[|events| - 1] == e then 1 else 0)
  }

  function Broadcasts(emitted: seq<Emission>): nat
    decreases |emitted|
  {
    if emitted == [] then 0
    else Broadcasts(emitted[..|emitted| - 1]) + (if emitted[|emitted| - 1].OnlineCount? then 1 else 0)
  }

  /** Starting from a non-negative count, every sequence of events keeps it
      non-negative, and every emission carries a non-negative count. */
  lemma {:induction false} ReplayKeepsNonNegative(s: GatewayState, events: seq<GatewayEvent>)
    requires s.count >= 0 && forall i :: 0 <= i < |s.emitted| ==> s.emitted[i].count >= 0
    ensures var s' := Replay(s, events);
      s'.count >= 0 && forall i :: 0 <= i < |s'.emitted| ==> s'.emitted[i].count >= 0
    decreases |events|
  {
    if events != [] {
      ReplayKeepsNonNegative(s, events[..|events| - 1]);
    }
  }

  /** The count never falls below the starting count plus the increments
      minus the decrements (the clamp at 0 only ever raises it). */
  lemma {:induction false} ReplayCountLowerBound(s: GatewayState, events: seq<GatewayEvent>)
    ensures Replay(s, events).count >= s.count + CountOf(events, Connect) + CountOf(events, Message) - CountOf(events, Disconnect)
    decreases |events|
  {
    if events != [] {
      ReplayCountLowerBound(s, events[..|events| - 1]);
    }
  }

  /** Connects and disconnects broadcast `onlineCount`; messages do not. */
  lemma {:induction false} ReplayBroadcasts(s: GatewayState, events: seq<GatewayEvent>)
    ensures Broadcasts(Replay(s, events).emitted) == Broadcasts(s.emitted) + CountOf(events, Connect) + CountOf(events, Disconnect)
    ensures |Replay(s, events).emitted| == |s.emitted| + |events|
    decreases |events|
  {
    if events != [] {
      var init := events[..|events| - 1];
      ReplayBroadcasts(s, init);
      var mid := Replay(s, init);
      var s' := Step(mid, events[|events| - 1]);
      assert s'.emitted[..|s'.emitted| - 1] == mid.emitted;
    }
  }

  /** From any n >= 0, a connect followed by a disconnect restores n. */
  lemma ConnectThenDisconnect(s: GatewayState)
    requires s.count >= 0
    ensures Replay(s, [Connect, Disconnect]).count == s.count
  {
  }

  class OnlineCounterGateway {
    var count: int
    var emitted: seq<Emission>

    function State(): GatewayState
      reads this
    {
      GatewayState(count, emitted)
    }

    constructor (initialCount: int)
      ensures count == initialCount && emitted == []
    {
      count := initialCount;
      emitted := [];
    }

    /** Increments the count and broadcasts the new value. */
    method HandleConnection()
      modifies this
      ensures State() == Step(old(State()), Connect)
      ensures count == old(count) + 1 && emitted == old(emitted) + [OnlineCount(count)]
    {
      var n := count;
      n := n + 1;
      count := n;
      BroadcastCount(n);
    }

    /** Decrements the count, never below 0, and broadcasts the new value. */
    method HandleDisconnect()
      modifies this
      ensures State() == Step(old(State()), Disconnect)
      ensures count == Max(0, old(count) - 1) && emitted == old(emitted) + [OnlineCount(count)]
    {
      var n := count;
      n := n - 1;
      n := Max(0, n);
      count := n;
      BroadcastCount(n);
    }

    /** A 'message' event increments the count too, but only emits 'reply'. */
    method HandleMessage()
      modifies this
      ensures State() == Step(old(State()), Message)
      ensures count == old(count) + 1 && emitted == old(emitted) + [Reply(count)]
    {
      var n := count;
      n := n + 1;
      count := n;
      emitted := emitted + [Reply(n)];
    }

    method BroadcastCount(n: int)
      modifies this`emitted
      ensures emitted == old(emitted) + [OnlineCount(n)]
    {
      emitted := emitted + [OnlineCount(n)];
    }
  }
}
