/**
 * The connection state of `setupBackend` (src/core/backend.ts): the chat service opens two
 * sockets, '/main/' and '/boto/'; once both are registered the backend is created and the
 * setup promise resolves, and a 30-second timer rejects it if it is still pending. Sockets,
 * the server and the timer are outside the model: connections are numbered and the timer's
 * expiry is an event.
 */
module BackendSetup {
  import opened Wrappers

  type ConnectionId = nat

  datatype PromiseState = Pending | Resolved | Rejected(reason: string)

  const TimeoutReason: string := "backend connection timeout"

  /** What reaches the setup: a connection with its request URL, or the timer's expiry. */
  datatype SetupEvent = Connect(id: ConnectionId, url: string) | Timeout

  /** A backend over its main and bot connections. */
  datatype BackendLink = BackendLink(main: ConnectionId, boto: ConnectionId)

  /**
   * The module-level connection slots, the backend last created, the promise and the
   * connections given a message handler, in order.
   */
  datatype Setup = Setup(main: Option<ConnectionId>, boto: Option<ConnectionId>, backend: Option<BackendLink>,
                         promise: PromiseState, handlers: seq<ConnectionId>)

  const Initial: Setup := Setup(None, None, None, Pending, [])

  /** Settling a promise that is already settled does nothing. */
  function Settle(p: PromiseState, outcome: PromiseState): PromiseState {
    if p.Pending? then outcome else p
  }

  /** One event, as the connection handler and the timer callback treat it. */
  function Step(s: Setup, e: SetupEvent): Setup {
    match e
    case Timeout => s.(promise := Settle(s.promise, Rejected(TimeoutReason)))
    case Connect(id, url) =>
      var main := if url == "/main/" then Some(id) else s.main;
      var boto := if url == "/boto/" then Some(id) else s.boto;
      var both := main.Some? && boto.Some?;
      Setup(main, boto,
            if both then Some(BackendLink(main.value, boto.value)) else s.backend,
            if both then Settle(s.promise, Resolved) else s.promise,
            s.handlers + [id])
  }

  /** The state after a sequence of events. */
  function Run(s: Setup, events: seq<SetupEvent>): Setup
    decreases |events|
  {
    if events == [] then s else Step(Run(s, events[..|events| - 1]), events[|events| - 1])
  }

  /** Whether some connection arrived with the URL. */
  predicate Seen(events: seq<SetupEvent>, url: string) {
    exists i | 0 <= i < |events| :: events[i].Connect? && events[i].url == url
  }

  /** The events before the first expiry of the timer. */
  function UntilTimeout(events: seq<SetupEvent>): (r: seq<SetupEvent>)
    ensures r <= events && Timeout !in r
    ensures Timeout !in events ==> r == events
    decreases |events|
  {
    if events == [] then []
    else
      var front := events[..|events| - 1];
      if Timeout in front then UntilTimeout(front)
      else if events[|events| - 1] == Timeout then front
      else events
  }

  /** A slot is filled exactly when a connection with its URL has arrived. */
  lemma {:induction false} SlotsFollowUrls(events: seq<SetupEvent>)
    ensures Run(Initial, events).main.Some? <==> Seen(events, "/main/")
    ensures Run(Initial, events).boto.Some? <==> Seen(events, "/boto/")
    decreases |events|
  {
    if events != [] {
      var front := events[..|events| - 1];
      var last := events[|events| - 1];
      SlotsFollowUrls(front);
      assert forall i | 0 <= i < |front| :: front[i] == events[i];
      assert Seen(events, "/main/") <==> Seen(front, "/main/") || (last.Connect? && last.url == "/main/");
      assert Seen(events, "/boto/") <==> Seen(front, "/boto/") || (last.Connect? && last.url == "/boto/");
    }
  }

  /**
   * The setup resolves exactly when both '/main/' and '/boto/' connected before the timer
   * expired, is rejected exactly when the timer expired first, and is pending otherwise.
   */
  lemma {:induction false} ResolvesIffBothBeforeTimeout(events: seq<SetupEvent>)
    ensures var p := Run(Initial, events).promise;
      var early := UntilTimeout(events);
      && (p == Resolved <==> Seen(early, "/main/") && Seen(early, "/boto/"))
      && (p == Rejected(TimeoutReason) <==> Timeout in events && !(Seen(early, "/main/") && Seen(early, "/boto/")))
      && (p == Pending <==> Timeout !in events && !(Seen(early, "/main/") && Seen(early, "/boto/")))
    decreases |events|
  {
    if events != [] {
      var front := events[..|events| - 1];
      var last := events[|events| - 1];
      ResolvesIffBothBeforeTimeout(front);
      SlotsFollowUrls(events);
      assert events == front + [last];
      assert forall i | 0 <= i < |front| :: front[i] == events[i];
      assert Timeout in events <==> Timeout in front || last == Timeout;
      if Timeout !in front {
        assert UntilTimeout(front) == front;
        if last.Connect? {
          assert UntilTimeout(events) == events;
        }
      }
    }
  }

  /** A backend exists once both slots are filled, and is built from them. */
  lemma {:induction false} BackendUsesFilledSlots(events: seq<SetupEvent>)
    ensures var s := Run(Initial, events);
      s.backend.Some? <==> s.main.Some? && s.boto.Some?
    ensures var s := Run(Initial, events);
      s.backend.Some? && events != [] && events[|events| - 1].Connect? ==>
        s.backend.value == BackendLink(s.main.value, s.boto.value)
    decreases |events|
  {
    if events != [] {
      BackendUsesFilledSlots(events[..|events| - 1]);
    }
  }

  /** The module-level state of `setupBackend` and its two callbacks. */
  class SetupServer {
    var main: Option<ConnectionId>
    var boto: Option<ConnectionId>
    var backend: Option<BackendLink>
    var promise: PromiseState
    var handlers: seq<ConnectionId>

    ghost function State(): Setup
      reads this
    {
      Setup(main, boto, backend, promise, handlers)
    }

    constructor ()
      ensures State() == Initial
    {
      main := None;
      boto := None;
      backend := None;
      promise := Pending;
      handlers := [];
    }

    /** The server's connection callback. */
    method OnConnection(id: ConnectionId, url: string)
      modifies this
      ensures State() == Step(old(State()), Connect(id, url))
    {
      if url == "/main/" {
        main := Some(id);
      } else if url == "/boto/" {
        boto := Some(id);
      }
      if main.Some? && boto.Some? {
        backend := Some(BackendLink(main.value, boto.value));
        if promise.Pending? {
          promise := Resolved;
        }
      }
      handlers := handlers + [id];
    }

    /** The timer's callback. */
    method OnTimeout()
      modifies this
      ensures State() == Step(old(State()), Timeout)
    {
      if promise.Pending? {
        promise := Rejected(TimeoutReason);
      }
    }
  }
}
