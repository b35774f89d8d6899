/** The Discord gateway client itself: handlers that update its fields, each proved against the
    state machine of `GatewayProtocol`. */
module GatewayClient {
  import opened Prelude
  import opened GatewayProtocol

  class DiscordGatewayClient {
    const options: Options
    var socket: Socket
    var heartbeat: bool
    var lastSeq: Option<int>
    var sessionId: Option<string>
    var resumeGatewayUrl: Option<string>
    var closed: bool
    var fatal: bool
    var reconnectAttempts: nat
    var reconnectTimer: Option<bool>
    var resumePending: bool
    var connected: bool
    /** What the client has done to the outside: frames sent, sockets opened, reconnects scheduled. */
    var effects: seq<Output>

    ghost function State(): Client
      reads this
    {
      Client(socket, heartbeat, lastSeq, sessionId, resumeGatewayUrl, closed, fatal, reconnectAttempts,
             reconnectTimer, resumePending, connected)
    }

    constructor (options: Options)
      ensures this.options == options && State() == NEW && effects == []
    {
      this.options := options;
      socket, heartbeat, lastSeq, sessionId, resumeGatewayUrl := NoSocket, false, None, None, None;
      closed, fatal, reconnectAttempts, reconnectTimer := false, false, 0, None;
      resumePending, connected, effects := false, false, [];
    }

    method OpenSocket(resuming: bool)
      modifies this
      ensures State() == GatewayProtocol.OpenSocket(old(State()), resuming)
      ensures effects == Did(old(effects), OpenOutput(options, old(State()), resuming))
    {
      if closed || fatal {
        return;
      }
      var url := options.url;
      if resuming && resumeGatewayUrl.Some? && resumeGatewayUrl.value != "" {
        url := resumeGatewayUrl.value;
      }
      resumePending := resuming;
      socket := Connecting;
      effects := effects + [Opened(resuming, url)];
    }

    method Cleanup()
      modifies this`heartbeat
      ensures !heartbeat
    {
      heartbeat := false;
    }

    method SendFrame(frame: Frame)
      modifies this`effects
      ensures effects == Did(old(effects), Send(State(), frame))
    {
      if socket.Live? {
        effects := effects + [Sent(frame)];
      }
    }

    method CloseWebSocket()
      modifies this`socket
      ensures State() == GatewayProtocol.CloseSocket(old(State()))
    {
      if socket.Connecting? || socket.Live? || socket.Closing? {
        socket := Closing;
      }
    }

    /** One second, doubled once per failed attempt up to five times, under the configured cap. */
    method NextBackoffDelayMs() returns (delayMs: int)
      ensures delayMs == Backoff(reconnectAttempts, options.maxReconnectDelayMs)
    {
      var exponent := if reconnectAttempts < 5 then reconnectAttempts else 5;
      var base := 1000 * Pow2(exponent);
      delayMs := if base < options.maxReconnectDelayMs then base else options.maxReconnectDelayMs;
    }

    method HandleClose(code: int)
      modifies this
      ensures State() == GatewayProtocol.HandleClose(options, old(State()), code)
      ensures effects == Did(old(effects), CloseOutput(options, old(State()), code))
    {
      socket := Dead;
      Cleanup();
      if closed {
        return;
      }
      if FatalCode(code) {
        fatal := true;
        return;
      }
      var resumable := !NonResumable(code) && sessionId.Some?;
      if !resumable {
        sessionId, resumeGatewayUrl, lastSeq := None, None, None;
      }
      if !options.autoReconnect {
        return;
      }
      var delay := NextBackoffDelayMs();
      effects := effects + [Scheduled(reconnectAttempts, delay)];
      reconnectAttempts := reconnectAttempts + 1;
      reconnectTimer := Some(resumable);
    }

    method HandleHello()
      modifies this
      ensures State() == old(State()).(heartbeat := true)
      ensures effects == Did(old(effects), MessageOutput(old(State()), Message(None, Hello)))
    {
      heartbeat := true;
      if resumePending && sessionId.Some? && lastSeq.Some? {
        SendFrame(Resume(sessionId.value, lastSeq.value));
      } else {
        SendFrame(Identify);
      }
    }

    method HandleReady(session: Option<string>, url: Option<string>)
      modifies this
      ensures State() == GatewayProtocol.HandleMessage(old(State()), Message(None, Ready(session, url)))
      ensures effects == old(effects)
    {
      if session.Some? {
        sessionId := session;
      }
      resumeGatewayUrl := url;
      reconnectAttempts := 0;
    }

    method HandleInvalidSession(resumable: bool)
      modifies this
      ensures State() == GatewayProtocol.HandleMessage(old(State()), Message(None, InvalidSession(resumable)))
      ensures effects == old(effects)
    {
      if !resumable {
        sessionId, resumeGatewayUrl, lastSeq := None, None, None;
      }
      CloseWebSocket();
    }

    method HandleMessage(m: Message)
      modifies this
      ensures State() == GatewayProtocol.HandleMessage(old(State()), m)
      ensures effects == Did(old(effects), MessageOutput(old(State()), m))
    {
      if m.seqNo.Some? {
        lastSeq := m.seqNo;
      }
      match m.payload
      case Hello => HandleHello();
      case HeartbeatRequest => SendFrame(Heartbeat(lastSeq));
      case Ready(session, url) => HandleReady(session, url);
      case Resumed => reconnectAttempts := 0;
      case ReconnectRequest => CloseWebSocket();
      case InvalidSession(resumable) => HandleInvalidSession(resumable);
      case _ =>
    }

    method Close()
      modifies this
      ensures State() == HandleUserClose(old(State())) && effects == old(effects)
    {
      closed := true;
      reconnectTimer := None;
      Cleanup();
      CloseWebSocket();
    }

    /** The timer callback: the timer is forgotten before the socket is opened. */
    method FireTimer()
      requires reconnectTimer.Some?
      modifies this
      ensures State() == Next(options, old(State()), TimerFired)
      ensures effects == Did(old(effects), Emits(options, old(State()), TimerFired))
    {
      var resuming := reconnectTimer.value;
      reconnectTimer := None;
      OpenSocket(resuming);
    }

    /** One event, given to its handler. */
    method Handle(e: Event)
      requires Enabled(State(), e)
      modifies this
      ensures State() == Next(options, old(State()), e)
      ensures effects == Did(old(effects), Emits(options, old(State()), e))
    {
      match e
      case Connect =>
        connected := true;
        OpenSocket(false);
      case SocketOpened => socket := Live;
      case Received(m) => HandleMessage(m);
      case Garbled =>
      case SocketClosed(code) => HandleClose(code);
      case TimerFired => FireTimer();
      case UserClose => Close();
    }
  }

  /** What has been done after one more handler call. */
  function Did(before: seq<Output>, output: Output): seq<Output> {
    if output == Nothing then before else before + [output]
  }

  /** Everything done in a run. */
  function EffectsOf(o: Options, events: seq<Event>): seq<Output> {
    if events == [] then []
    else
      var n := |events| - 1;
      Did(EffectsOf(o, events[..n]), OutputAt(o, events, n))
  }

  /** A client that is given a legal run of events ends in the state, and has done the things, that
      the state machine says. */
  method Drive(o: Options, events: seq<Event>) returns (client: DiscordGatewayClient)
    requires Legal(o, events)
    ensures fresh(client) && client.options == o
    ensures client.State() == Run(o, events) && client.effects == EffectsOf(o, events)
  {
    client := new DiscordGatewayClient(o);
    for k := 0 to |events|
      invariant fresh(client) && client.options == o
      invariant client.State() == Run(o, events[..k]) && client.effects == EffectsOf(o, events[..k])
    {
      RunStep(o, events, k);
      assert events[..k + 1][..k] == events[..k];
      client.Handle(events[k]);
    }
    assert events[..|events|] == events;
  }
}
