/** The Discord gateway client as a state machine over its events: connecting, resuming, backing off. */
module GatewayProtocol {
  import opened Prelude

  /** Life of the client's current socket. Between `Closing` and `Dead` frames may still arrive. */
  datatype Socket = NoSocket | Connecting | Live | Closing | Dead

  datatype Payload =
    | Hello
    | HeartbeatAck
    | HeartbeatRequest
    | Ready(session: Option<string>, resumeUrl: Option<string>)
    | Resumed
    | OtherDispatch
    | ReconnectRequest
    | InvalidSession(resumable: bool)
    | Unknown

  /** A frame that parses, with its sequence number if it carries one. */
  datatype Message = Message(seqNo: Option<int>, payload: Payload)

  datatype Event =
    | Connect
    | SocketOpened
    | Received(message: Message)
    | Garbled
    | SocketClosed(code: int)
    | TimerFired
    | UserClose

  datatype Frame = Identify | Resume(session: string, seqNo: int) | Heartbeat(lastSeq: Option<int>)

  datatype Options = Options(url: string, autoReconnect: bool, maxReconnectDelayMs: int)

  /** What an event makes the client do: send a frame, open a socket, or schedule a reconnect. */
  datatype Output =
    | Nothing
    | Sent(frame: Frame)
    | Opened(resuming: bool, url: string)
    | Scheduled(attempts: nat, delayMs: int)

  /** The client's fields. `timer` holds whether the pending reconnect is to resume. */
  datatype Client = Client(
    socket: Socket,
    heartbeat: bool,
    lastSeq: Option<int>,
    sessionId: Option<string>,
    resumeUrl: Option<string>,
    closed: bool,
    fatal: bool,
    reconnectAttempts: nat,
    timer: Option<bool>,
    resumePending: bool,
    connected: bool)

  const NEW: Client := Client(NoSocket, false, None, None, None, false, false, 0, None, false, false)

  predicate NonResumable(code: int) {
    code == 4007 || code == 4009
  }

  predicate FatalCode(code: int) {
    code == 4004 || (4010 <= code <= 4014)
  }

  function Pow2(n: nat): nat {
    if n == 0 then 1 else 2 * Pow2(n - 1)
  }

  /** One second doubled per attempt, five times at most, under the configured cap. */
  function Backoff(attempts: nat, maxReconnectDelayMs: int): int {
    var base := 1000 * Pow2(if attempts < 5 then attempts else 5);
    if base < maxReconnectDelayMs then base else maxReconnectDelayMs
  }

  predicate IsLive(s: Socket) {
    s.Connecting? || s.Live? || s.Closing?
  }

  // ----- Handlers: the new fields, and the output -----

  /** Frames go out on an open socket only. */
  function Send(c: Client, frame: Frame): Output {
    if c.socket.Live? then Sent(frame) else Nothing
  }

  function OpenSocket(c: Client, resuming: bool): Client {
    if c.closed || c.fatal then c else c.(resumePending := resuming, socket := Connecting)
  }

  function OpenOutput(o: Options, c: Client, resuming: bool): Output {
    if c.closed || c.fatal then Nothing
    else Opened(resuming, if resuming && c.resumeUrl.Some? && c.resumeUrl.value != "" then c.resumeUrl.value else o.url)
  }

  function DropSession(c: Client): Client {
    c.(sessionId := None, resumeUrl := None, lastSeq := None)
  }

  predicate CanResume(c: Client, code: int) {
    !NonResumable(code) && c.sessionId.Some?
  }

  function HandleClose(o: Options, c: Client, code: int): Client {
    var c1 := c.(socket := Dead, heartbeat := false);
    if c.closed then c1
    else if FatalCode(code) then c1.(fatal := true)
    else
      var c2 := if CanResume(c, code) then c1 else DropSession(c1);
      if o.autoReconnect
      then c2.(reconnectAttempts := c.reconnectAttempts + 1, timer := Some(CanResume(c, code)))
      else c2
  }

  function CloseOutput(o: Options, c: Client, code: int): Output {
    if c.closed || FatalCode(code) || !o.autoReconnect then Nothing
    else Scheduled(c.reconnectAttempts, Backoff(c.reconnectAttempts, o.maxReconnectDelayMs))
  }

  function CloseSocket(c: Client): Client {
    if IsLive(c.socket) then c.(socket := Closing) else c
  }

  /** The sequence number is looked at first, whatever the frame. */
  function NoteSeq(c: Client, m: Message): Client {
    if m.seqNo.Some? then c.(lastSeq := m.seqNo) else c
  }

  function HandleMessage(c: Client, m: Message): Client {
    var c1 := NoteSeq(c, m);
    match m.payload
    case Hello => c1.(heartbeat := true)
    case Ready(session, url) =>
      c1.(sessionId := if session.Some? then session else c.sessionId, resumeUrl := url, reconnectAttempts := 0)
    case Resumed => c1.(reconnectAttempts := 0)
    case ReconnectRequest => CloseSocket(c1)
    case InvalidSession(resumable) => CloseSocket(if resumable then c1 else DropSession(c1))
    case _ => c1
  }

  function MessageOutput(c: Client, m: Message): Output {
    var c1 := NoteSeq(c, m);
    match m.payload
    case Hello =>
      if c1.resumePending && c1.sessionId.Some? && c1.lastSeq.Some?
      then Send(c1, Resume(c1.sessionId.value, c1.lastSeq.value))
      else Send(c1, Identify)
    case HeartbeatRequest => Send(c1, Heartbeat(c1.lastSeq))
    case _ => Nothing
  }

  function HandleUserClose(c: Client): Client {
    CloseSocket(c.(closed := true, timer := None, heartbeat := false))
  }

  function Next(o: Options, c: Client, e: Event): Client {
    match e
    case Connect => OpenSocket(c.(connected := true), false)
    case SocketOpened => c.(socket := Live)
    case Received(m) => HandleMessage(c, m)
    case Garbled => c
    case SocketClosed(code) => HandleClose(o, c, code)
    case TimerFired => OpenSocket(c.(timer := None), c.timer == Some(true))
    case UserClose => HandleUserClose(c)
  }

  function Emits(o: Options, c: Client, e: Event): Output {
    match e
    case Connect => OpenOutput(o, c, false)
    case Received(m) => MessageOutput(c, m)
    case SocketClosed(code) => CloseOutput(o, c, code)
    case TimerFired => OpenOutput(o, c, c.timer == Some(true))
    case _ => Nothing
  }

  /** `connect` is called once; a socket opens once, delivers while it lives and closes once. */
  predicate Enabled(c: Client, e: Event) {
    match e
    case Connect => !c.connected
    case SocketOpened => c.socket.Connecting?
    case Received(_) => IsLive(c.socket)
    case Garbled => IsLive(c.socket)
    case SocketClosed(_) => IsLive(c.socket)
    case TimerFired => c.timer.Some?
    case UserClose => true
  }

  /** The client after a run. */
  function Run(o: Options, events: seq<Event>): Client {
    if events == [] then NEW
    else Next(o, Run(o, events[..|events| - 1]), events[|events| - 1])
  }

  /** What the client does on event `k` of a run. */
  function OutputAt(o: Options, events: seq<Event>, k: nat): Output
    requires k < |events|
  {
    Emits(o, Run(o, events[..k]), events[k])
  }

  /** Every event of the run could happen when it did. */
  ghost predicate Legal(o: Options, events: seq<Event>) {
    forall k {:trigger Run(o, events[..k])} | 0 <= k < |events| :: Enabled(Run(o, events[..k]), events[k])
  }

  // ----- Resuming -----

  predicate DropsSession(e: Event) {
    (e.Received? && e.message.payload == InvalidSession(false)) || (e.SocketClosed? && NonResumable(e.code))
  }

  predicate StartsSession(e: Event) {
    e.Received? && e.message.payload.Ready? && e.message.payload.session.Some?
  }

  predicate CarriesSeq(e: Event) {
    e.Received? && e.message.seqNo.Some?
  }

  /** Before event `n`, `session` is that of the latest READY that has one, and nothing has dropped it. */
  ghost predicate SessionHeld(events: seq<Event>, n: nat, session: string) {
    exists k :: 0 <= k < n && k < |events| && ReadyAt(events, n, session, k)
  }

  ghost predicate ReadyAt(events: seq<Event>, n: nat, session: string, k: nat)
    requires k < |events|
  {
    && StartsSession(events[k]) && events[k].message.payload.session == Some(session)
    && forall j | k < j < n && j < |events| :: !DropsSession(events[j]) && !StartsSession(events[j])
  }

  /** Before the end of event `n`, `seqNo` is the last number seen, and seen since the last drop. */
  ghost predicate SeqHeld(events: seq<Event>, n: nat, seqNo: int) {
    exists k :: 0 <= k < n && k < |events| && SeqAt(events, n, seqNo, k)
  }

  ghost predicate SeqAt(events: seq<Event>, n: nat, seqNo: int, k: nat)
    requires k < |events|
  {
    && CarriesSeq(events[k]) && events[k].message.seqNo == Some(seqNo)
    && !DropsSession(events[k])
    && forall j | k < j < n && j < |events| :: !DropsSession(events[j]) && !CarriesSeq(events[j])
  }

  ghost predicate Memory(c: Client, events: seq<Event>) {
    !c.closed && !c.fatal ==>
      && (c.sessionId.Some? ==> SessionHeld(events, |events|, c.sessionId.value))
      && (c.lastSeq.Some? ==> SeqHeld(events, |events|, c.lastSeq.value))
  }

  lemma SessionLater(events: seq<Event>, e: Event, session: string)
    requires SessionHeld(events, |events|, session) && !DropsSession(e) && !StartsSession(e)
    ensures SessionHeld(events + [e], |events| + 1, session)
  {
    var k :| 0 <= k < |events| && ReadyAt(events, |events|, session, k);
    assert ReadyAt(events + [e], |events| + 1, session, k);
  }

  lemma SeqLater(events: seq<Event>, e: Event, seqNo: int)
    requires SeqHeld(events, |events|, seqNo) && !DropsSession(e) && !CarriesSeq(e)
    ensures SeqHeld(events + [e], |events| + 1, seqNo)
  {
    var k :| 0 <= k < |events| && SeqAt(events, |events|, seqNo, k);
    assert SeqAt(events + [e], |events| + 1, seqNo, k);
  }

  /** The sequence number held after the sequence field of an event has been looked at. */
  lemma SeqNow(events: seq<Event>, e: Event, before: Option<int>)
    requires before.Some? ==> SeqHeld(events, |events|, before.value)
    requires !DropsSession(e)
    ensures var now := if CarriesSeq(e) then e.message.seqNo else before;
            now.Some? ==> SeqHeld(events + [e], |events| + 1, now.value)
  {
    if CarriesSeq(e) {
      assert SeqAt(events + [e], |events| + 1, e.message.seqNo.value, |events|);
    } else if before.Some? {
      SeqLater(events, e, before.value);
    }
  }

  /** Where the session and the number held after an event come from. */
  lemma WhatIsHeld(o: Options, c: Client, e: Event)
    requires !c.closed && !c.fatal
    ensures var r := Next(o, c, e);
            && (r.sessionId.Some? || (!r.fatal && r.lastSeq.Some?) ==> !DropsSession(e))
            && (r.sessionId.Some? ==>
                  r.sessionId == if StartsSession(e) then e.message.payload.session else c.sessionId)
            && (!r.fatal && r.lastSeq.Some? ==>
                  r.lastSeq == if CarriesSeq(e) then e.message.seqNo else c.lastSeq)
  {
    match e
    case Received(m) => MessageHolds(c, m);
    case _ =>
  }

  lemma MessageHolds(c: Client, m: Message)
    ensures var r := HandleMessage(c, m);
            if m.payload == InvalidSession(false) then r.sessionId == None && r.lastSeq == None
            else
              && r.lastSeq == (if m.seqNo.Some? then m.seqNo else c.lastSeq)
              && r.sessionId == if m.payload.Ready? && m.payload.session.Some? then m.payload.session else c.sessionId
  {
    var c1 := NoteSeq(c, m);
    assert c1.sessionId == c.sessionId && c1.lastSeq == if m.seqNo.Some? then m.seqNo else c.lastSeq;
    match m.payload
    case ReconnectRequest => CloseKeeps(c1);
    case InvalidSession(resumable) => CloseKeeps(if resumable then c1 else DropSession(c1));
    case _ =>
  }

  lemma CloseKeeps(c: Client)
    ensures CloseSocket(c) == c.(socket := CloseSocket(c).socket)
  {
  }

  /** One event keeps the memory faithful. */
  lemma MemoryStep(o: Options, c: Client, events: seq<Event>, e: Event)
    requires Memory(c, events)
    ensures Memory(Next(o, c, e), events + [e])
  {
    if !c.closed && !c.fatal {
      WhatIsHeld(o, c, e);
      if !DropsSession(e) {
        SeqNow(events, e, c.lastSeq);
        if StartsSession(e) {
          assert ReadyAt(events + [e], |events| + 1, e.message.payload.session.value, |events|);
        } else if c.sessionId.Some? {
          SessionLater(events, e, c.sessionId.value);
        }
      }
    }
  }

  /** Before event `n`, the user has closed the client or the server has refused it for good. */
  ghost predicate ShutDown(events: seq<Event>, n: nat) {
    exists j :: 0 <= j < n && j < |events| && ShutsDown(events[j])
  }

  predicate ShutsDown(e: Event) {
    e.UserClose? || (e.SocketClosed? && FatalCode(e.code))
  }

  /** Live sockets and armed timers together are at most one; a closed client has neither an open
      socket nor a timer, a fatally refused one has none at all. */
  ghost predicate Single(c: Client) {
    && (IsLive(c.socket) ==> c.timer.None?)
    && (c.closed ==> c.timer.None? && !c.socket.Live? && !c.socket.Connecting?)
    && (c.fatal ==> c.timer.None? && !IsLive(c.socket))
    && (!c.connected ==> c.timer.None? && c.socket.NoSocket?)
  }

  lemma SingleStep(o: Options, c: Client, e: Event)
    requires Single(c) && Enabled(c, e)
    ensures Single(Next(o, c, e))
  {
    match e
    case Received(m) => assert HandleMessage(c, m).timer == c.timer;
    case _ =>
  }

  lemma {:induction false} RunStep(o: Options, events: seq<Event>, k: nat)
    requires k < |events|
    ensures Run(o, events[..k + 1]) == Next(o, Run(o, events[..k]), events[k])
    ensures events[..k + 1] == events[..k] + [events[k]]
  {
    assert events[..k + 1][..k] == events[..k];
  }

  /** A frame leaves the shut-down flags alone, and lowers the attempt counter only if it resets it. */
  lemma MessageKeepsFlags(c: Client, m: Message)
    ensures var r := HandleMessage(c, m); r.closed == c.closed && r.fatal == c.fatal
    ensures m.payload.Ready? || m.payload.Resumed? || HandleMessage(c, m).reconnectAttempts == c.reconnectAttempts
  {
    var c1 := NoteSeq(c, m);
    assert c1.closed == c.closed && c1.fatal == c.fatal && c1.reconnectAttempts == c.reconnectAttempts;
    match m.payload
    case ReconnectRequest => CloseKeeps(c1);
    case InvalidSession(resumable) => CloseKeeps(if resumable then c1 else DropSession(c1));
    case _ =>
  }

  lemma FlagsStep(o: Options, c: Client, e: Event)
    ensures var r := Next(o, c, e);
            r.closed || r.fatal <==> c.closed || c.fatal || ShutsDown(e)
  {
    match e
    case Received(m) => MessageKeepsFlags(c, m);
    case _ =>
  }

  /** In every state of every run: at most one connection or timer, a faithful memory of session and
      sequence number, and the shut-down flags tell the history. */
  lemma {:induction false} EveryState(o: Options, events: seq<Event>, n: nat)
    requires Legal(o, events) && n <= |events|
    ensures var c := Run(o, events[..n]);
            Single(c) && Memory(c, events[..n]) && (c.closed || c.fatal <==> ShutDown(events, n))
  {
    if n > 0 {
      EveryState(o, events, n - 1);
      var before, e := Run(o, events[..n - 1]), events[n - 1];
      RunStep(o, events, n - 1);
      assert Enabled(before, e);
      MemoryStep(o, before, events[..n - 1], e);
      SingleStep(o, before, e);
      FlagsStep(o, before, e);
    }
  }

  /** RESUME goes out only with the session of the latest READY not invalidated since, and the last
      sequence number seen since invalidation. */
  lemma ResumeIsFaithful(o: Options, events: seq<Event>, k: nat)
    requires Legal(o, events) && k < |events|
    requires OutputAt(o, events, k).Sent? && OutputAt(o, events, k).frame.Resume?
    ensures var frame := OutputAt(o, events, k).frame;
            SessionHeld(events[..k + 1], k + 1, frame.session) && SeqHeld(events[..k + 1], k + 1, frame.seqNo)
  {
    EveryState(o, events, k);
    MemoryStep(o, Run(o, events[..k]), events[..k], events[k]);
    assert events[..k + 1] == events[..k] + [events[k]];
  }

  /** Nothing opens after a user close or a fatal code. */
  lemma NothingOpensAfterShutDown(o: Options, events: seq<Event>, k: nat)
    requires Legal(o, events) && k < |events| && ShutDown(events, k)
    ensures !OutputAt(o, events, k).Opened?
  {
    EveryState(o, events, k);
  }

  // ----- Backoff -----

  predicate Resets(e: Event) {
    e.Received? && (e.message.payload.Ready? || e.message.payload.Resumed?)
  }

  lemma {:induction false} Pow2Monotone(a: nat, b: nat)
    requires a <= b
    ensures 1 <= Pow2(a) <= Pow2(b)
  {
    if a > 0 {
      Pow2Monotone(a - 1, b - 1);
    } else if b > 0 {
      Pow2Monotone(0, b - 1);
    }
  }

  lemma BackoffMonotone(a: nat, b: nat, max: int)
    requires a <= b
    ensures Backoff(a, max) <= Backoff(b, max) <= max && Backoff(b, max) <= 32000
  {
    Pow2Monotone(if a < 5 then a else 5, if b < 5 then b else 5);
    Pow2Monotone(if b < 5 then b else 5, 5);
    assert Pow2(5) == 32 by { assert Pow2(3) == 8; }
  }

  lemma AttemptsStep(o: Options, c: Client, e: Event)
    requires !Resets(e)
    ensures c.reconnectAttempts <= Next(o, c, e).reconnectAttempts
  {
    match e
    case Received(m) => MessageKeepsFlags(c, m);
    case _ =>
  }

  /** Without a reset in between, the attempt counter does not fall. */
  lemma {:induction false} AttemptsGrow(o: Options, events: seq<Event>, k: nat, l: nat)
    requires k <= l <= |events| && forall j | k <= j < l :: !Resets(events[j])
    ensures Run(o, events[..k]).reconnectAttempts <= Run(o, events[..l]).reconnectAttempts
  {
    if k < l {
      AttemptsGrow(o, events, k, l - 1);
      RunStep(o, events, l - 1);
      AttemptsStep(o, Run(o, events[..l - 1]), events[l - 1]);
    }
  }

  /** Between resets the scheduled delays do not fall, and none exceeds 32 seconds or the maximum. */
  lemma DelaysGrow(o: Options, events: seq<Event>, k: nat, l: nat)
    requires k <= l < |events| && (forall j | k < j < l :: !Resets(events[j]))
    requires OutputAt(o, events, k).Scheduled? && OutputAt(o, events, l).Scheduled?
    ensures OutputAt(o, events, k).delayMs <= OutputAt(o, events, l).delayMs
    ensures OutputAt(o, events, l).delayMs <= o.maxReconnectDelayMs && OutputAt(o, events, l).delayMs <= 32000
  {
    AttemptsGrow(o, events, k, l);
    BackoffMonotone(Run(o, events[..k]).reconnectAttempts, Run(o, events[..l]).reconnectAttempts,
                    o.maxReconnectDelayMs);
  }
}
