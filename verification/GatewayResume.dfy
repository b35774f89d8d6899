/** What a gateway client must do on a reconnect, told by the history of events alone. */
module GatewayResume {
  import opened Prelude
  import opened GatewayProtocol

  // ----- What the history says -----

  /** The session of the latest READY that had one, unless it has been dropped since. */
  function HeldSession(events: seq<Event>): Option<string> {
    if events == [] then None
    else
      var n := |events| - 1;
      if DropsSession(events[n]) then None
      else if StartsSession(events[n]) then events[n].message.payload.session
      else HeldSession(events[..n])
  }

  /** Event `n` makes everything about the session be forgotten; so does losing a connection without one. */
  predicate ForgetsAt(events: seq<Event>, n: nat)
    requires n < |events|
  {
    DropsSession(events[n]) || (events[n].SocketClosed? && HeldSession(events[..n]) == None)
  }

  /** The last sequence number seen since everything was forgotten. */
  function HeldSeq(events: seq<Event>): Option<int> {
    if events == [] then None
    else
      var n := |events| - 1;
      if ForgetsAt(events, n) then None
      else if CarriesSeq(events[n]) then events[n].message.seqNo
      else HeldSeq(events[..n])
  }

  /** The resume URL of the latest READY since everything was forgotten. */
  function HeldUrl(events: seq<Event>): Option<string> {
    if events == [] then None
    else
      var n := |events| - 1;
      if ForgetsAt(events, n) then None
      else if events[n].Received? && events[n].message.payload.Ready? then events[n].message.payload.resumeUrl
      else HeldUrl(events[..n])
  }

  /** The last event is the loss of a connection that can be resumed. */
  predicate LostResumable(events: seq<Event>) {
    events != [] &&
    var n := |events| - 1;
    events[n].SocketClosed? && !NonResumable(events[n].code) && HeldSession(events[..n]).Some?
  }

  /** The latest connection was opened after such a loss. */
  predicate OpenedResuming(events: seq<Event>) {
    events != [] &&
    var n := |events| - 1;
    match events[n]
    case Connect => false
    case TimerFired => LostResumable(events[..n])
    case _ => OpenedResuming(events[..n])
  }

  /** Reconnects scheduled since the attempts were last reset. */
  function Attempts(events: seq<Event>): nat {
    if events == [] then 0
    else
      var n := |events| - 1;
      if Resets(events[n]) then 0
      else Attempts(events[..n]) + if events[n].SocketClosed? then 1 else 0
  }

  // ----- The client remembers it -----

  /** As long as it is neither closed nor refused, the client holds exactly what the history says. */
  ghost predicate Remembers(o: Options, c: Client, events: seq<Event>) {
    !c.closed && !c.fatal ==>
      && c.sessionId == HeldSession(events) && c.lastSeq == HeldSeq(events) && c.resumeUrl == HeldUrl(events)
      && c.resumePending == OpenedResuming(events)
      && (o.autoReconnect ==> c.reconnectAttempts == Attempts(events))
      && (c.timer.Some? ==>
            && events != [] && events[|events| - 1].SocketClosed? && c.timer == Some(LostResumable(events)))
  }

  lemma {:induction false} OneMore(events: seq<Event>, e: Event)
    ensures var after := events + [e];
            && HeldSession(after) == (if DropsSession(e) then None
                                      else if StartsSession(e) then e.message.payload.session else HeldSession(events))
            && ForgetsAt(after, |events|) == (DropsSession(e) || (e.SocketClosed? && HeldSession(events) == None))
            && HeldSeq(after) == (if ForgetsAt(after, |events|) then None
                                  else if CarriesSeq(e) then e.message.seqNo else HeldSeq(events))
            && HeldUrl(after) == (if ForgetsAt(after, |events|) then None
                                  else if e.Received? && e.message.payload.Ready? then e.message.payload.resumeUrl
                                  else HeldUrl(events))
  {
    assert (events + [e])[..|events|] == events;
  }

  lemma {:induction false} OneMoreConnection(events: seq<Event>, e: Event)
    ensures var after := events + [e];
            && LostResumable(after) == (e.SocketClosed? && !NonResumable(e.code) && HeldSession(events).Some?)
            && OpenedResuming(after) == (if e.Connect? then false else if e.TimerFired? then LostResumable(events)
                                         else OpenedResuming(events))
            && Attempts(after) == (if Resets(e) then 0 else Attempts(events) + if e.SocketClosed? then 1 else 0)
  {
    assert (events + [e])[..|events|] == events;
  }

  lemma {:induction false} RemembersMessage(o: Options, c: Client, events: seq<Event>, m: Message)
    requires Remembers(o, c, events) && Single(c) && IsLive(c.socket)
    ensures Remembers(o, HandleMessage(c, m), events + [Received(m)])
  {
    OneMore(events, Received(m));
    OneMoreConnection(events, Received(m));
    var c1 := NoteSeq(c, m);
    match m.payload
    case ReconnectRequest => CloseKeeps(c1);
    case InvalidSession(resumable) => CloseKeeps(if resumable then c1 else DropSession(c1));
    case _ =>
  }

  lemma {:induction false} RemembersStep(o: Options, c: Client, events: seq<Event>, e: Event)
    requires Remembers(o, c, events) && Single(c) && Enabled(c, e)
    ensures Remembers(o, Next(o, c, e), events + [e])
  {
    OneMore(events, e);
    OneMoreConnection(events, e);
    match e
    case Received(m) => RemembersMessage(o, c, events, m);
    case _ =>
  }

  /** In every state of every run the client remembers exactly what the history says. */
  lemma {:induction false} MemoryIsExact(o: Options, events: seq<Event>, n: nat)
    requires Legal(o, events) && n <= |events|
    ensures Remembers(o, Run(o, events[..n]), events[..n])
  {
    if n > 0 {
      MemoryIsExact(o, events, n - 1);
      EveryState(o, events, n - 1);
      RunStep(o, events, n - 1);
      assert Enabled(Run(o, events[..n - 1]), events[n - 1]);
      RemembersStep(o, Run(o, events[..n - 1]), events[..n - 1], events[n - 1]);
    }
  }

  /** The session held is the one of the latest READY not dropped since. */
  lemma {:induction false} HeldSessionIff(events: seq<Event>, session: string)
    ensures HeldSession(events) == Some(session) <==> SessionHeld(events, |events|, session)
  {
    if events != [] {
      var n := |events| - 1;
      var init := events[..n];
      HeldSessionIff(init, session);
      if SessionHeld(init, n, session) && !DropsSession(events[n]) && !StartsSession(events[n]) {
        assert events == init + [events[n]];
        SessionLater(init, events[n], session);
      }
      if HeldSession(events) == Some(session) && StartsSession(events[n]) {
        assert ReadyAt(events, |events|, session, n);
      }
      if k :| 0 <= k < |events| && ReadyAt(events, |events|, session, k) {
        if k < n {
          assert ReadyAt(init, n, session, k);
        }
      }
    }
  }

  // ----- Reconnecting -----

  /** Every lost connection is reconnected, if that is wanted and the client is neither closed nor refused: after
      one second doubled once per reconnect since the last reset, five times at most, under the maximum. */
  lemma {:induction false} LostIsRescheduled(o: Options, events: seq<Event>, k: nat)
    requires Legal(o, events) && k < |events| && events[k].SocketClosed? && o.autoReconnect
    requires !ShutDown(events, k) && !FatalCode(events[k].code)
    ensures Enabled(Run(o, events[..k + 1]), TimerFired)
    ensures var attempts := Attempts(events[..k]);
            OutputAt(o, events, k) == Scheduled(attempts, Backoff(attempts, o.maxReconnectDelayMs))
  {
    EveryState(o, events, k);
    MemoryIsExact(o, events, k);
    RunStep(o, events, k);
  }

  /** A timer opens a connection, to resume exactly if the close just before it had a resumable code while a
      session was held; it then goes to the URL given with that session, if there is one. */
  lemma {:induction false} TimerOpens(o: Options, events: seq<Event>, k: nat)
    requires Legal(o, events) && k < |events| && events[k].TimerFired?
    ensures k > 0 && events[k - 1].SocketClosed?
    ensures var resuming := !NonResumable(events[k - 1].code) && HeldSession(events[..k - 1]).Some?;
            var url := HeldUrl(events[..k - 1]);
            OutputAt(o, events, k) ==
              Opened(resuming, if resuming && url.Some? && url.value != "" then url.value else o.url)
  {
    EveryState(o, events, k);
    MemoryIsExact(o, events, k);
    assert Enabled(Run(o, events[..k]), events[k]);
    assert events[..k][..k - 1] == events[..k - 1];
  }

  /** On an open socket HELLO is answered with RESUME, for the session and number held, exactly if the latest
      connection was opened to resume and both are still held; otherwise with IDENTIFY. */
  lemma {:induction false} HelloIsAnswered(o: Options, events: seq<Event>, k: nat)
    requires Legal(o, events) && k < |events| && events[k].Received? && events[k].message.payload.Hello?
    requires Run(o, events[..k]).socket.Live?
    ensures var (session, seqNo) := (HeldSession(events[..k]), HeldSeq(events[..k + 1]));
            OutputAt(o, events, k) == Sent(if OpenedResuming(events[..k]) && session.Some? && seqNo.Some?
                                           then Resume(session.value, seqNo.value) else Identify)
  {
    EveryState(o, events, k);
    MemoryIsExact(o, events, k);
    assert events[..k + 1] == events[..k] + [events[k]];
    OneMore(events[..k], events[k]);
  }

  /** A heartbeat request on an open socket is answered with the last number held. */
  lemma {:induction false} HeartbeatIsAnswered(o: Options, events: seq<Event>, k: nat)
    requires Legal(o, events) && k < |events| && events[k].Received? && events[k].message.payload.HeartbeatRequest?
    requires Run(o, events[..k]).socket.Live?
    ensures OutputAt(o, events, k) == Sent(Heartbeat(HeldSeq(events[..k + 1])))
  {
    EveryState(o, events, k);
    MemoryIsExact(o, events, k);
    assert events[..k + 1] == events[..k] + [events[k]];
    OneMore(events[..k], events[k]);
  }

  /** A request to reconnect, an invalidated session, and the user's wish to close all end the connection. */
  lemma {:induction false} EndsConnection(o: Options, events: seq<Event>, k: nat)
    requires Legal(o, events) && k < |events|
    requires events[k].UserClose? || (events[k].Received? && (events[k].message.payload.ReconnectRequest?
                                                              || events[k].message.payload.InvalidSession?))
    ensures var c := Run(o, events[..k + 1]); !c.socket.Connecting? && !c.socket.Live?
  {
    RunStep(o, events, k);
  }

  lemma {:induction false} LegalMore(o: Options, events: seq<Event>, e: Event)
    requires Legal(o, events) && Enabled(Run(o, events), e)
    ensures Legal(o, events + [e])
    ensures Run(o, events + [e]) == Next(o, Run(o, events), e)
    ensures OutputAt(o, events + [e], |events|) == Emits(o, Run(o, events), e)
  {
    var after := events + [e];
    assert after[..|events|] == events;
    forall k {:trigger Run(o, after[..k])} | 0 <= k < |after| ensures Enabled(Run(o, after[..k]), after[k]) {
      if k < |events| {
        assert after[..k] == events[..k];
        assert Enabled(Run(o, events[..k]), events[k]);
      }
    }
  }

  /** So a connection lost with a session and a number is resumed with both: the timer fires, the socket opens at
      the session's own URL, and HELLO is answered with RESUME. */
  lemma {:induction false} LostConnectionIsResumed(o: Options, events: seq<Event>, code: int)
    requires Legal(o, events) && o.autoReconnect && !ShutDown(events, |events|)
    requires IsLive(Run(o, events).socket) && !NonResumable(code) && !FatalCode(code)
    requires HeldSession(events).Some? && HeldSeq(events).Some?
    ensures var lost := events + [SocketClosed(code)];
            var (opening, open) := (lost + [TimerFired], lost + [TimerFired] + [SocketOpened]);
            var greeted := open + [Received(Message(None, Hello))];
            && Legal(o, greeted)
            && OutputAt(o, opening, |lost|) == Opened(true, match HeldUrl(events)
                                                            case Some(url) => if url != "" then url else o.url
                                                            case None => o.url)
            && OutputAt(o, greeted, |open|) == Sent(Resume(HeldSession(events).value, HeldSeq(events).value))
  {
    assert events[..|events|] == events;
    EveryState(o, events, |events|);
    MemoryIsExact(o, events, |events|);
    var lost := events + [SocketClosed(code)];
    var opening := lost + [TimerFired];
    var open := opening + [SocketOpened];
    LegalMore(o, events, SocketClosed(code));
    LegalMore(o, lost, TimerFired);
    LegalMore(o, opening, SocketOpened);
    LegalMore(o, open, Received(Message(None, Hello)));
  }

  /** The delay is one second at first, doubles with each of the next five attempts, and stays at 32 seconds then,
      unless the maximum is lower. */
  lemma {:induction false} BackoffDoubles(attempts: nat, max: int, lower: int)
    requires max >= 32000
    ensures Backoff(0, max) == 1000
    ensures attempts < 5 ==> Backoff(attempts + 1, max) == 2 * Backoff(attempts, max)
    ensures attempts >= 5 ==> Backoff(attempts, max) == 32000
    ensures Backoff(attempts, lower) == if lower <= Backoff(attempts, max) then lower else Backoff(attempts, max)
  {
    assert Pow2(0) == 1 && Pow2(1) == 2 && Pow2(2) == 4 && Pow2(3) == 8 && Pow2(4) == 16 && Pow2(5) == 32;
  }
}
