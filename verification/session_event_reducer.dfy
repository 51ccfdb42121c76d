/**
 * The session-event reducer: one step per event delivered by the session, mapping each event
 * variant onto chat-store mutations, plus at most one outbound "send video message" request
 * for a final, non-emotional user transcript when the reducer was built with a session.
 */
module SessionEventReducer {
  import opened Options
  import opened ChatViewModel

  /** The SDK's classification of a user transcript; the reducer only tests for `Emotional`. */
  datatype UserTranscriptType = Emotional | OtherTranscriptType(name: string)

  /** The SDK's voice emotion; only its numeric id is forwarded. */
  datatype Emotion = Emotion(id: int)

  datatype TranscriptData = TranscriptData(
    text: string,
    isFinal: bool,
    richDataType: Option<UserTranscriptType>,
    voiceEmotion: Option<Emotion>)

  /**
   * Everything the session can deliver. Payloads the reducer only prints (`GeneralError`,
   * `FaceEmotion`, `TextEmotion`) carry the string their SDK object renders to.
   */
  datatype SessionEvent =
    | Connected
    | Disconnected(code: int, reason: string)
    | RetryConnectSuccess
    | RetryConnectFailed
    | RetryingConnect
    | TextMessage(content: string)
    | VideoMessage(content: string)
    | IsResponding
    | GeneralError(error: string)
    | StreamingStop
    | FaceEmotion(emotion: string)
    | TextEmotion(emotion: string)
    | UserTranscript(transcript: TranscriptData)
    | AgentTranscript(agent: AvatarTranscript)

  /** The store after one event, and the requests issued to the session while handling it. */
  datatype Step = Step(store: Store, requests: seq<VideoMessageRequest>)

  predicate IsConnectionEvent(e: SessionEvent) {
    e.Connected? || e.Disconnected? || e.RetryConnectSuccess? || e.RetryConnectFailed?
  }

  /** The connected flag a connection event implies. */
  function ConnectedAfter(e: SessionEvent): bool
    requires IsConnectionEvent(e)
  {
    e.Connected? || e.RetryConnectSuccess?
  }

  /** The fixed log line a connection event produces. */
  function ConnectionLine(e: SessionEvent): string
    requires IsConnectionEvent(e)
  {
    match e
    case Connected => "SocketConnected"
    case Disconnected(_, _) => "SocketDisconnected"
    case RetryConnectSuccess => "SocketRetryConnectSuccess"
    case RetryConnectFailed => "SocketRetryConnectFailed"
  }

  /** A user utterance worth recording and speaking back: final and not classified as emotional. */
  predicate IsUtterance(e: SessionEvent) {
    e.UserTranscript? && e.transcript.isFinal && e.transcript.richDataType != Some(Emotional)
  }

  /** The request issued for a final utterance: the text, the voice emotion's id, no markdown, from STT. */
  function UtteranceRequest(t: TranscriptData): VideoMessageRequest {
    VideoMessageRequest(
      t.text,
      if t.voiceEmotion.Some? then Some(t.voiceEmotion.value.id) else None,
      Some(false),
      true)
  }

  /** `handle(event)` of a reducer that was constructed with (`hasSession`) or without a session. */
  function Handle(hasSession: bool, s: Store, e: SessionEvent): (r: Step)
    // At most one outbound request, and only for an utterance when a session is present.
    ensures |r.requests| <= 1
    ensures r.requests != [] <==> hasSession && IsUtterance(e)
    // The message log only ever grows, by at most one server line.
    ensures r.store.messages == s.messages
            || (|r.store.messages| == |s.messages| + 1 && r.store.messages[..|s.messages|] == s.messages
                && r.store.messages[|s.messages|].origin == Server)
    // The connected flag moves only on the four connection events.
    ensures r.store.isConnected == (if IsConnectionEvent(e) then ConnectedAfter(e) else s.isConnected)
    // Only transcript events touch the transcript log and the agent id, and only by appending.
    ensures !e.UserTranscript? && !e.AgentTranscript? ==>
              r.store.transcripts == s.transcripts
              && r.store.lastAgentTranscriptMsgId == s.lastAgentTranscriptMsgId
    ensures |s.transcripts| <= |r.store.transcripts| && r.store.transcripts[..|s.transcripts|] == s.transcripts
    // Transcript events never touch the message log.
    ensures e.UserTranscript? || e.AgentTranscript? ==> r.store.messages == s.messages
  {
    match e
    case Connected => Step(AppendFromServer(SetConnected(s, true), "SocketConnected"), [])
    case Disconnected(_, _) => Step(AppendFromServer(SetConnected(s, false), "SocketDisconnected"), [])
    case RetryConnectSuccess => Step(AppendFromServer(SetConnected(s, true), "SocketRetryConnectSuccess"), [])
    case RetryConnectFailed => Step(AppendFromServer(SetConnected(s, false), "SocketRetryConnectFailed"), [])
    case TextMessage(content) => Step(AppendFromServer(s, content), [])
    case VideoMessage(content) => Step(AppendFromServer(s, content), [])
    case IsResponding => Step(AppendFromServer(s, "Responding...."), [])
    case GeneralError(error) => Step(AppendFromServer(s, "There's an error: " + error), [])
    case StreamingStop => Step(AppendFromServer(s, "Video streaming stopped."), [])
    case FaceEmotion(emotion) => Step(AppendFromServer(s, "Got face emotion: " + emotion), [])
    case TextEmotion(emotion) => Step(AppendFromServer(s, "Got text emotion: " + emotion), [])
    case RetryingConnect => Step(s, [])
    case UserTranscript(t) =>
      if !t.isFinal then Step(s, [])
      else if t.richDataType == Some(Emotional) then Step(s, [])
      else
        var recorded := AddTranscript(s, t.text);
        if hasSession then Step(recorded, [UtteranceRequest(t)]) else Step(recorded, [])
    case AgentTranscript(agent) => Step(AddAgentTranscript(s, agent).store, [])
  }

  /** The four connection events set the flag they imply and log their fixed line, nothing else. */
  lemma ConnectionEvents(hasSession: bool, s: Store, e: SessionEvent)
    requires IsConnectionEvent(e)
    ensures var r := Handle(hasSession, s, e);
            && r.store.isConnected == (e.Connected? || e.RetryConnectSuccess?)
            && AppendsOne(s.messages, r.store.messages, DisplayMessage(ConnectionLine(e), Server))
            && r.store.transcripts == s.transcripts && r.requests == []
  {
  }

  /** Chat and video messages log their content verbatim as one server line and touch nothing else. */
  lemma ContentEvents(hasSession: bool, s: Store, content: string)
    ensures forall e :: e == TextMessage(content) || e == VideoMessage(content) ==>
              var r := Handle(hasSession, s, e);
              && r.store == AppendFromServer(s, content)
              && AppendsOne(s.messages, r.store.messages, DisplayMessage(content, Server))
              && OnlyMessagesChange(s, r.store) && r.requests == []
  {
  }

  /** The remaining message events log a fixed text, or a fixed prefix and the payload's text. */
  lemma FixedTextEvents(hasSession: bool, s: Store, payload: string)
    ensures Handle(hasSession, s, IsResponding).store == AppendFromServer(s, "Responding....")
    ensures Handle(hasSession, s, StreamingStop).store == AppendFromServer(s, "Video streaming stopped.")
    ensures Handle(hasSession, s, GeneralError(payload)).store == AppendFromServer(s, "There's an error: " + payload)
    ensures Handle(hasSession, s, FaceEmotion(payload)).store == AppendFromServer(s, "Got face emotion: " + payload)
    ensures Handle(hasSession, s, TextEmotion(payload)).store == AppendFromServer(s, "Got text emotion: " + payload)
  {
  }

  /** `RetryingConnect` is a self-loop: no log line, no transcript, no flag change, no request. */
  lemma RetryingConnectIsNoop(hasSession: bool, s: Store)
    ensures Handle(hasSession, s, RetryingConnect) == Step(s, [])
  {
  }

  /** A partial transcript is discarded whatever its text, even with a session present. */
  lemma PartialTranscriptIgnored(hasSession: bool, s: Store, t: TranscriptData)
    requires !t.isFinal
    ensures Handle(hasSession, s, UserTranscript(t)) == Step(s, [])
  {
  }

  /** A final transcript classified as emotional is a complete no-op. */
  lemma EmotionalTranscriptIgnored(hasSession: bool, s: Store, t: TranscriptData)
    requires t.isFinal && t.richDataType == Some(Emotional)
    ensures Handle(hasSession, s, UserTranscript(t)) == Step(s, [])
  {
  }

  /**
   * A final, non-emotional transcript appends exactly its text to the transcript log; with a
   * session it also issues exactly one request carrying that text and the voice emotion's id.
   */
  lemma FinalTranscriptRecordedAndSpoken(hasSession: bool, s: Store, t: TranscriptData)
    requires t.isFinal && t.richDataType != Some(Emotional)
    ensures var r := Handle(hasSession, s, UserTranscript(t));
            && AppendsOne(s.transcripts, r.store.transcripts, t.text)
            && OnlyTranscriptsChange(s, r.store)
            && (hasSession ==>
                  && |r.requests| == 1
                  && r.requests[0].message == t.text
                  && r.requests[0].emotionCode == (if t.voiceEmotion.Some? then Some(t.voiceEmotion.value.id) else None)
                  && r.requests[0].markDown == Some(false)
                  && r.requests[0].isFromSTT)
            && (!hasSession ==> r.requests == [])
  {
  }

  /** An agent batch goes through the store's de-duplicating append; the result is dropped. */
  lemma AgentTranscriptDelegates(hasSession: bool, s: Store, a: AvatarTranscript)
    ensures var r := Handle(hasSession, s, AgentTranscript(a));
            && r.store == AddAgentTranscript(s, a).store
            && r.store.messages == s.messages && r.store.isConnected == s.isConnected
            && r.requests == []
  {
  }

  /**
   * The request a transcript triggers is marked as speech-to-text, so its completion never
   * sends recording text, whatever the session answers.
   */
  lemma UtteranceNeverRecords(s: Store, t: TranscriptData, result: SendMessageResult, later: Store)
    requires t.isFinal && t.richDataType != Some(Emotional)
    ensures var r := Handle(true, s, UserTranscript(t));
            OnSendVideoMessageResult(later, r.requests[0], result).recordings == []
  {
  }

  // ---- runs of events ----

  /** Handles the events in delivery order, collecting the requests in the order they were issued. */
  function HandleAll(hasSession: bool, s: Store, events: seq<SessionEvent>): Step
    decreases |events|
  {
    if events == [] then Step(s, [])
    else
      var before := HandleAll(hasSession, s, events[..|events| - 1]);
      var last := Handle(hasSession, before.store, events[|events| - 1]);
      Step(last.store, before.requests + last.requests)
  }

  /** Reference definition: the flag implied by the last connection event, if any. */
  function LastConnectionState(initial: bool, events: seq<SessionEvent>): bool
    decreases |events|
  {
    if events == [] then initial
    else if IsConnectionEvent(events[|events| - 1]) then ConnectedAfter(events[|events| - 1])
    else LastConnectionState(initial, events[..|events| - 1])
  }

  /** After any run of events the connected flag is the one implied by the last connection event. */
  lemma {:induction false} ConnectedFollowsLastConnectionEvent(hasSession: bool, s: Store, events: seq<SessionEvent>)
    ensures HandleAll(hasSession, s, events).store.isConnected == LastConnectionState(s.isConnected, events)
    decreases |events|
  {
    if events != [] {
      ConnectedFollowsLastConnectionEvent(hasSession, s, events[..|events| - 1]);
    }
  }

  predicate AllConnectionEvents(events: seq<SessionEvent>) {
    forall i :: 0 <= i < |events| ==> IsConnectionEvent(events[i])
  }

  /** The lines a run of connection events logs: one fixed line per event, in order. */
  function ConnectionLines(events: seq<SessionEvent>): seq<DisplayMessage>
    requires AllConnectionEvents(events)
    decreases |events|
  {
    if events == [] then []
    else
      var n := |events| - 1;
      assert AllConnectionEvents(events[..n]) by {
        forall i | 0 <= i < n ensures IsConnectionEvent(events[..n][i]) {
          assert events[..n][i] == events[i];
        }
      }
      ConnectionLines(events[..n]) + [DisplayMessage(ConnectionLine(events[n]), Server)]
  }

  /** Handling one more event continues from the store the earlier events left. */
  lemma HandleAllSnoc(hasSession: bool, s: Store, events: seq<SessionEvent>, e: SessionEvent)
    ensures var before := HandleAll(hasSession, s, events);
            var last := Handle(hasSession, before.store, e);
            HandleAll(hasSession, s, events + [e]) == Step(last.store, before.requests + last.requests)
  {
    assert (events + [e])[..|events|] == events;
  }

  /** A run of connection events logs exactly one fixed line per event and issues no request. */
  lemma {:induction false} ConnectionRunLogsOneLineEach(hasSession: bool, s: Store, events: seq<SessionEvent>)
    requires AllConnectionEvents(events)
    ensures var r := HandleAll(hasSession, s, events);
            && r.store.messages == s.messages + ConnectionLines(events)
            && r.store.transcripts == s.transcripts
            && r.requests == []
    decreases |events|
  {
    if events != [] {
      var n := |events| - 1;
      var prefix := events[..n];
      assert AllConnectionEvents(prefix) by {
        forall i | 0 <= i < n ensures IsConnectionEvent(prefix[i]) {
          assert prefix[i] == events[i];
        }
      }
      ConnectionRunLogsOneLineEach(hasSession, s, prefix);
      var before := HandleAll(hasSession, s, prefix);
      assert IsConnectionEvent(events[n]);
      ConnectionEvents(hasSession, before.store, events[n]);
      var last := Handle(hasSession, before.store, events[n]);
      assert HandleAll(hasSession, s, events) == Step(last.store, before.requests + last.requests);
      assert ConnectionLines(events) == ConnectionLines(prefix) + [DisplayMessage(ConnectionLine(events[n]), Server)];
    }
  }

  /** Reference definition: the requests of a run are those of its utterances, in order. */
  function UtteranceRequests(events: seq<SessionEvent>): seq<VideoMessageRequest>
    decreases |events|
  {
    if events == [] then []
    else
      var e := events[|events| - 1];
      UtteranceRequests(events[..|events| - 1]) + (if IsUtterance(e) then [UtteranceRequest(e.transcript)] else [])
  }

  /** With a session, a run issues one request per utterance, in order; without one, none at all. */
  lemma {:induction false} RequestsAreUtterances(hasSession: bool, s: Store, events: seq<SessionEvent>)
    ensures HandleAll(hasSession, s, events).requests == (if hasSession then UtteranceRequests(events) else [])
    decreases |events|
  {
    if events != [] {
      RequestsAreUtterances(hasSession, s, events[..|events| - 1]);
    }
  }

  /** [Connected, TextMessage("hi"), Disconnected] logs three lines and leaves the flag down. */
  lemma ConnectChatDisconnectScenario(code: int, reason: string)
    ensures var r := HandleAll(false, Initial, [Connected, TextMessage("hi"), Disconnected(code, reason)]);
            && r.store.messages == [DisplayMessage("SocketConnected", Server), DisplayMessage("hi", Server),
                                    DisplayMessage("SocketDisconnected", Server)]
            && !r.store.isConnected
  {
    HandleAllSnoc(false, Initial, [], Connected);
    assert [] + [Connected] == [Connected];
    HandleAllSnoc(false, Initial, [Connected], TextMessage("hi"));
    assert [Connected] + [TextMessage("hi")] == [Connected, TextMessage("hi")];
    HandleAllSnoc(false, Initial, [Connected, TextMessage("hi")], Disconnected(code, reason));
    assert [Connected, TextMessage("hi")] + [Disconnected(code, reason)] == [Connected, TextMessage("hi"), Disconnected(code, reason)];
  }

  /** Batches 42, 42 (re-delivered) and 43 leave the transcript log as ["A", "B", "C"]. */
  lemma AgentReDeliveryScenario()
    ensures var a := AvatarTranscript(42, ["A", "B"]);
            var r := HandleAll(false, Initial, [AgentTranscript(a), AgentTranscript(a), AgentTranscript(AvatarTranscript(43, ["C"]))]);
            r.store.transcripts == ["A", "B", "C"]
  {
    var e1 := AgentTranscript(AvatarTranscript(42, ["A", "B"]));
    var e3 := AgentTranscript(AvatarTranscript(43, ["C"]));
    HandleAllSnoc(false, Initial, [], e1);
    assert [] + [e1] == [e1];
    HandleAllSnoc(false, Initial, [e1], e1);
    assert [e1] + [e1] == [e1, e1];
    HandleAllSnoc(false, Initial, [e1, e1], e3);
    assert [e1, e1] + [e3] == [e1, e1, e3];
  }
}
