/**
 * The chat state store behind the chat screen: a message log whose lines are tagged by
 * origin, a transcript log, the connected flag, and the id of the last accepted agent
 * transcript batch, used to drop immediate re-deliveries of the same batch.
 *
 * Every mutator of the Kotlin view model becomes a pure function from the old store to the
 * new one. The completion callback of `sendVideoMessage` becomes a function from the store
 * and the SDK's result to the new store plus the recording-text requests it issues.
 */
module ChatViewModel {
  import opened Options

  /** Server lines are drawn in blue, outgoing ones plain; the span styling is reduced to this tag. */
  datatype Origin = Server | Outgoing

  datatype DisplayMessage = DisplayMessage(text: string, origin: Origin)

  /** One push of transcript lines from the remote agent. */
  datatype AvatarTranscript = AvatarTranscript(msgId: int, texts: seq<string>)

  datatype Store = Store(
    messages: seq<DisplayMessage>,
    transcripts: seq<string>,
    isConnected: bool,
    lastAgentTranscriptMsgId: Option<int>)

  /** `after` is `before` with exactly `x` added at the end. */
  ghost predicate AppendsOne<T>(before: seq<T>, after: seq<T>, x: T) {
    |after| == |before| + 1 && after[..|before|] == before && after[|before|] == x
  }

  /** Only the message log may differ between `s` and `r`. */
  predicate OnlyMessagesChange(s: Store, r: Store) {
    r.transcripts == s.transcripts
    && r.isConnected == s.isConnected
    && r.lastAgentTranscriptMsgId == s.lastAgentTranscriptMsgId
  }

  /** Only the transcript log may differ between `s` and `r`. */
  predicate OnlyTranscriptsChange(s: Store, r: Store) {
    r.messages == s.messages
    && r.isConnected == s.isConnected
    && r.lastAgentTranscriptMsgId == s.lastAgentTranscriptMsgId
  }

  /** A freshly created view model: disconnected, both logs empty, no agent batch seen yet. */
  const Initial: Store := Store([], [], false, None)

  function SetConnected(s: Store, connected: bool): (r: Store)
    ensures r.isConnected == connected
    ensures r.messages == s.messages && r.transcripts == s.transcripts
    ensures r.lastAgentTranscriptMsgId == s.lastAgentTranscriptMsgId
  {
    s.(isConnected := connected)
  }

  function AppendFromServer(s: Store, text: string): (r: Store)
    ensures AppendsOne(s.messages, r.messages, DisplayMessage(text, Server))
    ensures OnlyMessagesChange(s, r)
  {
    s.(messages := s.messages + [DisplayMessage(text, Server)])
  }

  function AppendOutgoing(s: Store, text: string): (r: Store)
    ensures AppendsOne(s.messages, r.messages, DisplayMessage(text, Outgoing))
    ensures OnlyMessagesChange(s, r)
  {
    s.(messages := s.messages + [DisplayMessage(text, Outgoing)])
  }

  function Clear(s: Store): (r: Store)
    ensures r.messages == []
    ensures OnlyMessagesChange(s, r)
  {
    s.(messages := [])
  }

  function AddTranscript(s: Store, text: string): (r: Store)
    ensures AppendsOne(s.transcripts, r.transcripts, text)
    ensures OnlyTranscriptsChange(s, r)
  {
    s.(transcripts := s.transcripts + [text])
  }

  /** `texts.forEach { addTranscript(it) }`: the lines are appended one by one, in order. */
  function AddTranscripts(s: Store, texts: seq<string>): (r: Store)
    ensures r.transcripts == s.transcripts + texts
    ensures OnlyTranscriptsChange(s, r)
    decreases |texts|
  {
    if texts == [] then s
    else
      var r := AddTranscripts(AddTranscript(s, texts[0]), texts[1..]);
      assert s.transcripts + [texts[0]] + texts[1..] == s.transcripts + texts;
      r
  }

  /** Clears the transcript log; the last accepted agent id is deliberately kept. */
  function ClearTranscripts(s: Store): (r: Store)
    ensures r.transcripts == []
    ensures OnlyTranscriptsChange(s, r)
  {
    s.(transcripts := [])
  }

  /** The store after `addAgentTranscript`, and the Boolean it returns. */
  datatype AddResult = AddResult(store: Store, added: bool)

  function AddAgentTranscript(s: Store, t: AvatarTranscript): (r: AddResult)
    ensures r.added <==> s.lastAgentTranscriptMsgId != Some(t.msgId)
    ensures !r.added ==> r.store == s
    ensures r.added ==> r.store.transcripts == s.transcripts + t.texts
    ensures r.store.lastAgentTranscriptMsgId == Some(t.msgId)
    ensures r.store.messages == s.messages && r.store.isConnected == s.isConnected
  {
    if s.lastAgentTranscriptMsgId == Some(t.msgId) then AddResult(s, false)
    else AddResult(AddTranscripts(s.(lastAgentTranscriptMsgId := Some(t.msgId)), t.texts), true)
  }

  /** Nothing has been accepted yet, so the first agent batch is accepted whatever its id. */
  lemma InitialStore(t: AvatarTranscript)
    ensures !Initial.isConnected && Initial.messages == [] && Initial.transcripts == []
    ensures AddAgentTranscript(Initial, t).added
  {
  }

  /** Delivering the same batch twice in a row appends its lines once: `true`, then `false`. */
  lemma AddAgentTranscriptIdempotent(s: Store, t: AvatarTranscript)
    ensures var first := AddAgentTranscript(s, t);
            var second := AddAgentTranscript(first.store, t);
            !second.added && second.store == first.store
            && first.store.transcripts == s.transcripts + (if first.added then t.texts else [])
  {
  }

  /**
   * De-duplication looks only at the immediately preceding accepted id: with ids a, b, a
   * (a != b) every batch is accepted and every line appended.
   */
  lemma NonConsecutiveRepeatAccepted(s: Store, t1: AvatarTranscript, t2: AvatarTranscript)
    requires s.lastAgentTranscriptMsgId != Some(t1.msgId)
    requires t1.msgId != t2.msgId
    ensures var r1 := AddAgentTranscript(s, t1);
            var r2 := AddAgentTranscript(r1.store, t2);
            var r3 := AddAgentTranscript(r2.store, t1);
            r1.added && r2.added && r3.added
            && r3.store.transcripts == s.transcripts + t1.texts + t2.texts + t1.texts
  {
  }

  /** Clearing the transcripts keeps the last id, so a re-delivery of that batch is still dropped. */
  lemma ClearTranscriptsKeepsDeduplication(s: Store, t: AvatarTranscript)
    ensures var r := AddAgentTranscript(AddAgentTranscript(s, t).store, t);
            var c := AddAgentTranscript(ClearTranscripts(AddAgentTranscript(s, t).store), t);
            !c.added && c.store.transcripts == [] && !r.added
  {
  }

  /** A run of agent batches, processed in delivery order. */
  function AddAgentTranscripts(s: Store, batches: seq<AvatarTranscript>): Store
    decreases |batches|
  {
    if batches == [] then s
    else AddAgentTranscript(AddAgentTranscripts(s, batches[..|batches| - 1]), batches[|batches| - 1]).store
  }

  /**
   * Reference definition, independent of the store: batch `i` is kept exactly when the batch
   * delivered just before it (or, for the first batch, the id stored at the start) has a
   * different id, whether or not that earlier batch was itself kept.
   */
  predicate KeptAt(start: Option<int>, batches: seq<AvatarTranscript>, i: int)
    requires 0 <= i < |batches|
  {
    if i == 0 then start != Some(batches[0].msgId)
    else batches[i - 1].msgId != batches[i].msgId
  }

  /** The lines of the kept batches, in delivery order. */
  function KeptTexts(start: Option<int>, batches: seq<AvatarTranscript>): seq<string>
    decreases |batches|
  {
    if batches == [] then []
    else
      var n := |batches| - 1;
      KeptTexts(start, batches[..n]) + (if KeptAt(start, batches, n) then batches[n].texts else [])
  }

  /**
   * Processing a run of batches appends exactly the lines of the batches the reference
   * definition keeps, and leaves the id of the last DELIVERED batch as the stored id.
   */
  lemma {:induction false} AgentBatchesMatchReference(s: Store, batches: seq<AvatarTranscript>)
    ensures var r := AddAgentTranscripts(s, batches);
            && r.transcripts == s.transcripts + KeptTexts(s.lastAgentTranscriptMsgId, batches)
            && r.lastAgentTranscriptMsgId
               == (if batches == [] then s.lastAgentTranscriptMsgId else Some(batches[|batches| - 1].msgId))
            && r.messages == s.messages && r.isConnected == s.isConnected
    decreases |batches|
  {
    if batches != [] {
      var n := |batches| - 1;
      var prefix := batches[..n];
      AgentBatchesMatchReference(s, prefix);
      var before := AddAgentTranscripts(s, prefix);
      assert forall i :: 0 <= i < n ==> KeptAt(s.lastAgentTranscriptMsgId, prefix, i) == KeptAt(s.lastAgentTranscriptMsgId, batches, i);
      if n > 0 {
        assert prefix[n - 1] == batches[n - 1];
      }
    }
  }

  // ---- completion of `sendVideoMessage` ----

  /** The request `sendVideoMessage` hands to the session (its `params` map is not modelled). */
  datatype VideoMessageRequest = VideoMessageRequest(
    message: string,
    emotionCode: Option<int>,
    markDown: Option<bool>,
    isFromSTT: bool)

  /** What the session reports back: the response's subscription id and optional message id, or an error. */
  datatype SendMessageResult =
    | SendSuccess(subscriptionId: string, id: Option<int>)
    | SendFailure(errorMessage: Option<string>)

  /** The recording-text request sent after a typed (non speech-to-text) message succeeds. */
  datatype RecordingMessage = RecordingMessage(msgId: int, text: string)

  datatype Completion = Completion(store: Store, recordings: seq<RecordingMessage>)

  /** The confirmation line appended for a successful send. */
  function SuccessLine(subscriptionId: string, message: string): string {
    "subscriptionId: " + subscriptionId + " Message: " + message
  }

  /** The line appended when the send fails. */
  function FailureLine(errorMessage: Option<string>): string {
    "sendVideoMessage exception: " + Render(errorMessage)
  }

  /**
   * The callback of `sendVideoMessage`: one outgoing line either way; a recording-text request
   * (message id defaulting to 0) only for a successful send that did not come from speech-to-text.
   */
  function OnSendVideoMessageResult(s: Store, request: VideoMessageRequest, result: SendMessageResult): (r: Completion)
    ensures OnlyMessagesChange(s, r.store)
    ensures |r.store.messages| == |s.messages| + 1 && r.store.messages[..|s.messages|] == s.messages
    ensures r.store.messages[|s.messages|].origin == Outgoing
    ensures result.SendSuccess? ==>
              r.store.messages[|s.messages|].text == SuccessLine(result.subscriptionId, request.message)
    ensures result.SendFailure? ==>
              r.store.messages[|s.messages|].text == FailureLine(result.errorMessage)
    ensures r.recordings != [] <==> result.SendSuccess? && !request.isFromSTT
    ensures r.recordings != [] ==>
              r.recordings == [RecordingMessage(result.id.GetOr(0), request.message)]
  {
    match result
    case SendSuccess(subscriptionId, id) =>
      var logged := AppendOutgoing(s, SuccessLine(subscriptionId, request.message));
      if request.isFromSTT then Completion(logged, [])
      else Completion(logged, [RecordingMessage(id.GetOr(0), request.message)])
    case SendFailure(errorMessage) =>
      Completion(AppendOutgoing(s, FailureLine(errorMessage)), [])
  }

  /** The failure line carries the error text verbatim, and "null" when the error has no message. */
  lemma FailureLineFormat(s: Store, request: VideoMessageRequest)
    ensures OnSendVideoMessageResult(s, request, SendFailure(Some("network down"))).store.messages[|s.messages|].text
            == "sendVideoMessage exception: network down"
    ensures OnSendVideoMessageResult(s, request, SendFailure(None)).store.messages[|s.messages|].text
            == "sendVideoMessage exception: null"
  {
  }
}
