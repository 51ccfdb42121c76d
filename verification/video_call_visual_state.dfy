/**
 * The render state of the video-call area: the remote renderer (absent for an audio-only call
 * or when no call runs), whether the audio-only placeholder is shown, and whether a start
 * request is still waiting for its result.
 */
module VideoCallVisualState {
  import opened Options

  /** An Android view handed over by the SDK; only its identity matters here. */
  datatype View = View(handle: nat)

  datatype VisualState = VisualState(
    videoRenderer: Option<View>,
    isAudioOnlyPlaceholderVisible: bool,
    isStartVideoCallInProgress: bool)

  /** No renderer, no placeholder, nothing in progress: a new state, and the state after `reset`. */
  const Initial: VisualState := VisualState(None, false, false)

  /** The placeholder is only ever shown when there is no renderer to show instead. */
  predicate Valid(v: VisualState) {
    v.isAudioOnlyPlaceholderVisible ==> v.videoRenderer.None?
  }

  function OnStartVideoCallRequested(v: VisualState): (r: VisualState)
    ensures r.isStartVideoCallInProgress
    ensures r.videoRenderer == v.videoRenderer
    ensures r.isAudioOnlyPlaceholderVisible == v.isAudioOnlyPlaceholderVisible
  {
    v.(isStartVideoCallInProgress := true)
  }

  function OnStartVideoCallResultHandled(v: VisualState): (r: VisualState)
    ensures !r.isStartVideoCallInProgress
    ensures r.videoRenderer == v.videoRenderer
    ensures r.isAudioOnlyPlaceholderVisible == v.isAudioOnlyPlaceholderVisible
  {
    v.(isStartVideoCallInProgress := false)
  }

  /** A started call shows its renderer, or the placeholder when the call is audio-only. */
  function OnCallStarted(v: VisualState, renderer: Option<View>): (r: VisualState)
    ensures r.videoRenderer == renderer
    ensures r.isAudioOnlyPlaceholderVisible <==> renderer.None?
    ensures !r.isStartVideoCallInProgress
    ensures Valid(r)
  {
    var handled := OnStartVideoCallResultHandled(v);
    handled.(videoRenderer := renderer, isAudioOnlyPlaceholderVisible := renderer == None)
  }

  function Reset(v: VisualState): (r: VisualState)
    ensures r.videoRenderer.None? && !r.isAudioOnlyPlaceholderVisible && !r.isStartVideoCallInProgress
  {
    Initial
  }

  function OnCallFailed(v: VisualState): (r: VisualState)
    ensures r == Initial
  {
    Reset(v)
  }

  function OnCallStopped(v: VisualState): (r: VisualState)
    ensures r == Initial
  {
    Reset(v)
  }

  /** The calls the chat screen makes on the state, in the order it makes them. */
  datatype Op =
    | StartRequested
    | StartResultHandled
    | CallStarted(renderer: Option<View>)
    | CallFailed
    | CallStopped

  function Apply(v: VisualState, op: Op): VisualState {
    match op
    case StartRequested => OnStartVideoCallRequested(v)
    case StartResultHandled => OnStartVideoCallResultHandled(v)
    case CallStarted(renderer) => OnCallStarted(v, renderer)
    case CallFailed => OnCallFailed(v)
    case CallStopped => OnCallStopped(v)
  }

  /** Every single operation keeps the placeholder invariant. */
  lemma ApplyPreservesValid(v: VisualState, op: Op)
    requires Valid(v)
    ensures Valid(Apply(v, op))
  {
  }

  /** The state after a run of operations on a fresh state. */
  function Run(ops: seq<Op>): VisualState
    decreases |ops|
  {
    if ops == [] then Initial else Apply(Run(ops[..|ops| - 1]), ops[|ops| - 1])
  }

  /** Reference definition: the renderer the last call-lifecycle operation left, if it was a start. */
  function LastLifecycle(ops: seq<Op>): Option<Op>
    decreases |ops|
  {
    if ops == [] then None
    else
      var op := ops[|ops| - 1];
      if op.CallStarted? || op.CallFailed? || op.CallStopped? then Some(op)
      else LastLifecycle(ops[..|ops| - 1])
  }

  /**
   * After any run the renderer is the one of the most recent start, unless a failure or stop
   * came after it; the placeholder is visible exactly when that start was audio-only. Hence
   * every reachable state satisfies the invariant.
   */
  lemma {:induction false} RunMatchesLastLifecycle(ops: seq<Op>)
    ensures var v := Run(ops);
            var last := LastLifecycle(ops);
            && v.videoRenderer == (if last.Some? && last.value.CallStarted? then last.value.renderer else None)
            && (v.isAudioOnlyPlaceholderVisible <==> last.Some? && last.value == CallStarted(None))
            && Valid(v)
    decreases |ops|
  {
    if ops != [] {
      RunMatchesLastLifecycle(ops[..|ops| - 1]);
    }
  }

  /** Every operation other than a start request clears the progress flag. */
  lemma InProgressOnlyAfterRequest(ops: seq<Op>)
    ensures Run(ops).isStartVideoCallInProgress <==> ops != [] && ops[|ops| - 1].StartRequested?
  {
  }
}
