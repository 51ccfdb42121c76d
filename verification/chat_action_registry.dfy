/**
 * The registry of chat-screen action buttons, and the click logic of the two buttons that
 * make decisions: the microphone toggle and the camera button. A button's click handler is
 * identified by the action that created it; the SDK and UI calls a handler makes are
 * returned as a list of effects, in the order they are made. Callbacks the SDK invokes
 * later are separate functions from their result to the further effects.
 */
module ChatActionRegistry {
  import opened Options

  datatype ChatAction =
    | Disconnect | StartVideoCall | StopVideoCall | InterruptTalking | Greeting
    | SwapFace | SwapVoice | SendChatMessage | SendVideoMessage
    | MicrophoneToggle | SceneInfo | SkipScene | PinScene | UnpinScene
    | GetSchedule | GetRecording | Camera

  /** The string resources used as button labels. */
  datatype LabelRes =
    | BtnDisconnect | BtnVideoCall | BtnStopVideoCall | BtnInterruptTalking | BtnGreeting
    | BtnSwapFace | BtnSwapVoice | BtnSendChatMessage | BtnSendVideoMessage
    | BtnMuteMicrophone | BtnUnmuteMicrophone | BtnGetScene | BtnSkipScene | BtnPinScene
    | BtnUnpinScene | BtnGetSchedule | BtnGetRecording | BtnCamera

  /** A button: its label, whether it is enabled, and the action whose handler it runs. */
  datatype ActionButtonSpec = ActionButtonSpec(labelResId: LabelRes, enabled: bool, onClick: ChatAction)

  /** The camera preview renderer the SDK hands back; only its identity matters. */
  datatype CameraView = CameraView(handle: nat)

  /** The parts of the screen's action context the registry decides on. */
  datatype ChatActionContext = ChatActionContext(
    isMicrophoneMuted: bool,
    isMicrophoneToggleInProgress: bool,
    publishedCameraView: Option<CameraView>,
    showCallControls: bool,
    hasCameraPermission: bool)

  const PrimaryActions: seq<ChatAction> := [
    Disconnect, StartVideoCall, StopVideoCall, InterruptTalking, Greeting,
    SwapFace, SwapVoice, SendChatMessage, SendVideoMessage
  ]

  const CallSpecificActions: seq<ChatAction> := [
    MicrophoneToggle, SceneInfo, SkipScene, PinScene, UnpinScene,
    GetSchedule, GetRecording, Camera
  ]

  /** The label a microphone button shows: what a press would do. */
  function MicrophoneLabel(muted: bool): LabelRes {
    if muted then BtnUnmuteMicrophone else BtnMuteMicrophone
  }

  /** `ChatAction.create`: every action returns a spec, even though the type admits none. */
  function Create(a: ChatAction, ctx: ChatActionContext): (r: Option<ActionButtonSpec>)
    ensures r.Some? && r.value.onClick == a
    ensures LabelAction(r.value.labelResId) == Some(a)
    ensures a != MicrophoneToggle ==> r.value.enabled
    ensures a == MicrophoneToggle ==>
              && r.value.enabled == !ctx.isMicrophoneToggleInProgress
              && (r.value.labelResId == BtnUnmuteMicrophone <==> ctx.isMicrophoneMuted)
              && (r.value.labelResId == BtnMuteMicrophone <==> !ctx.isMicrophoneMuted)
  {
    match a
    case Disconnect => Some(ActionButtonSpec(BtnDisconnect, true, a))
    case StartVideoCall => Some(ActionButtonSpec(BtnVideoCall, true, a))
    case StopVideoCall => Some(ActionButtonSpec(BtnStopVideoCall, true, a))
    case InterruptTalking => Some(ActionButtonSpec(BtnInterruptTalking, true, a))
    case Greeting => Some(ActionButtonSpec(BtnGreeting, true, a))
    case SwapFace => Some(ActionButtonSpec(BtnSwapFace, true, a))
    case SwapVoice => Some(ActionButtonSpec(BtnSwapVoice, true, a))
    case SendChatMessage => Some(ActionButtonSpec(BtnSendChatMessage, true, a))
    case SendVideoMessage => Some(ActionButtonSpec(BtnSendVideoMessage, true, a))
    case MicrophoneToggle =>
      Some(ActionButtonSpec(MicrophoneLabel(ctx.isMicrophoneMuted), !ctx.isMicrophoneToggleInProgress, a))
    case SceneInfo => Some(ActionButtonSpec(BtnGetScene, true, a))
    case SkipScene => Some(ActionButtonSpec(BtnSkipScene, true, a))
    case PinScene => Some(ActionButtonSpec(BtnPinScene, true, a))
    case UnpinScene => Some(ActionButtonSpec(BtnUnpinScene, true, a))
    case GetSchedule => Some(ActionButtonSpec(BtnGetSchedule, true, a))
    case GetRecording => Some(ActionButtonSpec(BtnGetRecording, true, a))
    case Camera => Some(ActionButtonSpec(BtnCamera, true, a))
  }

  /**
   * Reference definition: the action a label belongs to. Both microphone labels belong to
   * the microphone toggle; every other label to exactly one action.
   */
  function LabelAction(l: LabelRes): Option<ChatAction> {
    match l
    case BtnDisconnect => Some(Disconnect)
    case BtnVideoCall => Some(StartVideoCall)
    case BtnStopVideoCall => Some(StopVideoCall)
    case BtnInterruptTalking => Some(InterruptTalking)
    case BtnGreeting => Some(Greeting)
    case BtnSwapFace => Some(SwapFace)
    case BtnSwapVoice => Some(SwapVoice)
    case BtnSendChatMessage => Some(SendChatMessage)
    case BtnSendVideoMessage => Some(SendVideoMessage)
    case BtnMuteMicrophone => Some(MicrophoneToggle)
    case BtnUnmuteMicrophone => Some(MicrophoneToggle)
    case BtnGetScene => Some(SceneInfo)
    case BtnSkipScene => Some(SkipScene)
    case BtnPinScene => Some(PinScene)
    case BtnUnpinScene => Some(UnpinScene)
    case BtnGetSchedule => Some(GetSchedule)
    case BtnGetRecording => Some(GetRecording)
    case BtnCamera => Some(Camera)
  }

  /** The position of an action in the full button list: the primary actions, then the call-specific ones. */
  function ActionIndex(a: ChatAction): nat {
    match a
    case Disconnect => 0
    case StartVideoCall => 1
    case StopVideoCall => 2
    case InterruptTalking => 3
    case Greeting => 4
    case SwapFace => 5
    case SwapVoice => 6
    case SendChatMessage => 7
    case SendVideoMessage => 8
    case MicrophoneToggle => 9
    case SceneInfo => 10
    case SkipScene => 11
    case PinScene => 12
    case UnpinScene => 13
    case GetSchedule => 14
    case GetRecording => 15
    case Camera => 16
  }

  /**
   * `actions.mapNotNull { it.create(context) }`. Since `create` never returns null, every
   * action keeps its button, in order.
   */
  function MapNotNull(actions: seq<ChatAction>, ctx: ChatActionContext): (r: seq<ActionButtonSpec>)
    ensures |r| == |actions|
    ensures forall i :: 0 <= i < |r| ==> r[i] == Create(actions[i], ctx).value
    decreases |actions|
  {
    if actions == [] then []
    else
      var rest := MapNotNull(actions[1..], ctx);
      match Create(actions[0], ctx)
      case Some(spec) => [spec] + rest
      case None => rest
  }

  function BuildActionButtons(ctx: ChatActionContext): (r: seq<ActionButtonSpec>)
    ensures |r| == (if ctx.showCallControls then 17 else 9)
    ensures forall i :: 0 <= i < 9 ==> r[i].onClick == PrimaryActions[i]
    ensures ctx.showCallControls ==>
              forall j :: 0 <= j < 8 ==> r[9 + j].onClick == CallSpecificActions[j]
    ensures forall i :: 0 <= i < |r| ==> r[i] == Create(r[i].onClick, ctx).value
  {
    var actions := PrimaryActions + (if ctx.showCallControls then CallSpecificActions else []);
    MapNotNull(actions, ctx)
  }

  /** Without call controls no microphone or scene button is offered; with them, the microphone label follows the mute state. */
  lemma CallControlsVisibility(ctx: ChatActionContext)
    ensures !ctx.showCallControls ==>
              forall i :: 0 <= i < |BuildActionButtons(ctx)| ==>
                BuildActionButtons(ctx)[i].labelResId !in
                  {BtnMuteMicrophone, BtnUnmuteMicrophone, BtnGetScene, BtnSkipScene, BtnPinScene, BtnUnpinScene}
    ensures ctx.showCallControls ==>
              BuildActionButtons(ctx)[9].labelResId == MicrophoneLabel(ctx.isMicrophoneMuted)
              && BuildActionButtons(ctx)[13].labelResId == BtnUnpinScene
  {
    var r := BuildActionButtons(ctx);
    if ctx.showCallControls {
      assert r[9].onClick == CallSpecificActions[0];
      assert r[13].onClick == CallSpecificActions[4];
    } else {
      forall i | 0 <= i < |r|
        ensures r[i].labelResId !in {BtnMuteMicrophone, BtnUnmuteMicrophone, BtnGetScene, BtnSkipScene, BtnPinScene, BtnUnpinScene}
      {
        assert r[i].onClick == PrimaryActions[i];
      }
    }
  }

  /** The declared lists hold the actions at their positions. */
  lemma DeclaredPositions()
    ensures forall k :: 0 <= k < |PrimaryActions| ==> ActionIndex(PrimaryActions[k]) == k
    ensures forall k :: 0 <= k < |CallSpecificActions| ==> ActionIndex(CallSpecificActions[k]) == 9 + k
  {
  }

  /** Each button sits at its action's position, so no action appears twice. */
  lemma ButtonsAtActionIndex(ctx: ChatActionContext)
    ensures var r := BuildActionButtons(ctx);
            forall i :: 0 <= i < |r| ==> ActionIndex(r[i].onClick) == i
  {
    var r := BuildActionButtons(ctx);
    DeclaredPositions();
    forall i | 0 <= i < |r| ensures ActionIndex(r[i].onClick) == i {
      if i < 9 {
        assert r[i].onClick == PrimaryActions[i];
      } else {
        assert r[i].onClick == CallSpecificActions[i - 9];
      }
    }
  }

  /**
   * Labels are distinct within one build, so looking a button up by its label (as the
   * registry's callers do for the camera button) finds the one button of that action.
   */
  lemma LabelsIdentifyButtons(ctx: ChatActionContext)
    ensures var r := BuildActionButtons(ctx);
            && (forall i :: 0 <= i < |r| ==> LabelAction(r[i].labelResId) == Some(r[i].onClick))
            && (forall i, j :: 0 <= i < |r| && 0 <= j < |r| && r[i].labelResId == r[j].labelResId ==> i == j)
  {
    var r := BuildActionButtons(ctx);
    ButtonsAtActionIndex(ctx);
    forall i, j | 0 <= i < |r| && 0 <= j < |r| && r[i].labelResId == r[j].labelResId
      ensures i == j
    {
      assert LabelAction(r[i].labelResId) == Some(r[i].onClick);
      assert LabelAction(r[j].labelResId) == Some(r[j].onClick);
    }
  }

  // ---- microphone toggle ----

  datatype MicEffect =
    | SetMicrophoneToggleInProgress(inProgress: bool)
    | MuteMicrophone
    | UnmuteMicrophone
    | SetMicrophoneMuted(muted: bool)
    | ShowMicrophoneToggleFailed

  /** The click: ignored while a toggle runs; otherwise mark in progress and call the opposite of the current state. */
  function MicrophoneClick(ctx: ChatActionContext): (effects: seq<MicEffect>)
    ensures ctx.isMicrophoneToggleInProgress ==> effects == []
    ensures !ctx.isMicrophoneToggleInProgress ==>
              && |effects| == 2
              && effects[0] == SetMicrophoneToggleInProgress(true)
              && (effects[1] == UnmuteMicrophone <==> ctx.isMicrophoneMuted)
              && (effects[1] == MuteMicrophone <==> !ctx.isMicrophoneMuted)
  {
    if ctx.isMicrophoneToggleInProgress then []
    else [SetMicrophoneToggleInProgress(true), if ctx.isMicrophoneMuted then UnmuteMicrophone else MuteMicrophone]
  }

  /** The SDK's callback; `currentlyMuted` is the state captured when the button was pressed. */
  function MicrophoneCallback(currentlyMuted: bool, success: bool): (effects: seq<MicEffect>)
    ensures |effects| == 2 && effects[0] == SetMicrophoneToggleInProgress(false)
    ensures success ==> effects[1] == SetMicrophoneMuted(!currentlyMuted)
    ensures !success ==> effects[1] == ShowMicrophoneToggleFailed
  {
    [SetMicrophoneToggleInProgress(false),
     if success then SetMicrophoneMuted(!currentlyMuted) else ShowMicrophoneToggleFailed]
  }

  /** The two screen-state flags the microphone effects write. */
  datatype MicState = MicState(muted: bool, inProgress: bool)

  /** The flag a single microphone effect writes; SDK calls and the snackbar write none. */
  function MicStep(m: MicState, e: MicEffect): MicState {
    match e
    case SetMicrophoneToggleInProgress(p) => m.(inProgress := p)
    case SetMicrophoneMuted(v) => m.(muted := v)
    case _ => m
  }

  function ApplyMic(m: MicState, effects: seq<MicEffect>): MicState
    decreases |effects|
  {
    if effects == [] then m else ApplyMic(MicStep(m, effects[0]), effects[1..])
  }

  lemma ApplyMicPair(m: MicState, a: MicEffect, b: MicEffect)
    ensures ApplyMic(m, [a, b]) == MicStep(MicStep(m, a), b)
  {
    assert [a, b][1..] == [b];
    assert [b][1..] == [];
    assert ApplyMic(m, [a, b]) == ApplyMic(MicStep(m, a), [b]);
    assert ApplyMic(MicStep(m, a), [b]) == ApplyMic(MicStep(MicStep(m, a), b), []);
  }

  /** Applying effects one list after another is applying their concatenation. */
  lemma {:induction false} ApplyMicAppend(m: MicState, a: seq<MicEffect>, b: seq<MicEffect>)
    ensures ApplyMic(m, a + b) == ApplyMic(ApplyMic(m, a), b)
    decreases |a|
  {
    if a == [] {
      assert a + b == b;
    } else {
      assert (a + b)[0] == a[0];
      assert (a + b)[1..] == a[1..] + b;
      ApplyMicAppend(MicStep(m, a[0]), a[1..], b);
    }
  }

  /** A press followed by the SDK's answer (if the press reached the SDK). */
  function MicrophoneRoundTrip(ctx: ChatActionContext, success: bool): seq<MicEffect> {
    var click := MicrophoneClick(ctx);
    if click == [] then [] else click + MicrophoneCallback(ctx.isMicrophoneMuted, success)
  }

  /**
   * A full round trip never leaves the toggle in progress, flips the mute state exactly on
   * success, and calls the SDK exactly once; a press during a toggle does nothing.
   */
  lemma MicrophoneRoundTripOutcome(ctx: ChatActionContext, success: bool)
    requires !ctx.isMicrophoneToggleInProgress
    ensures var effects := MicrophoneRoundTrip(ctx, success);
            var after := ApplyMic(MicState(ctx.isMicrophoneMuted, false), effects);
            && !after.inProgress
            && after.muted == (if success then !ctx.isMicrophoneMuted else ctx.isMicrophoneMuted)
            && multiset(effects)[MuteMicrophone] + multiset(effects)[UnmuteMicrophone] == 1
            && (ShowMicrophoneToggleFailed in effects <==> !success)
  {
    var click := MicrophoneClick(ctx);
    var answer := MicrophoneCallback(ctx.isMicrophoneMuted, success);
    var m0 := MicState(ctx.isMicrophoneMuted, false);
    assert click == [click[0], click[1]];
    assert answer == [answer[0], answer[1]];
    ApplyMicAppend(m0, click, answer);
    ApplyMicPair(m0, click[0], click[1]);
    ApplyMicPair(ApplyMic(m0, click), answer[0], answer[1]);
  }

  // ---- camera ----

  datatype CameraEffect =
    | SetPublishedCameraView(view: Option<CameraView>)
    | UnpublishCamera
    | PublishCamera
    | RequestCameraPermission
    | CameraPermissionDenied
    /** The "publish camera failed" snackbar with the error text, or the unknown-error text when absent. */
    | ShowPublishCameraFailed(reason: Option<string>)

  /** The SDK's answer to a publish request. */
  datatype PublishCameraResult =
    | PublishSuccess(cameraView: Option<CameraView>)
    | PublishFailure(message: Option<string>)
    | Unpublished

  /** The click: remove a visible preview, else publish (asking for permission first when needed). */
  function CameraClick(ctx: ChatActionContext): (effects: seq<CameraEffect>)
    ensures ctx.publishedCameraView.Some? ==>
              effects == [SetPublishedCameraView(None), UnpublishCamera]
    ensures ctx.publishedCameraView.None? && ctx.hasCameraPermission ==> effects == [PublishCamera]
    ensures ctx.publishedCameraView.None? && !ctx.hasCameraPermission ==>
              effects == [RequestCameraPermission]
  {
    if ctx.publishedCameraView.Some? then [SetPublishedCameraView(None), UnpublishCamera]
    else if ctx.hasCameraPermission then [PublishCamera]
    else [RequestCameraPermission]
  }

  /** The permission callback: publish when granted, report the denial otherwise. */
  function OnCameraPermissionResult(granted: bool): (effects: seq<CameraEffect>)
    ensures |effects| == 1
    ensures effects[0] == PublishCamera <==> granted
    ensures effects[0] == CameraPermissionDenied <==> !granted
  {
    if granted then [PublishCamera] else [CameraPermissionDenied]
  }

  /** The publish callback: keep a non-null renderer, otherwise report the failure; `Unpublished` is ignored. */
  function OnPublishCameraResult(result: PublishCameraResult): (effects: seq<CameraEffect>)
    ensures result.PublishSuccess? && result.cameraView.Some? ==>
              effects == [SetPublishedCameraView(result.cameraView)]
    ensures result.PublishSuccess? && result.cameraView.None? ==> effects == [ShowPublishCameraFailed(None)]
    ensures result.PublishFailure? ==> effects == [ShowPublishCameraFailed(result.message)]
    ensures result.Unpublished? ==> effects == []
  {
    match result
    case PublishSuccess(view) =>
      if view.Some? then [SetPublishedCameraView(view)] else [ShowPublishCameraFailed(None)]
    case PublishFailure(message) => [ShowPublishCameraFailed(message)]
    case Unpublished => []
  }

  /**
   * A press on the camera button followed by the callbacks it leads to: the permission
   * answer `granted` (used only when permission was requested) and the publish answer
   * `result` (used only when publishing was requested).
   */
  function CameraFlow(ctx: ChatActionContext, granted: bool, result: PublishCameraResult): seq<CameraEffect> {
    var click := CameraClick(ctx);
    var afterPermission := if RequestCameraPermission in click then click + OnCameraPermissionResult(granted) else click;
    if PublishCamera in afterPermission then afterPermission + OnPublishCameraResult(result) else afterPermission
  }

  /** The preview the screen holds after applying the effects. */
  function PublishedViewAfter(view: Option<CameraView>, effects: seq<CameraEffect>): Option<CameraView>
    decreases |effects|
  {
    if effects == [] then view
    else
      var next := if effects[0].SetPublishedCameraView? then effects[0].view else view;
      PublishedViewAfter(next, effects[1..])
  }

  lemma PublishedViewAfterOne(view: Option<CameraView>, e: CameraEffect)
    ensures PublishedViewAfter(view, [e]) == (if e.SetPublishedCameraView? then e.view else view)
  {
    assert [e][1..] == [];
  }

  /** Applying effects one list after another is applying their concatenation. */
  lemma {:induction false} PublishedViewAfterAppend(view: Option<CameraView>, a: seq<CameraEffect>, b: seq<CameraEffect>)
    ensures PublishedViewAfter(view, a + b) == PublishedViewAfter(PublishedViewAfter(view, a), b)
    decreases |a|
  {
    if a == [] {
      assert a + b == b;
    } else {
      assert (a + b)[0] == a[0];
      assert (a + b)[1..] == a[1..] + b;
      var next := if a[0].SetPublishedCameraView? then a[0].view else view;
      PublishedViewAfterAppend(next, a[1..], b);
    }
  }

  /** The publish answer leaves the held preview alone unless it carries a renderer. */
  lemma PublishOutcome(view: Option<CameraView>, result: PublishCameraResult)
    ensures PublishedViewAfter(view, OnPublishCameraResult(result))
            == (if result.PublishSuccess? && result.cameraView.Some? then result.cameraView else view)
    ensures PublishCamera !in OnPublishCameraResult(result) && UnpublishCamera !in OnPublishCameraResult(result)
    ensures CameraPermissionDenied !in OnPublishCameraResult(result)
  {
    var effects := OnPublishCameraResult(result);
    if effects != [] {
      assert effects[1..] == [];
    }
  }

  /** A press while a preview is shown only removes it. */
  lemma CameraFlowShown(ctx: ChatActionContext, granted: bool, result: PublishCameraResult)
    requires ctx.publishedCameraView.Some?
    ensures var effects := CameraFlow(ctx, granted, result);
            && effects == [SetPublishedCameraView(None), UnpublishCamera]
            && PublishedViewAfter(ctx.publishedCameraView, effects) == None
  {
    assert [SetPublishedCameraView(None), UnpublishCamera] == [SetPublishedCameraView(None)] + [UnpublishCamera];
    PublishedViewAfterAppend(ctx.publishedCameraView, [SetPublishedCameraView(None)], [UnpublishCamera]);
    PublishedViewAfterOne(ctx.publishedCameraView, SetPublishedCameraView(None));
    PublishedViewAfterOne(None, UnpublishCamera);
  }

  /** With no preview and the app allowed to publish (permission held, or asked for and granted). */
  lemma CameraFlowPublishes(ctx: ChatActionContext, granted: bool, result: PublishCameraResult)
    requires ctx.publishedCameraView.None? && (ctx.hasCameraPermission || granted)
    ensures var effects := CameraFlow(ctx, granted, result);
            var prefix := if ctx.hasCameraPermission then [PublishCamera] else [RequestCameraPermission, PublishCamera];
            && effects == prefix + OnPublishCameraResult(result)
            && PublishedViewAfter(None, effects)
               == (if result.PublishSuccess? then result.cameraView else None)
  {
    var publish := OnPublishCameraResult(result);
    PublishOutcome(None, result);
    if ctx.hasCameraPermission {
      PublishedViewAfterAppend(None, [PublishCamera], publish);
      PublishedViewAfterOne(None, PublishCamera);
    } else {
      assert [RequestCameraPermission, PublishCamera] == [RequestCameraPermission] + [PublishCamera];
      PublishedViewAfterAppend(None, [RequestCameraPermission, PublishCamera], publish);
      PublishedViewAfterAppend(None, [RequestCameraPermission], [PublishCamera]);
      PublishedViewAfterOne(None, RequestCameraPermission);
      PublishedViewAfterOne(None, PublishCamera);
    }
  }

  /** With no preview, no permission, and the request refused: only the denial is reported. */
  lemma CameraFlowDenied(ctx: ChatActionContext, result: PublishCameraResult)
    requires ctx.publishedCameraView.None? && !ctx.hasCameraPermission
    ensures var effects := CameraFlow(ctx, false, result);
            && effects == [RequestCameraPermission, CameraPermissionDenied]
            && PublishedViewAfter(None, effects) == None
  {
    assert [RequestCameraPermission, CameraPermissionDenied] == [RequestCameraPermission] + [CameraPermissionDenied];
    PublishedViewAfterAppend(None, [RequestCameraPermission], [CameraPermissionDenied]);
    PublishedViewAfterOne(None, RequestCameraPermission);
    PublishedViewAfterOne(None, CameraPermissionDenied);
  }

  /**
   * The whole camera interaction: the preview ends up set exactly when none was shown, the
   * app could publish (permission held or granted) and the SDK returned a renderer, which is
   * then the one kept. Publishing is requested at most once, and never when a preview was
   * shown; a refusal is reported exactly once.
   */
  lemma CameraFlowOutcome(ctx: ChatActionContext, granted: bool, result: PublishCameraResult)
    ensures var effects := CameraFlow(ctx, granted, result);
            var mayPublish := ctx.publishedCameraView.None? && (ctx.hasCameraPermission || granted);
            && PublishedViewAfter(ctx.publishedCameraView, effects)
               == (if mayPublish && result.PublishSuccess? then result.cameraView else None)
            && multiset(effects)[PublishCamera] == (if mayPublish then 1 else 0)
            && multiset(effects)[UnpublishCamera] == (if ctx.publishedCameraView.Some? then 1 else 0)
            && multiset(effects)[CameraPermissionDenied]
               == (if ctx.publishedCameraView.None? && !ctx.hasCameraPermission && !granted then 1 else 0)
  {
    if ctx.publishedCameraView.Some? {
      CameraFlowShown(ctx, granted, result);
    } else if ctx.hasCameraPermission || granted {
      CameraFlowPublishes(ctx, granted, result);
      PublishOutcome(None, result);
    } else {
      CameraFlowDenied(ctx, result);
    }
  }
}
