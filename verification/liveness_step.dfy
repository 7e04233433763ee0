/**
  The liveness step (`LivenessVerificationStep`): camera session, face
  detection strategy, auto-capture countdown, capture, retake and cancel.

  React state, refs and timers are one immutable record. Every timer callback
  and user action is an `Event`, and `Step` is the transition it causes:
  - `Poll` is one tick of the 500 ms detection interval;
  - `CountdownTick` is one tick of a running 1 s countdown interval;
  - `CaptureTimer` is a scheduled `performAutoCapture` call coming due;
  - `VerificationTimer` is the 2 s `simulateVerification` timeout coming due.
  Running intervals and scheduled calls are counted, so a tick or timer with
  nothing scheduled does nothing. The clock reading, the captured frame's data
  URL and the outcome of camera access and of the native detector are event
  parameters.
 */
module Liveness {
  import opened Values
  import opened DidContext
  import SkinDetection

  /** The outcome of one call to the native `FaceDetector.detect`. */
  datatype NativeOutcome =
    | Faces(count: nat)   // the promise resolved with `count` faces
    | DetectorThrew       // the call failed
    | DetectorMissing     // `faceDetectorRef.current` is null: the call returns at once

  datatype Event =
    | Start(cameraGranted: bool)
      // `startVerification`; `cameraGranted` is whether `getUserMedia` resolved
    | Poll(pixels: Option<seq<SkinDetection.Byte>>, native: NativeOutcome)
      // detection tick: the crop's pixels (`None` when the video is not ready) and what the
      // native detector would report; the active strategy decides which one is used
    | CountdownTick
    | CaptureTimer(image: string, now: string)
      // `image` is the frame's `toDataURL`, `now` the ISO clock reading
    | VerificationTimer
    | Cancel
    | Retake(cameraGranted: bool)
    | CompletionEffect
      // the effect marking the step completed when an image is already present

  /** A data URL and an ISO timestamp are never empty. */
  predicate WellFormed(e: Event) {
    e.CaptureTimer? ==> e.image != "" && e.now != ""
  }

  datatype Capture = Capture(
    showCamera: bool,
    capturedImage: Option<string>,
    streamActive: bool,          // the camera stream's tracks are running
    error: Option<string>,
    isUploading: bool,
    faceDetected: bool,
    autoCapture: bool,
    countdown: Option<int>,
    useSimple: bool,             // `useSimpleDetection`
    inProgress: bool,            // `captureInProgress.current`
    captureTimeoutPending: bool, // `captureTimeout.current !== null`
    countdownIntervals: nat,     // countdown intervals still running
    pendingCaptures: nat,        // `performAutoCapture` calls scheduled
    pendingVerifications: nat,   // `simulateVerification` timeouts scheduled
    ctx: State)

  const CameraError := "Could not access camera. Please make sure you have granted camera permissions."

  /** The detector chosen at mount: native when the platform offers `FaceDetector` and
      constructing it succeeds, the skin-tone heuristic otherwise. */
  function UseSimpleAtMount(nativeAvailable: bool, nativeConstructs: bool): (useSimple: bool)
    ensures !useSimple <==> nativeAvailable && nativeConstructs
  {
    if nativeAvailable then !nativeConstructs else true
  }

  /** The component as mounted over the context `ctx`. */
  function Mount(ctx: State, nativeAvailable: bool, nativeConstructs: bool): (s: Capture)
    ensures Truthy(s.capturedImage) <==> Truthy(ctx.didData.livenessImage)
    ensures !s.showCamera && s.countdown.None? && !s.inProgress && s.autoCapture
    ensures s.ctx == ctx
    ensures s.useSimple == UseSimpleAtMount(nativeAvailable, nativeConstructs)
    ensures s.pendingCaptures == 0 && s.pendingVerifications == 0 && s.countdownIntervals == 0
  {
    Capture(
      showCamera := false,
      capturedImage := if Truthy(ctx.didData.livenessImage) then ctx.didData.livenessImage else None,
      streamActive := false,
      error := None,
      isUploading := false,
      faceDetected := false,
      autoCapture := true,
      countdown := None,
      useSimple := UseSimpleAtMount(nativeAvailable, nativeConstructs),
      inProgress := false,
      captureTimeoutPending := false,
      countdownIntervals := 0,
      pendingCaptures := 0,
      pendingVerifications := 0,
      ctx := ctx)
  }

  /** The detection interval runs, and the `<video>` element is mounted, exactly while the
      camera is shown and no image has been captured. */
  predicate Polling(s: Capture) {
    s.showCamera && !Truthy(s.capturedImage)
  }

  /** The guard under which a positive sample starts the countdown. */
  predicate ArmCondition(s: Capture, faceFound: bool) {
    faceFound && s.autoCapture && !s.inProgress && s.countdown.None?
  }

  /** `handleFaceDetection(faceFound)`. */
  function HandleFaceDetection(s: Capture, faceFound: bool): (r: Capture)
    ensures r.faceDetected == faceFound
    ensures ArmCondition(s, faceFound) ==>
              r.countdown == Some(1) && r.inProgress && r.countdownIntervals == s.countdownIntervals + 1
    ensures !ArmCondition(s, faceFound) ==> r.countdownIntervals == s.countdownIntervals
    ensures !ArmCondition(s, faceFound) && !(!faceFound && s.captureTimeoutPending) ==>
              r == s.(faceDetected := faceFound)
    ensures r.ctx == s.ctx && r.capturedImage == s.capturedImage && r.pendingCaptures == s.pendingCaptures
  {
    var s1 := s.(faceDetected := faceFound);
    if ArmCondition(s, faceFound) then
      s1.(countdown := Some(1), inProgress := true, countdownIntervals := s.countdownIntervals + 1)
    else if !faceFound && s.captureTimeoutPending then
      s1.(captureTimeoutPending := false, countdown := None, inProgress := false)
    else s1
  }

  /** One tick of the detection interval, through whichever strategy is active. A failing
      native detector switches to the heuristic for good and reports nothing. */
  function PollTick(s: Capture, pixels: Option<seq<SkinDetection.Byte>>, native: NativeOutcome): (r: Capture)
    ensures !Polling(s) ==> r == s
    ensures Polling(s) && !s.useSimple && native.DetectorThrew? ==> r == s.(useSimple := true)
    ensures r.useSimple == (s.useSimple || (Polling(s) && native.DetectorThrew?))
    ensures Polling(s) && s.useSimple && pixels.Some? ==>
              var d := pixels.value;
              r == HandleFaceDetection(s, SkinDetection.FaceFound(SkinDetection.SkinCount(d, SkinDetection.Visited(|d|)), |d|))
    ensures Polling(s) && !s.useSimple && native.Faces? ==> r == HandleFaceDetection(s, native.count > 0)
    ensures (s.useSimple && pixels.None?) || (!s.useSimple && native.DetectorMissing?) ==> r == s
  {
    if !Polling(s) then s
    else if s.useSimple then
      match pixels
      case None => s
      case Some(data) =>
        var found := SkinDetection.FaceFound(SkinDetection.SkinCount(data, SkinDetection.Visited(|data|)), |data|);
        HandleFaceDetection(s, found)
    else
      match native
      case DetectorMissing => s
      case DetectorThrew => s.(useSimple := true)
      case Faces(n) => HandleFaceDetection(s, n > 0)
  }

  /** One tick of a countdown interval: `setCountdown(prev => ...)`. At 1 or below (or when
      already cleared) it stops the interval and schedules one capture. */
  function CountdownTick(s: Capture): (r: Capture)
    ensures s.countdownIntervals == 0 ==> r == s
    ensures s.countdownIntervals > 0 && (s.countdown.None? || s.countdown.value <= 1) ==>
              && r.countdown.None?
              && r.countdownIntervals == s.countdownIntervals - 1
              && r.pendingCaptures == s.pendingCaptures + 1
    ensures s.countdownIntervals > 0 && s.countdown.Some? && s.countdown.value > 1 ==>
              && r.countdown == Some(s.countdown.value - 1)
              && r.countdownIntervals == s.countdownIntervals
              && r.pendingCaptures == s.pendingCaptures
    ensures r.inProgress == s.inProgress && r.ctx == s.ctx && r.capturedImage == s.capturedImage
  {
    if s.countdownIntervals == 0 then s
    else if s.countdown.Some? && s.countdown.value > 1 then
      s.(countdown := Some(s.countdown.value - 1))
    else
      s.(countdown := None, countdownIntervals := s.countdownIntervals - 1,
         pendingCaptures := s.pendingCaptures + 1)
  }

  /** The context update made on capture. */
  function CapturePatch(image: string, now: string): Patch {
    EmptyPatch.(livenessImage := Put(Some(image)), livenessVerified := Put(true),
                livenessTimestamp := Put(Some(now)))
  }

  /** The context update made on retake. */
  const ClearLivenessPatch: Patch :=
    EmptyPatch.(livenessImage := Put(None), livenessVerified := Put(false), livenessTimestamp := Put(None))

  /** `handleCapture(image)`: show the still, hide the camera, record the liveness fields in one
      update and start the simulated verification. The stream keeps running. */
  function HandleCapture(s: Capture, image: string, now: string): (r: Capture)
    requires image != "" && now != ""
    ensures r.capturedImage == Some(image) && !r.showCamera && !Polling(r)
    ensures r.ctx == UpdateDidData(s.ctx, CapturePatch(image, now))
    ensures r.ctx.didData.livenessImage == Some(image) && r.ctx.didData.livenessVerified
    ensures r.ctx.didData.livenessTimestamp == Some(now)
    ensures r.isUploading && r.pendingVerifications == s.pendingVerifications + 1
    ensures r.streamActive == s.streamActive
  {
    s.(capturedImage := Some(image), showCamera := false,
       ctx := UpdateDidData(s.ctx, CapturePatch(image, now)),
       isUploading := true, pendingVerifications := s.pendingVerifications + 1)
  }

  /** A scheduled `performAutoCapture` comes due. Without a mounted video it returns at once;
      otherwise it captures and clears the capture state. */
  function CaptureTimer(s: Capture, image: string, now: string): (r: Capture)
    requires image != "" && now != ""
    ensures s.pendingCaptures == 0 ==> r == s
    ensures s.pendingCaptures > 0 && !Polling(s) ==> r == s.(pendingCaptures := s.pendingCaptures - 1)
    ensures s.pendingCaptures > 0 && Polling(s) ==>
              && r.capturedImage == Some(image) && !Polling(r)
              && r.ctx == UpdateDidData(s.ctx, CapturePatch(image, now))
              && !r.inProgress && r.countdown.None?
    ensures r.useSimple == s.useSimple
  {
    if s.pendingCaptures == 0 then s
    else
      var s1 := s.(pendingCaptures := s.pendingCaptures - 1);
      if !Polling(s1) then s1
      else HandleCapture(s1, image, now).(inProgress := false, countdown := None)
  }

  /** `startVerification`: clear the detection state, then open the camera or report the error. */
  function StartVerification(s: Capture, cameraGranted: bool): (r: Capture)
    ensures !r.faceDetected && r.countdown.None? && !r.inProgress
    ensures cameraGranted ==> r.showCamera && r.streamActive && r.error.None?
    ensures !cameraGranted ==> r.showCamera == s.showCamera && r.error == Some(CameraError)
    ensures r.ctx == s.ctx && r.capturedImage == s.capturedImage && r.useSimple == s.useSimple
  {
    var s1 := s.(error := None, faceDetected := false, countdown := None, inProgress := false);
    if cameraGranted then s1.(streamActive := true, showCamera := true)
    else s1.(error := Some(CameraError))
  }

  /** `handleCancelCapture`: hide the camera and stop the stream; the context is untouched. */
  function CancelCapture(s: Capture): (r: Capture)
    ensures !r.showCamera && !r.streamActive && !Polling(r)
    ensures r.ctx == s.ctx && r.capturedImage == s.capturedImage
  {
    s.(showCamera := false, streamActive := false)
  }

  /** `handleRetake`: drop the still, clear exactly the three liveness fields, restart. */
  function HandleRetake(s: Capture, cameraGranted: bool): (r: Capture)
    ensures r.capturedImage.None?
    ensures r.ctx == UpdateDidData(s.ctx, ClearLivenessPatch)
    ensures r == StartVerification(s.(capturedImage := None, ctx := r.ctx), cameraGranted)
  {
    StartVerification(s.(capturedImage := None, ctx := UpdateDidData(s.ctx, ClearLivenessPatch)), cameraGranted)
  }

  /** The `simulateVerification` timeout coming due: the upload ends and the step is marked
      completed; the record and the capture are left alone. Nothing happens when no timeout is
      scheduled. */
  function VerificationTimeout(s: Capture): (r: Capture)
    ensures s.pendingVerifications == 0 ==> r == s
    ensures s.pendingVerifications > 0 ==>
              && !r.isUploading && r.ctx.isStepCompleted
              && r.pendingVerifications == s.pendingVerifications - 1
    ensures r.ctx.didData == s.ctx.didData && r.ctx.didVerificationScore == s.ctx.didVerificationScore
    ensures r.capturedImage == s.capturedImage && r.showCamera == s.showCamera
  {
    if s.pendingVerifications == 0 then s
    else s.(isUploading := false, pendingVerifications := s.pendingVerifications - 1,
            ctx := MarkStepAsCompleted(s.ctx, true))
  }

  /** The effect on `capturedImage` and the completion flag: a still on screen completes a step
      that is not yet completed. Only the completion flag can change. */
  function CompleteOnCapture(s: Capture): (r: Capture)
    ensures r.ctx.isStepCompleted == (s.ctx.isStepCompleted || Truthy(s.capturedImage))
    ensures r.(ctx := s.ctx) == s
    ensures r.ctx.didData == s.ctx.didData && r.ctx.didVerificationScore == s.ctx.didVerificationScore
  {
    if Truthy(s.capturedImage) && !s.ctx.isStepCompleted then s.(ctx := MarkStepAsCompleted(s.ctx, true))
    else s
  }

  /** One event. Only a due capture or a retake writes the record, and only the verification
      timeout and the completion effect mark the step completed. */
  function Step(s: Capture, e: Event): (r: Capture)
    requires WellFormed(e)
    ensures !e.CaptureTimer? && !e.Retake? ==> r.ctx.didData == s.ctx.didData
    ensures r.ctx.isStepCompleted && !s.ctx.isStepCompleted ==> e.VerificationTimer? || e.CompletionEffect?
  {
    match e
    case Start(granted) => StartVerification(s, granted)
    case Poll(pixels, native) => PollTick(s, pixels, native)
    case CountdownTick => CountdownTick(s)
    case CaptureTimer(image, now) => CaptureTimer(s, image, now)
    case VerificationTimer => VerificationTimeout(s)
    case Cancel => CancelCapture(s)
    case Retake(granted) => HandleRetake(s, granted)
    case CompletionEffect => CompleteOnCapture(s)
  }

  predicate AllWellFormed(es: seq<Event>) {
    forall i :: 0 <= i < |es| ==> WellFormed(es[i])
  }

  /** The state after the events `es`, in order. */
  function Run(s: Capture, es: seq<Event>): Capture
    requires AllWellFormed(es)
    decreases |es|
  {
    if es == [] then s else Run(Step(s, es[0]), es[1..])
  }

  /** Running a non-empty list is one step, then the rest. */
  lemma RunCons(s: Capture, e: Event, es: seq<Event>)
    requires WellFormed(e) && AllWellFormed(es)
    ensures AllWellFormed([e] + es)
    ensures Run(s, [e] + es) == Run(Step(s, e), es)
  {
    assert ([e] + es)[0] == e;
    assert ([e] + es)[1..] == es;
  }

  // ---------------------------------------------------------------------
  // Invariant of every state reachable from mount
  // ---------------------------------------------------------------------

  /** The liveness fields of the record agree with each other: verified only with an image and
      a timestamp. */
  predicate LivenessConsistent(d: DidData) {
    d.livenessVerified ==> Truthy(d.livenessImage) && d.livenessTimestamp.Some?
  }

  /** The still on screen is the record's liveness image (or none when it has none). */
  predicate ImageInSync(s: Capture) {
    s.capturedImage == (if Truthy(s.ctx.didData.livenessImage) then s.ctx.didData.livenessImage else None)
  }

  predicate Inv(s: Capture) {
    && s.autoCapture
    && !s.captureTimeoutPending
    && (s.countdown.Some? ==> s.inProgress)
    && ImageInSync(s)
    && LivenessConsistent(s.ctx.didData)
  }

  lemma MountEstablishesInv(ctx: State, nativeAvailable: bool, nativeConstructs: bool)
    requires LivenessConsistent(ctx.didData)
    ensures Inv(Mount(ctx, nativeAvailable, nativeConstructs))
  {
  }

  lemma StepPreservesInv(s: Capture, e: Event)
    requires Inv(s) && WellFormed(e)
    ensures Inv(Step(s, e))
  {
    match e
    case Start(granted) => StartPreservesInv(s, granted);
    case Poll(pixels, native) => PollPreservesInv(s, pixels, native);
    case CountdownTick =>
    case CaptureTimer(image, now) => CaptureTimerPreservesInv(s, image, now);
    case VerificationTimer =>
    case Cancel =>
    case Retake(granted) => RetakePreservesInv(s, granted);
    case CompletionEffect =>
  }

  lemma StartPreservesInv(s: Capture, cameraGranted: bool)
    requires Inv(s)
    ensures Inv(StartVerification(s, cameraGranted))
  {
  }

  lemma HandleFacePreservesInv(s: Capture, faceFound: bool)
    requires Inv(s)
    ensures Inv(HandleFaceDetection(s, faceFound))
  {
  }

  lemma PollPreservesInv(s: Capture, pixels: Option<seq<SkinDetection.Byte>>, native: NativeOutcome)
    requires Inv(s)
    ensures Inv(PollTick(s, pixels, native))
  {
    if Polling(s) {
      if s.useSimple && pixels.Some? {
        var data := pixels.value;
        HandleFacePreservesInv(s, SkinDetection.FaceFound(
          SkinDetection.SkinCount(data, SkinDetection.Visited(|data|)), |data|));
      } else if !s.useSimple && native.Faces? {
        HandleFacePreservesInv(s, native.count > 0);
      }
    }
  }

  lemma CaptureTimerPreservesInv(s: Capture, image: string, now: string)
    requires Inv(s) && image != "" && now != ""
    ensures Inv(CaptureTimer(s, image, now))
  {
  }

  lemma RetakePreservesInv(s: Capture, cameraGranted: bool)
    requires Inv(s)
    ensures Inv(HandleRetake(s, cameraGranted))
  {
  }

  lemma {:induction false} RunPreservesInv(s: Capture, es: seq<Event>)
    requires Inv(s) && AllWellFormed(es)
    ensures Inv(Run(s, es))
    decreases |es|
  {
    if es != [] {
      StepPreservesInv(s, es[0]);
      RunPreservesInv(Step(s, es[0]), es[1..]);
    }
  }

  // ---------------------------------------------------------------------
  // Properties of the auto-capture protocol
  // ---------------------------------------------------------------------

  /** In reachable states the countdown test of the arming guard is implied by the in-progress
      test, so the guard reduces to: a face, auto-capture on, nothing in progress. */
  lemma ArmingNeedsOnlyInProgress(s: Capture, faceFound: bool)
    requires Inv(s)
    ensures ArmCondition(s, faceFound) <==> faceFound && !s.inProgress
  {
  }

  /** While a capture is in progress, no detection sample re-arms or restarts the countdown:
      the countdown, the in-progress flag and the running intervals are left as they are. */
  lemma NoRearmWhileInProgress(s: Capture, pixels: Option<seq<SkinDetection.Byte>>, native: NativeOutcome)
    requires Inv(s) && s.inProgress
    ensures var r := PollTick(s, pixels, native);
      r.countdown == s.countdown && r.inProgress && r.countdownIntervals == s.countdownIntervals
  {
  }

  /** A sample without a face does not cancel an armed countdown: the reset branch needs a
      pending `captureTimeout`, which nothing ever sets, so only the face indicator changes. */
  lemma FaceLossKeepsCountdown(s: Capture)
    requires Inv(s)
    ensures HandleFaceDetection(s, false) == s.(faceDetected := false)
  {
  }

  /** From an armed countdown of 1 a single tick fires exactly one scheduled capture. */
  lemma TickFromOneFires(s: Capture)
    requires s.countdown == Some(1) && s.countdownIntervals == 1
    ensures var r := CountdownTick(s);
      r.countdown.None? && r.countdownIntervals == 0 && r.pendingCaptures == s.pendingCaptures + 1
  {
  }

  /** The native-to-heuristic switch is one-way: no event turns the heuristic off. */
  lemma StepKeepsSimpleDetection(s: Capture, e: Event)
    requires WellFormed(e) && s.useSimple
    ensures Step(s, e).useSimple
  {
    match e
    case Start(granted) =>
    case Poll(pixels, native) =>
    case CountdownTick =>
    case CaptureTimer(image, now) =>
    case VerificationTimer =>
    case Cancel =>
    case Retake(granted) =>
    case CompletionEffect =>
  }

  lemma {:induction false} RunKeepsSimpleDetection(s: Capture, es: seq<Event>)
    requires AllWellFormed(es) && s.useSimple
    ensures Run(s, es).useSimple
    decreases |es|
  {
    if es != [] {
      StepKeepsSimpleDetection(s, es[0]);
      RunKeepsSimpleDetection(Step(s, es[0]), es[1..]);
    }
  }

  /** A captured image is final until a retake: no other event replaces or clears it, or the
      record's liveness image. */
  lemma CapturedIsStable(s: Capture, e: Event)
    requires Inv(s) && WellFormed(e) && Truthy(s.capturedImage) && !e.Retake?
    ensures Step(s, e).capturedImage == s.capturedImage
    ensures Step(s, e).ctx.didData.livenessImage == s.ctx.didData.livenessImage
  {
    match e
    case Start(granted) =>
    case Poll(pixels, native) =>
    case CountdownTick =>
    case CaptureTimer(image, now) =>
    case VerificationTimer =>
    case Cancel =>
    case Retake(granted) =>
    case CompletionEffect =>
  }

  /** Number of events in `es` that capture an image, starting from `s`. */
  function CaptureCount(s: Capture, es: seq<Event>): nat
    requires AllWellFormed(es)
    decreases |es|
  {
    if es == [] then 0
    else
      var s' := Step(s, es[0]);
      (if !Truthy(s.capturedImage) && Truthy(s'.capturedImage) then 1 else 0) + CaptureCount(s', es[1..])
  }

  predicate NoRetake(es: seq<Event>) {
    forall i :: 0 <= i < |es| ==> !es[i].Retake?
  }

  lemma {:induction false} NoCaptureAfterCapture(s: Capture, es: seq<Event>)
    requires Inv(s) && AllWellFormed(es) && NoRetake(es) && Truthy(s.capturedImage)
    ensures CaptureCount(s, es) == 0
    decreases |es|
  {
    if es != [] {
      CapturedIsStable(s, es[0]);
      StepPreservesInv(s, es[0]);
      NoCaptureAfterCapture(Step(s, es[0]), es[1..]);
    }
  }

  /** Without a retake, at most one image is ever captured, however many samples, ticks and
      scheduled captures arrive. */
  lemma {:induction false} AtMostOneCaptureWithoutRetake(s: Capture, es: seq<Event>)
    requires Inv(s) && AllWellFormed(es) && NoRetake(es)
    ensures CaptureCount(s, es) <= 1
    decreases |es|
  {
    if es != [] {
      var s' := Step(s, es[0]);
      StepPreservesInv(s, es[0]);
      if !Truthy(s.capturedImage) && Truthy(s'.capturedImage) {
        NoCaptureAfterCapture(s', es[1..]);
      } else {
        AtMostOneCaptureWithoutRetake(s', es[1..]);
      }
    }
  }

  /** Retake merges exactly the three liveness keys: every other field of the record, such as
      the extracted name and document number, is kept. */
  lemma RetakeClearsOnlyLiveness(s: Capture, cameraGranted: bool)
    ensures var d := HandleRetake(s, cameraGranted).ctx.didData;
      && d.livenessImage.None? && !d.livenessVerified && d.livenessTimestamp.None?
      && d == s.ctx.didData.(livenessImage := None, livenessVerified := false, livenessTimestamp := None)
  {
    assert OnlyLivenessKeys(ClearLivenessPatch);
    MergeLivenessOnly(s.ctx.didData, ClearLivenessPatch);
  }

  /** Capture writes the three liveness keys in one update and no other field. */
  lemma CaptureWritesOnlyLiveness(s: Capture, image: string, now: string)
    requires image != "" && now != ""
    ensures var d := HandleCapture(s, image, now).ctx.didData;
      d == s.ctx.didData.(livenessImage := Some(image), livenessVerified := true, livenessTimestamp := Some(now))
  {
    assert OnlyLivenessKeys(CapturePatch(image, now));
    MergeLivenessOnly(s.ctx.didData, CapturePatch(image, now));
  }

  /** The simulated verification that a capture schedules completes the step two seconds later
      and ends the upload indicator, keeping the captured still. */
  lemma CaptureThenVerificationCompletes(s: Capture, image: string, now: string)
    requires image != "" && now != ""
    ensures var r := Step(HandleCapture(s, image, now), VerificationTimer);
      r.ctx.isStepCompleted && !r.isUploading && r.capturedImage == Some(image)
      && r.ctx.didData.livenessVerified
  {
  }

  /** A liveness image already in the record completes the step at mount, before any camera
      session. */
  lemma StoredImageCompletesAtMount(ctx: State, nativeAvailable: bool, nativeConstructs: bool)
    requires Truthy(ctx.didData.livenessImage)
    ensures Step(Mount(ctx, nativeAvailable, nativeConstructs), CompletionEffect).ctx.isStepCompleted
  {
  }

  /** The presence pattern face x3, no face, face x3 after the camera opens, then one countdown
      tick and the scheduled capture: the countdown is armed once, the lost face does not cancel
      it, and exactly one image is captured. */
  lemma PresenceScenario(ctx: State, image: string, now: string)
    requires LivenessConsistent(ctx.didData) && !Truthy(ctx.didData.livenessImage)
    requires image != "" && now != ""
    ensures
      var s0 := StartVerification(Mount(ctx, true, true), true);
      var yes := Poll(None, Faces(1));
      var no := Poll(None, Faces(0));
      var armed := Run(s0, [yes, yes, yes, no, yes, yes, yes]);
      var fired := CountdownTick(armed);
      var done := CaptureTimer(fired, image, now);
      && armed.countdown == Some(1) && armed.inProgress && armed.countdownIntervals == 1
      && fired.pendingCaptures == 1
      && done.capturedImage == Some(image) && done.ctx.didData.livenessVerified
  {
    var s0 := StartVerification(Mount(ctx, true, true), true);
    var yes := Poll(None, Faces(1));
    var no := Poll(None, Faces(0));
    var s1 := Step(s0, yes);
    assert s1.countdown == Some(1) && s1.countdownIntervals == 1;
    var s2 := Step(s1, yes);
    var s3 := Step(s2, yes);
    var s4 := Step(s3, no);
    var s5 := Step(s4, yes);
    var s6 := Step(s5, yes);
    var s7 := Step(s6, yes);
    assert s7.countdown == Some(1) && s7.inProgress && s7.countdownIntervals == 1;
    RunCons(s6, yes, []);
    RunCons(s5, yes, [yes]);
    RunCons(s4, yes, [yes, yes]);
    RunCons(s3, no, [yes, yes, yes]);
    RunCons(s2, yes, [no, yes, yes, yes]);
    RunCons(s1, yes, [yes, no, yes, yes, yes]);
    RunCons(s0, yes, [yes, yes, no, yes, yes, yes]);
  }
}
