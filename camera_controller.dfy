/** The camera screen (`MWCameraViewController`) built on the recording
    controller: the record button's long press and pan-to-zoom, pinch to zoom,
    the recording timer, the photo delay with flash, and the flash and zoom locks.

    The screen owns its recording controller (`core`). Where the Swift subclass
    overrides a main-queue hook of the base class, the override is a method here
    that the screen's operations call right after the base-class step that
    dispatched the hook. */
module CameraController {
  import opened MediaTypes
  import opened FrameClock
  import opened BaseCamera

  // ---------------------------------------------------------------------------
  // Photo delay
  // ---------------------------------------------------------------------------

  /** Seconds waited before a photo is taken with flash when no delay was asked for. */
  const FlashPhotoDelay: real := 1.2

  /** The delay `capturePhoto(after:)` passes on: 1.2 s when flash is enabled and no
      delay was requested, otherwise the requested delay. */
  function PhotoDeadline(isFlashEnabled: bool, deadline: real): (d: real)
    ensures d == deadline || d == FlashPhotoDelay
    ensures d != deadline <==> isFlashEnabled && deadline == 0.0
  {
    if isFlashEnabled && deadline == 0.0 then FlashPhotoDelay else deadline
  }

  /** Flash never shortens a delay, and with flash enabled the photo always waits. */
  lemma FlashOnlyLengthensDelay(isFlashEnabled: bool, deadline: real)
    requires deadline >= 0.0
    ensures PhotoDeadline(isFlashEnabled, deadline) >= deadline
    ensures isFlashEnabled ==> PhotoDeadline(isFlashEnabled, deadline) > 0.0
  {
  }

  // ---------------------------------------------------------------------------
  // Zoom clamps
  // ---------------------------------------------------------------------------

  function Min(a: real, b: real): real {
    if a <= b then a else b
  }

  function Max(a: real, b: real): real {
    if a >= b then a else b
  }

  /** `CGFloat.greatestFiniteMagnitude`, the default `maxZoomScale`. */
  const GreatestFiniteMagnitude: real :=
    179769313486231570814527423731704356798070567525844996598917476803157260780028538760589558632766878171540458953514382464234321326889464182768467546703537516986049910576551282076245490090389328944075868508455133942304583236903222948165808559332123348274797826204144723168738177180919299881250404026184124858368.0

  /** The zoom factor a gesture asks for: the requested scale clamped to
      `[minZoomScale, maxZoomScale]`, then to `[1, videoMaxZoomFactor]`. */
  function ZoomClamp(requested: real, minZoomScale: real, maxZoomScale: real, videoMaxZoomFactor: real): (z: real)
    ensures videoMaxZoomFactor >= 1.0 ==> 1.0 <= z <= videoMaxZoomFactor
    ensures videoMaxZoomFactor < 1.0 ==> z == videoMaxZoomFactor
    ensures Max(1.0, minZoomScale) <= requested <= Min(maxZoomScale, videoMaxZoomFactor) ==> z == requested
  {
    Min(videoMaxZoomFactor, Max(1.0, Min(maxZoomScale, Max(minZoomScale, requested))))
  }

  /** A larger request never gives a smaller zoom factor. */
  lemma ZoomClampIsMonotone(r1: real, r2: real, minZoomScale: real, maxZoomScale: real, videoMaxZoomFactor: real)
    requires r1 <= r2
    ensures ZoomClamp(r1, minZoomScale, maxZoomScale, videoMaxZoomFactor)
            <= ZoomClamp(r2, minZoomScale, maxZoomScale, videoMaxZoomFactor)
  {
  }

  /** With bounds that leave some factor allowed, clamping twice is clamping once. */
  lemma ZoomClampIsIdempotent(requested: real, minZoomScale: real, maxZoomScale: real, videoMaxZoomFactor: real)
    requires Max(1.0, minZoomScale) <= Min(maxZoomScale, videoMaxZoomFactor)
    ensures var z := ZoomClamp(requested, minZoomScale, maxZoomScale, videoMaxZoomFactor);
            ZoomClamp(z, minZoomScale, maxZoomScale, videoMaxZoomFactor) == z
  {
  }

  /** Pinch to zoom: the zoom factor at the start of the pinch times the pinch scale,
      clamped. */
  function PinchZoomFactor(startingZoomScale: real, scale: real, minZoomScale: real, maxZoomScale: real,
                           videoMaxZoomFactor: real): real
  {
    ZoomClamp(startingZoomScale * scale, minZoomScale, maxZoomScale, videoMaxZoomFactor)
  }

  /** The vertical pan that counts: none while the finger is still on or below the
      button's top edge (the translation is reset there). */
  function PanTranslation(translationY: real, locationY: real): real {
    if locationY >= 0.0 then 0.0 else translationY
  }

  /** The zoom factor a full-length pan reaches from a starting zoom of 1. */
  function PanMultiplier(maxZoomScale: real, videoMaxZoomFactor: real): real {
    Min(Max(1.0, maxZoomScale), videoMaxZoomFactor)
  }

  /** The scale a pan asks for: the starting zoom factor times the upward pan as a
      fraction of `zoomPanMaxLength` times the multiplier. */
  function PanRequest(startingZoomScale: real, translationY: real, locationY: real, zoomPanMaxLength: real,
                      maxZoomScale: real, videoMaxZoomFactor: real): real
    requires zoomPanMaxLength != 0.0
  {
    var senderScale := (-PanTranslation(translationY, locationY) / zoomPanMaxLength)
                       * PanMultiplier(maxZoomScale, videoMaxZoomFactor);
    startingZoomScale * senderScale
  }

  /** Pan to zoom from the record button: the requested scale, clamped. */
  function PanZoomFactor(startingZoomScale: real, translationY: real, locationY: real, zoomPanMaxLength: real,
                         minZoomScale: real, maxZoomScale: real, videoMaxZoomFactor: real): real
    requires zoomPanMaxLength != 0.0
  {
    ZoomClamp(PanRequest(startingZoomScale, translationY, locationY, zoomPanMaxLength, maxZoomScale,
                         videoMaxZoomFactor),
              minZoomScale, maxZoomScale, videoMaxZoomFactor)
  }

  lemma ScaleIsMonotone(a: real, b: real, c: real)
    requires a <= b && c >= 0.0
    ensures a * c <= b * c
  {
  }

  /** Dragging further up never zooms out. */
  lemma PanUpwardNeverZoomsOut(startingZoomScale: real, t1: real, t2: real, locationY: real, zoomPanMaxLength: real,
                               minZoomScale: real, maxZoomScale: real, videoMaxZoomFactor: real)
    requires startingZoomScale >= 0.0 && zoomPanMaxLength > 0.0 && videoMaxZoomFactor >= 0.0
    requires t1 <= t2
    ensures PanZoomFactor(startingZoomScale, t2, locationY, zoomPanMaxLength, minZoomScale, maxZoomScale, videoMaxZoomFactor)
            <= PanZoomFactor(startingZoomScale, t1, locationY, zoomPanMaxLength, minZoomScale, maxZoomScale, videoMaxZoomFactor)
  {
    var m := PanMultiplier(maxZoomScale, videoMaxZoomFactor);
    var p1, p2 := PanTranslation(t1, locationY), PanTranslation(t2, locationY);
    assert p1 <= p2 && m >= 0.0;
    SenderScaleIsAntitone(p1, p2, zoomPanMaxLength, m, startingZoomScale);
    var r1 := PanRequest(startingZoomScale, t1, locationY, zoomPanMaxLength, maxZoomScale, videoMaxZoomFactor);
    var r2 := PanRequest(startingZoomScale, t2, locationY, zoomPanMaxLength, maxZoomScale, videoMaxZoomFactor);
    assert r2 <= r1;
    ZoomClampIsMonotone(r2, r1, minZoomScale, maxZoomScale, videoMaxZoomFactor);
  }

  /** A longer upward pan (a smaller translation) asks for at least as large a scale. */
  lemma SenderScaleIsAntitone(a: real, b: real, length: real, multiplier: real, start: real)
    requires a <= b && length > 0.0 && multiplier >= 0.0 && start >= 0.0
    ensures start * ((-b / length) * multiplier) <= start * ((-a / length) * multiplier)
  {
    var x, y := -b / length, -a / length;
    assert x <= y;
    ScaleIsMonotone(x, y, multiplier);
    ScaleIsMonotone(x * multiplier, y * multiplier, start);
    assert start * (x * multiplier) == (x * multiplier) * start;
    assert start * (y * multiplier) == (y * multiplier) * start;
  }

  /** While the finger has not left the button upward, the pan asks for a scale of
      0, so the camera zooms to the smallest factor the bounds allow rather than
      staying at the starting zoom. */
  lemma PanInsideButtonZoomsToMinimum(startingZoomScale: real, translationY: real, locationY: real,
                                      zoomPanMaxLength: real, minZoomScale: real, maxZoomScale: real,
                                      videoMaxZoomFactor: real)
    requires zoomPanMaxLength != 0.0 && locationY >= 0.0
    requires 0.0 <= minZoomScale <= maxZoomScale
    ensures PanZoomFactor(startingZoomScale, translationY, locationY, zoomPanMaxLength, minZoomScale, maxZoomScale,
                          videoMaxZoomFactor)
            == Min(videoMaxZoomFactor, Max(1.0, minZoomScale))
  {
  }

  // ---------------------------------------------------------------------------
  // Record button touch-up
  // ---------------------------------------------------------------------------

  /** What lifting the finger off the record button does. */
  datatype TouchUp =
    | ClearIgnore            // the press was already handled (the recording hit its limit)
    | CapturePhotoAndCancel  // a short press: take a photo and discard the video
    | StopOnTouchUp          // stop the recording when the finger lifts
    | StopRequested          // a second press asked for the recording to stop
    | NoAction

  /** The `.ended` branch of `handleButtonLongPress`, in the order it tests. */
  function TouchUpDecision(shouldIgnore: bool, timePassed: real, photoCaptureThreshold: real,
                           stopsRecordingOnTouchUp: bool, isRecording: bool, shouldStop: bool): (d: TouchUp)
    ensures d == ClearIgnore <==> shouldIgnore
    ensures d == CapturePhotoAndCancel <==> !shouldIgnore && timePassed <= photoCaptureThreshold
    ensures d == StopOnTouchUp <==>
              !shouldIgnore && timePassed > photoCaptureThreshold && stopsRecordingOnTouchUp && isRecording
    ensures d == StopRequested <==>
              !shouldIgnore && timePassed > photoCaptureThreshold && !(stopsRecordingOnTouchUp && isRecording)
              && shouldStop
  {
    if shouldIgnore then ClearIgnore
    else if timePassed <= photoCaptureThreshold then CapturePhotoAndCancel
    else if stopsRecordingOnTouchUp && isRecording then StopOnTouchUp
    else if shouldStop then StopRequested
    else NoAction
  }

  /** Because the threshold is positive, a press released before the timer has
      ticked is a photo, and a video is kept only after the threshold has passed. */
  lemma QuickPressIsAPhoto(timePassed: real, photoCaptureThreshold: real, stopsRecordingOnTouchUp: bool,
                           isRecording: bool, shouldStop: bool)
    requires photoCaptureThreshold > 0.0
    ensures TouchUpDecision(false, 0.0, photoCaptureThreshold, stopsRecordingOnTouchUp, isRecording, shouldStop)
            == CapturePhotoAndCancel
    ensures TouchUpDecision(false, timePassed, photoCaptureThreshold, stopsRecordingOnTouchUp, isRecording, shouldStop)
              in {StopOnTouchUp, StopRequested}
            ==> timePassed > photoCaptureThreshold
  {
  }

  /** The gesture states the handlers distinguish. */
  datatype GestureState = Began | Changed | Ended | Cancelled | Other

  // ---------------------------------------------------------------------------
  // Recording timer
  // ---------------------------------------------------------------------------

  /** Seconds added to `timePassed` on every tick. */
  const TimerTick: real := 0.1

  /** The default limit after which a recording stops by itself, in seconds. */
  const DefaultMaximumVideoDuration: real := 100000.0

  /** The default longest press still taken as a photo, in seconds. */
  const DefaultPhotoCaptureThreshold: real := 2.0

  function Ceil(x: real): int {
    -((-x).Floor)
  }

  /** The time the timer has counted after `ticks` ticks from 0: each tick of
      `updateTimer` adds `TimerTick`. */
  function ElapsedAfter(ticks: nat): (t: real)
    ensures t == ticks as real * TimerTick
  {
    if ticks == 0 then 0.0 else ElapsedAfter(ticks - 1) + TimerTick
  }

  /** The tick on which a recording started at `timePassed == 0` stops by itself:
      the first tick whose accumulated time reaches the maximum duration. */
  function TicksUntilAutoStop(maximumVideoDuration: real): (k: nat)
    ensures k >= 1 && k as real * TimerTick >= maximumVideoDuration
    ensures k == 1 || (k - 1) as real * TimerTick < maximumVideoDuration
  {
    if maximumVideoDuration <= TimerTick then 1
    else
      var c := Ceil(maximumVideoDuration * 10.0);
      assert c as real >= maximumVideoDuration * 10.0 > c as real - 1.0;
      c
  }

  /** The auto-stop tick is the first tick that reaches the maximum duration:
      `updateTimer`, run from 0, stops on tick `j` exactly when `j` is
      `TicksUntilAutoStop`, since every earlier tick is still below the maximum
      and tick `j` reaches it. */
  lemma {:induction false} AutoStopIsFirstTickAtMaximum(maximumVideoDuration: real, j: nat)
    requires j >= 1
    ensures j == TicksUntilAutoStop(maximumVideoDuration)
            <==> ElapsedAfter(j) >= maximumVideoDuration
                 && forall i: nat :: 1 <= i < j ==> ElapsedAfter(i) < maximumVideoDuration
  {
    var k := TicksUntilAutoStop(maximumVideoDuration);
    forall i: nat | 1 <= i < k
      ensures ElapsedAfter(i) < maximumVideoDuration
    {
      assert ElapsedAfter(i) <= ElapsedAfter(k - 1);
    }
    if j < k {
      assert ElapsedAfter(j) <= ElapsedAfter(k - 1);
    } else if j > k {
      assert 1 <= k < j && ElapsedAfter(k) >= maximumVideoDuration;
    }
  }

  // ---------------------------------------------------------------------------
  // The device after the screen's torch and zoom setters, which leave a device
  // alone when there is none or the matching lock is on
  // ---------------------------------------------------------------------------

  /** `setFlash(to:)`: the torch is switched on a device that has one. */
  function Torched(device: Option<Device>, on: bool, isFlashLocked: bool): (d: Option<Device>)
    ensures d.Some? <==> device.Some?
    ensures d.Some? ==> d.value == device.value.(torchOn := d.value.torchOn)
                        && d.value.torchOn == if device.value.hasTorch && !isFlashLocked then on
                                              else device.value.torchOn
  {
    if device.Some? && device.value.hasTorch && !isFlashLocked then Some(device.value.(torchOn := on)) else device
  }

  /** `zoom(to:withRate:)`: the zoom factor becomes `factor`. */
  function Zoomed(device: Option<Device>, factor: real, isZoomLocked: bool): (d: Option<Device>)
    ensures d.Some? <==> device.Some?
    ensures d.Some? ==> d.value == device.value.(videoZoomFactor := d.value.videoZoomFactor)
                        && d.value.videoZoomFactor == if isZoomLocked then device.value.videoZoomFactor else factor
  {
    if device.Some? && !isZoomLocked then Some(device.value.(videoZoomFactor := factor)) else device
  }

  /** `setFlash(to: .off)` when the torch is on: afterwards it is on only if it was
      and either the flash is locked or the device has no torch. */
  function TorchedOff(device: Option<Device>, isFlashLocked: bool): (d: Option<Device>)
    ensures d.Some? <==> device.Some?
    ensures d.Some? ==> d.value == device.value.(torchOn := d.value.torchOn)
                        && d.value.torchOn == (device.value.torchOn && (isFlashLocked || !device.value.hasTorch))
  {
    if device.Some? && device.value.torchOn then Torched(device, false, isFlashLocked) else device
  }

  /** The torch for a capture: switched on when on the back camera with flash enabled. */
  function FlashedForCapture(device: Option<Device>, location: Position, isFlashEnabled: bool,
                             isFlashLocked: bool): (d: Option<Device>)
    ensures d.Some? <==> device.Some?
    ensures d.Some? ==> d.value == device.value.(torchOn := d.value.torchOn)
    ensures location == Back && isFlashEnabled ==> d == Torched(device, true, isFlashLocked)
    ensures location != Back || !isFlashEnabled || isFlashLocked ==> d == device
  {
    if location == Back && isFlashEnabled then Torched(device, true, isFlashLocked) else device
  }

  /** The device after the end-of-recording hook: the torch off, then, when a
      reset is pending, the zoom put back to `startingZoomScale`. Nothing else
      about the device changes. */
  function AfterRecordingEnded(device: Option<Device>, shouldResetZoom: bool, startingZoomScale: real,
                               isFlashLocked: bool, isZoomLocked: bool): (d: Option<Device>)
    ensures d.Some? <==> device.Some?
    ensures d.Some? ==>
              var before, after := device.value, d.value;
              after == before.(torchOn := after.torchOn, videoZoomFactor := after.videoZoomFactor)
              && after.torchOn == (before.torchOn && (isFlashLocked || !before.hasTorch))
              && after.videoZoomFactor
                 == if shouldResetZoom && !isZoomLocked then startingZoomScale else before.videoZoomFactor
  {
    var d := TorchedOff(device, isFlashLocked);
    if shouldResetZoom then Zoomed(d, startingZoomScale, isZoomLocked) else d
  }

  /** With both the flash and the zoom locked, the end of a recording leaves the
      device exactly as it was; this is what the short press relies on. */
  lemma LockedRecordingEndKeepsDevice(device: Option<Device>, shouldResetZoom: bool, startingZoomScale: real)
    ensures AfterRecordingEnded(device, shouldResetZoom, startingZoomScale, true, true) == device
  {
  }

  class CameraViewController {
    const core: BaseCameraController
    var startingZoomScale: real
    var shouldResetZoom: bool
    var shouldIgnore: bool
    /** `timer` holds a scheduled repeating timer (`timer != nil`). */
    var timerActive: bool
    /** Repeating timers scheduled by earlier starts whose reference in `timer`
        was overwritten by a later `startTimer`: nothing invalidates them, so
        they keep firing `updateTimer`. */
    var leakedTimers: nat
    var timePassed: real
    var shouldStop: bool
    var shouldCreateTimer: bool
    var isFlashLocked: bool
    var isZoomLocked: bool
    var isFlashEnabled: bool
    var isPanToZoomEnabled: bool
    var maxZoomScale: real
    var minZoomScale: real
    var maximumVideoDuration: real
    var photoCaptureThreshold: real
    var stopsRecordingOnTouchUp: bool
    var zoomPanMaxLength: real
    /** `UIApplication.shared.isIdleTimerDisabled`. */
    var isIdleTimerDisabled: bool
    /** The durations reported to the delegate (`didUpdateRecordingDurationTo`). */
    var reportedDurations: seq<real>

    /** The screen's invariant: a valid recording controller, a positive photo
        threshold, a usable pan length, and no accumulated time without a timer. */
    predicate Valid()
      reads this, core
    {
      core.Valid()
      && photoCaptureThreshold > 0.0
      && zoomPanMaxLength != 0.0
      && timePassed >= 0.0
      && (RunningTimers() == 0 ==> timePassed == 0.0)
    }

    /** How many repeating timers fire `updateTimer`: the one `timer` holds and
        the leaked ones. */
    function RunningTimers(): nat
      reads this
    {
      leakedTimers + if timerActive then 1 else 0
    }

    constructor(outputFileDirectory: string, screenHeight: real)
      requires screenHeight > 0.0
      ensures Valid() && fresh(core)
      ensures core.CurrentPhase() == Idle && core.hooks == [] && core.assetWriter == None
      ensures startingZoomScale == 1.0 && !shouldResetZoom && !shouldIgnore && !shouldStop
      ensures RunningTimers() == 0 && timePassed == 0.0 && !shouldCreateTimer
      ensures !isFlashLocked && !isZoomLocked && !isFlashEnabled && isPanToZoomEnabled
      ensures maxZoomScale == GreatestFiniteMagnitude && minZoomScale == 1.0
      ensures maximumVideoDuration == DefaultMaximumVideoDuration
      ensures photoCaptureThreshold == DefaultPhotoCaptureThreshold
      ensures stopsRecordingOnTouchUp && zoomPanMaxLength == screenHeight
      ensures reportedDurations == []
    {
      core := new BaseCameraController(outputFileDirectory);
      startingZoomScale := 1.0;
      shouldResetZoom := false;
      shouldIgnore := false;
      timerActive := false;
      leakedTimers := 0;
      timePassed := 0.0;
      shouldStop := false;
      shouldCreateTimer := false;
      isFlashLocked := false;
      isZoomLocked := false;
      isFlashEnabled := false;
      isPanToZoomEnabled := true;
      maxZoomScale := GreatestFiniteMagnitude;
      minZoomScale := 1.0;
      maximumVideoDuration := DefaultMaximumVideoDuration;
      photoCaptureThreshold := DefaultPhotoCaptureThreshold;
      stopsRecordingOnTouchUp := true;
      zoomPanMaxLength := screenHeight;
      isIdleTimerDisabled := false;
      reportedDurations := [];
    }

    /** The `photoCaptureThreshold` property, which must stay positive. */
    method SetPhotoCaptureThreshold(threshold: real)
      requires Valid() && threshold > 0.0
      modifies this`photoCaptureThreshold
      ensures Valid() && photoCaptureThreshold == threshold
    {
      photoCaptureThreshold := threshold;
    }

    // -------------------------------------------------------------------------
    // Locks, zoom and torch
    // -------------------------------------------------------------------------

    method LockFlash()
      requires Valid()
      modifies this`isFlashLocked
      ensures Valid() && isFlashLocked
    {
      isFlashLocked := true;
    }

    method UnlockFlash()
      requires Valid()
      modifies this`isFlashLocked
      ensures Valid() && !isFlashLocked
    {
      isFlashLocked := false;
    }

    method LockZoom()
      requires Valid()
      modifies this`isZoomLocked
      ensures Valid() && isZoomLocked
    {
      isZoomLocked := true;
    }

    method UnlockZoom()
      requires Valid()
      modifies this`isZoomLocked
      ensures Valid() && !isZoomLocked
    {
      isZoomLocked := false;
    }

    /** `zoom(to:withRate:)`: the device's zoom factor becomes `factor`, unless the
        zoom is locked or there is no device. */
    method ZoomTo(factor: real)
      requires Valid()
      modifies core`captureDevice
      ensures Valid() && core.captureDevice == Zoomed(old(core.captureDevice), factor, isZoomLocked)
    {
      if core.captureDevice.None? || isZoomLocked {
        return;
      }
      var videoDevice := core.captureDevice.value;
      core.captureDevice := Some(videoDevice.(videoZoomFactor := factor));
    }

    /** `setFlash(to:)`: the torch is switched only on a device that has one and
        while the flash is not locked. */
    method SetFlash(on: bool)
      requires Valid()
      modifies core`captureDevice
      ensures Valid() && core.captureDevice == Torched(old(core.captureDevice), on, isFlashLocked)
    {
      if core.captureDevice.None? || !core.captureDevice.value.hasTorch || isFlashLocked {
        return;
      }
      var device := core.captureDevice.value;
      core.captureDevice := Some(device.(torchOn := on));
    }

    /** `setFlash(to: .off)` when the torch is on. */
    method TorchOff()
      requires Valid()
      modifies core`captureDevice
      ensures Valid() && core.captureDevice == TorchedOff(old(core.captureDevice), isFlashLocked)
    {
      if core.captureDevice.Some? && core.captureDevice.value.torchOn {
        SetFlash(false);
      }
    }

    // -------------------------------------------------------------------------
    // Overridden hooks
    // -------------------------------------------------------------------------

    /** The torch part of `willBeginRecordingVideo` and `willCaptureImage`: on the
        back camera with flash enabled, the torch is switched on. */
    method FlashForCapture()
      requires Valid()
      modifies core`captureDevice
      ensures Valid()
      ensures core.captureDevice
              == FlashedForCapture(old(core.captureDevice), core.cameraLocation, isFlashEnabled, isFlashLocked)
    {
      if core.cameraLocation == Back && isFlashEnabled {
        SetFlash(true);
      }
    }

    /** `didFinishRecordingVideo` and `didCancelRecording(at:)`: the torch goes off
        and a zoom changed by the record button is put back, each unless locked;
        the pending zoom reset is dropped either way. */
    method RecordingEnded()
      requires Valid()
      modifies core`captureDevice, this`shouldResetZoom
      ensures Valid() && !shouldResetZoom
      ensures core.captureDevice == AfterRecordingEnded(old(core.captureDevice), old(shouldResetZoom),
                                                        startingZoomScale, isFlashLocked, isZoomLocked)
    {
      TorchOff();
      if shouldResetZoom {
        ZoomTo(startingZoomScale);
        shouldResetZoom := false;
      }
    }

    /** `didCaptureImage`: the torch goes off unless a recording is armed or being
        written. */
    method DidCaptureImage()
      requires Valid()
      modifies core`captureDevice
      ensures Valid()
      ensures core.captureDevice == if core.shouldStartWritingSession then old(core.captureDevice)
                                    else TorchedOff(old(core.captureDevice), isFlashLocked)
    {
      if !core.shouldStartWritingSession {
        TorchOff();
      }
    }

    // -------------------------------------------------------------------------
    // Recording
    // -------------------------------------------------------------------------

    /** `startTimer`: a timer is scheduled only when the recording was started from
        the record button. It takes the place of the one `timer` held, which is
        not invalidated and keeps running. */
    method StartTimer()
      requires Valid()
      modifies this`timerActive, this`leakedTimers
      ensures Valid()
      ensures RunningTimers() == old(RunningTimers()) + if shouldCreateTimer then 1 else 0
      ensures timerActive == (old(timerActive) || shouldCreateTimer)
      ensures leakedTimers == old(leakedTimers) + if shouldCreateTimer && old(timerActive) then 1 else 0
    {
      if shouldCreateTimer {
        if timerActive {
          leakedTimers := leakedTimers + 1;
        }
        timerActive := true;
      }
    }

    /** `invalidateTimer`: the timer is gone and the elapsed time is back at 0, which
        is reported. */
    method InvalidateTimer()
      requires Valid()
      modifies this`timerActive, this`timePassed, this`reportedDurations
      ensures Valid() && !timerActive && timePassed == 0.0
      ensures RunningTimers() == old(leakedTimers)
      ensures reportedDurations == old(reportedDurations) + [0.0]
    {
      timerActive := false;
      timePassed := 0.0;
      reportedDurations := reportedDurations + [timePassed];
    }

    /** A start as the screen runs it: the controller's own outcome, the screen
        kept awake, and, once the recording is armed, the torch switched on by
        `willBeginRecordingVideo`. */
    twostate predicate RecordingStarted(uuid: string, suppliedWriter: Option<Writer>, creationFails: bool)
      reads this, core
    {
      core.StartedRecording(uuid, suppliedWriter, creationFails)
      && isIdleTimerDisabled
      && core.captureDevice
         == if core.CurrentPhase() == Armed
            then FlashedForCapture(old(core.captureDevice), core.cameraLocation, isFlashEnabled, isFlashLocked)
            else old(core.captureDevice)
    }

    /** What the end-of-recording hook leaves after a stop or a cancel: without a
        writer it never ran; with one the torch is off and the zoom put back (each
        unless locked) and no zoom reset is pending. */
    twostate predicate EndHookRan()
      reads this, core
    {
      if old(core.assetWriter).None? then
        core.captureDevice == old(core.captureDevice) && shouldResetZoom == old(shouldResetZoom)
      else
        !shouldResetZoom
        && core.captureDevice == AfterRecordingEnded(old(core.captureDevice), old(shouldResetZoom),
                                                     startingZoomScale, isFlashLocked, isZoomLocked)
    }

    /** `stop` and `cancel` end the timer: no timer for the next recording, none
        scheduled, and 0 reported, before what the stop itself reports. */
    twostate predicate TimerEnded(reported: seq<real>)
      reads this
    {
      !shouldCreateTimer && !timerActive && timePassed == 0.0
      && reportedDurations == old(reportedDurations) + [0.0] + reported
    }

    /** `stop`: the timer ended, the recording stopped, the screen may sleep. A
        stop whose file fails to finish invalidates the timer once more. */
    twostate predicate HasStopped(finishFails: bool)
      reads this, core
    {
      TimerEnded(if old(core.assetWriter).Some? && finishFails then [0.0] else [])
      && !isIdleTimerDisabled && core.StoppedRecording(finishFails) && EndHookRan()
    }

    /** `cancel`: the timer ended, the recording discarded, the screen may sleep. */
    twostate predicate HasCancelled()
      reads this, core
    {
      TimerEnded([]) && !isIdleTimerDisabled && core.CancelledRecording() && EndHookRan()
    }

    /** The `startRecording` override: the screen stays awake while recording; once
        the recording is armed, `willBeginRecordingVideo` may switch the torch on. */
    method StartRecording(uuid: string, suppliedWriter: Option<Writer>, creationFails: bool)
      requires Valid() && core.CurrentPhase() == Idle
      requires var w := OfferedWriter(core.assetWriter, suppliedWriter);
               w.Some? ==> IsVideoFileTypeSupported(w.value.outputFileType)
      modifies this`isIdleTimerDisabled, core`willStartWritingSession, core`shouldStartWritingSession,
               core`assetWriter, core`hasVideoWriterInput, core`hasAudioWriterInput, core`hasPixelBufferAdaptor,
               core`hooks, core`captureDevice
      ensures Valid() && RecordingStarted(uuid, suppliedWriter, creationFails)
    {
      isIdleTimerDisabled := true;
      core.StartRecording(uuid, suppliedWriter, creationFails);
      if core.CurrentPhase() == Armed {
        FlashForCapture();
      }
    }

    /** The `stopRecording` override, with the hooks the stop dispatches: the end
        of the recording (torch off, zoom put back) and, when finishing the file
        fails, the timer invalidated. */
    method StopRecording(finishFails: bool)
      requires Valid() && core.shouldStartWritingSession
      modifies this`isIdleTimerDisabled, this`shouldResetZoom, this`timerActive, this`timePassed,
               this`reportedDurations, core`shouldStartWritingSession, core`didStartWritingSession, core`frameCount,
               core`recordingDuration, core`assetWriter, core`hasVideoWriterInput, core`hasAudioWriterInput,
               core`hooks, core`captureDevice
      ensures Valid() && !isIdleTimerDisabled && core.StoppedRecording(finishFails) && EndHookRan()
      ensures var failed := old(core.assetWriter).Some? && finishFails;
              (failed ==> !timerActive && timePassed == 0.0)
              && (!failed ==> timerActive == old(timerActive) && timePassed == old(timePassed))
              && reportedDurations == old(reportedDurations) + (if failed then [0.0] else [])
    {
      var hadWriter := core.assetWriter.Some?;
      core.StopRecording(finishFails);
      if hadWriter {
        RecordingEnded();
        if finishFails {
          InvalidateTimer();
        }
      }
      isIdleTimerDisabled := false;
    }

    /** The `cancelRecording` override, with the end-of-recording hook it dispatches. */
    method CancelRecording()
      requires Valid() && core.shouldStartWritingSession
      modifies this`isIdleTimerDisabled, this`shouldResetZoom, core`shouldStartWritingSession,
               core`didStartWritingSession, core`frameCount, core`recordingDuration, core`assetWriter,
               core`hasVideoWriterInput, core`hasAudioWriterInput, core`hooks, core`captureDevice
      ensures Valid() && !isIdleTimerDisabled && core.CancelledRecording() && EndHookRan()
    {
      var hadWriter := core.assetWriter.Some?;
      core.CancelRecording();
      if hadWriter {
        RecordingEnded();
      }
      isIdleTimerDisabled := false;
    }

    /** The `capturePhoto(after:)` override: flash delays a photo asked for now,
        and `willCaptureImage` may switch the torch on. */
    method CapturePhoto(deadline: real)
      requires Valid()
      modifies core`hooks, core`shouldCapturePhotoFromDataOutput, core`captureDevice
      ensures Valid()
      ensures core.shouldCapturePhotoFromDataOutput && core.hooks == old(core.hooks) + [WillCaptureImage]
      ensures core.captureDevice
              == FlashedForCapture(old(core.captureDevice), core.cameraLocation, isFlashEnabled, isFlashLocked)
    {
      core.CapturePhoto(PhotoDeadline(isFlashEnabled, deadline));
      FlashForCapture();
    }

    /** `start`: a recording begun from the record button gets a timer. */
    method Start(uuid: string, suppliedWriter: Option<Writer>, creationFails: bool)
      requires Valid() && core.CurrentPhase() == Idle
      requires var w := OfferedWriter(core.assetWriter, suppliedWriter);
               w.Some? ==> IsVideoFileTypeSupported(w.value.outputFileType)
      modifies this`shouldCreateTimer, this`isIdleTimerDisabled, core`willStartWritingSession,
               core`shouldStartWritingSession, core`assetWriter, core`hasVideoWriterInput,
               core`hasAudioWriterInput, core`hasPixelBufferAdaptor, core`hooks, core`captureDevice
      ensures Valid() && shouldCreateTimer && RecordingStarted(uuid, suppliedWriter, creationFails)
    {
      shouldCreateTimer := true;
      StartRecording(uuid, suppliedWriter, creationFails);
    }

    /** `stop`: no timer for this recording any more, the elapsed time back at 0,
        and the recording stopped. */
    method Stop(finishFails: bool)
      requires Valid() && core.shouldStartWritingSession
      modifies this`shouldCreateTimer, this`isIdleTimerDisabled, this`shouldResetZoom, this`timerActive,
               this`timePassed, this`reportedDurations, core`shouldStartWritingSession,
               core`didStartWritingSession, core`frameCount, core`recordingDuration, core`assetWriter,
               core`hasVideoWriterInput, core`hasAudioWriterInput, core`hooks, core`captureDevice
      ensures Valid() && HasStopped(finishFails)
    {
      shouldCreateTimer := false;
      InvalidateTimer();
      StopRecording(finishFails);
    }

    /** `cancel`: as `stop`, but the recording is discarded. */
    method Cancel()
      requires Valid() && core.shouldStartWritingSession
      modifies this`shouldCreateTimer, this`isIdleTimerDisabled, this`shouldResetZoom, this`timerActive,
               this`timePassed, this`reportedDurations, core`shouldStartWritingSession,
               core`didStartWritingSession, core`frameCount, core`recordingDuration, core`assetWriter,
               core`hasVideoWriterInput, core`hasAudioWriterInput, core`hooks, core`captureDevice
      ensures Valid() && HasCancelled()
    {
      shouldCreateTimer := false;
      InvalidateTimer();
      CancelRecording();
    }

    /** `updateTimer`, on a tick of any running timer, the leaked ones included:
        0.1 s more is counted and reported, and once the maximum duration is
        reached the press in progress is to be ignored and the recording stops. */
    method UpdateTimer(finishFails: bool)
      requires Valid() && RunningTimers() > 0
      requires timePassed + TimerTick >= maximumVideoDuration ==> core.shouldStartWritingSession
      modifies this`timePassed, this`reportedDurations, this`shouldIgnore, this`shouldCreateTimer,
               this`isIdleTimerDisabled, this`shouldResetZoom, this`timerActive, core`shouldStartWritingSession,
               core`didStartWritingSession, core`frameCount, core`recordingDuration, core`assetWriter,
               core`hasVideoWriterInput, core`hasAudioWriterInput, core`hooks, core`captureDevice
      ensures Valid()
      ensures old(timePassed) + TimerTick < maximumVideoDuration ==>
                timerActive == old(timerActive) && timePassed == old(timePassed) + TimerTick
                && reportedDurations == old(reportedDurations) + [timePassed]
                && shouldIgnore == old(shouldIgnore) && shouldCreateTimer == old(shouldCreateTimer)
                && isIdleTimerDisabled == old(isIdleTimerDisabled) && shouldResetZoom == old(shouldResetZoom)
                && unchanged(core)
      ensures old(timePassed) + TimerTick >= maximumVideoDuration ==>
                shouldIgnore && !timerActive && timePassed == 0.0 && !shouldCreateTimer
                && reportedDurations == old(reportedDurations) + [old(timePassed) + TimerTick, 0.0]
                                        + (if old(core.assetWriter).Some? && finishFails then [0.0] else [])
                && !isIdleTimerDisabled && core.StoppedRecording(finishFails) && EndHookRan()
    {
      timePassed := timePassed + TimerTick;
      reportedDurations := reportedDurations + [timePassed];
      if timePassed >= maximumVideoDuration {
        shouldIgnore := true;
        Stop(finishFails);
      }
    }

    /** `captureOutput(_:didOutput:from:)` with the hooks it dispatches: the
        controller's own handling of the sample, a photo capture that may switch
        the torch off, and the timer started by the first sample written. */
    method OnSample(sample: Sample, inputIsReady: bool, imageConverts: bool)
      requires Valid() && ValidTime(sample.timestamp)
      modifies this`timerActive, this`leakedTimers, core`shouldCapturePhotoFromDataOutput, core`hooks, core`didStartWritingSession,
               core`assetWriter, core`startingPresentationTimeStamp, core`previousPresentationTimeStamp,
               core`frameCount, core`recordingDuration, core`captureDevice
      ensures Valid() && core.HandledSample(sample, inputIsReady, imageConverts)
      ensures core.captureDevice
              == if old(core.shouldCapturePhotoFromDataOutput) && sample.isDataReady && !core.shouldStartWritingSession
                 then TorchedOff(old(core.captureDevice), isFlashLocked)
                 else old(core.captureDevice)
      ensures core.IsRecording() == (old(core.IsRecording()) || old(core.Accepts(sample)))
      ensures old(core.Accepts(sample)) && !old(core.IsRecording()) ==>
                timerActive == (old(timerActive) || shouldCreateTimer)
                && leakedTimers == old(leakedTimers) + if shouldCreateTimer && old(timerActive) then 1 else 0
      ensures !(old(core.Accepts(sample)) && !old(core.IsRecording())) ==>
                timerActive == old(timerActive) && leakedTimers == old(leakedTimers)
    {
      var photoPending := core.shouldCapturePhotoFromDataOutput;
      var wasRecording := core.IsRecording();
      core.CaptureOutput(sample, inputIsReady, imageConverts);
      if photoPending && sample.isDataReady {
        DidCaptureImage();
      }
      if !wasRecording && core.IsRecording() {
        StartTimer();
      }
    }

    /** `handleSessionWasInterrupted`: a recording in progress is stopped; anything
        else is left alone. */
    method SessionWasInterrupted(finishFails: bool)
      requires Valid()
      modifies this`shouldCreateTimer, this`isIdleTimerDisabled, this`shouldResetZoom, this`timerActive,
               this`timePassed, this`reportedDurations, core`shouldStartWritingSession,
               core`didStartWritingSession, core`frameCount, core`recordingDuration, core`assetWriter,
               core`hasVideoWriterInput, core`hasAudioWriterInput, core`hooks, core`captureDevice
      ensures Valid()
      ensures !old(core.IsRecording()) ==> unchanged(this) && unchanged(core)
      ensures old(core.IsRecording()) ==> HasStopped(finishFails)
    {
      if core.IsRecording() {
        Stop(finishFails);
      }
    }

    /** `switchCamera` with the `didSwitchCamera` override: while recording with
        flash enabled, arriving at the back camera switches its torch on. */
    method SwitchCamera(discovered: Option<Device>, presetAccepted: bool, frameRateLockSucceeds: bool,
                        zoomLockSucceeds: bool)
      requires Valid()
      modifies core`isSwitchingCameras, core`lastZoomScale, core`cameraLocation, core`captureDevice,
               core`frameRate, core`hooks
      ensures Valid()
      ensures !old(core.isSessionRunning) || old(core.isSwitchingCameras) ==> unchanged(core)
      ensures old(core.isSessionRunning) && !old(core.isSwitchingCameras) ==>
                core.cameraLocation == Opposite(old(core.cameraLocation))
                && !core.isSwitchingCameras
                && core.lastZoomScale
                   == (if old(core.captureDevice).Some? then old(core.captureDevice).value.videoZoomFactor else 1.0)
                && core.hooks == old(core.hooks) + [DidSwitchCamera]
                && core.frameRate
                   == SessionUpdate(discovered, presetAccepted, frameRateLockSucceeds, core.desiredFrameRate)
                        .GetOr(old(core.frameRate))
                && var switched := SwitchedDevice(discovered, presetAccepted, frameRateLockSucceeds,
                                                  zoomLockSucceeds, core.desiredFrameRate, old(core.lastZoomScale));
                   core.captureDevice
                   == if core.IsRecording() && isFlashEnabled && core.cameraLocation == Back
                      then Torched(switched, true, isFlashLocked)
                      else switched
    {
      var switching := core.isSessionRunning && !core.isSwitchingCameras;
      core.SwitchCamera(discovered, presetAccepted, frameRateLockSucceeds, zoomLockSucceeds);
      if switching && core.IsRecording() && isFlashEnabled && core.cameraLocation == Back {
        SetFlash(true);
      }
    }

    // -------------------------------------------------------------------------
    // Gestures
    // -------------------------------------------------------------------------

    /** `handleButtonLongPress(.began)`: starts a recording, or while one is armed
        or written, only asks for it to stop when the finger lifts. */
    method LongPressBegan(uuid: string, suppliedWriter: Option<Writer>, creationFails: bool)
      requires Valid()
      requires !core.shouldStartWritingSession ==> core.CurrentPhase() == Idle
      requires var w := OfferedWriter(core.assetWriter, suppliedWriter);
               !core.shouldStartWritingSession && w.Some? ==> IsVideoFileTypeSupported(w.value.outputFileType)
      modifies this`shouldStop, this`shouldCreateTimer, this`isIdleTimerDisabled, core`willStartWritingSession,
               core`shouldStartWritingSession, core`assetWriter, core`hasVideoWriterInput,
               core`hasAudioWriterInput, core`hasPixelBufferAdaptor, core`hooks, core`captureDevice
      ensures Valid()
      ensures old(core.shouldStartWritingSession) ==>
                shouldStop && shouldCreateTimer == old(shouldCreateTimer)
                && isIdleTimerDisabled == old(isIdleTimerDisabled) && unchanged(core)
      ensures !old(core.shouldStartWritingSession) ==>
                shouldStop == old(shouldStop) && shouldCreateTimer
                && RecordingStarted(uuid, suppliedWriter, creationFails)
    {
      if !core.shouldStartWritingSession {
        Start(uuid, suppliedWriter, creationFails);
      } else {
        shouldStop := true;
      }
    }

    /** The decision `handleButtonLongPress(.ended)` takes in the current state. */
    function TouchUpNow(): TouchUp
      reads this, core
    {
      TouchUpDecision(shouldIgnore, timePassed, photoCaptureThreshold, stopsRecordingOnTouchUp,
                      core.IsRecording(), shouldStop)
    }

    /** The short press: a photo is asked for (switching the torch on for it),
        the recording discarded, and neither the torch nor the zoom touched by
        the end of the recording, because both were locked meanwhile. */
    twostate predicate PhotoTakenAndDiscarded()
      reads this, core
    {
      var had := old(core.assetWriter).Some?;
      core.shouldCapturePhotoFromDataOutput && !isIdleTimerDisabled
      && !shouldCreateTimer && !timerActive && timePassed == 0.0
      && reportedDurations == old(reportedDurations) + [0.0]
      && core.captureDevice
         == FlashedForCapture(old(core.captureDevice), core.cameraLocation, isFlashEnabled, old(isFlashLocked))
      && shouldResetZoom == (old(shouldResetZoom) && !had)
      && (had ==>
            core.CurrentPhase() == Idle && core.assetWriter == None
            && core.frameCount == 0 && core.recordingDuration == 0.0
            && !core.hasVideoWriterInput && !core.hasAudioWriterInput
            && core.hooks == old(core.hooks) + [WillCaptureImage,
                                                DidCancelRecordingAt(old(core.assetWriter).value.outputURL)])
      && (!had ==>
            core.CurrentPhase() == old(core.CurrentPhase()) && core.assetWriter == old(core.assetWriter)
            && core.frameCount == old(core.frameCount) && core.recordingDuration == old(core.recordingDuration)
            && core.hasVideoWriterInput == old(core.hasVideoWriterInput)
            && core.hasAudioWriterInput == old(core.hasAudioWriterInput)
            && core.hooks == old(core.hooks) + [WillCaptureImage])
    }

    /** The `.ended` branch for a short press. */
    method TakePhotoAndDiscard()
      requires Valid() && core.shouldStartWritingSession
      modifies this`isFlashLocked, this`isZoomLocked, this`shouldCreateTimer, this`timerActive,
               this`timePassed, this`reportedDurations, this`isIdleTimerDisabled, this`shouldResetZoom,
               core`hooks, core`shouldCapturePhotoFromDataOutput, core`captureDevice,
               core`shouldStartWritingSession, core`didStartWritingSession, core`frameCount,
               core`recordingDuration, core`assetWriter, core`hasVideoWriterInput, core`hasAudioWriterInput
      ensures Valid() && PhotoTakenAndDiscarded()
      ensures isFlashLocked == old(isFlashLocked) && isZoomLocked == old(isZoomLocked)
    {
      CapturePhoto(0.0);
      CancelWithLocks();
    }

    /** The cancel of a short press: flash and zoom locked around it, then exactly
        the locks it took given back, so the device is left as it was. */
    method CancelWithLocks()
      requires Valid() && core.shouldStartWritingSession
      modifies this`isFlashLocked, this`isZoomLocked, this`shouldCreateTimer, this`timerActive,
               this`timePassed, this`reportedDurations, this`isIdleTimerDisabled, this`shouldResetZoom,
               core`hooks, core`captureDevice, core`shouldStartWritingSession, core`didStartWritingSession,
               core`frameCount, core`recordingDuration, core`assetWriter, core`hasVideoWriterInput,
               core`hasAudioWriterInput
      ensures Valid() && TimerEnded([]) && !isIdleTimerDisabled && core.CancelledRecording()
      ensures isFlashLocked == old(isFlashLocked) && isZoomLocked == old(isZoomLocked)
      ensures core.captureDevice == old(core.captureDevice)
      ensures shouldResetZoom == (old(shouldResetZoom) && old(core.assetWriter).None?)
    {
      var shouldUnlockFlash := !isFlashLocked;
      var shouldUnlockZoom := !isZoomLocked;
      LockFlash();
      LockZoom();
      LockedRecordingEndKeepsDevice(core.captureDevice, shouldResetZoom, startingZoomScale);
      Cancel();
      if shouldUnlockFlash {
        UnlockFlash();
      }
      if shouldUnlockZoom {
        UnlockZoom();
      }
    }

    /** `handleButtonLongPress(.ended)`. A short press takes a photo and discards the
        recording with flash and zoom locked, so neither the torch nor the zoom is
        reset by the end of the recording, and then gives back exactly the locks it
        took. */
    method LongPressEnded(finishFails: bool)
      requires Valid()
      requires TouchUpNow() in {CapturePhotoAndCancel, StopOnTouchUp, StopRequested} ==> core.shouldStartWritingSession
      modifies this`shouldIgnore, this`shouldStop, this`isFlashLocked, this`isZoomLocked, this`shouldCreateTimer,
               this`timerActive, this`timePassed, this`reportedDurations, this`isIdleTimerDisabled,
               this`shouldResetZoom, core`hooks, core`shouldCapturePhotoFromDataOutput, core`captureDevice,
               core`shouldStartWritingSession, core`didStartWritingSession, core`frameCount,
               core`recordingDuration, core`assetWriter, core`hasVideoWriterInput, core`hasAudioWriterInput
      ensures Valid()
      ensures isFlashLocked == old(isFlashLocked) && isZoomLocked == old(isZoomLocked)
      ensures old(TouchUpNow()) == ClearIgnore ==>
                !shouldIgnore && unchanged(core) && shouldStop == old(shouldStop)
                && shouldCreateTimer == old(shouldCreateTimer) && timerActive == old(timerActive)
                && timePassed == old(timePassed) && reportedDurations == old(reportedDurations)
                && isIdleTimerDisabled == old(isIdleTimerDisabled) && shouldResetZoom == old(shouldResetZoom)
      ensures old(TouchUpNow()) == CapturePhotoAndCancel ==>
                PhotoTakenAndDiscarded() && shouldIgnore == old(shouldIgnore) && shouldStop == old(shouldStop)
      ensures old(TouchUpNow()) in {StopOnTouchUp, StopRequested} ==>
                HasStopped(finishFails) && shouldIgnore == old(shouldIgnore)
                && core.shouldCapturePhotoFromDataOutput == old(core.shouldCapturePhotoFromDataOutput)
      ensures old(TouchUpNow()) == StopOnTouchUp ==> shouldStop == old(shouldStop)
      ensures old(TouchUpNow()) == StopRequested ==> !shouldStop
      ensures old(TouchUpNow()) == NoAction ==> unchanged(this) && unchanged(core)
    {
      match TouchUpNow()
      case ClearIgnore =>
        shouldIgnore := false;
      case CapturePhotoAndCancel =>
        TakePhotoAndDiscard();
      case StopOnTouchUp =>
        Stop(finishFails);
      case StopRequested =>
        Stop(finishFails);
        shouldStop := false;
      case NoAction =>
    }

    /** `handleButtonLongPress(.cancelled)`: clears a pending ignore and does
        nothing else, or else discards the recording. */
    method LongPressCancelled()
      requires Valid()
      requires !shouldIgnore ==> core.shouldStartWritingSession
      modifies this`shouldIgnore, this`shouldCreateTimer, this`isIdleTimerDisabled, this`shouldResetZoom,
               this`timerActive, this`timePassed, this`reportedDurations, core`shouldStartWritingSession,
               core`didStartWritingSession, core`frameCount, core`recordingDuration, core`assetWriter,
               core`hasVideoWriterInput, core`hasAudioWriterInput, core`hooks, core`captureDevice
      ensures Valid() && !shouldIgnore
      ensures old(shouldIgnore) ==>
                unchanged(core) && shouldCreateTimer == old(shouldCreateTimer)
                && isIdleTimerDisabled == old(isIdleTimerDisabled) && shouldResetZoom == old(shouldResetZoom)
                && timerActive == old(timerActive) && timePassed == old(timePassed)
                && reportedDurations == old(reportedDurations)
      ensures !old(shouldIgnore) ==> HasCancelled()
    {
      if shouldIgnore {
        shouldIgnore := false;
        return;
      }
      Cancel();
    }

    /** `handlePinch`: with a running session and a device, a pinch zooms from the
        factor the device had when it began. */
    method Pinch(state: GestureState, scale: real)
      requires Valid()
      modifies this`startingZoomScale, core`captureDevice
      ensures Valid()
      ensures !core.isSessionRunning || old(core.captureDevice).None? || state !in {Began, Changed, Ended} ==>
                core.captureDevice == old(core.captureDevice) && startingZoomScale == old(startingZoomScale)
      ensures core.isSessionRunning && old(core.captureDevice).Some? && state in {Began, Changed, Ended} ==>
                var device := old(core.captureDevice).value;
                startingZoomScale == (if state == Began then device.videoZoomFactor else old(startingZoomScale))
                && core.captureDevice == Some(device.(videoZoomFactor :=
                     if isZoomLocked then device.videoZoomFactor
                     else PinchZoomFactor(startingZoomScale, scale, minZoomScale, maxZoomScale,
                                          device.videoMaxZoomFactor)))
    {
      if !core.isSessionRunning || core.captureDevice.None? {
        return;
      }
      var videoDevice := core.captureDevice.value;
      match state
      case Began =>
        startingZoomScale := videoDevice.videoZoomFactor;
        ZoomTo(PinchZoomFactor(startingZoomScale, scale, minZoomScale, maxZoomScale, videoDevice.videoMaxZoomFactor));
      case Changed | Ended =>
        ZoomTo(PinchZoomFactor(startingZoomScale, scale, minZoomScale, maxZoomScale, videoDevice.videoMaxZoomFactor));
      case _ =>
    }

    /** `handleButtonZoomPan`: when pan to zoom is enabled, with a running session
        and a device. A press that begins outside a recording saves the zoom to put
        back later; the pan then zooms unless the press is being ignored; a
        cancelled press puts the saved zoom back. */
    method ZoomPan(state: GestureState, translationY: real, locationY: real)
      requires Valid()
      modifies this`startingZoomScale, this`shouldResetZoom, core`captureDevice
      ensures Valid()
      ensures !isPanToZoomEnabled || !core.isSessionRunning || old(core.captureDevice).None? ==>
                core.captureDevice == old(core.captureDevice) && startingZoomScale == old(startingZoomScale)
                && shouldResetZoom == old(shouldResetZoom)
      ensures isPanToZoomEnabled && core.isSessionRunning && old(core.captureDevice).Some? ==>
                var device := old(core.captureDevice).value;
                var saves := state == Began && !core.IsRecording();
                startingZoomScale == (if saves then device.videoZoomFactor else old(startingZoomScale))
                && shouldResetZoom == (if saves then true else if state == Cancelled then false
                                       else old(shouldResetZoom))
                && core.captureDevice
                   == if state in {Began, Changed, Ended} && !shouldIgnore then
                        Zoomed(old(core.captureDevice),
                               PanZoomFactor(startingZoomScale, translationY, locationY, zoomPanMaxLength,
                                             minZoomScale, maxZoomScale, device.videoMaxZoomFactor),
                               isZoomLocked)
                      else if state == Cancelled && old(shouldResetZoom) then
                        Zoomed(old(core.captureDevice), startingZoomScale, isZoomLocked)
                      else old(core.captureDevice)
    {
      if !isPanToZoomEnabled || !core.isSessionRunning || core.captureDevice.None? {
        return;
      }
      var videoDevice := core.captureDevice.value;
      match state
      case Began =>
        if !core.IsRecording() {
          startingZoomScale := videoDevice.videoZoomFactor;
          shouldResetZoom := true;
        }
        PanZoom(translationY, locationY, videoDevice);
      case Changed | Ended =>
        PanZoom(translationY, locationY, videoDevice);
      case Cancelled =>
        if shouldResetZoom {
          ZoomTo(startingZoomScale);
          shouldResetZoom := false;
        }
      case Other =>
    }

    /** The shared `.began`/`.changed`/`.ended` part of `handleButtonZoomPan`. */
    method PanZoom(translationY: real, locationY: real, videoDevice: Device)
      requires Valid() && core.captureDevice == Some(videoDevice)
      modifies core`captureDevice
      ensures Valid()
      ensures core.captureDevice
              == if shouldIgnore then old(core.captureDevice)
                 else Zoomed(old(core.captureDevice),
                             PanZoomFactor(startingZoomScale, translationY, locationY, zoomPanMaxLength,
                                           minZoomScale, maxZoomScale, videoDevice.videoMaxZoomFactor),
                             isZoomLocked)
    {
      if shouldIgnore {
        return;
      }
      ZoomTo(PanZoomFactor(startingZoomScale, translationY, locationY, zoomPanMaxLength,
                           minZoomScale, maxZoomScale, videoDevice.videoMaxZoomFactor));
    }
  }

  // ---------------------------------------------------------------------------
  // Runs of the screen that reach behaviour its design does not intend
  // ---------------------------------------------------------------------------

  /** A recording started from the button, with its first frame written: the
      timer runs and nothing is to be ignored. */
  method RecordingFromButton(outputFileDirectory: string, uuid: string) returns (screen: CameraViewController)
    ensures fresh(screen) && fresh(screen.core)
    ensures screen.Valid() && screen.core.IsRecording() && screen.core.assetWriter.Some?
    ensures screen.timerActive && screen.leakedTimers == 0 && screen.shouldCreateTimer && !screen.shouldIgnore
  {
    screen := new CameraViewController(outputFileDirectory, 800.0);
    screen.LongPressBegan(uuid, None, false);
    assert screen.core.CurrentPhase() == Armed && screen.core.assetWriter.Some?;
    screen.OnSample(Sample(VideoSample, CMTime(0, 600), true, true), true, false);
  }

  /** A recording started from the button and ended through the public
      `stopRecording` (as the background-task expiry handler does) keeps its
      timer running and `shouldCreateTimer` set. */
  method StopRecordingKeepsTimer(outputFileDirectory: string, uuid: string)
      returns (screen: CameraViewController)
    ensures screen.Valid() && screen.core.CurrentPhase() == Idle && screen.core.assetWriter == None
    ensures screen.timerActive && screen.leakedTimers == 0 && screen.shouldCreateTimer
    ensures fresh(screen) && fresh(screen.core)
  {
    screen := RecordingFromButton(outputFileDirectory, uuid);
    screen.StopRecording(false);
  }

  /** After that, the next recording from the button schedules a second timer
      over the first, which keeps firing: two timers run, one of them leaked. */
  method RestartAfterStopRecordingLeaksTimer(outputFileDirectory: string, uuid1: string, uuid2: string)
      returns (screen: CameraViewController)
    ensures screen.Valid() && screen.RunningTimers() == 2 && screen.leakedTimers == 1
  {
    screen := StopRecordingKeepsTimer(outputFileDirectory, uuid1);
    screen.LongPressBegan(uuid2, None, false);
    assert screen.core.CurrentPhase() == Armed && screen.core.assetWriter.Some? && !screen.core.IsRecording();
    screen.OnSample(Sample(VideoSample, CMTime(600, 600), true, true), true, false);
  }

  /** A recording from the button interrupted by the session is stopped without
      `shouldIgnore` being set, so releasing the button then takes the short-press
      branch although nothing is armed or recorded: its `cancel()` reaches the
      `cancelRecording` assert that a recording is under way. */
  method InterruptedPressReleasesWithNothingRecording(outputFileDirectory: string, uuid: string)
      returns (screen: CameraViewController)
    ensures screen.Valid() && screen.TouchUpNow() == CapturePhotoAndCancel
    ensures !screen.core.shouldStartWritingSession
  {
    screen := RecordingFromButton(outputFileDirectory, uuid);
    screen.SessionWasInterrupted(false);
    assert screen.timePassed == 0.0 && !screen.shouldIgnore;
  }
}
