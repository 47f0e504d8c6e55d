# MWCamera recording controller, modelled in Dafny

MWCamera is an iOS camera component. `MWBaseCameraViewController` owns the capture
device and an `AVAssetWriter`. It records video in three stages, each with its own
flag:
- `willStartWritingSession`: a start is under way;
- `shouldStartWritingSession`: the writer is ready and waits for the first sample;
- `didStartWritingSession`: samples are being written.

It also does three things to every video frame and to the device:
- It corrects each frame's presentation timestamp. A frame that arrives more than
  1.1 frame intervals after the previous one is moved to one interval after it.
  Without this, audio and video drift apart after a camera switch.
- It picks the capture frame rate from the device's supported ranges.
- It throttles the frame rate under system pressure.

`MWCameraViewController` builds the camera screen on top of it:
- the record button (a short press takes a photo, a long press records, dragging
  up from the button zooms);
- pinch to zoom;
- a 0.1 s recording timer that stops the recording at a maximum duration;
- flash handling and flash/zoom locks.

The model has five modules:

| file | module | contents |
|---|---|---|
| `media_types.dfy` | `MediaTypes` | `Option`, camera `Position` and `opposite()`, `AVFileType` extensions and the video/image allow-lists |
| `frame_clock.dfy` | `FrameClock` | `CMTime`, frame positions, the timestamp correction and its properties |
| `frame_rate.dfy` | `FrameRate` | the supported-bound folds of `configureFrameRate` (a `method` with the two loops), the clamp, the pressure policy |
| `base_camera.dfy` | `BaseCamera` | the class `BaseCameraController`: writing flags, writer, timestamps, frame rate, camera switch |
| `camera_controller.dfy` | `CameraController` | zoom clamps, photo delay, touch-up decision, timer arithmetic, and the class `CameraViewController` |

How the model is built:
- **Queued blocks.** Each block the base controller dispatches to its session queue
  is one method, run to completion.
- **Main-queue calls.** Calls to the main queue (the overridable hooks such as
  `didBeginRecordingVideo`) are appended in order to the `hooks` log.
- **Subclass overrides.** The subclass's overrides of those hooks are methods of
  `CameraViewController`. Its operations call them right after the base step that
  dispatched the hook. The screen holds its controller as `core`, because the base
  class is not modelled by inheritance.
- **The writer** is a value. It records its URL, its file type, where its session
  started, the timestamps appended to its video input, and how many audio samples
  were appended.
- **Outside results are parameters.** These are: whether creating a writer throws,
  whether an input is ready, whether the device can be locked, which device
  discovery returns, and whether finishing the file fails.
- **Whole outcomes.** Each method's `modifies` names only the fields it writes, so
  every other field is unchanged. The whole outcome of a base operation is a
  two-state predicate of the class: `StartedRecording`, `StoppedRecording`,
  `CancelledRecording` and `HandledSample`. The screen's operations state that
  outcome together with what their hooks did: `RecordingStarted`, `HasStopped`,
  `HasCancelled` and `PhotoTakenAndDiscarded`.
- **Swift `assert`s** on the caller become `requires` clauses.
- **Zoom per camera.** `switchCamera` swaps `lastZoomScale` with the zoom of the
  camera being left: the camera switched to gets the zoom saved at the previous
  switch, which is the zoom it had when it was last left (1 at the first switch).
  Switching away and back restores each camera's zoom
  (`BaseCamera.SwitchingBackRestoresZoom`).
- **Numbers.** `Double` and `CGFloat` arithmetic is exact `real` arithmetic.
  `Int(x)` and `CMTimeValue(x)` truncate toward zero (`FrameClock.Trunc`).

Where the written code and the intended design disagree, the model follows the code:
- **Corrected timestamps can go backwards.** The correction is meant to never give
  a timestamp earlier than the previous frame's. The code guarantees this only when
  both timestamps share a timescale (`FrameClock.CorrectionKeepsOrderInOneTimescale`).
  With different timescales it can go backwards
  (`FrameClock.DifferentTimescalesCanRunBackwards`).
- **The lower frame-rate bound.** It is folded exactly like the upper one, so it is
  the greatest of the ranges' minima, not the least.
- **A failed writer creation blocks later starts.** It leaves
  `willStartWritingSession` set. `startRecording` asserts that flag is clear, so
  no later start is allowed.
- **An audio sample can take the photo.** Video and audio share one sample
  delegate, so a pending photo goes to whichever ready sample comes first. An
  audio sample has no image buffer, so the capture is reported without an image
  (`BaseCamera.BaseCameraController.AudioSampleTakesPendingPhoto`).
- **A second timer leaks the first.** `startTimer` overwrites `timer` without
  invalidating the timer it held, and a repeating timer fires until it is
  invalidated. A recording ended through the public `stopRecording` (which the
  background-task expiry handler also calls) keeps its timer and
  `shouldCreateTimer`, so the next recording from the button runs two timers and
  `timePassed` grows twice as fast (`CameraController.RestartAfterStopRecordingLeaksTimer`).
  The model counts the leaked timers (`leakedTimers`); `invalidateTimer` stops only
  the one `timer` holds.
- **Gestures can reach the recording asserts with nothing recording.**
  `handleSessionWasInterrupted` stops a recording through `stop()`, which does not
  set `shouldIgnore`. Releasing the button afterwards takes the short-press branch,
  and its `cancel()` reaches the assert of `cancelRecording` that a recording is
  under way (`CameraController.InterruptedPressReleasesWithNothingRecording`). A
  `.cancelled` press after a stop, and a leaked timer reaching the maximum duration
  on an idle controller, reach the same asserts. A debug build stops there; a
  release build skips the assert and the stop or cancel finds no writer. The model
  keeps the asserts as preconditions, so it does not follow these runs past them.

## Model

| member | source | states |
|---|---|---|
| `MediaTypes.Opposite` | MWCamera/Classes/MWBaseCameraViewController.swift:1011-1018 | front and back swap; an unspecified position stays unspecified |
| `MediaTypes.OppositeIsInvolution` | MWCamera/Classes/MWBaseCameraViewController.swift:1011-1018 | switching position twice gives back the original position |
| `MediaTypes.StringValue` | MWCamera/Classes/MWBaseCameraViewController.swift:1022-1049 | every handled file type has an extension of 2 to 4 characters (unhandled types stop the program, so they are excluded) |
| `MediaTypes.ExtensionRoundTrip` | MWCamera/Classes/MWBaseCameraViewController.swift:1022-1049 | reading an extension back gives the file type it was produced from |
| `MediaTypes.ExtensionsAreDistinct` | MWCamera/Classes/MWBaseCameraViewController.swift:1022-1049 | no two handled file types share an extension |
| `MediaTypes.VideoTypesHaveVideoExtensions` | MWCamera/Classes/MWBaseCameraViewController.swift:1055-1057 | a supported video type always has an extension, one of mov, mp4, 3gp, 3g2 |
| `MediaTypes.ImageTypesHaveImageExtensions` | MWCamera/Classes/MWBaseCameraViewController.swift:1051-1053 | a supported image type always has an extension, one of heic, jpg, tiff |
| `MediaTypes.AllowListsByExtension` | MWCamera/Classes/MWBaseCameraViewController.swift:1051-1057 | an extension names a supported video (image) type exactly when it is a video (image) extension |
| `MediaTypes.AllowListsAreDisjoint` | MWCamera/Classes/MWBaseCameraViewController.swift:1051-1057 | no file type is both a video type and an image type |
| `FrameClock.Trunc` | MWCamera/Classes/MWBaseCameraViewController.swift:737-738 | converting a Double to an integer truncates toward zero: the result is within 1 of x, on the zero side |
| `FrameClock.ZeroRateHasNoDistance` | MWCamera/Classes/MWBaseCameraViewController.swift:721-729 | at frame rate 0 every frame distance is 0 |
| `FrameClock.CorrectedTimestamp` | MWCamera/Classes/MWBaseCameraViewController.swift:721-741 | the appended timestamp is well formed and keeps the raw timestamp's timescale |
| `FrameClock.UnchangedWithinCadence` | MWCamera/Classes/MWBaseCameraViewController.swift:727-741 | a frame at most 1.1 frame intervals after the previous one keeps its raw timestamp |
| `FrameClock.NoCorrectionBeforeFrameRateIsSet` | MWCamera/Classes/MWBaseCameraViewController.swift:721-730 | while `frameRate` is still 0, no timestamp is corrected |
| `FrameClock.CorrectedValue` | MWCamera/Classes/MWBaseCameraViewController.swift:730-738 | a corrected timestamp implies a non-zero frame rate, and its value is the truncated new frame position |
| `FrameClock.CorrectionLandsOneFrameAfterPrevious` | MWCamera/Classes/MWBaseCameraViewController.swift:730-741 | a corrected frame lies one frame interval after the previous frame, short of it by less than one unit of the raw timescale |
| `FrameClock.CorrectionMovesEarlier` | MWCamera/Classes/MWBaseCameraViewController.swift:730-741 | a correction always moves the timestamp strictly earlier, in the same timescale |
| `FrameClock.CorrectedExactlyOnDiscontinuity` | MWCamera/Classes/MWBaseCameraViewController.swift:727-741 | a timestamp is changed if and only if the frame is more than 1.1 intervals after the previous one |
| `FrameClock.CorrectionIsStable` | MWCamera/Classes/MWBaseCameraViewController.swift:727-741 | correcting a corrected timestamp again, against the same previous frame, changes nothing |
| `FrameClock.CorrectionKeepsOrderInOneTimescale` | MWCamera/Classes/MWBaseCameraViewController.swift:730-741 | with one shared timescale, a corrected timestamp is not before the previous one and at most one frame interval after it |
| `FrameClock.DifferentTimescalesCanRunBackwards` | MWCamera/Classes/MWBaseCameraViewController.swift:730-741 | at 30 fps, previous 1000/600 s and raw 2/1 s, the correction gives 1/1 s, which is earlier than the previous frame |
| `FrameRate.RaiseBound` | MWCamera/Classes/MWBaseCameraViewController.swift:180-186 | one fold step gives the larger of the bound and the truncated rate |
| `FrameRate.RaiseBoundIsMax` | MWCamera/Classes/MWBaseCameraViewController.swift:180-186 | a fold step never lowers the bound, covers the truncated rate, and returns one of the two |
| `FrameRate.RunningBoundIsGreatest` | MWCamera/Classes/MWBaseCameraViewController.swift:176-186 | the fold gives the greatest of its start bound and the truncated rates: an upper bound that is attained |
| `FrameRate.SupportedBoundsAreGreatest` | MWCamera/Classes/MWBaseCameraViewController.swift:176-186 | both bounds are -1 with no ranges; otherwise each is the greatest truncated maximum (minimum), or -1 |
| `FrameRate.RunningBoundMonotone` | MWCamera/Classes/MWBaseCameraViewController.swift:180-186 | the fold is monotone in its start bound and in every rate |
| `FrameRate.BoundsOrdered` | MWCamera/Classes/MWBaseCameraViewController.swift:176-186 | when every range has min <= max, the lower bound never exceeds the upper bound |
| `FrameRate.SupportedBounds` | MWCamera/Classes/MWBaseCameraViewController.swift:170-186 | the two `forEach` loops compute exactly the folded upper and lower bounds |
| `FrameRate.ClampFrameRate` | MWCamera/Classes/MWBaseCameraViewController.swift:188-196 | the rate is kept if and only if it is within the bounds; otherwise it becomes the upper or the lower bound |
| `FrameRate.ClampIsNearestSupported` | MWCamera/Classes/MWBaseCameraViewController.swift:188-196 | with ordered bounds, the clamped rate is within them and is the supported rate nearest the desired one |
| `FrameRate.ClampIsIdempotent` | MWCamera/Classes/MWBaseCameraViewController.swift:188-196 | clamping an already clamped rate changes nothing |
| `FrameRate.RespondToPressure` | MWCamera/Classes/MWBaseCameraViewController.swift:936-952 | the frame rate is reconfigured if and only if recording and the level is not shutdown; the rate is 20 exactly at serious or critical, else the desired rate |
| `FrameRate.ThrottleCapsFrameRate` | MWCamera/Classes/MWBaseCameraViewController.swift:938-943 | under serious or critical pressure, the target rate is at most 20, or the device's lower bound if that is higher |
| `BaseCamera.NewWriter` | MWCamera/Classes/MWBaseCameraViewController.swift:368 | a fresh writer has the given URL and file type, no session and nothing appended |
| `BaseCamera.Separator` | MWCamera/Classes/MWBaseCameraViewController.swift:366 | a `/` is inserted exactly when the directory does not end in one, so the directory part always ends in `/` |
| `BaseCamera.OutputFileURL` | MWCamera/Classes/MWBaseCameraViewController.swift:362-366 | the file path is as long as the directory, a `/` only when the directory does not already end in one, the identifier, the dot and the extension |
| `BaseCamera.OutputFileURLLayout` | MWCamera/Classes/MWBaseCameraViewController.swift:362-366 | the path is the directory, a `/` ending the directory part, the identifier, then the dot and the extension |
| `BaseCamera.OutputFileURLsAreDistinct` | MWCamera/Classes/MWBaseCameraViewController.swift:362-366 | two different identifiers of the same length give different files |
| `BaseCamera.OfferedWriter` | MWCamera/Classes/MWBaseCameraViewController.swift:360-369 | a writer the delegate supplies replaces the current one; without one the current writer (or none) stays |
| `BaseCamera.FrameRateUpdate` | MWCamera/Classes/MWBaseCameraViewController.swift:162-199 | the device is moved to the clamped target rate if and only if neither active frame duration already has it as its timescale |
| `BaseCamera.Reconfigured` | MWCamera/Classes/MWBaseCameraViewController.swift:201-205 | both frame durations get the target as timescale; ranges, zoom and torch are kept |
| `BaseCamera.ReconfigurationIsIdempotent` | MWCamera/Classes/MWBaseCameraViewController.swift:198-209 | after a reconfiguration, asking for the same rate again leaves the device alone |
| `BaseCamera.SessionUpdate` | MWCamera/Classes/MWBaseCameraViewController.swift:149-159 | with a discovered device and an accepted preset whose lock succeeds, the device is updated exactly as `FrameRateUpdate` says; otherwise there is no update |
| `BaseCamera.SwitchedDevice` | MWCamera/Classes/MWBaseCameraViewController.swift:533-556 | the new device is the discovered one reconfigured by `SessionUpdate`, with the saved zoom when the zoom lock succeeds and its own otherwise; ranges and torch are kept |
| `BaseCamera.NextFrameCount` | MWCamera/Classes/MWBaseCameraViewController.swift:752-765 | the frame counter goes up by one, and drops to 0 exactly when the frame starts a new whole second |
| `BaseCamera.PhaseDeterminesFlags` | MWCamera/Classes/MWBaseCameraViewController.swift:355-357 | for consistent flags the phase determines all three flags; idle means neither a start nor a recording is pending |
| `BaseCamera.BaseCameraController.constructor` | MWCamera/Classes/MWBaseCameraViewController.swift:26-56 | initial state: idle, frame rate 0, desired rate 30, zero timestamps, back camera, zoom 1, audio enabled, no writer |
| `BaseCamera.BaseCameraController.SetAssetWriter` | MWCamera/Classes/MWBaseCameraViewController.swift:72 | a client may set the writer at any time; the invariant is kept |
| `BaseCamera.BaseCameraController.SetDefaultCameraLocation` | MWCamera/Classes/MWBaseCameraViewController.swift:88-94 | the camera moves to the default location only while the session is not running |
| `BaseCamera.BaseCameraController.BeginSession` | MWCamera/Classes/MWBaseCameraViewController.swift:322-324 | the session is running |
| `BaseCamera.BaseCameraController.EndSession` | MWCamera/Classes/MWBaseCameraViewController.swift:326-328 | the session is stopped |
| `BaseCamera.BaseCameraController.StartRecording` | MWCamera/Classes/MWBaseCameraViewController.swift:350-427 | callable only when idle. If no writer is set or supplied and creation throws: a start stays pending, the writer stays unset, and hooks, inputs and adaptor are unchanged. Otherwise: armed; the writer is the supplied one, else the existing one, else a new `.mov` writer at `OutputFileURL`; both inputs and the adaptor are added; `willBeginRecordingVideo` is the one hook added |
| `BaseCamera.BaseCameraController.StopRecording` | MWCamera/Classes/MWBaseCameraViewController.swift:429-469 | with no writer: phase, hooks, writer, counters and inputs are unchanged. With one: idle, counters 0, writer and inputs dropped, and the hooks gain `didFinishRecordingVideo`, then the failure or the old writer's URL, in that order |
| `BaseCamera.BaseCameraController.CancelRecording` | MWCamera/Classes/MWBaseCameraViewController.swift:471-503 | as stop, but the only hook added is the cancellation with the discarded writer's URL; with no writer nothing is changed |
| `BaseCamera.BaseCameraController.CapturePhoto` | MWCamera/Classes/MWBaseCameraViewController.swift:505-519 | `willCaptureImage` is reported and the one-shot photo flag is armed |
| `BaseCamera.BaseCameraController.CaptureOutput` | MWCamera/Classes/MWBaseCameraViewController.swift:641-675 | the whole outcome of one sample: the photo flag is cleared and the photo hooks added; an accepted first sample starts the writer session at its timestamp, anchors both timestamps there and reports the start once; accepted video is appended at its corrected timestamp, which becomes the previous one, with the frame counter at `NextFrameCount` and the duration since the anchor; accepted audio adds one audio sample; otherwise counters, timestamps and writer are unchanged |
| `BaseCamera.BaseCameraController.PhotoHooks` | MWCamera/Classes/MWBaseCameraViewController.swift:677-696 | hooks are reported exactly when a photo is pending and the sample is ready; the first is always the capture; the image follows, as the second and last, exactly when the sample has an image buffer that converts |
| `BaseCamera.BaseCameraController.AudioSampleTakesPendingPhoto` | MWCamera/Classes/MWBaseCameraViewController.swift:641-696 | video and audio share one delegate, so a ready audio sample (which has no image buffer) takes a pending photo: it reports the capture and no image |
| `BaseCamera.BaseCameraController.HandlePhotoCapture` | MWCamera/Classes/MWBaseCameraViewController.swift:677-696 | adds exactly `PhotoHooks` for the sample with a photo pending, and changes nothing else |
| `BaseCamera.BaseCameraController.HandleAudioBuffer` | MWCamera/Classes/MWBaseCameraViewController.swift:698-708 | one audio sample is appended exactly when there is a writer, an audio input, and the input is ready |
| `BaseCamera.BaseCameraController.HandleVideoBuffer` | MWCamera/Classes/MWBaseCameraViewController.swift:710-767 | when appended, the frame goes in at its corrected timestamp, which becomes the previous timestamp; duration is measured from the raw timestamp; the frame counter follows `NextFrameCount`; otherwise nothing changes |
| `BaseCamera.BaseCameraController.ConfigureFrameRate` | MWCamera/Classes/MWBaseCameraViewController.swift:162-211 | with a device that can be locked and a needed update, the device is reconfigured and `frameRate` becomes the clamped target; otherwise device and rate are unchanged |
| `BaseCamera.BaseCameraController.SetDesiredFrameRate` | MWCamera/Classes/MWBaseCameraViewController.swift:104-108 | stores the desired rate and reconfigures the device for it |
| `BaseCamera.BaseCameraController.HandleSystemPressure` | MWCamera/Classes/MWBaseCameraViewController.swift:930-954 | applies the pressure response: 20 fps or the desired rate while recording; nothing at shutdown or when not recording |
| `BaseCamera.BaseCameraController.AddVideoInput` | MWCamera/Classes/MWBaseCameraViewController.swift:213-236 | the device becomes the one discovery returns, if any |
| `BaseCamera.BaseCameraController.ConfigureSessionQuality` | MWCamera/Classes/MWBaseCameraViewController.swift:149-159 | the frame rate is configured for the desired rate only when the preset is accepted |
| `BaseCamera.BaseCameraController.ReconfigureSession` | MWCamera/Classes/MWBaseCameraViewController.swift:330-348 | the device becomes the rediscovered one, reconfigured as `SessionUpdate` says; the frame rate follows it and is otherwise kept |
| `BaseCamera.BaseCameraController.SwitchCamera` | MWCamera/Classes/MWBaseCameraViewController.swift:521-563 | ignored unless the session runs and no switch is in progress. Otherwise: the position flips, the zoom of the camera being left is saved, the switch is reported, the device is `SwitchedDevice` of the discovery with the previously saved zoom, and the frame rate follows `SessionUpdate` |
| `BaseCamera.SwitchingBackRestoresZoom` | MWCamera/Classes/MWBaseCameraViewController.swift:524-556 | two switches with both zoom locks succeeding bring the camera back to its position and its zoom (1 if there was no device), and leave the saved zoom as it was |
| `CameraController.PhotoDeadline` | MWCamera/Classes/MWCameraViewController.swift:118-121 | the deadline becomes 1.2 s exactly when flash is enabled and no delay was asked for |
| `CameraController.FlashOnlyLengthensDelay` | MWCamera/Classes/MWCameraViewController.swift:118-121 | flash never shortens a delay, and with flash a photo always waits |
| `CameraController.ZoomClamp` | MWCamera/Classes/MWCameraViewController.swift:433-436 | the zoom is within [1, videoMaxZoomFactor]; a request within all bounds is kept |
| `CameraController.ZoomClampIsMonotone` | MWCamera/Classes/MWCameraViewController.swift:434-435 | a larger request never gives a smaller zoom |
| `CameraController.ZoomClampIsIdempotent` | MWCamera/Classes/MWCameraViewController.swift:434-435 | clamping a clamped zoom changes nothing |
| `CameraController.PanUpwardNeverZoomsOut` | MWCamera/Classes/MWCameraViewController.swift:497-508 | dragging further up from the button never zooms out |
| `CameraController.PanInsideButtonZoomsToMinimum` | MWCamera/Classes/MWCameraViewController.swift:499-507 | while the finger is on the button, the pan asks for scale 0, so the zoom goes to the smallest allowed factor |
| `CameraController.TouchUpDecision` | MWCamera/Classes/MWCameraViewController.swift:527-559 | on touch-up, each branch is taken exactly under its condition, in the source's order |
| `CameraController.QuickPressIsAPhoto` | MWCamera/Classes/MWCameraViewController.swift:527-559 | with a positive threshold, an instant press is a photo, and a recording is kept only after the threshold has passed |
| `CameraController.TicksUntilAutoStop` | MWCamera/Classes/MWCameraViewController.swift:588-598 | the timer stops a recording on the first tick whose total time reaches the maximum duration |
| `CameraController.ElapsedAfter` | MWCamera/Classes/MWCameraViewController.swift:588-591 | after n ticks the timer has counted n times 0.1 s |
| `CameraController.AutoStopIsFirstTickAtMaximum` | MWCamera/Classes/MWCameraViewController.swift:588-598 | `TicksUntilAutoStop` is exactly the first tick after which the elapsed time reaches the maximum duration |
| `CameraController.Torched` | MWCamera/Classes/MWCameraViewController.swift:388-400 | a device exists exactly when it did; the torch is set only for a device with a torch while flash is unlocked; everything else is kept |
| `CameraController.Zoomed` | MWCamera/Classes/MWCameraViewController.swift:150-171 | a device exists exactly when it did; the zoom becomes the factor unless zoom is locked; everything else is kept |
| `CameraController.TorchedOff` | MWCamera/Classes/MWCameraViewController.swift:269-271 | the torch stays as it was only when flash is locked or there is no torch; otherwise it is off |
| `CameraController.FlashedForCapture` | MWCamera/Classes/MWCameraViewController.swift:244-246 | on the back camera with flash enabled the device is `Torched` on; otherwise, or with flash locked, it is unchanged; only the torch can differ |
| `CameraController.AfterRecordingEnded` | MWCamera/Classes/MWCameraViewController.swift:262-279 | the torch goes off as `TorchedOff` says and the zoom returns to the starting scale exactly when a reset is pending and zoom is unlocked |
| `CameraController.LockedRecordingEndKeepsDevice` | MWCamera/Classes/MWCameraViewController.swift:538-552 | with flash and zoom both locked, the end of a recording leaves the device as it was |
| `CameraController.CameraViewController.constructor` | MWCamera/Classes/MWCameraViewController.swift:14-82 | initial state: the documented defaults (threshold 2 s, maximum 100000 s, zoom range [1, greatest finite], pan length the screen height); idle, no writer, no timer running |
| `CameraController.CameraViewController.SetPhotoCaptureThreshold` | MWCamera/Classes/MWCameraViewController.swift:76-78 | only a positive threshold may be set |
| `CameraController.CameraViewController.LockFlash` | MWCamera/Classes/MWCameraViewController.swift:194-196 | flash is locked |
| `CameraController.CameraViewController.UnlockFlash` | MWCamera/Classes/MWCameraViewController.swift:198-200 | flash is unlocked |
| `CameraController.CameraViewController.LockZoom` | MWCamera/Classes/MWCameraViewController.swift:202-204 | zoom is locked |
| `CameraController.CameraViewController.UnlockZoom` | MWCamera/Classes/MWCameraViewController.swift:206-208 | zoom is unlocked |
| `CameraController.CameraViewController.ZoomTo` | MWCamera/Classes/MWCameraViewController.swift:150-171 | the device is exactly `Zoomed`: its zoom becomes the factor unless zoom is locked or there is no device; nothing else changes |
| `CameraController.CameraViewController.SetFlash` | MWCamera/Classes/MWCameraViewController.swift:388-400 | the device is exactly `Torched`: the torch is switched only on a device with a torch while flash is not locked |
| `CameraController.CameraViewController.TorchOff` | MWCamera/Classes/MWCameraViewController.swift:269-271 | the device is exactly `TorchedOff` |
| `CameraController.CameraViewController.FlashForCapture` | MWCamera/Classes/MWCameraViewController.swift:244-246 | the device is exactly `FlashedForCapture` for the current position |
| `CameraController.CameraViewController.RecordingEnded` | MWCamera/Classes/MWCameraViewController.swift:262-279 | the device is exactly `AfterRecordingEnded` for the pending reset and the locks; the pending zoom reset is cleared |
| `CameraController.CameraViewController.DidCaptureImage` | MWCamera/Classes/MWCameraViewController.swift:364-378 | the device is unchanged while a recording is armed or written, and `TorchedOff` otherwise |
| `CameraController.CameraViewController.StartTimer` | MWCamera/Classes/MWCameraViewController.swift:600-605 | a start from the button adds one running timer, the others untouched: the timer `timer` held is not invalidated and becomes a leaked one; other starts change nothing |
| `CameraController.CameraViewController.InvalidateTimer` | MWCamera/Classes/MWCameraViewController.swift:607-612 | the timer `timer` holds is gone and only the leaked timers still run; elapsed time 0, and 0 reported |
| `CameraController.CameraViewController.StartRecording` | MWCamera/Classes/MWCameraViewController.swift:103-106 | the base start's whole outcome; the screen stays awake; the device is `FlashedForCapture` when armed and unchanged otherwise |
| `CameraController.CameraViewController.StopRecording` | MWCamera/Classes/MWCameraViewController.swift:108-111 | the base stop's whole outcome and the end hook (`AfterRecordingEnded` on the device, reset cleared, only when a writer existed); the screen may sleep again; a failure to finish the file also invalidates the timer |
| `CameraController.CameraViewController.CancelRecording` | MWCamera/Classes/MWCameraViewController.swift:113-116 | the base cancellation's whole outcome and the same end hook; the screen may sleep again |
| `CameraController.CameraViewController.CapturePhoto` | MWCamera/Classes/MWCameraViewController.swift:118-121 | the photo is armed and reported; the device is exactly `FlashedForCapture` |
| `CameraController.CameraViewController.Start` | MWCamera/Classes/MWCameraViewController.swift:571-574 | a timer is asked for, then the whole outcome of the screen's start |
| `CameraController.CameraViewController.Stop` | MWCamera/Classes/MWCameraViewController.swift:576-580 | no timer, elapsed time 0, 0 reported (twice if finishing fails), the screen may sleep, the base stop's whole outcome and the end hook |
| `CameraController.CameraViewController.Cancel` | MWCamera/Classes/MWCameraViewController.swift:582-586 | no timer, elapsed time 0, 0 reported, the screen may sleep, the base cancellation's whole outcome and the end hook |
| `CameraController.CameraViewController.UpdateTimer` | MWCamera/Classes/MWCameraViewController.swift:588-598 | a tick of any running timer below the maximum adds 0.1 s, reports it and changes nothing else; the tick reaching it reports it, sets the ignore flag and has the whole outcome of `Stop` |
| `CameraController.CameraViewController.OnSample` | MWCamera/Classes/MWCameraViewController.swift:255-260 | the base handling's whole outcome; the torch goes off (`TorchedOff`) after a photo taken outside a recording; the first sample written runs `startTimer`, leaking a timer still held; other samples leave the timers alone |
| `CameraController.CameraViewController.SessionWasInterrupted` | MWCamera/Classes/MWCameraViewController.swift:212-220 | with no recording in progress nothing changes; otherwise the whole outcome of `Stop` |
| `CameraController.CameraViewController.SwitchCamera` | MWCamera/Classes/MWCameraViewController.swift:294-315 | ignored as in the base; otherwise the base switch's whole outcome, with the new device lit (`Torched`) when it is the back camera while recording with flash |
| `CameraController.CameraViewController.LongPressBegan` | MWCamera/Classes/MWCameraViewController.swift:521-526 | with no start pending: the whole outcome of `Start`; otherwise only the stop-on-release flag is set and nothing else changes |
| `CameraController.CameraViewController.TakePhotoAndDiscard` | MWCamera/Classes/MWCameraViewController.swift:536-552 | the short-press branch: photo armed and reported, the device only `FlashedForCapture`, the recording cancelled with the locks restored |
| `CameraController.CameraViewController.CancelWithLocks` | MWCamera/Classes/MWCameraViewController.swift:540-552 | cancels with flash and zoom locked for the duration: the base cancellation's whole outcome, the device unchanged, the locks restored to what they were |
| `CameraController.CameraViewController.LongPressEnded` | MWCamera/Classes/MWCameraViewController.swift:527-559 | a pending ignore is cleared and nothing else changes; a short press takes a photo and discards the video (photo armed, base cancellation, locks restored, device only `FlashedForCapture`); the stop branches have the whole outcome of `Stop`; no branch: nothing changes |
| `CameraController.CameraViewController.LongPressCancelled` | MWCamera/Classes/MWCameraViewController.swift:560-565 | a pending ignore is cleared and nothing else changes; otherwise the whole outcome of `Cancel` |
| `CameraController.CameraViewController.Pinch` | MWCamera/Classes/MWCameraViewController.swift:426-439 | with a running session and a device, a pinch zooms from the factor the device had when the pinch began, clamped |
| `CameraController.CameraViewController.ZoomPan` | MWCamera/Classes/MWCameraViewController.swift:483-516 | nothing changes without pan zoom, a running session or a device. Otherwise a press outside a recording saves the zoom and arms the reset; a press during a recording keeps the saved zoom; the pan leaves the device `Zoomed` by the pan factor unless ignored, when it is unchanged; a cancelled press puts the saved zoom back once |
| `CameraController.CameraViewController.PanZoom` | MWCamera/Classes/MWCameraViewController.swift:494-508 | the device is `Zoomed` by the pan's clamped factor unless the press is being ignored, when it is unchanged |
| `CameraController.StopRecordingKeepsTimer` | MWCamera/Classes/MWCameraViewController.swift:108-111 | a recording from the button ended by the public `stopRecording` leaves the controller idle with its timer still running and `shouldCreateTimer` set |
| `CameraController.RestartAfterStopRecordingLeaksTimer` | MWCamera/Classes/MWCameraViewController.swift:600-605 | the next recording from the button then runs two timers, one of them leaked |
| `CameraController.InterruptedPressReleasesWithNothingRecording` | MWCamera/Classes/MWCameraViewController.swift:527-543 | after an interruption stops a recording from the button, releasing the button chooses the short-press branch while nothing is armed or recorded |

## Left out

- AVFoundation session wiring: inputs, outputs, connections, orientation, mirroring, presets and the audio session. Only the writer's and the device's observable state is modelled.
- Queue scheduling. Each queued block runs atomically in call order, and the model does not interleave blocks. Nor does it model the asynchronous completion of `finishWriting`: its outcome is reported at once.
- `Double` rounding: real arithmetic is exact, so the 0.1 s timer tick accumulates without rounding error.
- `fatalError` paths: a failed append, an unsupported `AVFileType` in `stringValue()`, and the missing writer after creation. They stop the program, so the model does not reach them.
- Background tasks, the front-camera flash view and screen brightness, focus, preview freezing and flashing, and the example app.
- Delegate calls other than the hooks log and `reportedDurations`. This includes the zoom-level, focus and per-hook delegate notifications.
- `zoom(to:withRate:)` ramping: the model sets the zoom factor directly, which is where a ramp ends.
- Device locks in the screen's torch and zoom setters are assumed to succeed. In the base controller, lock failures are parameters.
- The video writer input's `canAdd` checks: the inputs are taken as added.
- `BaseCamera.BaseCameraController.CapturePhoto`: the sleep of `deadline` seconds before the flag is armed is not modelled, because it only delays the block.
- `CameraController.CameraViewController.UpdateTimer`: the source dispatches the auto-stop to the main queue; the model stops in the same step.
- `CameraController.CameraViewController.UpdateTimer`: a tick that reaches the maximum duration while nothing is armed or recorded (a leaked timer after the recording ended) is excluded by the `stopRecording` assert kept as a precondition; what a release build does past that assert is not modelled.
- `CameraController.CameraViewController.LongPressEnded`: a short press or a stop request released while nothing is armed or recorded is excluded by the `cancelRecording`/`stopRecording` assert kept as a precondition; what a release build does past it is not modelled.
- `CameraController.CameraViewController.LongPressCancelled`: a cancelled press with nothing armed or recorded is excluded by the `cancelRecording` assert kept as a precondition; what a release build does past it is not modelled.
- `CameraController.CameraViewController.LongPressEnded`: the source restores the locks on a later main-queue turn after the cancel block; the model restores them right after the cancel.
- `CameraController.CameraViewController.SessionWasInterrupted`: the stop is dispatched to the main queue in the source and happens at once here.
- `isPinchToZoomEnabled`, `isTapToFocusEnabled` and `isDoubleTapToSwitchCameraEnabled` are read only by gesture-recognizer delegate code, which is not modelled.
