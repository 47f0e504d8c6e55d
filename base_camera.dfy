/** The recording controller (`MWBaseCameraViewController`): the three
    writing-session flags, the asset writer and its inputs, the timestamps that
    anchor and pace a recording, the frame rate, and the camera switch.

    Every block the controller dispatches to its session queue is one method here,
    run to completion. The calls it dispatches to the main queue (the overridable
    hooks and the delegate) are appended, in order, to the `hooks` log. The asset
    writer is a value recording what has been written to it; whether creating it
    throws, whether its inputs are ready, whether the device can be locked, and
    which device discovery returns are parameters of the methods that meet them. */
module BaseCamera {
  import opened MediaTypes
  import opened FrameClock
  import opened FrameRate

  // ---------------------------------------------------------------------------
  // Values the controller holds or receives
  // ---------------------------------------------------------------------------

  /** `AVCaptureDevice`, as far as the controller reads or sets it. */
  datatype Device = Device(
    videoZoomFactor: real,
    videoMaxZoomFactor: real,
    hasTorch: bool,
    torchOn: bool,
    minFrameDurationTimescale: int,
    maxFrameDurationTimescale: int,
    frameRateRanges: seq<FrameRateRange>)

  /** `AVAssetWriter`: where it writes, in which format, the time its session
      started at and what has been appended to its inputs. */
  datatype Writer = Writer(
    outputURL: string,
    outputFileType: FileType,
    sessionStart: Option<CMTime>,
    videoTimestamps: seq<CMTime>,
    audioSampleCount: nat)

  /** A writer fresh from `AVAssetWriter(outputURL:fileType:)`. */
  function NewWriter(url: string, fileType: FileType): (w: Writer)
    ensures w.outputURL == url && w.outputFileType == fileType
    ensures w.sessionStart == None && w.videoTimestamps == [] && w.audioSampleCount == 0
  {
    Writer(url, fileType, None, [], 0)
  }

  /** Which data output delivered a sample buffer. */
  datatype SampleKind = VideoSample | AudioSample

  /** `CMSampleBuffer`, as far as the controller reads it. */
  datatype Sample = Sample(
    kind: SampleKind,
    timestamp: CMTime,
    isDataReady: bool,
    hasImageBuffer: bool)

  /** The calls the controller dispatches to the main queue. */
  datatype Hook =
    | WillBeginRecordingVideo
    | DidBeginRecordingVideo
    | DidFinishRecordingVideo
    | DidFinishProcessingVideoAt(url: string)
    | DidFailToProcessVideo
    | DidCancelRecordingAt(url: string)
    | DidSwitchCamera
    | WillCaptureImage
    | DidCaptureImage
    | DidFinishProcessingImage

  /** What `appendingPathComponent` puts between a directory and a name: nothing
      when the directory already ends in a separator, else one `/`. */
  function Separator(directory: string): (sep: string)
    ensures sep == "" || sep == "/"
    ensures |directory + sep| > 0 && (directory + sep)[|directory + sep| - 1] == '/'
  {
    if |directory| > 0 && directory[|directory| - 1] == '/' then "" else "/"
  }

  /** The file a new recording is written to: `<uuid>.<extension>` in `directory`,
      with exactly one separator in between. */
  function OutputFileURL(directory: string, uuid: string, fileType: FileType): (url: string)
    requires HasExtension(fileType)
    ensures |url| == |directory| + |Separator(directory)| + |uuid| + |StringValue(fileType)| + 1
  {
    directory + Separator(directory) + uuid + "." + StringValue(fileType)
  }

  /** The layout of an output file URL: the directory, one separator, the
      identifier, then the dot and the extension. */
  lemma OutputFileURLLayout(directory: string, uuid: string, fileType: FileType)
    requires HasExtension(fileType)
    ensures var url, n := OutputFileURL(directory, uuid, fileType), |directory| + |Separator(directory)|;
            url[..|directory|] == directory && url[n - 1] == '/'
            && url[n..n + |uuid|] == uuid
            && url[n + |uuid|..] == "." + StringValue(fileType)
  {
    var sep := Separator(directory);
    JoinLayout(directory, sep, uuid, StringValue(fileType));
    assert (directory + sep)[|directory + sep| - 1] == '/';
    assert OutputFileURL(directory, uuid, fileType)[|directory + sep| - 1]
           == (directory + sep)[|directory + sep| - 1];
  }

  /** The parts of `directory + sep + name + "." + ext` can be read back by position. */
  lemma JoinLayout(directory: string, sep: string, name: string, ext: string)
    ensures var url, n := directory + sep + name + "." + ext, |directory| + |sep|;
            url[..|directory|] == directory && url[n..n + |name|] == name
            && url[n + |name|..] == "." + ext
            && forall i :: 0 <= i < n ==> url[i] == (directory + sep)[i]
  {
    var url, n := directory + sep + name + "." + ext, |directory| + |sep|;
    assert url == (directory + sep) + (name + ("." + ext));
    assert url[..|directory|] == (directory + sep)[..|directory|];
    assert url[n..] == name + ("." + ext);
    assert url[n..n + |name|] == url[n..][..|name|];
    assert url[n + |name|..] == url[n..][|name|..];
  }

  /** Recordings named by different identifiers of the same length (as UUID strings
      are) go to different files. */
  lemma {:induction false} OutputFileURLsAreDistinct(directory: string, u1: string, u2: string, fileType: FileType)
    requires HasExtension(fileType)
    requires |u1| == |u2| && u1 != u2
    ensures OutputFileURL(directory, u1, fileType) != OutputFileURL(directory, u2, fileType)
  {
    var k :| 0 <= k < |u1| && u1[k] != u2[k];
    var n := |directory| + |Separator(directory)|;
    var url1, url2 := OutputFileURL(directory, u1, fileType), OutputFileURL(directory, u2, fileType);
    OutputFileURLLayout(directory, u1, fileType);
    OutputFileURLLayout(directory, u2, fileType);
    assert url1[n..n + |u1|][k] == u1[k];
    assert url2[n..n + |u2|][k] == u2[k];
  }

  /** The rate `configureFrameRate` would move `device` to, or none when the guard
      finds one of the active frame durations already at the target. */
  function FrameRateUpdate(device: Device, toFrameRate: Option<int>, desiredFrameRate: int): (r: Option<int>)
    ensures r.Some? ==> r.value == TargetFrameRate(toFrameRate, desiredFrameRate, device.frameRateRanges)
    ensures r.None? <==> !NeedsReconfiguration(device.minFrameDurationTimescale, device.maxFrameDurationTimescale,
                                               TargetFrameRate(toFrameRate, desiredFrameRate, device.frameRateRanges))
  {
    var target := TargetFrameRate(toFrameRate, desiredFrameRate, device.frameRateRanges);
    if NeedsReconfiguration(device.minFrameDurationTimescale, device.maxFrameDurationTimescale, target)
    then Some(target) else None
  }

  /** Both active frame durations set to `1/rate` seconds. */
  function Reconfigured(device: Device, rate: int): (d: Device)
    ensures d.minFrameDurationTimescale == rate && d.maxFrameDurationTimescale == rate
    ensures d.frameRateRanges == device.frameRateRanges && d.videoZoomFactor == device.videoZoomFactor
    ensures d.hasTorch == device.hasTorch && d.torchOn == device.torchOn
  {
    device.(minFrameDurationTimescale := rate, maxFrameDurationTimescale := rate)
  }

  /** Reconfiguring is idempotent: once the device runs at the target rate, asking
      for the same rate again leaves it alone. */
  lemma ReconfigurationIsIdempotent(device: Device, toFrameRate: Option<int>, desiredFrameRate: int)
    requires FrameRateUpdate(device, toFrameRate, desiredFrameRate).Some?
    ensures var rate := FrameRateUpdate(device, toFrameRate, desiredFrameRate).value;
            FrameRateUpdate(Reconfigured(device, rate), toFrameRate, desiredFrameRate) == None
  {
  }

  /** The frame rate `configureSessionQuality` sets on a newly discovered device:
      none unless the preset is accepted, there is a device and it can be locked. */
  function SessionUpdate(discovered: Option<Device>, presetAccepted: bool, lockSucceeds: bool,
                         desiredFrameRate: int): (r: Option<int>)
    ensures r.Some? ==> presetAccepted && lockSucceeds && discovered.Some?
                        && r == FrameRateUpdate(discovered.value, None, desiredFrameRate)
    ensures presetAccepted && lockSucceeds && discovered.Some? ==>
              r == FrameRateUpdate(discovered.value, None, desiredFrameRate)
  {
    if presetAccepted && discovered.Some? && lockSucceeds then FrameRateUpdate(discovered.value, None, desiredFrameRate)
    else None
  }

  /** The device a camera switch ends with: the discovered device, reconfigured
      for the session's frame rate, then given `zoomScale` when it can be locked.
      Its frame-rate ranges and torch are the discovered device's. */
  function SwitchedDevice(discovered: Option<Device>, presetAccepted: bool, frameRateLockSucceeds: bool,
                          zoomLockSucceeds: bool, desiredFrameRate: int, zoomScale: real): (d: Option<Device>)
    ensures d.Some? <==> discovered.Some?
    ensures d.Some? ==>
              d.value.videoZoomFactor == (if zoomLockSucceeds then zoomScale else discovered.value.videoZoomFactor)
              && d.value.frameRateRanges == discovered.value.frameRateRanges
              && d.value.hasTorch == discovered.value.hasTorch
              && d.value.torchOn == discovered.value.torchOn
  {
    var update := SessionUpdate(discovered, presetAccepted, frameRateLockSucceeds, desiredFrameRate);
    var configured := if update.Some? then Some(Reconfigured(discovered.value, update.value)) else discovered;
    if configured.Some? && zoomLockSucceeds then Some(configured.value.(videoZoomFactor := zoomScale))
    else configured
  }

  /** The writer a start works with: the one the delegate supplied, else the one
      already in place. */
  function OfferedWriter(current: Option<Writer>, supplied: Option<Writer>): (w: Option<Writer>)
    ensures supplied.Some? ==> w == supplied
    ensures supplied.None? ==> w == current
  {
    if supplied.Some? then supplied else current
  }

  /** Whole seconds from `start` to `t`, as `Int(time - startTime)` computes them. */
  function SecondIndex(t: CMTime, start: CMTime): int
    requires ValidTime(t) && ValidTime(start)
  {
    Trunc(Seconds(t) - Seconds(start))
  }

  /** `frameCount` after a frame: one more, or 0 when the frame starts a new whole
      second of the recording (compared with the previous appended frame). */
  function NextFrameCount(count: nat, previous: CMTime, current: CMTime, start: CMTime): (n: nat)
    requires ValidTime(previous) && ValidTime(current) && ValidTime(start)
    ensures n == 0 || n == count + 1
    ensures n == 0 <==> SecondIndex(previous, start) != SecondIndex(current, start)
  {
    if SecondIndex(previous, start) == SecondIndex(current, start) then count + 1 else 0
  }

  /** Where a controller stands in a recording's life. */
  datatype Phase =
    | Idle       // nothing pending: `startRecording` may be called
    | Starting   // `willStartWritingSession`: a start is under way, or creating its writer threw
    | Armed      // `shouldStartWritingSession`: waiting for the first ready sample
    | Writing    // `didStartWritingSession` (`isRecording`): samples go to the writer

  function PhaseOf(willStart: bool, shouldStart: bool, didStart: bool): Phase {
    if didStart then Writing
    else if shouldStart then Armed
    else if willStart then Starting
    else Idle
  }

  /** The flag combinations a controller can be in. */
  predicate FlagsConsistent(willStart: bool, shouldStart: bool, didStart: bool) {
    (didStart ==> shouldStart) && (shouldStart ==> !willStart)
  }

  /** For consistent flags the phase determines all three flags, so it is a faithful
      summary of them: `startRecording` is allowed exactly when idle, and stopping or
      cancelling exactly when armed or writing. */
  lemma {:induction false} PhaseDeterminesFlags(w1: bool, s1: bool, d1: bool, w2: bool, s2: bool, d2: bool)
    requires FlagsConsistent(w1, s1, d1) && FlagsConsistent(w2, s2, d2)
    requires PhaseOf(w1, s1, d1) == PhaseOf(w2, s2, d2)
    ensures w1 == w2 && s1 == s2 && d1 == d2
    ensures PhaseOf(w1, s1, d1) == Idle <==> !w1 && !s1
    ensures PhaseOf(w1, s1, d1) in {Armed, Writing} <==> s1
  {
    match PhaseOf(w1, s1, d1)
    case Idle =>
    case Starting =>
    case Armed =>
    case Writing =>
  }

  // ---------------------------------------------------------------------------
  // The controller
  // ---------------------------------------------------------------------------

  /** Frames per second asked for until the client sets another rate. */
  const DefaultDesiredFrameRate: int := 30

  class BaseCameraController {
    var lastZoomScale: real
    var isSwitchingCameras: bool
    var didStartWritingSession: bool
    var hasPixelBufferAdaptor: bool
    var previousPresentationTimeStamp: CMTime
    var startingPresentationTimeStamp: CMTime
    var frameRate: int
    var frameCount: nat
    var shouldCapturePhotoFromDataOutput: bool
    var willStartWritingSession: bool
    var shouldStartWritingSession: bool
    var cameraLocation: Position
    var recordingDuration: real
    var captureDevice: Option<Device>
    var assetWriter: Option<Writer>
    var hasVideoWriterInput: bool
    var hasAudioWriterInput: bool
    var isAudioEnabled: bool
    var isSessionRunning: bool
    var outputFileDirectory: string
    var desiredFrameRate: int
    /** Main-queue calls dispatched so far, oldest first. */
    var hooks: seq<Hook>

    /** The controller's invariant: consistent writing flags, counters at zero
        whenever no session is being written, and well-formed stored timestamps. */
    predicate Valid()
      reads this
    {
      FlagsConsistent(willStartWritingSession, shouldStartWritingSession, didStartWritingSession)
      && (!didStartWritingSession ==> frameCount == 0 && recordingDuration == 0.0)
      && ValidTime(previousPresentationTimeStamp)
      && ValidTime(startingPresentationTimeStamp)
    }

    /** `isRecording`. */
    predicate IsRecording()
      reads this
    {
      didStartWritingSession
    }

    function CurrentPhase(): Phase
      reads this
    {
      PhaseOf(willStartWritingSession, shouldStartWritingSession, didStartWritingSession)
    }

    constructor(outputFileDirectory: string)
      ensures Valid() && CurrentPhase() == Idle
      ensures this.outputFileDirectory == outputFileDirectory
      ensures frameRate == 0 && desiredFrameRate == DefaultDesiredFrameRate
      ensures frameCount == 0 && recordingDuration == 0.0
      ensures previousPresentationTimeStamp == Zero && startingPresentationTimeStamp == Zero
      ensures cameraLocation == Back && lastZoomScale == 1.0 && isAudioEnabled
      ensures assetWriter == None && captureDevice == None && !isSessionRunning
      ensures !hasVideoWriterInput && !hasAudioWriterInput && !hasPixelBufferAdaptor
      ensures !shouldCapturePhotoFromDataOutput && hooks == [] && !isSwitchingCameras
    {
      lastZoomScale := 1.0;
      isSwitchingCameras := false;
      didStartWritingSession := false;
      hasPixelBufferAdaptor := false;
      previousPresentationTimeStamp := Zero;
      startingPresentationTimeStamp := Zero;
      frameRate := 0;
      frameCount := 0;
      shouldCapturePhotoFromDataOutput := false;
      willStartWritingSession := false;
      shouldStartWritingSession := false;
      cameraLocation := Back;
      recordingDuration := 0.0;
      captureDevice := None;
      assetWriter := None;
      hasVideoWriterInput := false;
      hasAudioWriterInput := false;
      isAudioEnabled := true;
      isSessionRunning := false;
      this.outputFileDirectory := outputFileDirectory;
      desiredFrameRate := DefaultDesiredFrameRate;
      hooks := [];
    }

    /** The public `assetWriter` property, which a client may set at any time. */
    method SetAssetWriter(writer: Option<Writer>)
      requires Valid()
      modifies this`assetWriter
      ensures Valid() && assetWriter == writer
    {
      assetWriter := writer;
    }

    /** The `defaultCameraLocation` observer: it moves the camera only while the
        session is not running. */
    method SetDefaultCameraLocation(location: Position)
      requires Valid()
      modifies this`cameraLocation
      ensures Valid()
      ensures cameraLocation == if old(isSessionRunning) then old(cameraLocation) else location
    {
      if !isSessionRunning {
        cameraLocation := location;
      }
    }

    /** `beginSession`. */
    method BeginSession()
      requires Valid()
      modifies this`isSessionRunning
      ensures Valid() && isSessionRunning
    {
      isSessionRunning := true;
    }

    /** `endSession`. */
    method EndSession()
      requires Valid()
      modifies this`isSessionRunning
      ensures Valid() && !isSessionRunning
    {
      isSessionRunning := false;
    }

    // -------------------------------------------------------------------------
    // Recording lifecycle
    // -------------------------------------------------------------------------

    /** `startRecording`. It must not be called while a start is pending or a
        recording is armed. The delegate, asked by `shouldCreateAssetWriter`, may
        supply the writer; the writer then in place must have a video file type.
        When there is none and creating a new one throws, the block returns with
        `willStartWritingSession` still set and nothing else changed. Otherwise the
        controller is armed, with that writer or a new `.mov` writer named after
        `uuid`, a video input, an audio input when audio is enabled, and a
        pixel-buffer adaptor. `StartedRecording` is that outcome, against the state
        the call began in. */
    twostate predicate StartedRecording(uuid: string, suppliedWriter: Option<Writer>, creationFails: bool)
      reads this
    {
      var w := OfferedWriter(old(assetWriter), suppliedWriter);
      if w.None? && creationFails then
        CurrentPhase() == Starting && assetWriter == None && hooks == old(hooks)
        && hasVideoWriterInput == old(hasVideoWriterInput)
        && hasAudioWriterInput == old(hasAudioWriterInput)
        && hasPixelBufferAdaptor == old(hasPixelBufferAdaptor)
      else
        CurrentPhase() == Armed
        && assetWriter == Some(w.GetOr(NewWriter(OutputFileURL(outputFileDirectory, uuid, Mov), Mov)))
        && hasVideoWriterInput && hasPixelBufferAdaptor
        && hasAudioWriterInput == (old(hasAudioWriterInput) || isAudioEnabled)
        && hooks == old(hooks) + [WillBeginRecordingVideo]
    }

    method StartRecording(uuid: string, suppliedWriter: Option<Writer>, creationFails: bool)
      requires Valid() && CurrentPhase() == Idle
      requires var w := OfferedWriter(assetWriter, suppliedWriter);
               w.Some? ==> IsVideoFileTypeSupported(w.value.outputFileType)
      modifies this`willStartWritingSession, this`shouldStartWritingSession, this`assetWriter,
               this`hasVideoWriterInput, this`hasAudioWriterInput, this`hasPixelBufferAdaptor, this`hooks
      ensures Valid() && StartedRecording(uuid, suppliedWriter, creationFails)
    {
      willStartWritingSession := true;
      if suppliedWriter.Some? {
        assetWriter := suppliedWriter;
      }
      var fileType := if assetWriter.Some? then assetWriter.value.outputFileType else Mov;
      VideoTypesHaveVideoExtensions(fileType);
      var outputFileURL := OutputFileURL(outputFileDirectory, uuid, fileType);
      if assetWriter.None? {
        if creationFails {
          return;
        }
        assetWriter := Some(NewWriter(outputFileURL, fileType));
      }
      assert assetWriter == Some(OfferedWriter(old(assetWriter), suppliedWriter)
                                   .GetOr(NewWriter(OutputFileURL(outputFileDirectory, uuid, Mov), Mov)));
      ArmRecording();
    }

    /** The end of a start that has its writer: the inputs and the adaptor are
        added, `willBeginRecordingVideo` is dispatched, and the recording waits
        for its first sample. */
    method ArmRecording()
      requires Valid() && CurrentPhase() == Starting
      modifies this`willStartWritingSession, this`shouldStartWritingSession, this`hasVideoWriterInput,
               this`hasAudioWriterInput, this`hasPixelBufferAdaptor, this`hooks
      ensures Valid() && CurrentPhase() == Armed
      ensures hasVideoWriterInput && hasPixelBufferAdaptor
      ensures hasAudioWriterInput == (old(hasAudioWriterInput) || isAudioEnabled)
      ensures hooks == old(hooks) + [WillBeginRecordingVideo]
    {
      hasVideoWriterInput := true;
      if isAudioEnabled {
        hasAudioWriterInput := true;
      }
      hasPixelBufferAdaptor := true;
      hooks := hooks + [WillBeginRecordingVideo];
      shouldStartWritingSession := true;
      willStartWritingSession := false;
    }

    /** How a stop or a cancel leaves the controller. Without a writer nothing
        changes. With one the recording is over: the flags are back to idle, the
        counters cleared, the writer and both inputs dropped (the pixel-buffer
        adaptor stays), and `reports` are what it told its hooks. */
    twostate predicate EndedWith(reports: seq<Hook>)
      reads this
    {
      if old(assetWriter).None? then
        CurrentPhase() == old(CurrentPhase()) && hooks == old(hooks) && assetWriter == old(assetWriter)
        && frameCount == old(frameCount) && recordingDuration == old(recordingDuration)
        && hasVideoWriterInput == old(hasVideoWriterInput)
        && hasAudioWriterInput == old(hasAudioWriterInput)
      else
        CurrentPhase() == Idle && frameCount == 0 && recordingDuration == 0.0
        && assetWriter == None && !hasVideoWriterInput && !hasAudioWriterInput
        && hooks == old(hooks) + reports
    }

    /** A stop reports the end of the recording, then the outcome of finishing the file. */
    twostate predicate StoppedRecording(finishFails: bool)
      reads this
    {
      if old(assetWriter).None? then EndedWith([])
      else EndedWith([DidFinishRecordingVideo,
                      if finishFails then DidFailToProcessVideo
                      else DidFinishProcessingVideoAt(old(assetWriter).value.outputURL)])
    }

    /** A cancel reports the URL the writer was writing to. */
    twostate predicate CancelledRecording()
      reads this
    {
      if old(assetWriter).None? then EndedWith([])
      else EndedWith([DidCancelRecordingAt(old(assetWriter).value.outputURL)])
    }

    /** `stopRecording`. It must be called only while a recording is armed or being
        written. Without a writer it changes nothing. With one it ends the
        recording, clears the counters, drops the writer and both inputs (the
        pixel-buffer adaptor stays), and reports the end of the recording and then
        the outcome of finishing the file. */
    method StopRecording(finishFails: bool)
      requires Valid() && shouldStartWritingSession
      modifies this`shouldStartWritingSession, this`didStartWritingSession, this`frameCount,
               this`recordingDuration, this`assetWriter, this`hasVideoWriterInput,
               this`hasAudioWriterInput, this`hooks
      ensures Valid() && StoppedRecording(finishFails)
    {
      if assetWriter.None? {
        return;
      }
      var writer := assetWriter.value;
      shouldStartWritingSession := false;
      didStartWritingSession := false;
      frameCount := 0;
      recordingDuration := 0.0;
      hooks := hooks + [DidFinishRecordingVideo];
      if finishFails {
        hooks := hooks + [DidFailToProcessVideo];
      } else {
        hooks := hooks + [DidFinishProcessingVideoAt(writer.outputURL)];
      }
      assetWriter := None;
      hasAudioWriterInput := false;
      hasVideoWriterInput := false;
    }

    /** `cancelRecording`: as `stopRecording`, but the file is discarded and the
        report names the URL the writer was writing to. */
    method CancelRecording()
      requires Valid() && shouldStartWritingSession
      modifies this`shouldStartWritingSession, this`didStartWritingSession, this`frameCount,
               this`recordingDuration, this`assetWriter, this`hasVideoWriterInput,
               this`hasAudioWriterInput, this`hooks
      ensures Valid() && CancelledRecording()
    {
      if assetWriter.None? {
        return;
      }
      shouldStartWritingSession := false;
      didStartWritingSession := false;
      frameCount := 0;
      recordingDuration := 0.0;
      var url := assetWriter.value.outputURL;
      hooks := hooks + [DidCancelRecordingAt(url)];
      assetWriter := None;
      hasAudioWriterInput := false;
      hasVideoWriterInput := false;
    }

    /** `capturePhoto(after:)`: reports the coming capture and arms the one-shot
        flag that routes the next sample buffer to photo capture (the wait of
        `deadline` seconds before arming is not modelled). */
    method CapturePhoto(deadline: real)
      requires Valid()
      modifies this`hooks, this`shouldCapturePhotoFromDataOutput
      ensures Valid()
      ensures shouldCapturePhotoFromDataOutput && hooks == old(hooks) + [WillCaptureImage]
    {
      hooks := hooks + [WillCaptureImage];
      shouldCapturePhotoFromDataOutput := true;
    }

    // -------------------------------------------------------------------------
    // Sample buffers
    // -------------------------------------------------------------------------

    /** A sample reaches the writer only while a recording is armed or written,
        its data is ready and a writer exists. */
    predicate Accepts(sample: Sample)
      reads this
    {
      shouldStartWritingSession && sample.isDataReady && assetWriter.Some?
    }

    /** `captureOutput(_:didOutput:from:)`. A pending photo request is taken by
        this sample, whether or not a recording is active. An accepted sample that
        is the first of its recording starts the writer's session at its timestamp
        and anchors the starting and previous timestamps there; later samples leave
        the anchor alone. An accepted sample then goes to the audio or video
        handler: video frames are appended at their corrected timestamps and move
        the previous timestamp, the frame counter and the duration on; audio
        samples only reach the writer. `HandledSample` is that outcome, against
        the state the call began in. */
    twostate predicate HandledSample(sample: Sample, inputIsReady: bool, imageConverts: bool)
      requires ValidTime(sample.timestamp) && old(ValidTime(previousPresentationTimeStamp))
      requires ValidTime(startingPresentationTimeStamp)
      reads this
    {
      var accepted := old(Accepts(sample));
      var first := accepted && !old(didStartWritingSession);
      var appends := accepted && sample.kind == VideoSample && old(AppendsVideo(sample, inputIsReady));
      var takesAudio := accepted && sample.kind == AudioSample && hasAudioWriterInput && inputIsReady;
      var previous := if old(didStartWritingSession) then old(previousPresentationTimeStamp) else sample.timestamp;
      var stamp := CorrectedTimestamp(frameRate, sample.timestamp, previous);
      !shouldCapturePhotoFromDataOutput
      && hooks == old(hooks) + PhotoHooks(old(shouldCapturePhotoFromDataOutput), sample, imageConverts)
                  + (if first then [DidBeginRecordingVideo] else [])
      && didStartWritingSession == (old(didStartWritingSession) || accepted)
      && startingPresentationTimeStamp == (if first then sample.timestamp else old(startingPresentationTimeStamp))
      && previousPresentationTimeStamp == (if appends then stamp else if first then sample.timestamp
                                           else old(previousPresentationTimeStamp))
      && frameCount == (if appends then NextFrameCount(old(frameCount), previous, sample.timestamp,
                                                       startingPresentationTimeStamp)
                        else old(frameCount))
      && recordingDuration == (if appends then Seconds(sample.timestamp) - Seconds(startingPresentationTimeStamp)
                               else old(recordingDuration))
      && assetWriter == (if !accepted then old(assetWriter) else
                         var written := if first then old(assetWriter).value.(sessionStart := Some(sample.timestamp))
                                        else old(assetWriter).value;
                         if appends then Some(written.(videoTimestamps := written.videoTimestamps + [stamp]))
                         else if takesAudio then Some(written.(audioSampleCount := written.audioSampleCount + 1))
                         else Some(written))
    }

    method CaptureOutput(sample: Sample, inputIsReady: bool, imageConverts: bool)
      requires Valid() && ValidTime(sample.timestamp)
      modifies this`shouldCapturePhotoFromDataOutput, this`hooks, this`didStartWritingSession,
               this`assetWriter, this`startingPresentationTimeStamp,
               this`previousPresentationTimeStamp, this`frameCount, this`recordingDuration
      ensures Valid() && HandledSample(sample, inputIsReady, imageConverts)
    {
      if shouldCapturePhotoFromDataOutput {
        shouldCapturePhotoFromDataOutput := false;
        HandlePhotoCapture(sample, imageConverts);
      }
      if !shouldStartWritingSession {
        return;
      }
      if !sample.isDataReady || assetWriter.None? {
        return;
      }
      if !didStartWritingSession {
        BeginWritingSession(sample.timestamp);
      }
      match sample.kind
      case AudioSample => HandleAudioBuffer(inputIsReady);
      case VideoSample => HandleVideoBuffer(sample, inputIsReady);
    }

    /** The first accepted sample of a recording: the writer's session starts at
        its timestamp, both stored timestamps are anchored there, and
        `didBeginRecordingVideo` is dispatched. */
    method BeginWritingSession(timestamp: CMTime)
      requires Valid() && ValidTime(timestamp)
      requires shouldStartWritingSession && !didStartWritingSession && assetWriter.Some?
      modifies this`assetWriter, this`didStartWritingSession, this`hooks,
               this`startingPresentationTimeStamp, this`previousPresentationTimeStamp
      ensures Valid() && didStartWritingSession
      ensures assetWriter == Some(old(assetWriter).value.(sessionStart := Some(timestamp)))
      ensures hooks == old(hooks) + [DidBeginRecordingVideo]
      ensures startingPresentationTimeStamp == timestamp && previousPresentationTimeStamp == timestamp
    {
      assetWriter := Some(assetWriter.value.(sessionStart := Some(timestamp)));
      didStartWritingSession := true;
      hooks := hooks + [DidBeginRecordingVideo];
      startingPresentationTimeStamp := timestamp;
      previousPresentationTimeStamp := timestamp;
    }

    /** What photo capture reports for a sample, when a photo was pending: the
        capture if the data is ready, then the image if the sample carries an
        image buffer and that buffer could be converted. Audio and video samples
        go through the same path, so an audio sample can take the photo. */
    static function PhotoHooks(pending: bool, sample: Sample, imageConverts: bool): (hs: seq<Hook>)
      ensures hs != [] <==> pending && sample.isDataReady
      ensures hs != [] ==> hs[0] == DidCaptureImage
      ensures |hs| == 2 <==> pending && sample.isDataReady && sample.hasImageBuffer && imageConverts
      ensures |hs| == 2 ==> hs[1] == DidFinishProcessingImage
      ensures |hs| <= 2
    {
      if pending && sample.isDataReady then
        [DidCaptureImage] + (if sample.hasImageBuffer && imageConverts then [DidFinishProcessingImage] else [])
      else []
    }

    /** An audio sample that is ready takes a pending photo: the capture is
        reported, with no image, since audio carries no image buffer. */
    static lemma AudioSampleTakesPendingPhoto(timestamp: CMTime, imageConverts: bool)
      ensures PhotoHooks(true, Sample(AudioSample, timestamp, true, false), imageConverts) == [DidCaptureImage]
    {
    }

    /** `handlePhotoCapture`. */
    method HandlePhotoCapture(sample: Sample, imageConverts: bool)
      modifies this`hooks
      ensures hooks == old(hooks) + PhotoHooks(true, sample, imageConverts)
    {
      if !sample.isDataReady {
        return;
      }
      hooks := hooks + [DidCaptureImage];
      if sample.hasImageBuffer && imageConverts {
        hooks := hooks + [DidFinishProcessingImage];
      }
    }

    /** `handleAudioBuffer`: the sample is appended when there is a writer, an audio
        input, and the input is ready for more data. */
    method HandleAudioBuffer(inputIsReady: bool)
      modifies this`assetWriter
      ensures assetWriter.Some? <==> old(assetWriter).Some?
      ensures assetWriter.Some? ==>
                assetWriter.value == old(assetWriter).value.(audioSampleCount :=
                  old(assetWriter).value.audioSampleCount + (if hasAudioWriterInput && inputIsReady then 1 else 0))
    {
      if assetWriter.None? {
        return;
      }
      if hasAudioWriterInput && inputIsReady {
        assetWriter := Some(assetWriter.value.(audioSampleCount := assetWriter.value.audioSampleCount + 1));
      }
    }

    /** A video sample is appended when there is a writer, a pixel-buffer adaptor
        and a video input that is ready, and the sample carries an image. */
    predicate AppendsVideo(sample: Sample, inputIsReady: bool)
      reads this
    {
      assetWriter.Some? && hasPixelBufferAdaptor && hasVideoWriterInput && inputIsReady
      && sample.hasImageBuffer
    }

    /** `handleVideoBuffer`. The frame is appended at its corrected timestamp, which
        becomes the previous timestamp; the recording's duration is measured with
        the raw timestamp; and the frame counter counts on, restarting at 0 when
        the frame falls in another whole second than the previous one. */
    method HandleVideoBuffer(sample: Sample, inputIsReady: bool)
      requires Valid() && didStartWritingSession && ValidTime(sample.timestamp)
      modifies this`assetWriter, this`previousPresentationTimeStamp, this`frameCount, this`recordingDuration
      ensures Valid()
      ensures !old(AppendsVideo(sample, inputIsReady)) ==>
                assetWriter == old(assetWriter) && frameCount == old(frameCount)
                && recordingDuration == old(recordingDuration)
                && previousPresentationTimeStamp == old(previousPresentationTimeStamp)
      ensures old(AppendsVideo(sample, inputIsReady)) ==>
                var current, previous, start := sample.timestamp, old(previousPresentationTimeStamp),
                                                 startingPresentationTimeStamp;
                var stamp := CorrectedTimestamp(frameRate, current, previous);
                assetWriter == Some(old(assetWriter).value.(videoTimestamps :=
                                      old(assetWriter).value.videoTimestamps + [stamp]))
                && previousPresentationTimeStamp == stamp
                && recordingDuration == Seconds(current) - Seconds(start)
                && frameCount == NextFrameCount(old(frameCount), previous, current, start)
    {
      if assetWriter.None? {
        return;
      }
      if hasPixelBufferAdaptor && hasVideoWriterInput && inputIsReady && sample.hasImageBuffer {
        var currentPresentationTimestamp := sample.timestamp;
        var previousPresentationTimeStamp := this.previousPresentationTimeStamp;
        var presentationTimeStamp :=
          CorrectedTimestamp(frameRate, currentPresentationTimestamp, previousPresentationTimeStamp);
        var writer := assetWriter.value;
        assetWriter := Some(writer.(videoTimestamps := writer.videoTimestamps + [presentationTimeStamp]));
        this.previousPresentationTimeStamp := presentationTimeStamp;
        var startTime := Seconds(startingPresentationTimeStamp);
        var currentTime := Seconds(currentPresentationTimestamp);
        var previousTime := Seconds(previousPresentationTimeStamp);
        frameCount := frameCount + 1;
        recordingDuration := currentTime - startTime;
        if Trunc(previousTime - startTime) != Trunc(currentTime - startTime) {
          frameCount := 0;
        }
      }
    }

    // -------------------------------------------------------------------------
    // Frame rate and camera
    // -------------------------------------------------------------------------

    /** `configureFrameRate(toframeRate:)`. Without a device nothing happens.
        Otherwise the target rate is the explicit rate, or `desiredFrameRate`,
        clamped to the bounds of the device's supported ranges; when neither active
        frame duration is already at the target and the device can be locked, both
        durations are set to one frame at the target rate and the controller's
        `frameRate` becomes the target. */
    method ConfigureFrameRate(toFrameRate: Option<int>, lockSucceeds: bool)
      requires Valid()
      modifies this`captureDevice, this`frameRate
      ensures Valid()
      ensures captureDevice.Some? <==> old(captureDevice).Some?
      ensures var update := if old(captureDevice).Some? && lockSucceeds
                            then FrameRateUpdate(old(captureDevice).value, toFrameRate, desiredFrameRate)
                            else None;
              (update.None? ==> captureDevice == old(captureDevice) && frameRate == old(frameRate))
              && (update.Some? ==> frameRate == update.value
                                   && captureDevice == Some(Reconfigured(old(captureDevice).value, update.value)))
    {
      if captureDevice.None? {
        return;
      }
      var videoDevice := captureDevice.value;
      var desired := toFrameRate.GetOr(desiredFrameRate);
      var rate := desired;
      var maxFrameRate, minFrameRate := SupportedBounds(videoDevice.frameRateRanges);
      if desired > maxFrameRate {
        rate := maxFrameRate;
      } else if desired < minFrameRate {
        rate := minFrameRate;
      }
      if videoDevice.minFrameDurationTimescale == rate || videoDevice.maxFrameDurationTimescale == rate {
        return;
      }
      if lockSucceeds {
        captureDevice := Some(videoDevice.(minFrameDurationTimescale := rate, maxFrameDurationTimescale := rate));
        frameRate := rate;
      }
    }

    /** The `desiredFrameRate` property, whose observer reconfigures the frame rate. */
    method SetDesiredFrameRate(rate: int, lockSucceeds: bool)
      requires Valid()
      modifies this`desiredFrameRate, this`captureDevice, this`frameRate
      ensures Valid() && desiredFrameRate == rate
      ensures var update := if old(captureDevice).Some? && lockSucceeds
                            then FrameRateUpdate(old(captureDevice).value, None, rate)
                            else None;
              (update.None? ==> captureDevice == old(captureDevice) && frameRate == old(frameRate))
              && (update.Some? ==> frameRate == update.value
                                   && captureDevice == Some(Reconfigured(old(captureDevice).value, update.value)))
    {
      desiredFrameRate := rate;
      ConfigureFrameRate(None, lockSucceeds);
    }

    /** The system-pressure observer: throttles to 20 frames per second under
        serious or critical pressure and returns to the desired rate at other
        levels, in both cases only while recording; shutdown changes nothing. */
    method HandleSystemPressure(level: PressureLevel, lockSucceeds: bool)
      requires Valid()
      modifies this`captureDevice, this`frameRate
      ensures Valid()
      ensures var response := RespondToPressure(level, IsRecording());
              var update := if response.Configure? && old(captureDevice).Some? && lockSucceeds
                            then FrameRateUpdate(old(captureDevice).value, response.toFrameRate, desiredFrameRate)
                            else None;
              (update.None? ==> captureDevice == old(captureDevice) && frameRate == old(frameRate))
              && (update.Some? ==> frameRate == update.value
                                   && captureDevice == Some(Reconfigured(old(captureDevice).value, update.value)))
    {
      match RespondToPressure(level, IsRecording())
      case LeaveFrameRate =>
      case Configure(toFrameRate) => ConfigureFrameRate(toFrameRate, lockSucceeds);
    }

    /** `addVideoInput`: the device becomes the one discovery finds for the current
        camera position, if any. */
    method AddVideoInput(discovered: Option<Device>)
      requires Valid()
      modifies this`captureDevice
      ensures Valid() && captureDevice == discovered
    {
      captureDevice := discovered;
    }

    /** `configureSessionQuality`: when the session accepts the quality preset, the
        frame rate is configured for the desired rate. */
    method ConfigureSessionQuality(presetAccepted: bool, lockSucceeds: bool)
      requires Valid()
      modifies this`captureDevice, this`frameRate
      ensures Valid()
      ensures captureDevice.Some? <==> old(captureDevice).Some?
      ensures !presetAccepted ==> captureDevice == old(captureDevice) && frameRate == old(frameRate)
      ensures var update := if presetAccepted && old(captureDevice).Some? && lockSucceeds
                            then FrameRateUpdate(old(captureDevice).value, None, desiredFrameRate)
                            else None;
              (update.None? ==> captureDevice == old(captureDevice) && frameRate == old(frameRate))
              && (update.Some? ==> frameRate == update.value
                                   && captureDevice == Some(Reconfigured(old(captureDevice).value, update.value)))
    {
      if presetAccepted {
        ConfigureFrameRate(None, lockSucceeds);
      }
    }

    /** `reconfigureSession`: inputs rebuilt for the current camera, then the
        quality and frame rate configured again. */
    method ReconfigureSession(discovered: Option<Device>, presetAccepted: bool, lockSucceeds: bool)
      requires Valid()
      modifies this`captureDevice, this`frameRate
      ensures Valid()
      ensures captureDevice.Some? <==> discovered.Some?
      ensures var update := SessionUpdate(discovered, presetAccepted, lockSucceeds, desiredFrameRate);
              (update.None? ==> captureDevice == discovered && frameRate == old(frameRate))
              && (update.Some? ==> frameRate == update.value
                                   && captureDevice == Some(Reconfigured(discovered.value, update.value)))
    {
      AddVideoInput(discovered);
      ConfigureSessionQuality(presetAccepted, lockSucceeds);
    }

    /** `switchCamera`. Nothing happens unless the session is running and no switch
        is in progress. Otherwise the camera flips to the opposite position, the
        zoom factor of the camera being left is saved, the session is rebuilt
        around the newly discovered device, the switch is reported, and the new
        device gets the zoom factor saved when the camera was last switched (if it
        can be locked). The switch is then over, so the in-progress flag is as it was. */
    method SwitchCamera(discovered: Option<Device>, presetAccepted: bool, frameRateLockSucceeds: bool,
                        zoomLockSucceeds: bool)
      requires Valid()
      modifies this`isSwitchingCameras, this`lastZoomScale, this`cameraLocation, this`captureDevice,
               this`frameRate, this`hooks
      ensures Valid() && isSwitchingCameras == old(isSwitchingCameras)
      ensures !old(isSessionRunning) || old(isSwitchingCameras) ==>
                cameraLocation == old(cameraLocation) && lastZoomScale == old(lastZoomScale)
                && captureDevice == old(captureDevice) && frameRate == old(frameRate) && hooks == old(hooks)
      ensures old(isSessionRunning) && !old(isSwitchingCameras) ==>
                cameraLocation == Opposite(old(cameraLocation))
                && lastZoomScale == (if old(captureDevice).Some? then old(captureDevice).value.videoZoomFactor else 1.0)
                && hooks == old(hooks) + [DidSwitchCamera]
                && frameRate == SessionUpdate(discovered, presetAccepted, frameRateLockSucceeds, desiredFrameRate)
                                  .GetOr(old(frameRate))
                && captureDevice == SwitchedDevice(discovered, presetAccepted, frameRateLockSucceeds,
                                                   zoomLockSucceeds, desiredFrameRate, old(lastZoomScale))
    {
      if !isSessionRunning || isSwitchingCameras {
        return;
      }
      isSwitchingCameras := true;
      var zoomScale := lastZoomScale;
      lastZoomScale := if captureDevice.Some? then captureDevice.value.videoZoomFactor else 1.0;
      cameraLocation := Opposite(cameraLocation);
      AddVideoInput(discovered);
      ConfigureSessionQuality(presetAccepted, frameRateLockSucceeds);
      hooks := hooks + [DidSwitchCamera];
      if captureDevice.Some? && zoomLockSucceeds {
        captureDevice := Some(captureDevice.value.(videoZoomFactor := zoomScale));
      }
      isSwitchingCameras := false;
    }
  }

  /** Switching away and back again gives each camera the zoom it had when it was
      left: `switchCamera` swaps the saved zoom with the zoom of the camera being
      left, so with both zoom locks succeeding the camera returned to gets its
      own zoom back, and the saved zoom is again the one saved before. */
  method SwitchingBackRestoresZoom(camera: BaseCameraController, away: Device, back: Device,
                                   presetAccepted: bool, frameRateLockSucceeds: bool)
    requires camera.Valid() && camera.isSessionRunning && !camera.isSwitchingCameras
    modifies camera`isSwitchingCameras, camera`lastZoomScale, camera`cameraLocation, camera`captureDevice,
             camera`frameRate, camera`hooks
    ensures camera.Valid() && camera.cameraLocation == old(camera.cameraLocation)
    ensures camera.captureDevice.Some?
            && camera.captureDevice.value.videoZoomFactor
               == (if old(camera.captureDevice).Some? then old(camera.captureDevice).value.videoZoomFactor else 1.0)
    ensures camera.lastZoomScale == old(camera.lastZoomScale)
    ensures camera.hooks == old(camera.hooks) + [DidSwitchCamera, DidSwitchCamera]
  {
    camera.SwitchCamera(Some(away), presetAccepted, frameRateLockSucceeds, true);
    assert camera.captureDevice.Some? && camera.captureDevice.value.videoZoomFactor == old(camera.lastZoomScale);
    camera.SwitchCamera(Some(back), presetAccepted, frameRateLockSucceeds, true);
    OppositeIsInvolution(old(camera.cameraLocation));
  }
}
