/**
 * The recorder plugin as a state record and pure transitions: argument
 * validation and dispatch (`handle`), session configuration and recording
 * start (`startSlowMoCapture`), `stopSlowMoCapture`, and the movie-file
 * output's completion delegate. Every hardware outcome the code reacts to is
 * an input (`Hardware`); objects the code allocates get their identity from a
 * caller-supplied `newId` number.
 */
module RecorderPlugin {
  import opened Common
  import opened FormatSelection

  /** A capture session: what has been attached to it, and how often its configuration was committed. */
  datatype Session = Session(
    id: nat,
    videoInput: bool,
    audioInput: bool,
    output: Option<nat>,
    running: bool,
    commits: nat)

  /** A movie-file output; `isRecording` is the framework's flag that `stopSlowMoCapture` reads. */
  datatype MovieOutput = MovieOutput(id: nat, isRecording: bool)

  /** The caller's one-shot result handle (`FlutterResult`), identified by a number. */
  datatype Callback = Callback(id: nat)

  /** The plugin's four stored properties. */
  datatype PluginState = PluginState(
    captureSession: Option<Session>,
    videoOutput: Option<MovieOutput>,
    outputFileURL: Option<string>,
    recordingResult: Option<Callback>)

  /** A freshly registered plugin: nothing stored yet. */
  const Initial: PluginState := PluginState(None, None, None, None)

  datatype ErrorCode = InvalidArgs | NoCamera | InputError | FormatNotFound | ConfigError | NotRecording | RecError

  /** What is sent back through a result handle. */
  datatype Reply =
    | Started                      // `true`: recording has begun
    | FilePath(path: string)       // the finished recording
    | Failure(code: ErrorCode)     // a `FlutterError` with that code
    | PlatformVersion              // the "iOS <version>" string
    | NotImplemented               // `FlutterMethodNotImplemented`

  /** One reply sent to one handle. */
  datatype Delivery = Delivery(to: Callback, reply: Reply)

  /** A microphone as `startSlowMoCapture` finds it. */
  datatype Microphone = NoMicrophone | MicInputThrows | Microphone(canAddInput: bool)

  /** The back wide-angle camera: the formats it lists, in its order. */
  datatype Camera = Camera(formats: seq<Format>)

  /** Every hardware answer `startSlowMoCapture` depends on. */
  datatype Hardware = Hardware(
    camera: Option<Camera>,
    videoInputThrows: bool,
    canAddVideoInput: bool,
    microphone: Microphone,
    canAddOutput: bool,
    lockSucceeds: bool)

  /** A frame duration `value / timescale` seconds (`CMTime`). */
  datatype Duration = Duration(value: int, timescale: int)

  /** What a successful configuration writes into the locked device. */
  datatype DeviceSetting = DeviceSetting(activeFormat: Format, minFrameDuration: Duration, maxFrameDuration: Duration)

  /**
   * The effect of one call: the plugin's new state, the replies sent, and the
   * device setting applied (None when the device was left alone).
   */
  datatype Effect = Effect(state: PluginState, sent: seq<Delivery>, device: Option<DeviceSetting>)

  /** A call either completes with an effect or traps (Swift's checked `Int32` conversion). */
  datatype Outcome = Completes(effect: Effect) | Traps

  /** The audio input is attached only when a microphone exists, its input constructs and the session takes it. */
  predicate AudioAttaches(mic: Microphone) {
    mic.Microphone? && mic.canAddInput
  }

  /** The frame duration `CMTime(value: 1, timescale: Int32(fps))`; the conversion traps outside Int32. */
  function FrameDuration(fps: int): (d: Option<Duration>)
    ensures d.Some? <==> InInt32(fps)
    ensures d.Some? ==> d.value.value == 1 && d.value.timescale == fps
    ensures d.Some? && fps != 0 ==> d.value.value as real / d.value.timescale as real == 1.0 / fps as real
  {
    if InInt32(fps) then Some(Duration(1, fps)) else None
  }

  /**
   * The session `startSlowMoCapture` has built by the time it stores it:
   * a video input when the session accepts one, an audio input on a
   * best-effort basis, and the movie output when the session accepts it.
   */
  function BuiltSession(hw: Hardware, newId: nat): Session {
    Session(
      newId,
      hw.canAddVideoInput,
      AudioAttaches(hw.microphone),
      if hw.canAddOutput then Some(newId) else None,
      false,
      0)
  }

  /**
   * `startSlowMoCapture(fps:resolution:flutterResult:)`. `tempPath` stands for
   * the timestamped file in the temporary directory.
   */
  function StartCapture(s: PluginState, fps: int, resolution: string, caller: Callback,
                        hw: Hardware, newId: nat, tempPath: string): (o: Outcome)
    // The device is locked and configured only when a pair was selected and the lock was granted.
    ensures o.Completes? && o.effect.device.Some? ==>
      && hw.camera.Some? && hw.lockSucceeds
      && SelectFormat(hw.camera.value.formats, fps, DesiredSize(resolution)).Some?
    // A trap happens only after a selection and a granted lock, with an fps outside Int32.
    ensures o.Traps? <==>
      && hw.camera.Some? && !hw.videoInputThrows
      && SelectFormat(hw.camera.value.formats, fps, DesiredSize(resolution)).Some?
      && hw.lockSucceeds && !InInt32(fps)
    // Otherwise exactly one reply goes to the caller, and nothing else is resolved.
    ensures o.Completes? ==> |o.effect.sent| == 1 && o.effect.sent[0].to == caller
    // Nothing pending is touched by a start.
    ensures o.Completes? ==> o.effect.state.recordingResult == s.recordingResult
  {
    if hw.camera.None? then
      Completes(Effect(s, [Delivery(caller, Failure(NoCamera))], None))
    else if hw.videoInputThrows then
      Completes(Effect(s, [Delivery(caller, Failure(InputError))], None))
    else
      var formats := hw.camera.value.formats;
      var session := BuiltSession(hw, newId);
      var output := MovieOutput(newId, false);
      var stored := s.(captureSession := Some(session), videoOutput := Some(output));
      var committedTwice := stored.(captureSession := Some(session.(commits := 2)));
      match SelectFormat(formats, fps, DesiredSize(resolution))
      case None =>
        Completes(Effect(committedTwice, [Delivery(caller, Failure(FormatNotFound))], None))
      case Some(choice) =>
        if !hw.lockSucceeds then
          Completes(Effect(committedTwice, [Delivery(caller, Failure(ConfigError))], None))
        else
          match FrameDuration(fps)
          case None => Traps
          case Some(duration) =>
            var setting := DeviceSetting(formats[choice.format], duration, duration);
            var running := stored.(
              captureSession := Some(session.(commits := 2, running := true)),
              videoOutput := Some(output.(isRecording := true)),
              outputFileURL := Some(tempPath));
            Completes(Effect(running, [Delivery(caller, Started)], Some(setting)))
  }

  /** `stopSlowMoCapture(flutterResult:)`. */
  function StopCapture(s: PluginState, caller: Callback): (e: Effect)
    // Only the pending-result slot can change, and the device is never touched.
    ensures e.state.(recordingResult := s.recordingResult) == s
    ensures e.device.None?
    ensures
      if s.videoOutput.Some? && s.videoOutput.value.isRecording then
        e.state.recordingResult == Some(caller) && e.sent == []
      else
        e.state == s && e.sent == [Delivery(caller, Failure(NotRecording))]
  {
    match s.videoOutput
    case Some(output) =>
      if output.isRecording then Effect(s.(recordingResult := Some(caller)), [], None)
      else Effect(s, [Delivery(caller, Failure(NotRecording))], None)
    case None => Effect(s, [Delivery(caller, Failure(NotRecording))], None)
  }

  /**
   * The framework's side of a recording ending: the output stops reporting
   * `isRecording` before it calls the completion delegate.
   */
  function OutputFinished(s: PluginState): (t: PluginState)
    ensures t.videoOutput.Some? <==> s.videoOutput.Some?
    ensures t.videoOutput.Some? ==> !t.videoOutput.value.isRecording && t.videoOutput.value.id == s.videoOutput.value.id
    ensures t.(videoOutput := s.videoOutput) == s
  {
    match s.videoOutput
    case Some(output) => s.(videoOutput := Some(output.(isRecording := false)))
    case None => s
  }

  /**
   * `fileOutput(_:didFinishRecordingTo:from:error:)`: resolve the pending
   * handle, if any, with REC_ERROR or with the file's path; clear it either way.
   */
  function DidFinishRecording(s: PluginState, path: string, error: Option<string>): (e: Effect)
    ensures e.state.recordingResult.None?
    ensures e.state.(recordingResult := s.recordingResult) == s
    ensures e.device.None?
    ensures s.recordingResult.None? ==> e.sent == []
    ensures s.recordingResult.Some? ==> |e.sent| == 1 && e.sent[0].to == s.recordingResult.value
    ensures s.recordingResult.Some? ==>
      e.sent[0].reply == (if error.Some? then Failure(RecError) else FilePath(path))
  {
    var sent :=
      match s.recordingResult
      case None => []
      case Some(cb) => [Delivery(cb, if error.Some? then Failure(RecError) else FilePath(path))];
    Effect(s.(recordingResult := None), sent, None)
  }

  /** A value in the argument dictionary, as far as the casts in `handle` can tell. */
  datatype Value = IntValue(i: int) | StringValue(str: string) | OtherValue

  /** `call.arguments`: a string-keyed dictionary or anything else. */
  datatype Arguments = Dictionary(entries: map<string, Value>) | NotDictionary

  datatype MethodCall = MethodCall(name: string, arguments: Arguments)

  /** The start request's arguments that survive the casts in `handle`. */
  datatype StartArgs = StartArgs(fps: int, resolution: string)

  /** The `guard let` in `handle`: a dictionary with an `Int` "fps" and a `String` "resolution". */
  function ParseStartArgs(arguments: Arguments): (r: Option<StartArgs>)
    ensures r.Some? <==>
      && arguments.Dictionary?
      && "fps" in arguments.entries && arguments.entries["fps"].IntValue?
      && "resolution" in arguments.entries && arguments.entries["resolution"].StringValue?
    ensures r.Some? ==>
      && r.value.fps == arguments.entries["fps"].i
      && r.value.resolution == arguments.entries["resolution"].str
  {
    match arguments
    case NotDictionary => None
    case Dictionary(entries) =>
      if "fps" in entries && entries["fps"].IntValue? &&
         "resolution" in entries && entries["resolution"].StringValue?
      then Some(StartArgs(entries["fps"].i, entries["resolution"].str))
      else None
  }

  /** `handle(_:result:)`: validate, then dispatch on the method name. */
  function Handle(s: PluginState, call: MethodCall, caller: Callback,
                  hw: Hardware, newId: nat, tempPath: string): (o: Outcome)
    // Malformed start arguments are rejected before any capture work.
    ensures call.name == "startRecording" && ParseStartArgs(call.arguments).None? ==>
      o == Completes(Effect(s, [Delivery(caller, Failure(InvalidArgs))], None))
    // Unknown methods and the version query change nothing and answer once.
    ensures call.name !in {"startRecording", "stopRecording"} ==>
      o.Completes? && o.effect.state == s && o.effect.device.None? &&
      o.effect.sent == [Delivery(caller, if call.name == "getPlatformVersion" then PlatformVersion else NotImplemented)]
    // Only a start with valid arguments can trap.
    ensures o.Traps? ==> call.name == "startRecording" && ParseStartArgs(call.arguments).Some?
    // A well-formed start is `startSlowMoCapture` with the parsed arguments; a stop is `stopSlowMoCapture`.
    ensures call.name == "startRecording" && ParseStartArgs(call.arguments).Some? ==>
      o == StartCapture(s, ParseStartArgs(call.arguments).value.fps, ParseStartArgs(call.arguments).value.resolution,
                        caller, hw, newId, tempPath)
    ensures call.name == "stopRecording" ==> o == Completes(StopCapture(s, caller))
    // At most one reply, always to the caller; none exactly when a stop is accepted.
    ensures o.Completes? ==> |o.effect.sent| <= 1 && forall d :: d in o.effect.sent ==> d.to == caller
    ensures (o.Completes? && o.effect.sent == []) <==>
      (call.name == "stopRecording" && s.videoOutput.Some? && s.videoOutput.value.isRecording)
  {
    if call.name == "startRecording" then
      match ParseStartArgs(call.arguments)
      case None => Completes(Effect(s, [Delivery(caller, Failure(InvalidArgs))], None))
      case Some(args) => StartCapture(s, args.fps, args.resolution, caller, hw, newId, tempPath)
    else if call.name == "stopRecording" then
      Completes(StopCapture(s, caller))
    else if call.name == "getPlatformVersion" then
      Completes(Effect(s, [Delivery(caller, PlatformVersion)], None))
    else
      Completes(Effect(s, [Delivery(caller, NotImplemented)], None))
  }
}
