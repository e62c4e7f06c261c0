# Slow-motion video recorder plugin — Dafny model

This project models the decision logic of the `slowmo_video_recorder` iOS
plugin. The plugin configures the back wide-angle camera for high-frame-rate
capture and records a movie file. Its three pieces are modelled here:

- **Format selection** (`FormatSelection`). A resolution string becomes a
  minimum size: "1080p" is 1920x1080 and anything else is 1280x720. A
  first-match scan then picks the earliest format that is large enough, and
  within it the earliest frame-rate range whose maximum reaches the requested
  fps. `SelectFormat` is the recursive reference definition. `ScanFormats` is
  the source's nested loop with `break`s, proved equal to it.
- **The plugin's state machine** (`RecorderPlugin`, `CaptureLifecycle`).
  The plugin is a record with four fields: `captureSession`, `videoOutput`,
  `outputFileURL` and `recordingResult`. Operations are pure transitions:
  - `Handle`: argument validation and dispatch.
  - `StartCapture`: failure points NO_CAMERA, INPUT_ERROR, FORMAT_NOT_FOUND,
    CONFIG_ERROR, then `true`.
  - `StopCapture`: the NOT_RECORDING guard, or parking the caller's handle.
  - `DidFinishRecording`: the completion delegate.

  Each operation returns the new state, the replies sent (`Delivery`: which
  handle got which reply) and the device setting applied, if any.
- **The preview view** (`Preview`). It reuses the plugin's session or builds
  a fallback one, and it maps device orientations to video orientations.

Hardware answers are inputs: the `Hardware` and `PreviewHardware` records
hold the camera's presence and formats, whether the input constructor throws,
`canAddInput`/`canAddOutput`, the microphone and the lock. Objects the code
allocates take their identity from a `newId` argument. The temporary file
path is an opaque `tempPath` argument.

Behaviours of the code worth noting:

- A second start is not rejected. `StartCapture` never reads the stored state
  and overwrites the stored session and output once it gets past the video
  input.
- The configuration is not committed exactly once. Every path past the video
  input commits twice: an explicit commit plus the deferred one.
- On FORMAT_NOT_FOUND and CONFIG_ERROR, the stored session and output have
  already been replaced.
- A session that refuses the video input is not an error: the start goes on
  without a video input.
- The preview's fallback session is never started running.

## Model

| member | source | states |
|---|---|---|
| FormatSelection.DesiredSize | ios/Classes/SlowmoVideoRecorderPlugin.swift:85-92 | "1080p" and only "1080p" asks for 1920x1080; every other string asks for 1280x720 |
| FormatSelection.TiersAreOrdered | ios/Classes/SlowmoVideoRecorderPlugin.swift:85-92 | every tier's size lies between 1280x720 and 1920x1080 in both dimensions |
| FormatSelection.FirstReachable | ios/Classes/SlowmoVideoRecorderPlugin.swift:107-114 | the range found reaches fps by its maximum and every earlier range does not; None means no range from the start position reaches fps |
| FormatSelection.SelectFrom | ios/Classes/SlowmoVideoRecorderPlugin.swift:97-116 | a found pair qualifies and lies at or after the start position; every qualifying pair there is found, and none earlier than the found one is skipped |
| FormatSelection.SelectFormat | ios/Classes/SlowmoVideoRecorderPlugin.swift:94-118 | the selected format meets both minimum dimensions and its selected range has maxFrameRate >= fps; it is the lexicographically first qualifying (format, range) pair; the result is none exactly when no pair qualifies |
| FormatSelection.ScanFormats | ios/Classes/SlowmoVideoRecorderPlugin.swift:94-116 | the nested loop with its two breaks computes exactly the first-match selection |
| FormatSelection.SameCandidatesSameChoice | ios/Classes/SlowmoVideoRecorderPlugin.swift:97-116 | the selection depends only on which (format, range) pairs qualify |
| FormatSelection.SelectionIgnoresMinFrameRate | ios/Classes/SlowmoVideoRecorderPlugin.swift:107-108 | changing the ranges' minimum frame rates never changes the selection |
| FormatSelection.WeakerRequestSelectsNoLater | ios/Classes/SlowmoVideoRecorderPlugin.swift:97-116 | a lower fps or a smaller minimum size still finds a pair, no later in scan order |
| FormatSelection.Tier1080pImpliesOtherTiers | ios/Classes/SlowmoVideoRecorderPlugin.swift:85-116 | if a 1080p request finds a format, a request with any other resolution string does too |
| FormatSelection.LaterFormatsDoNotMatter | ios/Classes/SlowmoVideoRecorderPlugin.swift:97-116 | formats appended after a list that already yields a pair do not change the selection: first match wins |
| RecorderPlugin.FrameDuration | ios/Classes/SlowmoVideoRecorderPlugin.swift:129 | the duration exists exactly when fps fits in Int32 (the conversion traps otherwise); it is 1/fps seconds |
| RecorderPlugin.StartCapture | ios/Classes/SlowmoVideoRecorderPlugin.swift:37-153 | a completed start sends exactly one reply, to its caller, and leaves the pending handle alone; it traps exactly when a pair was selected, the lock was granted and fps is outside Int32; the device is configured only after a selection and a granted lock |
| RecorderPlugin.StopCapture | ios/Classes/SlowmoVideoRecorderPlugin.swift:155-164 | with no output, or an output not recording, it answers NOT_RECORDING and changes nothing; otherwise it parks the caller's handle, sends nothing and changes nothing else |
| RecorderPlugin.OutputFinished | ios/Classes/SlowmoVideoRecorderPlugin.swift:156 | when the output finishes, the stored output stays the same object but no longer reports recording; nothing else changes |
| RecorderPlugin.DidFinishRecording | ios/Classes/SlowmoVideoRecorderPlugin.swift:168-182 | a parked handle gets exactly one reply, REC_ERROR on error and the file path otherwise; with no parked handle nothing is sent; either way the slot is empty afterwards and nothing else changes |
| RecorderPlugin.ParseStartArgs | ios/Classes/SlowmoVideoRecorderPlugin.swift:20-22 | arguments are accepted exactly when they are a dictionary holding an Int "fps" and a String "resolution", and those values are passed on |
| RecorderPlugin.Handle | ios/Classes/SlowmoVideoRecorderPlugin.swift:17-34 | malformed start arguments get INVALID_ARGS with no state change; a well-formed start is exactly `StartCapture` with the parsed fps and resolution, and a stop is exactly `StopCapture`; other methods answer once and change nothing; every call sends at most one reply, always to its caller, and none exactly when a stop is accepted |
| CaptureLifecycle.StartRepliesInOrder | ios/Classes/SlowmoVideoRecorderPlugin.swift:44-58 | each reply holds exactly when every earlier failure point passed: NO_CAMERA, then INPUT_ERROR, then FORMAT_NOT_FOUND, then CONFIG_ERROR, otherwise `true` |
| CaptureLifecycle.StartFailureEffects | ios/Classes/SlowmoVideoRecorderPlugin.swift:44-82 | NO_CAMERA and INPUT_ERROR leave the plugin unchanged; FORMAT_NOT_FOUND and CONFIG_ERROR leave the new session and a non-recording new output stored; no failure touches the device |
| CaptureLifecycle.StartSuccessConfiguresDevice | ios/Classes/SlowmoVideoRecorderPlugin.swift:125-152 | on `true`, the device's active format is the selected one, min and max frame duration are both 1/fps, the new session runs, the new output records, and the file path is stored |
| CaptureLifecycle.CommitCounts | ios/Classes/SlowmoVideoRecorderPlugin.swift:41 | every session a start stores has been committed twice |
| CaptureLifecycle.MicrophoneNeverFailsStart | ios/Classes/SlowmoVideoRecorderPlugin.swift:61-70 | the microphone's absence, a throwing audio input or a refused audio input never changes start's reply or the device setting |
| CaptureLifecycle.StartIgnoresPriorState | ios/Classes/SlowmoVideoRecorderPlugin.swift:37-82 | start answers the same whatever the stored state; past the video input it stores the same new session and output |
| CaptureLifecycle.UnknownResolutionIs720p | ios/Classes/SlowmoVideoRecorderPlugin.swift:87-92 | any resolution string other than "1080p" behaves exactly like "720p" |
| CaptureLifecycle.StopBeforeStart | ios/Classes/SlowmoVideoRecorderPlugin.swift:156-158 | stop on a fresh plugin answers NOT_RECORDING and changes nothing |
| CaptureLifecycle.SecondStopDropsFirstHandle | ios/Classes/SlowmoVideoRecorderPlugin.swift:161 | a second stop while the output still records replaces the parked handle, and the first handle never receives a reply, whatever the completion's path and error |
| CaptureLifecycle.RecordingRoundTrip | ios/Classes/SlowmoVideoRecorderPlugin.swift:149-181 | after a successful start, stop is accepted; on completion the stopping handle receives exactly one reply (the path, or REC_ERROR); then nothing is pending, a further stop answers NOT_RECORDING, and a new start succeeds |
| CaptureLifecycle.Start240At1080pSucceeds | ios/Classes/SlowmoVideoRecorderPlugin.swift:37-152 | 240 fps at 1080p on a 1920x1080 camera reaching 240 fps, with no microphone, replies `true` and pins the device to 1/240 s |
| CaptureLifecycle.Start1000FpsFindsNoFormat | ios/Classes/SlowmoVideoRecorderPlugin.swift:118-122 | 1000 fps on that camera replies FORMAT_NOT_FOUND, leaves the new output idle and does not touch the device |
| Preview.InitializePreview | ios/Classes/SlowmoPreviewViewFactory.swift:29-50 | an existing session is reused and the plugin is unchanged; otherwise a fallback session is published only when a camera exists, its input constructs and the session accepts it, and with no layer otherwise; a connection starts in portrait |
| Preview.SecondPreviewReusesSession | ios/Classes/SlowmoPreviewViewFactory.swift:29-45 | once a preview has published a session, a second preview reuses it and leaves the plugin unchanged |
| Preview.VideoOrientationFor | ios/Classes/SlowmoPreviewViewFactory.swift:72-84 | the handler ignores exactly the unknown, face-up and face-down orientations |
| Preview.OrientationTableIsBijective | ios/Classes/SlowmoPreviewViewFactory.swift:72-81 | the table is a bijection between the four upright device orientations and the four video orientations |
| Preview.LandscapeIsSwapped | ios/Classes/SlowmoPreviewViewFactory.swift:72-81 | portrait maps to portrait, landscape-left to landscape-right, landscape-right to landscape-left, and upside-down to upside-down |
| Preview.HandleOrientationChange | ios/Classes/SlowmoPreviewViewFactory.swift:70-85 | with no connection, an unsupported connection or an ignored orientation nothing changes; otherwise only the connection's orientation changes, to the table's entry |
| Preview.OrientationChangeIdempotent | ios/Classes/SlowmoPreviewViewFactory.swift:70-85 | repeating a notification changes nothing more, and a later supported orientation overrides any earlier one |

## Left out

- Flutter registration, the method channel and the text of `getPlatformVersion` (the reply is modelled as an opaque value). These are framework calls with no logic.
- Error messages. Replies carry only the error code, and REC_ERROR does not carry the underlying description.
- AVFoundation's own behaviour is not modelled: device discovery, `startRunning`, `stopRecording`, and whether `startRecording` works on an output the session refused. Their outcomes are inputs. A successful start marks the output as recording. `OutputFinished` stands for the framework clearing the flag before it calls the delegate.
- StartCapture: does not model the exception AVFoundation raises when the pinned duration lies outside the selected range. This can happen because the range's minimum is never checked, or because fps is zero or negative.
- `Int32` dimensions are plain integers: a format's width and height are only compared, never computed.
- Frame rates are `real`, not IEEE doubles. `Double(fps)` is treated as exact.
- Swift's `as? Int` bridging of numbers is not modelled: an argument is either an integer or not.
- The temporary file name built from the clock and the temporary directory is the opaque `tempPath` argument. The delegate's file URL is the `path` argument.
- Threading and asynchronous delivery. Completion is an explicit later step.
- UIKit layout, the hosting view, notification observer registration and removal, and `SlowmoPreviewViewFactory.create`/`createArgsCodec`.
- The weak `plugin` reference in the preview is taken to be present. The factory force-unwraps it when creating the view.
