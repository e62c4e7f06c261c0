/**
 * Properties of the recorder plugin that relate its operations to each other
 * or to the hardware answers: the order of start's failure points, what each
 * failure leaves behind, the device setting of a successful start, and the
 * start / stop / completion round trip.
 */
module CaptureLifecycle {
  import opened Common
  import opened FormatSelection
  import opened RecorderPlugin

  /** The pair a start request selects on the camera it found. */
  function Selected(hw: Hardware, fps: int, resolution: string): Option<Choice>
    requires hw.camera.Some?
  {
    SelectFormat(hw.camera.value.formats, fps, DesiredSize(resolution))
  }

  /** The single reply of a completed start. */
  function StartReply(o: Outcome): Reply
    requires o.Completes? && |o.effect.sent| == 1
  {
    o.effect.sent[0].reply
  }

  /**
   * Start's failure points, checked in the source's order: no camera, then a
   * video input that throws, then no qualifying format, then a refused lock;
   * otherwise `true`.
   */
  lemma StartRepliesInOrder(s: PluginState, fps: int, resolution: string, caller: Callback,
                            hw: Hardware, newId: nat, tempPath: string)
    requires StartCapture(s, fps, resolution, caller, hw, newId, tempPath).Completes?
    ensures var r := StartReply(StartCapture(s, fps, resolution, caller, hw, newId, tempPath));
      && (r == Failure(NoCamera) <==> hw.camera.None?)
      && (r == Failure(InputError) <==> hw.camera.Some? && hw.videoInputThrows)
      && (r == Failure(FormatNotFound) <==>
            hw.camera.Some? && !hw.videoInputThrows && Selected(hw, fps, resolution).None?)
      && (r == Failure(ConfigError) <==>
            hw.camera.Some? && !hw.videoInputThrows && Selected(hw, fps, resolution).Some? && !hw.lockSucceeds)
      && (r == Started <==>
            hw.camera.Some? && !hw.videoInputThrows && Selected(hw, fps, resolution).Some? && hw.lockSucceeds)
  {
  }

  /**
   * The two early failures leave the plugin exactly as it was; the two late
   * ones have already replaced the stored session and output with the new,
   * not-yet-recording ones. No failure touches the device.
   */
  lemma StartFailureEffects(s: PluginState, fps: int, resolution: string, caller: Callback,
                            hw: Hardware, newId: nat, tempPath: string)
    requires StartCapture(s, fps, resolution, caller, hw, newId, tempPath).Completes?
    ensures var e := StartCapture(s, fps, resolution, caller, hw, newId, tempPath).effect;
      && (e.sent[0].reply in {Failure(NoCamera), Failure(InputError)} ==> e.state == s && e.device.None?)
      && (e.sent[0].reply in {Failure(FormatNotFound), Failure(ConfigError)} ==>
            && e.state.captureSession == Some(BuiltSession(hw, newId).(commits := 2))
            && e.state.videoOutput == Some(MovieOutput(newId, false))
            && e.state.outputFileURL == s.outputFileURL
            && e.state.recordingResult == s.recordingResult
            && e.device.None?)
  {
  }

  /**
   * A successful start pins the device to the selected format with both
   * frame-duration bounds equal to 1/fps seconds, runs the session, records
   * into `tempPath`, and stores the new session and output.
   */
  lemma StartSuccessConfiguresDevice(s: PluginState, fps: int, resolution: string, caller: Callback,
                                     hw: Hardware, newId: nat, tempPath: string)
    requires StartCapture(s, fps, resolution, caller, hw, newId, tempPath).Completes?
    requires StartReply(StartCapture(s, fps, resolution, caller, hw, newId, tempPath)) == Started
    ensures hw.camera.Some? && Selected(hw, fps, resolution).Some?
    ensures var e := StartCapture(s, fps, resolution, caller, hw, newId, tempPath).effect;
      var c := Selected(hw, fps, resolution).value;
      && e.device.Some?
      && e.device.value.activeFormat == hw.camera.value.formats[c.format]
      && e.device.value.minFrameDuration == e.device.value.maxFrameDuration
      && e.device.value.minFrameDuration == Duration(1, fps)
      && e.state.captureSession.Some? && e.state.captureSession.value.id == newId
      && e.state.captureSession.value.running
      && e.state.videoOutput == Some(MovieOutput(newId, true))
      && e.state.outputFileURL == Some(tempPath)
  {
  }

  /**
   * Every session a start stores has had its configuration committed twice:
   * an explicit commit on the format-not-found, config-error and success
   * paths, and the deferred one when the call returns. (The early failures
   * commit only through the deferred call, on a session that is then dropped.)
   */
  lemma CommitCounts(s: PluginState, fps: int, resolution: string, caller: Callback,
                     hw: Hardware, newId: nat, tempPath: string)
    requires StartCapture(s, fps, resolution, caller, hw, newId, tempPath).Completes?
    requires hw.camera.Some? && !hw.videoInputThrows
    ensures var e := StartCapture(s, fps, resolution, caller, hw, newId, tempPath).effect;
      e.state.captureSession.Some? && e.state.captureSession.value.commits == 2
  {
  }

  /** Hardware answers that agree on everything except the microphone. */
  predicate SameExceptMicrophone(a: Hardware, b: Hardware) {
    a.(microphone := b.microphone) == b
  }

  /**
   * A missing microphone, one whose input throws, or one the session refuses
   * never changes what start replies or which setting the device receives.
   */
  lemma MicrophoneNeverFailsStart(s: PluginState, fps: int, resolution: string, caller: Callback,
                                  a: Hardware, b: Hardware, newId: nat, tempPath: string)
    requires SameExceptMicrophone(a, b)
    ensures StartCapture(s, fps, resolution, caller, a, newId, tempPath).Traps? <==>
            StartCapture(s, fps, resolution, caller, b, newId, tempPath).Traps?
    ensures StartCapture(s, fps, resolution, caller, a, newId, tempPath).Completes? ==>
            && StartCapture(s, fps, resolution, caller, a, newId, tempPath).effect.sent ==
               StartCapture(s, fps, resolution, caller, b, newId, tempPath).effect.sent
            && StartCapture(s, fps, resolution, caller, a, newId, tempPath).effect.device ==
               StartCapture(s, fps, resolution, caller, b, newId, tempPath).effect.device
  {
  }

  /**
   * Start never looks at the stored state: a second start is not rejected, it
   * answers exactly as the first would and (past the early failures)
   * overwrites the stored session and output.
   */
  lemma StartIgnoresPriorState(s: PluginState, t: PluginState, fps: int, resolution: string, caller: Callback,
                               hw: Hardware, newId: nat, tempPath: string)
    ensures StartCapture(s, fps, resolution, caller, hw, newId, tempPath).Traps? <==>
            StartCapture(t, fps, resolution, caller, hw, newId, tempPath).Traps?
    ensures StartCapture(s, fps, resolution, caller, hw, newId, tempPath).Completes? ==>
            var es := StartCapture(s, fps, resolution, caller, hw, newId, tempPath).effect;
            var et := StartCapture(t, fps, resolution, caller, hw, newId, tempPath).effect;
            && es.sent == et.sent && es.device == et.device
            && (hw.camera.Some? && !hw.videoInputThrows ==>
                  es.state.captureSession == et.state.captureSession &&
                  es.state.videoOutput == et.state.videoOutput)
  {
  }

  /** An unrecognised resolution string behaves exactly like "720p". */
  lemma UnknownResolutionIs720p(s: PluginState, fps: int, resolution: string, caller: Callback,
                                hw: Hardware, newId: nat, tempPath: string)
    requires resolution != "1080p"
    ensures StartCapture(s, fps, resolution, caller, hw, newId, tempPath) ==
            StartCapture(s, fps, "720p", caller, hw, newId, tempPath)
  {
    assert DesiredSize(resolution) == DesiredSize("720p");
  }

  /** Stop on a plugin that was never started answers NOT_RECORDING and changes nothing. */
  lemma StopBeforeStart(caller: Callback)
    ensures StopCapture(Initial, caller) == Effect(Initial, [Delivery(caller, Failure(NotRecording))], None)
  {
  }

  /**
   * A second stop while the output still reports recording replaces the
   * pending handle: the first handle is dropped without ever being resolved.
   */
  lemma SecondStopDropsFirstHandle(s: PluginState, first: Callback, second: Callback,
                                   path: string, error: Option<string>)
    requires s.videoOutput.Some? && s.videoOutput.value.isRecording
    requires first != second
    ensures var e1 := StopCapture(s, first);
            var e2 := StopCapture(e1.state, second);
            var done := DidFinishRecording(OutputFinished(e2.state), path, error);
            && e2.state.recordingResult == Some(second)
            && (forall d :: d in e1.sent + e2.sent + done.sent ==> d.to != first)
  {
    var e1 := StopCapture(s, first);
    var e2 := StopCapture(e1.state, second);
    var done := DidFinishRecording(OutputFinished(e2.state), path, error);
    assert e1.sent == [] && e2.sent == [];
    assert done.sent == [Delivery(second, if error.Some? then Failure(RecError) else FilePath(path))];
  }

  /** The replies in `sent` addressed to `cb`. */
  function RepliesTo(sent: seq<Delivery>, cb: Callback): (r: seq<Reply>)
    ensures |r| <= |sent|
    ensures forall x :: x in r ==> Delivery(cb, x) in sent
    ensures forall d :: d in sent && d.to == cb ==> d.reply in r
  {
    if sent == [] then []
    else (if sent[0].to == cb then [sent[0].reply] else []) + RepliesTo(sent[1..], cb)
  }

  /**
   * The round trip: after a successful start, stop is accepted and parks its
   * handle; when the output finishes, that handle receives exactly one reply,
   * the file path or REC_ERROR; afterwards nothing is pending, the output is
   * no longer recording (a further stop answers NOT_RECORDING), and a new
   * start with the same hardware succeeds again.
   */
  lemma {:induction false} RecordingRoundTrip(s: PluginState, fps: int, resolution: string, starter: Callback,
                                              hw: Hardware, newId: nat, tempPath: string,
                                              stopper: Callback, finalPath: string, error: Option<string>,
                                              nextId: nat, nextPath: string)
    requires StartCapture(s, fps, resolution, starter, hw, newId, tempPath).Completes?
    requires StartReply(StartCapture(s, fps, resolution, starter, hw, newId, tempPath)) == Started
    ensures var started := StartCapture(s, fps, resolution, starter, hw, newId, tempPath).effect.state;
      var stopped := StopCapture(started, stopper);
      var finished := DidFinishRecording(OutputFinished(stopped.state), finalPath, error);
      var again := StartCapture(finished.state, fps, resolution, starter, hw, nextId, nextPath);
      && stopped.sent == []
      && stopped.state.recordingResult == Some(stopper)
      && RepliesTo(stopped.sent + finished.sent, stopper) ==
           [if error.Some? then Failure(RecError) else FilePath(finalPath)]
      && finished.state.recordingResult.None?
      && StopCapture(finished.state, stopper).sent == [Delivery(stopper, Failure(NotRecording))]
      && again.Completes? && StartReply(again) == Started
  {
    var started := StartCapture(s, fps, resolution, starter, hw, newId, tempPath).effect.state;
    StartSuccessConfiguresDevice(s, fps, resolution, starter, hw, newId, tempPath);
    var stopped := StopCapture(started, stopper);
    var finished := DidFinishRecording(OutputFinished(stopped.state), finalPath, error);
    var reply := if error.Some? then Failure(RecError) else FilePath(finalPath);
    assert stopped.sent + finished.sent == [Delivery(stopper, reply)];
    assert RepliesTo([Delivery(stopper, reply)], stopper) == [reply] + RepliesTo([], stopper);
    StartIgnoresPriorState(s, finished.state, fps, resolution, starter, hw, nextId, nextPath);
    StartIgnoresPriorState(s, s, fps, resolution, starter, hw, nextId, nextPath);
    StartRepliesInOrder(s, fps, resolution, starter, hw, newId, tempPath);
    StartRepliesInOrder(s, fps, resolution, starter, hw, nextId, nextPath);
  }

  /** The device of the end-to-end examples: one 1920x1080 format whose single range reaches 240 fps. */
  const HighSpeedCamera: Hardware :=
    Hardware(Some(Camera([Format(1920, 1080, [FrameRateRange(1.0, 240.0)])])), false, true, NoMicrophone, true, true)

  /** Start at 240 fps and 1080p on that device, even without a microphone, reports `true`. */
  lemma Start240At1080pSucceeds(s: PluginState, caller: Callback, newId: nat, tempPath: string)
    ensures StartCapture(s, 240, "1080p", caller, HighSpeedCamera, newId, tempPath)
            == Completes(Effect(
                 s.(captureSession := Some(Session(newId, true, false, Some(newId), true, 2)),
                    videoOutput := Some(MovieOutput(newId, true)),
                    outputFileURL := Some(tempPath)),
                 [Delivery(caller, Started)],
                 Some(DeviceSetting(Format(1920, 1080, [FrameRateRange(1.0, 240.0)]), Duration(1, 240), Duration(1, 240)))))
  {
    assert IsCandidate(HighSpeedCamera.camera.value.formats, 240, Size1080p, 0, 0);
  }

  /** Start at 1000 fps on that device reports FORMAT_NOT_FOUND and leaves the new output idle. */
  lemma Start1000FpsFindsNoFormat(s: PluginState, caller: Callback, newId: nat, tempPath: string)
    ensures var o := StartCapture(s, 1000, "1080p", caller, HighSpeedCamera, newId, tempPath);
      && o.Completes? && o.effect.sent == [Delivery(caller, Failure(FormatNotFound))]
      && o.effect.state.videoOutput == Some(MovieOutput(newId, false))
      && o.effect.device.None?
  {
    var formats := HighSpeedCamera.camera.value.formats;
    forall i, j ensures !IsCandidate(formats, 1000, Size1080p, i, j) {
    }
  }
}
