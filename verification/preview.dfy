/**
 * The preview view: reusing the plugin's capture session or building a
 * fallback one (`initializePreview`), and keeping the preview connection's
 * video orientation in step with the device (`handleOrientationChange`).
 */
module Preview {
  import opened Common
  import opened RecorderPlugin

  /** `UIDeviceOrientation`. */
  datatype DeviceOrientation = Unknown | Portrait | PortraitUpsideDown | LandscapeLeft | LandscapeRight | FaceUp | FaceDown

  /** `AVCaptureVideoOrientation`. */
  datatype VideoOrientation = VideoPortrait | VideoPortraitUpsideDown | VideoLandscapeRight | VideoLandscapeLeft

  /** The preview layer's connection, when it has one. */
  datatype Connection = Connection(orientationSupported: bool, videoOrientation: VideoOrientation)

  /** A preview layer showing the session with id `sessionId`. */
  datatype PreviewLayer = PreviewLayer(sessionId: nat, connection: Option<Connection>)

  /** The hardware answers the fallback path depends on, and whether the new layer gets a connection. */
  datatype PreviewHardware = PreviewHardware(
    cameraPresent: bool,
    inputThrows: bool,
    canAddInput: bool,
    connection: Option<bool>)

  /** The plugin after `initializePreview`, and the layer the view keeps (None when it gave up). */
  datatype PreviewInit = PreviewInit(plugin: PluginState, layer: Option<PreviewLayer>)

  /** The fallback session: the back camera's video input only, committed once, not started. */
  function FallbackSession(newId: nat): Session {
    Session(newId, true, false, None, false, 1)
  }

  /** The layer built over a session; its connection, if any, starts in portrait. */
  function LayerFor(session: Session, hw: PreviewHardware): PreviewLayer {
    PreviewLayer(session.id,
      match hw.connection
      case None => None
      case Some(supported) => Some(Connection(supported, VideoPortrait)))
  }

  /** The fallback session can be built only when the camera, its input and the session all cooperate. */
  predicate FallbackAttaches(hw: PreviewHardware) {
    hw.cameraPresent && !hw.inputThrows && hw.canAddInput
  }

  /** `SlowmoPreviewView.initializePreview()`. */
  function InitializePreview(plugin: PluginState, hw: PreviewHardware, newId: nat): (r: PreviewInit)
    // An existing session is reused as it is and the plugin is left alone.
    ensures plugin.captureSession.Some? ==>
      r.plugin == plugin && r.layer.Some? && r.layer.value.sessionId == plugin.captureSession.value.id
    // Without one, the fallback is published only when its input was attached; otherwise no layer.
    ensures plugin.captureSession.None? ==>
      if FallbackAttaches(hw) then
        && r.plugin == plugin.(captureSession := Some(FallbackSession(newId)))
        && r.layer.Some? && r.layer.value.sessionId == newId
      else
        r.plugin == plugin && r.layer.None?
    // Only the session field of the plugin can change.
    ensures r.plugin.(captureSession := plugin.captureSession) == plugin
    // A connection starts out in portrait.
    ensures r.layer.Some? && r.layer.value.connection.Some? ==>
      r.layer.value.connection.value.videoOrientation == VideoPortrait
  {
    match plugin.captureSession
    case Some(existing) => PreviewInit(plugin, Some(LayerFor(existing, hw)))
    case None =>
      if !FallbackAttaches(hw) then PreviewInit(plugin, None)
      else
        var session := FallbackSession(newId);
        PreviewInit(plugin.(captureSession := Some(session)), Some(LayerFor(session, hw)))
  }

  /**
   * Two previews in a row share one session: once the first has published
   * a session, the second reuses it and the plugin does not change again.
   */
  lemma {:induction false} SecondPreviewReusesSession(plugin: PluginState, hw1: PreviewHardware, id1: nat,
                                                     hw2: PreviewHardware, id2: nat)
    requires InitializePreview(plugin, hw1, id1).plugin.captureSession.Some?
    ensures var first := InitializePreview(plugin, hw1, id1);
            var second := InitializePreview(first.plugin, hw2, id2);
            && second.plugin == first.plugin
            && first.layer.Some? && second.layer.Some?
            && second.layer.value.sessionId == first.layer.value.sessionId
  {
  }

  /** The video orientation a device orientation maps to; None for the ones the handler ignores. */
  function VideoOrientationFor(o: DeviceOrientation): (v: Option<VideoOrientation>)
    ensures v.None? <==> o in {Unknown, FaceUp, FaceDown}
  {
    match o
    case Portrait => Some(VideoPortrait)
    case LandscapeLeft => Some(VideoLandscapeRight)
    case LandscapeRight => Some(VideoLandscapeLeft)
    case PortraitUpsideDown => Some(VideoPortraitUpsideDown)
    case _ => None
  }

  /** The device orientation whose picture a video orientation shows: the inverse table. */
  function DeviceOrientationFor(v: VideoOrientation): DeviceOrientation {
    match v
    case VideoPortrait => Portrait
    case VideoLandscapeRight => LandscapeLeft
    case VideoLandscapeLeft => LandscapeRight
    case VideoPortraitUpsideDown => PortraitUpsideDown
  }

  /** The table is a bijection between the four upright orientations and the video orientations. */
  lemma OrientationTableIsBijective(o: DeviceOrientation, v: VideoOrientation)
    ensures VideoOrientationFor(DeviceOrientationFor(v)) == Some(v)
    ensures VideoOrientationFor(o).Some? ==> DeviceOrientationFor(VideoOrientationFor(o).value) == o
  {
  }

  /** Left and right are swapped; portrait and upside-down keep their names. */
  lemma LandscapeIsSwapped()
    ensures VideoOrientationFor(LandscapeLeft) == Some(VideoLandscapeRight)
    ensures VideoOrientationFor(LandscapeRight) == Some(VideoLandscapeLeft)
    ensures VideoOrientationFor(Portrait) == Some(VideoPortrait)
    ensures VideoOrientationFor(PortraitUpsideDown) == Some(VideoPortraitUpsideDown)
  {
  }

  /** `handleOrientationChange()`: the preview layer after the device reports orientation `o`. */
  function HandleOrientationChange(layer: Option<PreviewLayer>, o: DeviceOrientation): (r: Option<PreviewLayer>)
    // Without a supporting connection, or for an ignored orientation, nothing changes.
    ensures (layer.None? || layer.value.connection.None? || !layer.value.connection.value.orientationSupported
             || VideoOrientationFor(o).None?) ==> r == layer
    // Otherwise only the connection's orientation changes, to the table's entry.
    ensures layer.Some? && layer.value.connection.Some? && layer.value.connection.value.orientationSupported
            && VideoOrientationFor(o).Some? ==>
      r == Some(layer.value.(connection := Some(layer.value.connection.value.(videoOrientation := VideoOrientationFor(o).value))))
  {
    match layer
    case None => layer
    case Some(l) =>
      match l.connection
      case None => layer
      case Some(c) =>
        if !c.orientationSupported then layer
        else
          match VideoOrientationFor(o)
          case None => layer
          case Some(v) => Some(l.(connection := Some(c.(videoOrientation := v))))
  }

  /** Repeating a notification has no further effect, and the last supported one decides the orientation. */
  lemma OrientationChangeIdempotent(layer: Option<PreviewLayer>, first: DeviceOrientation, o: DeviceOrientation)
    ensures HandleOrientationChange(HandleOrientationChange(layer, o), o) == HandleOrientationChange(layer, o)
    ensures VideoOrientationFor(o).Some? ==>
      HandleOrientationChange(HandleOrientationChange(layer, first), o) == HandleOrientationChange(layer, o)
  {
  }
}
