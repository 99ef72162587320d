/**
 * The view controller's state and how each callback changes it, as functions of
 * the old state: the specification the class in module ViewController is proved
 * against, and the ground for the properties of whole runs of callbacks.
 */
module Controller {
  import Wrappers
  import opened TrackingInfo
  import opened SceneGraph
  import opened Barcodes
  import opened StatusMessage

  /** What a new non-plane anchor is for. */
  datatype FunctionMode = None | PlaceObject(name: string) | Measure

  /** The session configuration: horizontal plane detection and light estimation switches. */
  datatype Configuration = Configuration(horizontalPlaneDetection: bool, lightEstimation: bool)

  /** The world-tracking configuration every session run uses. */
  const WorldTracking := Configuration(true, true)

  /** What the barcode request delivered for a frame: its observations, or an error thrown by perform. */
  datatype Recognition = Observations(results: seq<Observation>) | PerformFailed

  /** The session's current frame: camera tracking state, light estimate and barcode recognition. */
  datatype CameraFrame = CameraFrame(
    tracking: TrackingState,
    ambientIntensity: Wrappers.Option<real>,
    recognition: Recognition)

  datatype State = State(
    debugBuild: bool,              // whether the DEBUG flag was set at compile time
    mode: FunctionMode,            // currentMode
    objects: seq<Placement>,       // objects
    nextClone: nat,                // identity of the next model clone
    nodes: Children,               // children of the anchors' nodes
    markers: seq<MarkerNode>,      // marker nodes under the root node
    qrCodeFound: bool,             // isQRCodeFound
    trackingText: string,          // trackingInfo.text
    message: Label,                // messageLabel.text and its pending expiries
    crosshairGreen: bool,          // crosshair colour: green, else grey
    runs: seq<Configuration>)      // configurations the session was run with, in order

  /** Runs the session with horizontal plane detection and light estimation. */
  function SessionRun(s: State): (r: State)
    ensures r.runs == s.runs + [WorldTracking]
    ensures r.runs[|r.runs| - 1].horizontalPlaneDetection && r.runs[|r.runs| - 1].lightEstimation
    ensures r == s.(runs := r.runs)
  {
    s.(runs := s.runs + [WorldTracking])
  }

  /** The state once the view has loaded: session running, labels blank, nothing placed or found. */
  function Loaded(debugBuild: bool): (r: State)
    ensures r.runs == [WorldTracking]
    ensures r.objects == [] && r.markers == [] && !r.qrCodeFound && r.mode == None
    ensures r.trackingText == "" && r.message.text == "" && r.message.pending == []
    ensures r.debugBuild == debugBuild
  {
    var blank := State(debugBuild, None, [], 0, map[], [], false, "", Label("", []), false, []);
    SessionRun(blank)
  }

  /** Every placed clone leaves its parent node and the list of objects empties. */
  function ObjectsRemoved(s: State): (r: State)
    ensures r.objects == []
    ensures r == s.(objects := [], nodes := r.nodes)
  {
    s.(nodes := DetachAll(s.nodes, s.objects), objects := [])
  }

  /**
   * An anchor was added with node `node`. A plane gets its visualisation (in a DEBUG
   * build only); any other anchor gets a fresh clone of the selected model when the
   * mode is placeObject, recorded at the end of `objects`.
   */
  function AnchorAdded(s: State, node: NodeId, anchor: Anchor): (r: State)
    ensures anchor.Plane? ==> r.objects == s.objects
    ensures anchor.Plane? ==>
      ChildrenOf(r.nodes, node) ==
        ChildrenOf(s.nodes, node) + (if s.debugBuild then [PlaneVisual(anchor.center, anchor.extent)] else [])
    ensures anchor.Generic? && s.mode.PlaceObject? ==>
      var c := Clone(s.nextClone, s.mode.name);
      && r.objects == s.objects + [Placement(c, node)]
      && ChildrenOf(r.nodes, node) == ChildrenOf(s.nodes, node) + [ModelInstance(c)]
    ensures anchor.Generic? && !s.mode.PlaceObject? ==> r == s
    ensures forall m :: m != node ==> ChildrenOf(r.nodes, m) == ChildrenOf(s.nodes, m)
    ensures r.nextClone == s.nextClone + (if anchor.Generic? && s.mode.PlaceObject? then 1 else 0)
    ensures r == s.(objects := r.objects, nodes := r.nodes, nextClone := r.nextClone)
  {
    match anchor
    case Plane(center, extent) =>
      if s.debugBuild then s.(nodes := AddChild(s.nodes, node, PlaneVisual(center, extent))) else s
    case Generic =>
      match s.mode
      case None => s
      case PlaceObject(name) =>
        var c := Clone(s.nextClone, name);
        s.(objects := s.objects + [Placement(c, node)],
           nodes := AddChild(s.nodes, node, ModelInstance(c)),
           nextClone := s.nextClone + 1)
      case Measure => s
  }

  /**
   * A plane anchor was updated, as the source has it: its node's first child is
   * resized, and the source traps when the node has no child.
   */
  function AnchorUpdatedAsWritten(s: State, node: NodeId, anchor: Anchor): (r: State)
    requires anchor.Plane? ==> ChildrenOf(s.nodes, node) != []
    ensures |ChildrenOf(r.nodes, node)| == |ChildrenOf(s.nodes, node)|
    ensures anchor.Plane? ==> ChildrenOf(r.nodes, node)[0] == PlaneVisual(anchor.center, anchor.extent)
    ensures r == s.(nodes := r.nodes)
  {
    if anchor.Plane? then
      var cs := ChildrenOf(s.nodes, node);
      s.(nodes := SetChildren(s.nodes, node, cs[0 := PlaneVisual(anchor.center, anchor.extent)]))
    else s
  }

  /** A plane anchor was updated: its visualisation, if the node has one, takes the new geometry. */
  function AnchorUpdated(s: State, node: NodeId, anchor: Anchor): (r: State)
    ensures anchor.Generic? || ChildrenOf(s.nodes, node) == [] ==> r == s
    ensures anchor.Plane? && ChildrenOf(s.nodes, node) != [] ==>
      ChildrenOf(r.nodes, node) == ChildrenOf(s.nodes, node)[0 := PlaneVisual(anchor.center, anchor.extent)]
    ensures forall m :: m != node ==> ChildrenOf(r.nodes, m) == ChildrenOf(s.nodes, m)
    ensures r == s.(nodes := r.nodes)
  {
    var cs := ChildrenOf(s.nodes, node);
    if anchor.Plane? && cs != [] then
      s.(nodes := SetChildren(s.nodes, node, cs[0 := PlaneVisual(anchor.center, anchor.extent)]))
    else s
  }

  /** A plane anchor was removed: all children of its node go; other anchors need nothing. */
  function AnchorRemoved(s: State, node: NodeId, anchor: Anchor): (r: State)
    ensures anchor.Plane? ==> ChildrenOf(r.nodes, node) == []
    ensures anchor.Generic? ==> r == s
    ensures forall m :: m != node ==> ChildrenOf(r.nodes, m) == ChildrenOf(s.nodes, m)
    ensures r == s.(nodes := r.nodes)
  {
    if anchor.Plane? then s.(nodes := SetChildren(s.nodes, node, [])) else s
  }

  /** The tracking-info label follows the current frame; without a frame it is left alone. */
  function TrackingInfoUpdated(s: State, frame: Wrappers.Option<CameraFrame>): (r: State)
    ensures frame.Some? ==> r.trackingText == StatusText(frame.value.tracking, frame.value.ambientIntensity)
    ensures frame.None? ==> r == s
    ensures r == s.(trackingText := r.trackingText)
  {
    match frame
    case None => s
    case Some(f) => s.(trackingText := StatusText(f.tracking, f.ambientIntensity))
  }

  /**
   * The barcode handler: a marker node for every observation with a payload when the
   * centre hit test finds a plane, and the latch set by any such node. Marker nodes
   * are not recorded in `objects`.
   */
  function BarcodesHandled(s: State, obs: seq<Observation>, hits: seq<Hit>): (r: State)
    ensures obs == [] ==> r == s
    ensures r.markers == s.markers + MarkersFor(obs, hits)
    ensures r.qrCodeFound == (s.qrCodeFound || (hits != [] && exists i :: 0 <= i < |obs| && obs[i].payload.Some?))
    ensures r == s.(markers := r.markers, qrCodeFound := r.qrCodeFound)
  {
    MarkersFoundIff(obs, hits);
    if obs == [] then s
    else
      var created := MarkersFor(obs, hits);
      s.(markers := s.markers + created, qrCodeFound := s.qrCodeFound || created != [])
  }

  /** On a non-empty batch the handled state is the markers appended and the latch set iff one was added. */
  lemma BarcodesHandledNonEmpty(s: State, obs: seq<Observation>, hits: seq<Hit>)
    requires obs != []
    ensures BarcodesHandled(s, obs, hits)
      == s.(markers := s.markers + MarkersFor(obs, hits), qrCodeFound := s.qrCodeFound || MarkersFor(obs, hits) != [])
  {
  }

  /** Runs barcode recognition on the current frame, if there is one and perform does not throw. */
  function QRCodeSearched(s: State, frame: Wrappers.Option<CameraFrame>, hits: seq<Hit>): (r: State)
    ensures frame.Some? && frame.value.recognition.Observations? ==>
      r == BarcodesHandled(s, frame.value.recognition.results, hits)
    ensures frame.None? || frame.value.recognition.PerformFailed? ==> r == s
  {
    match frame
    case None => s
    case Some(f) =>
      match f.recognition
      case PerformFailed => s
      case Observations(obs) => BarcodesHandled(s, obs, hits)
  }

  /**
   * One rendered frame: update the tracking info, search for a marker unless the latch
   * is set, and colour the crosshair by the centre hit test.
   */
  function FrameRendered(s: State, frame: Wrappers.Option<CameraFrame>, hits: seq<Hit>): (r: State)
    ensures frame.Some? ==> r.trackingText == StatusText(frame.value.tracking, frame.value.ambientIntensity)
    ensures frame.None? ==> r.trackingText == s.trackingText
    ensures s.qrCodeFound ==> r.qrCodeFound && r.markers == s.markers
    ensures !s.qrCodeFound && frame.Some? && frame.value.recognition.Observations? ==>
      r.markers == s.markers + MarkersFor(frame.value.recognition.results, hits)
    ensures frame.None? || frame.value.recognition.PerformFailed? ==>
      r.markers == s.markers && r.qrCodeFound == s.qrCodeFound
    ensures r.qrCodeFound <==> s.qrCodeFound || |r.markers| > |s.markers|
    ensures r.crosshairGreen <==> hits != []
    ensures r.objects == s.objects && r.nodes == s.nodes && r.mode == s.mode && r.message == s.message
    ensures r.runs == s.runs && r.nextClone == s.nextClone && r.debugBuild == s.debugBuild
  {
    var t := TrackingInfoUpdated(s, frame);
    var q := if !t.qrCodeFound then QRCodeSearched(t, frame, hits) else t;
    q.(crosshairGreen := hits != [])
  }

  /** Shows `text` in the message label and schedules its expiry. */
  function MessageShown(s: State, text: string): (r: State)
    ensures r.message.text == text
    ensures r == s.(message := Show(s.message, text))
  {
    s.(message := Show(s.message, text))
  }

  /** The interruption has ended: announce it, remove every placed object, run the session again. */
  function Resumed(s: State): (r: State)
    ensures r.message.text == "Session resumed"
    ensures r.objects == []
    ensures r.runs == s.runs + [WorldTracking]
    ensures r.qrCodeFound == s.qrCodeFound && r.markers == s.markers && r.mode == s.mode
    ensures r.message == Show(s.message, "Session resumed")
    ensures r.nodes == DetachAll(s.nodes, s.objects)
    ensures r == s.(message := r.message, objects := [], nodes := r.nodes, runs := r.runs)
  {
    SessionRun(ObjectsRemoved(MessageShown(s, "Session resumed")))
  }

  /**
   * Every clone id in use, in `objects` or under an anchor node, is below `nextClone`,
   * so the clone the next placement makes is fresh.
   */
  ghost predicate ClonesFresh(s: State)
  {
    && (forall p :: p in s.objects ==> p.clone.id < s.nextClone)
    && (forall n, d :: d in ChildrenOf(s.nodes, n) && d.ModelInstance? ==> d.clone.id < s.nextClone)
  }

  /** The events the controller reacts to, in the order the main queue runs them. */
  datatype Event =
    | SelectMode(mode: FunctionMode)
    | TapReset
    | DidAdd(node: NodeId, anchor: Anchor)
    | DidUpdate(node: NodeId, anchor: Anchor)
    | DidRemove(node: NodeId, anchor: Anchor)
    | UpdateAtTime(frame: Wrappers.Option<CameraFrame>, hits: seq<Hit>)
    | DidFail(description: string)
    | Interrupted
    | InterruptionEnded
    | ExpiryFires

  /**
   * One event. The latch is never cleared and, once set, no marker is added; marker
   * nodes are only ever added; `objects` grows only on a non-plane anchor in
   * placeObject mode, and otherwise keeps a prefix of itself.
   */
  function Step(s: State, e: Event): (r: State)
    ensures r.debugBuild == s.debugBuild
    ensures s.qrCodeFound ==> r.qrCodeFound && r.markers == s.markers
    ensures s.markers <= r.markers
    ensures r.qrCodeFound != s.qrCodeFound ==> e.UpdateAtTime? && |r.markers| > |s.markers|
    ensures |r.markers| > |s.markers| ==> e.UpdateAtTime? && r.qrCodeFound
    ensures !(e.DidAdd? && e.anchor.Generic? && s.mode.PlaceObject?) ==> r.objects <= s.objects
    ensures r.mode == if e.SelectMode? then e.mode else s.mode
  {
    match e
    case SelectMode(mode) => s.(mode := mode)
    case TapReset => ObjectsRemoved(s)
    case DidAdd(node, anchor) => AnchorAdded(s, node, anchor)
    case DidUpdate(node, anchor) => AnchorUpdated(s, node, anchor)
    case DidRemove(node, anchor) => AnchorRemoved(s, node, anchor)
    case UpdateAtTime(frame, hits) => FrameRendered(s, frame, hits)
    case DidFail(description) => MessageShown(s, description)
    case Interrupted => MessageShown(s, "Session interrupted")
    case InterruptionEnded => Resumed(s)
    case ExpiryFires => s.(message := Expire(s.message))
  }

  /** The events `es`, first to last. */
  function Run(s: State, es: seq<Event>): State
    decreases |es|
  {
    if es == [] then s else Run(Step(s, es[0]), es[1..])
  }
}
