/**
 * ARKitTestViewController: the controller's mutable fields and its callbacks, each
 * proved to change the fields as the matching function of module Controller says.
 */
module ViewController {
  import Wrappers
  import opened TrackingInfo
  import opened SceneGraph
  import opened Barcodes
  import opened StatusMessage
  import opened Controller

  class ARKitTestViewController {
    const debugBuild: bool
    var currentMode: FunctionMode
    var objects: seq<Placement>
    var nextCloneId: nat
    var nodeChildren: Children
    var rootMarkers: seq<MarkerNode>
    var isQRCodeFound: bool
    var trackingInfoText: string
    var messageLabelText: string
    var pendingExpiries: seq<string>
    var crosshairGreen: bool
    var sessionRuns: seq<Configuration>

    /** The fields as one value of the specification's state. */
    function Snapshot(): State
      reads this
    {
      State(debugBuild, currentMode, objects, nextCloneId, nodeChildren, rootMarkers, isQRCodeFound,
            trackingInfoText, Label(messageLabelText, pendingExpiries), crosshairGreen, sessionRuns)
    }

    /** viewDidLoad on a fresh controller: run the session and blank both labels. */
    constructor (debugBuild: bool)
      ensures Snapshot() == Loaded(debugBuild)
    {
      this.debugBuild := debugBuild;
      currentMode := None;
      objects := [];
      nextCloneId := 0;
      nodeChildren := map[];
      rootMarkers := [];
      isQRCodeFound := false;
      crosshairGreen := false;
      pendingExpiries := [];
      sessionRuns := [WorldTracking];
      trackingInfoText := "";
      messageLabelText := "";
    }

    /** The UI selects what a new non-plane anchor is for. */
    method SetMode(mode: FunctionMode)
      modifies this
      ensures Snapshot() == Step(old(Snapshot()), SelectMode(mode))
    {
      currentMode := mode;
    }

    method RunARSession()
      modifies this
      ensures Snapshot() == SessionRun(old(Snapshot()))
    {
      sessionRuns := sessionRuns + [WorldTracking];
    }

    /** Detaches every placed clone from its parent node, then empties `objects`. */
    method RemoveAllObjects()
      modifies this
      ensures Snapshot() == ObjectsRemoved(old(Snapshot()))
    {
      var g := nodeChildren;
      for i := 0 to |objects|
        invariant g == DetachAll(nodeChildren, objects[..i])
      {
        assert objects[..i + 1][..i] == objects[..i];
        g := Detach(g, objects[i]);
      }
      assert objects[..|objects|] == objects;
      nodeChildren := g;
      objects := [];
    }

    method DidTapReset()
      modifies this
      ensures Snapshot() == Step(old(Snapshot()), TapReset)
    {
      RemoveAllObjects();
    }

    method RendererDidAdd(node: NodeId, anchor: Anchor)
      modifies this
      ensures Snapshot() == AnchorAdded(old(Snapshot()), node, anchor)
    {
      match anchor
      case Plane(center, extent) =>
        if debugBuild {
          nodeChildren := AddChild(nodeChildren, node, PlaneVisual(center, extent));
        }
      case Generic =>
        match currentMode {
          case None =>
          case PlaceObject(name) =>
            var modelClone := Clone(nextCloneId, name);
            nextCloneId := nextCloneId + 1;
            objects := objects + [Placement(modelClone, node)];
            nodeChildren := AddChild(nodeChildren, node, ModelInstance(modelClone));
          case Measure =>
        }
    }

    /** Resizes the plane visualisation of a plane anchor's node; a node without one is left alone. */
    method RendererDidUpdate(node: NodeId, anchor: Anchor)
      modifies this
      ensures Snapshot() == AnchorUpdated(old(Snapshot()), node, anchor)
    {
      if anchor.Plane? {
        var children := ChildrenOf(nodeChildren, node);
        if |children| > 0 {
          nodeChildren := SetChildren(nodeChildren, node, children[0 := PlaneVisual(anchor.center, anchor.extent)]);
        }
      }
    }

    method RendererDidRemove(node: NodeId, anchor: Anchor)
      modifies this
      ensures Snapshot() == AnchorRemoved(old(Snapshot()), node, anchor)
    {
      if !anchor.Plane? {
        return;
      }
      nodeChildren := SetChildren(nodeChildren, node, []);
    }

    /** Sets the tracking-info text from the state, then lets a too-dark estimate override it. */
    method UpdateTrackingInfo(frame: Wrappers.Option<CameraFrame>)
      modifies this
      ensures Snapshot() == TrackingInfoUpdated(old(Snapshot()), frame)
    {
      if frame.None? {
        return;
      }
      var f := frame.value;
      match f.tracking {
        case Limited(reason) =>
          match reason {
            case ExcessiveMotion => trackingInfoText := ExcessiveMotionText;
            case InsufficientFeatures => trackingInfoText := InsufficientDetailsText;
            case _ => trackingInfoText := LimitedText;
          }
        case _ => trackingInfoText := GoodText;
      }
      if f.ambientIntensity.None? {
        return;
      }
      if f.ambientIntensity.value < DarkThreshold {
        trackingInfoText := TooDarkText;
      }
    }

    /**
     * The barcode handler: a batch without observations changes nothing; otherwise the
     * loop's marker nodes are hung under the root and the latch is set when one was added.
     */
    method HandleBarcodes(observations: seq<Observation>, hits: seq<Hit>)
      modifies this
      ensures Snapshot() == BarcodesHandled(old(Snapshot()), observations, hits)
    {
      if |observations| == 0 {
        return;
      }
      var created, found := HangMarkers(observations, hits, rootMarkers, isQRCodeFound);
      BarcodesHandledNonEmpty(Snapshot(), observations, hits);
      rootMarkers := created;
      isQRCodeFound := found;
    }

    /** Recognises barcodes in the current frame; a thrown error only skips the frame. */
    method SearchQRCode(frame: Wrappers.Option<CameraFrame>, hits: seq<Hit>)
      modifies this
      ensures Snapshot() == QRCodeSearched(old(Snapshot()), frame, hits)
    {
      if frame.None? {
        return;
      }
      match frame.value.recognition
      case Observations(results) => HandleBarcodes(results, hits);
      case PerformFailed =>
    }

    /** The per-frame callback. */
    method RendererUpdateAtTime(frame: Wrappers.Option<CameraFrame>, hits: seq<Hit>)
      modifies this
      ensures Snapshot() == FrameRendered(old(Snapshot()), frame, hits)
    {
      UpdateTrackingInfo(frame);
      if !isQRCodeFound {
        SearchQRCode(frame, hits);
      }
      crosshairGreen := |hits| > 0;
    }

    /** Shows `message` and schedules its compare-and-clear expiry. */
    method ShowMessage(message: string)
      modifies this
      ensures Snapshot() == MessageShown(old(Snapshot()), message)
    {
      messageLabelText := message;
      pendingExpiries := pendingExpiries + [message];
    }

    /** The oldest scheduled expiry fires: it blanks the label only if the label still shows its message. */
    method MessageExpiryFires()
      modifies this
      ensures Snapshot() == Step(old(Snapshot()), ExpiryFires)
    {
      if |pendingExpiries| == 0 {
        return;
      }
      var message := pendingExpiries[0];
      pendingExpiries := pendingExpiries[1..];
      if messageLabelText == message {
        messageLabelText := "";
      }
    }

    method SessionDidFail(description: string)
      modifies this
      ensures Snapshot() == Step(old(Snapshot()), DidFail(description))
    {
      ShowMessage(description);
    }

    method SessionWasInterrupted()
      modifies this
      ensures Snapshot() == Step(old(Snapshot()), Interrupted)
    {
      ShowMessage("Session interrupted");
    }

    method SessionInterruptionEnded()
      modifies this
      ensures Snapshot() == Resumed(old(Snapshot()))
    {
      ShowMessage("Session resumed");
      RemoveAllObjects();
      RunARSession();
    }
  }
}
