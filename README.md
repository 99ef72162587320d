# ARKitTest view controller, modelled in Dafny

This project models the decision logic and state of `ARKitTestViewController`, the
one view controller of the ARKitTest app. The controller:

- classifies the camera's tracking state and light estimate into a status text;
- keeps the interaction mode (`FunctionMode`) and the list of placed model nodes
  (`objects`), and places a model clone when a non-plane anchor appears in
  placeObject mode;
- mirrors plane anchors into plane visualisation nodes (DEBUG builds);
- searches every frame for a QR marker until a one-way latch (`isQRCodeFound`) is
  set, and hangs a marker node under the scene root for each decoded marker that
  the centre hit test puts on a plane;
- shows session messages that blank themselves two seconds later, if nothing
  newer has replaced them.

ARKit, SceneKit and Vision types are replaced by datatypes. Scene nodes are opaque
ids, and a node's children are a sequence. Hit results and vision results are
sequences passed in with each frame. Callbacks become discrete events applied one
after another.

Files, one module each:

- `wrappers.dfy`: `Option`.
- `tracking_info.dfy`: the tracking-status classifier (pure).
- `scene_graph.dfy`: anchors, anchor-node children, detaching clones.
- `barcodes.dfy`: observations, the payload-to-model table, and the marker nodes
  one barcode callback creates.
- `status_message.dfy`: the message label with compare-and-clear expiries.
- `controller.dfy`: the controller's whole state, one function per callback,
  `Step` and `Run`.
- `properties.dfy`: lemmas about callbacks and about runs of events.
- `view_controller.dfy`: class `ARKitTestViewController`. Its fields are the
  controller's fields. Each of its methods is proved to change them exactly as the
  matching function of `Controller` says.

## Model

| member | source | states |
|---|---|---|
| TrackingInfo.StateText | ARKitTest/ARKitTestViewController.swift:172-185 | excessiveMotion gives "Limited Tracking: Excessive Motion" and insufficientFeatures gives "Limited Tracking: Insufficient Details". Any other limited reason gives "Limited Tracking"; every non-limited state gives "Good tracking conditions". Each text holds if and only if its case holds |
| TrackingInfo.StatusText | ARKitTest/ARKitTestViewController.swift:166-196 | a light estimate below 100 gives "Limited Tracking: Too Dark" whatever the tracking state. An absent estimate, or one of 100 or more, keeps the state's text. The text is "Too Dark" iff the estimate is present and below 100, and it is always one of the five fixed texts |
| TrackingInfo.StatusMatrix | ARKitTest/ARKitTestViewController.swift:172-195 | sample inputs and their texts, including the boundary value 100 (not too dark) |
| SceneGraph.AddChild | ARKitTest/ARKitTestViewController.swift:223 | addChildNode (here and at line 207): the new child becomes the node's last child, after the old ones in order, and no other node's children change |
| SceneGraph.Without | ARKitTest/ARKitTestViewController.swift:54 | a child is kept iff it was present and is not the removed node; the list never grows. A list without that node is unchanged, and a first child that is not the removed node stays first |
| SceneGraph.Detach | ARKitTest/ARKitTestViewController.swift:54 | removeFromParentNode: only the clone leaves, and only from its own parent. The parent's children become the old ones without the clone, in order; every other node's children are unchanged |
| SceneGraph.DetachAll | ARKitTest/ARKitTestViewController.swift:53-55 | the loop over `objects` only ever removes children: every child left under a node was under it before, and a node without children stays without |
| SceneGraph.DetachAllExactly | ARKitTest/ARKitTestViewController.swift:53-55 | after detaching all placed objects, a node keeps exactly the children that are not a clone recorded as placed under that node |
| Barcodes.AttachedModels | ARKitTest/ARKitTestViewController.swift:123-137 | the two payload checks are exclusive: at most one model is attached. "target_1" attaches the candle iff the payload is "target_1", and "target_2" attaches the lamp iff the payload is "target_2". Any other payload attaches nothing |
| Barcodes.Spawned | ARKitTest/ARKitTestViewController.swift:98-140 | one pass of the loop creates at most one marker node, and creates one iff the observation has a payload and the hit test found a plane. That node lies at the first hit's position and carries the payload's models |
| Barcodes.HangMarkers | ARKitTest/ARKitTestViewController.swift:94-141 | the loop walks the observations in order, appending what each spawns to the root's marker nodes: the result is the old nodes followed by MarkersFor. The latch ends set iff it was set or some node was added |
| Barcodes.MarkersFor | ARKitTest/ARKitTestViewController.swift:94-143 | one barcode callback creates at most one marker node per observation, and every marker node lies at the first hit's position |
| Barcodes.MarkersForPayloads | ARKitTest/ARKitTestViewController.swift:94-143 | with a hit, every decoded payload yields one marker node, in order, carrying that payload's models. Without a hit, no node is created |
| Barcodes.MarkersFoundIff | ARKitTest/ARKitTestViewController.swift:98-140 | some marker node is created iff the hit test finds a plane and some observation has a payload |
| Barcodes.EmptyPayloadIsNotSkipped | ARKitTest/ARKitTestViewController.swift:99 | only a nil payload is skipped: an empty payload still creates a bare marker node |
| Barcodes.TwoMarkersInOneFrame | ARKitTest/ARKitTestViewController.swift:94-143 | the loop does not stop at the first hit: two decoded markers in one frame give two nodes |
| StatusMessage.Show | ARKitTest/ARKitTestViewController.swift:273-274 | the label shows the message, and one more expiry, for that message, is pending |
| StatusMessage.Expire | ARKitTest/ARKitTestViewController.swift:274-278 | the oldest expiry fires and is consumed. The text changes iff it still equals that expiry's message (and is not already blank), and then only to blank. Consistency is preserved: the text is blank or a pending expiry's message |
| StatusMessage.AllExpiriesClear | ARKitTest/ARKitTestViewController.swift:273-278 | once every scheduled expiry has fired, the label is blank: no message stays forever |
| StatusMessage.OwnExpiryClears | ARKitTest/ARKitTestViewController.swift:298-303 | a message's own expiry blanks it when nothing was shown after it |
| StatusMessage.NewerMessageSurvives | ARKitTest/ARKitTestViewController.swift:284-291 | a newer, different message survives the older message's expiry, and falls to its own |
| StatusMessage.RepeatedMessageClearedEarly | ARKitTest/ARKitTestViewController.swift:286-291 | the comparison is by text: a message shown twice is blanked by the first showing's expiry |
| Controller.SessionRun | ARKitTest/ARKitTestViewController.swift:148-158 | the session is run once more, with horizontal plane detection and light estimation on. Nothing else changes |
| Controller.Loaded | ARKitTest/ARKitTestViewController.swift:39-46 | after loading: the session has run once with that configuration, both labels are blank, nothing is placed, the latch is clear and the mode is none |
| Controller.ObjectsRemoved | ARKitTest/ARKitTestViewController.swift:52-58 | `objects` is empty afterwards. Only the anchor nodes' children change; mode, latch, marker nodes and session are left as they were |
| Controller.AnchorAdded | ARKitTest/ARKitTestViewController.swift:202-230 | a non-plane anchor in placeObject(name) mode adds exactly one entry at the end of `objects`: a clone of `name` with id `nextClone`, under the anchor's node, which becomes that node's last child; `nextClone` then grows by one, and only then (PlacedCloneIsNew shows the id is new). In none or measure mode nothing changes. A plane anchor leaves `objects` alone and gains one visualisation child in a DEBUG build only. No other node changes |
| Controller.AnchorUpdatedAsWritten | ARKitTest/ARKitTestViewController.swift:232-239 | the code as written: it requires a first child to exist, where the source traps otherwise. That child takes the plane's new centre and extent; the number of children stays the same |
| Controller.AnchorUpdated | ARKitTest/ARKitTestViewController.swift:232-239 | corrected: a plane's node with a first child gets that child resized to the new geometry. A node without children, or a non-plane anchor, changes nothing |
| Controller.AnchorRemoved | ARKitTest/ARKitTestViewController.swift:241-246 | a plane's node loses all its children, and no other node changes. A non-plane anchor changes nothing |
| Controller.TrackingInfoUpdated | ARKitTest/ARKitTestViewController.swift:166-196 | with a current frame, the tracking label shows StatusText of its tracking state and light estimate. Without a frame, nothing changes |
| Controller.BarcodesHandled | ARKitTest/ARKitTestViewController.swift:81-144 | zero observations change nothing. Otherwise the marker nodes of MarkersFor are appended under the root. The latch becomes set iff it was set, or there is a hit and some observation has a payload. `objects` and everything else are untouched |
| Controller.QRCodeSearched | ARKitTest/ARKitTestViewController.swift:62-79 | no frame, or a thrown perform error, changes nothing. Otherwise the barcode results are handled |
| Controller.FrameRendered | ARKitTest/ARKitTestViewController.swift:248-267 | the tracking label follows the frame. Once the latch is set, no search happens: no marker is added and the latch stays. Without the latch, the frame's markers are appended. Without a frame, or when perform throws, the markers and the latch stay as they were. The latch is set iff it was set or a marker was added. The crosshair is green iff the hit test found a plane, and placement state is untouched |
| Controller.MessageShown | ARKitTest/ARKitTestViewController.swift:273-278 | the message label shows the text, and the text's expiry is scheduled |
| Controller.Resumed | ARKitTest/ARKitTestViewController.swift:294-308 | after the interruption ends, "Session resumed" is shown and its expiry is scheduled after the pending ones. Exactly the recorded clones leave their nodes (DetachAll), `objects` is empty and the session is re-run with the world-tracking configuration. Nothing else changes: the latch, the marker nodes and the mode are as before |
| Controller.Step | ARKitTest/ARKitTestViewController.swift:48-308 | for every event: the latch is never cleared, and once set no marker node is added. Marker nodes are never removed. The latch changes, and marker nodes are added, only on a frame. `objects` grows only for a non-plane anchor in placeObject mode, and otherwise keeps a prefix. Only a mode selection changes the mode |
| Properties.ResetDetachesPlacedClones | ARKitTest/ARKitTestViewController.swift:48-58 | a reset removes from each anchor node exactly the clones `objects` recorded under it |
| Properties.ResetIdempotent | ARKitTest/ARKitTestViewController.swift:52-58 | resetting twice is resetting once |
| Properties.LatchNeverCleared | ARKitTest/ARKitTestViewController.swift:139 | over any run of events, reset and resume included, a set latch stays set and no marker node is added |
| Properties.MarkersOnlyGrow | ARKitTest/ARKitTestViewController.swift:120 | over any run of events, the marker nodes only grow |
| Properties.LatchMeansMarker | ARKitTest/ARKitTestViewController.swift:120-139 | from a state where the latch is set iff a marker node exists, this stays so over any run |
| Properties.NoPlacementWithoutMode | ARKitTest/ARKitTestViewController.swift:211-227 | outside placeObject mode, with no mode change, any run of events leaves `objects` a prefix of what it held. From an empty list, no object is ever placed |
| Properties.InterruptThenResume | ARKitTest/ARKitTestViewController.swift:282-308 | after an interruption and its end, `objects` is empty, the session has run again, the label reads "Session resumed", and the latch is as before |
| Properties.ReleaseBuildPlaneUpdateTraps | ARKitTest/ARKitTestViewController.swift:205-236 | in a build without DEBUG, a plane anchor's node has no child after the add, so the source's update cannot index its first child |
| Properties.GuardedUpdateAgrees | ARKitTest/ARKitTestViewController.swift:232-239 | wherever the source's update does not trap, the corrected update does exactly the same |
| Properties.PlaneLifecycle | ARKitTest/ARKitTestViewController.swift:202-246 | for a plane on a childless node: in a DEBUG build the add gives one visualisation, which the update resizes to the new geometry. In either build, add, update and remove leave no child |
| Properties.StepKeepsClonesFresh | ARKitTest/ARKitTestViewController.swift:48-308 | every event keeps each clone id in use, in `objects` or under any node, below `nextClone` |
| Properties.RunKeepsClonesFresh | ARKitTest/ARKitTestViewController.swift:219-224 | over any run of events, every clone id in use stays below `nextClone` |
| Properties.LoadedClonesFresh | ARKitTest/ARKitTestViewController.swift:39-46 | the loaded state has no clone in use, so the invariant holds from the start |
| Properties.PlacedCloneIsNew | ARKitTest/ARKitTestViewController.swift:219-224 | in any state where the invariant holds, the clone a placement makes has id `nextClone`, which no clone in `objects` or under any node has |
| Properties.StepKeepsConsistent | ARKitTest/ARKitTestViewController.swift:269-308 | every event keeps the message label blank or showing a message whose expiry is still pending |
| Properties.NoMessageStaysForever | ARKitTest/ARKitTestViewController.swift:273-278 | after any run of events from a consistent label, the label stays consistent, and it is blank once the expiries still pending have fired |
| ViewController.ARKitTestViewController.constructor | ARKitTest/ARKitTestViewController.swift:39-46 | the fields equal Loaded |
| ViewController.ARKitTestViewController.SetMode | ARKitTest/ARKitTestViewController.swift:26 | only currentMode changes, to the selected mode |
| ViewController.ARKitTestViewController.RunARSession | ARKitTest/ARKitTestViewController.swift:148-163 | the new fields equal SessionRun of the old |
| ViewController.ARKitTestViewController.RemoveAllObjects | ARKitTest/ARKitTestViewController.swift:52-58 | the loop detaches each object from its parent, then `objects` empties. The new fields equal ObjectsRemoved of the old |
| ViewController.ARKitTestViewController.DidTapReset | ARKitTest/ARKitTestViewController.swift:48-50 | the reset button removes all objects |
| ViewController.ARKitTestViewController.RendererDidAdd | ARKitTest/ARKitTestViewController.swift:202-230 | the new fields equal AnchorAdded of the old |
| ViewController.ARKitTestViewController.RendererDidUpdate | ARKitTest/ARKitTestViewController.swift:232-239 | the new fields equal the corrected AnchorUpdated of the old |
| ViewController.ARKitTestViewController.RendererDidRemove | ARKitTest/ARKitTestViewController.swift:241-246 | the new fields equal AnchorRemoved of the old |
| ViewController.ARKitTestViewController.UpdateTrackingInfo | ARKitTest/ARKitTestViewController.swift:166-196 | the switch followed by the light override leaves the label at StatusText |
| ViewController.ARKitTestViewController.HandleBarcodes | ARKitTest/ARKitTestViewController.swift:81-144 | a batch without observations changes nothing; otherwise the loop (HangMarkers) leaves the fields equal to BarcodesHandled of the old ones |
| ViewController.ARKitTestViewController.SearchQRCode | ARKitTest/ARKitTestViewController.swift:62-75 | the new fields equal QRCodeSearched of the old |
| ViewController.ARKitTestViewController.RendererUpdateAtTime | ARKitTest/ARKitTestViewController.swift:248-267 | the new fields equal FrameRendered of the old |
| ViewController.ARKitTestViewController.ShowMessage | ARKitTest/ARKitTestViewController.swift:273-278 | the new fields equal MessageShown of the old |
| ViewController.ARKitTestViewController.MessageExpiryFires | ARKitTest/ARKitTestViewController.swift:274-278 | compare-and-clear by the oldest pending expiry, as Expire |
| ViewController.ARKitTestViewController.SessionDidFail | ARKitTest/ARKitTestViewController.swift:269-279 | the error's description is shown, and its expiry is scheduled |
| ViewController.ARKitTestViewController.SessionWasInterrupted | ARKitTest/ARKitTestViewController.swift:282-292 | "Session interrupted" is shown, and its expiry is scheduled |
| ViewController.ARKitTestViewController.SessionInterruptionEnded | ARKitTest/ARKitTestViewController.swift:294-308 | the new fields equal Resumed of the old |

## Behaviour kept as the code has it

These points differ from the system's stated design intent. The model follows the code:

- The latch is never cleared. Neither a reset nor the end of an interruption clears it, so after the first marker no frame is ever searched again (`LatchNeverCleared`).
- The barcode loop does not stop at the first observation that hits. One frame can create several marker nodes, and the latch is set by any of them (`TwoMarkersInOneFrame`).
- An empty payload string is not skipped; only a missing payload is (`EmptyPayloadIsNotSkipped`).
- Message expiry compares text, not a token. A message shown twice is blanked by the first showing's expiry (`RepeatedMessageClearedEarly`).
- A failing `perform` is caught and printed; the frame is then skipped (`QRCodeSearched`).

## Left out

- UIKit outlets, view bounds, `viewCenter` and colour values are left out because they are presentation. The crosshair is a boolean, green iff the centre hit test found a plane.
- SceneKit geometry, materials and model loading (`createPlaneNode`, `updatePlaneNode`, `nodeWithModelName`, `removeChildren(inNode:)`, `SCNScene(named:)`, `childNode(withName:)`) are foreign calls. `removeChildren(inNode:)` (line 245) is modelled by its evident effect, every child of the node removed. A plane visualisation is its centre and extent, a model clone is a fresh id plus the model name, and a marker node is its position plus the names of its models. The model assumes every asset exists: the forced unwrap of `SCNScene(named:)` and a missing named child are not modelled.
- The hit test is left out because it is float geometry. Each frame carries one sequence of hits. The same result serves the crosshair and every observation of that frame's barcode loop, since marker nodes add no plane anchors.
- The Vision request and `VNImageRequestHandler.perform` are foreign calls. A frame carries its barcode observations, or the fact that perform threw.
- The `fatalError` on a result of the wrong type (line 85) cannot arise in the model, because the recognition results are barcode observations by type.
- ARKit session internals are foreign: `sceneView.delegate`, `debugOptions`, and what `session.run` does to existing anchors. A run is recorded as the configuration it used.
- The two-second delay is not modelled. `DispatchQueue.main.async` and `asyncAfter` blocks are events applied one after another. Expiries fire in the order they were scheduled, since all share one delay on one serial queue.
- The anchor-removed callback runs off the main queue in the source. The model serialises it with the other events, so races with the main queue are not modelled.
- Light estimates are `real` rather than CGFloat; only the comparison with 100 matters.
- `print` output, the unused fields `isObjectAdded`, `currTouchLocation` and `sequenceHandler`, and the trailing link comments are left out because they affect no state.
- No method in this file assigns `currentMode`. The model has a `SetMode` event standing for the UI that selects the mode.

## Findings

| source | as written | input that shows it | evidently intended | confidence | as-written member | corrected member |
|---|---|---|---|---|---|---|
| ARKitTest/ARKitTestViewController.swift:236 | didUpdate resizes `node.childNodes[0]` without checking that it exists. The plane visualisation child is only added under `#if DEBUG` (lines 205-209). | A build without DEBUG: any plane anchor added, then updated. Its node has no children, so the index traps (`ReleaseBuildPlaneUpdateTraps`). | Resize the visualisation only when the node has one, and otherwise ignore the update. | high; not executed | Controller.AnchorUpdatedAsWritten | Controller.AnchorUpdated |

The corrected update is the one `Step` and `RendererDidUpdate` use. `GuardedUpdateAgrees` proves that it matches the source wherever the source does not trap. `PlaneLifecycle` proves that a plane's add, update and remove run in either build and leave no child behind.
