/** Properties of single callbacks and of whole runs of them. */
module Properties {
  import opened SceneGraph
  import opened Barcodes
  import opened StatusMessage
  import opened Controller

  /**
   * A reset removes from each anchor node exactly the clones `objects` recorded under
   * it; every other child stays.
   */
  lemma ResetDetachesPlacedClones(s: State, n: NodeId, d: Child)
    ensures d in ChildrenOf(ObjectsRemoved(s).nodes, n) <==>
      d in ChildrenOf(s.nodes, n) && !(d.ModelInstance? && Placement(d.clone, n) in s.objects)
  {
    DetachAllExactly(s.nodes, s.objects, n, d);
  }

  /** Resetting twice is resetting once. */
  lemma ResetIdempotent(s: State)
    ensures ObjectsRemoved(ObjectsRemoved(s)) == ObjectsRemoved(s)
  {
  }

  /** The latch is never cleared, and once it is set no marker node is added. */
  lemma {:induction false} LatchNeverCleared(s: State, es: seq<Event>)
    requires s.qrCodeFound
    ensures Run(s, es).qrCodeFound
    ensures Run(s, es).markers == s.markers
    decreases |es|
  {
    if es != [] {
      LatchNeverCleared(Step(s, es[0]), es[1..]);
    }
  }

  /** Marker nodes are never removed, by reset and resume included. */
  lemma {:induction false} MarkersOnlyGrow(s: State, es: seq<Event>)
    ensures s.markers <= Run(s, es).markers
    decreases |es|
  {
    if es != [] {
      MarkersOnlyGrow(Step(s, es[0]), es[1..]);
    }
  }

  /** From a fresh start, the latch is set exactly when some marker node exists. */
  lemma {:induction false} LatchMeansMarker(s: State, es: seq<Event>)
    requires s.qrCodeFound <==> s.markers != []
    ensures Run(s, es).qrCodeFound <==> Run(s, es).markers != []
    decreases |es|
  {
    if es != [] {
      LatchMeansMarker(Step(s, es[0]), es[1..]);
    }
  }

  /**
   * Without placeObject mode, and with no mode selected along the way, no event adds
   * to `objects`: whatever the anchors, it keeps a prefix of what it held.
   */
  lemma {:induction false} NoPlacementWithoutMode(s: State, es: seq<Event>)
    requires !s.mode.PlaceObject?
    requires forall i :: 0 <= i < |es| ==> !es[i].SelectMode?
    ensures Run(s, es).objects <= s.objects
    decreases |es|
  {
    if es != [] {
      var t := Step(s, es[0]);
      NoPlacementWithoutMode(t, es[1..]);
      assert Run(s, es).objects <= t.objects <= s.objects;
    }
  }

  /** After an interruption and its end, nothing is placed and the session runs again, but the latch stays. */
  lemma InterruptThenResume(s: State)
    ensures Step(Step(s, Interrupted), InterruptionEnded).objects == []
    ensures Step(Step(s, Interrupted), InterruptionEnded).qrCodeFound == s.qrCodeFound
    ensures Step(Step(s, Interrupted), InterruptionEnded).runs == s.runs + [WorldTracking]
    ensures Step(Step(s, Interrupted), InterruptionEnded).message.text == "Session resumed"
  {
  }

  /**
   * In a build without DEBUG a plane anchor's node gets no child, so the source's
   * update, which resizes the first child, has nothing to index.
   */
  lemma ReleaseBuildPlaneUpdateTraps(s: State, node: NodeId, plane: Anchor)
    requires !s.debugBuild && plane.Plane?
    requires ChildrenOf(s.nodes, node) == []
    ensures !(plane.Plane? ==> ChildrenOf(AnchorAdded(s, node, plane).nodes, node) != [])
  {
  }

  /** Where the source's update does not trap, the guarded update does the same. */
  lemma GuardedUpdateAgrees(s: State, node: NodeId, anchor: Anchor)
    requires anchor.Plane? ==> ChildrenOf(s.nodes, node) != []
    ensures AnchorUpdated(s, node, anchor) == AnchorUpdatedAsWritten(s, node, anchor)
  {
  }

  /**
   * A plane anchor's lifecycle on a node with no children: in a DEBUG build the node
   * gains one visualisation, which takes the updated geometry; in either build the
   * removal leaves no child behind.
   */
  lemma PlaneLifecycle(s: State, node: NodeId, added: Anchor, updated: Anchor)
    requires added.Plane? && updated.Plane?
    requires ChildrenOf(s.nodes, node) == []
    ensures ChildrenOf(Step(s, DidAdd(node, added)).nodes, node)
      == if s.debugBuild then [PlaneVisual(added.center, added.extent)] else []
    ensures ChildrenOf(Step(Step(s, DidAdd(node, added)), DidUpdate(node, updated)).nodes, node)
      == if s.debugBuild then [PlaneVisual(updated.center, updated.extent)] else []
    ensures ChildrenOf(Step(Step(Step(s, DidAdd(node, added)), DidUpdate(node, updated)), DidRemove(node, added)).nodes, node)
      == []
  {
  }

  /** Every event keeps each clone id in use below `nextClone`. */
  lemma StepKeepsClonesFresh(s: State, e: Event)
    requires ClonesFresh(s)
    ensures ClonesFresh(Step(s, e))
  {
  }

  /** Clone ids stay below `nextClone` along any run, from the loaded state on. */
  lemma {:induction false} RunKeepsClonesFresh(s: State, es: seq<Event>)
    requires ClonesFresh(s)
    ensures ClonesFresh(Run(s, es))
    decreases |es|
  {
    if es != [] {
      StepKeepsClonesFresh(s, es[0]);
      RunKeepsClonesFresh(Step(s, es[0]), es[1..]);
    }
  }

  lemma LoadedClonesFresh(debugBuild: bool)
    ensures ClonesFresh(Loaded(debugBuild))
  {
  }

  /**
   * In a state reached by any run, the clone a placement makes is new: it is neither
   * in `objects` nor under any anchor node.
   */
  lemma PlacedCloneIsNew(s: State, node: NodeId)
    requires ClonesFresh(s)
    requires s.mode.PlaceObject?
    ensures AnchorAdded(s, node, Generic).objects[|s.objects|].clone.id == s.nextClone
    ensures forall p :: p in s.objects ==> p.clone.id != s.nextClone
    ensures forall n, d :: d in ChildrenOf(s.nodes, n) && d.ModelInstance? ==> d.clone.id != s.nextClone
  {
  }

  /** Every event keeps the label blank or showing a message whose expiry is still pending. */
  lemma StepKeepsConsistent(s: State, e: Event)
    requires Consistent(s.message)
    ensures Consistent(Step(s, e).message)
  {
  }

  /**
   * No message stays forever: after any run from a consistent label, once the expiries
   * still pending have fired, the label is blank.
   */
  lemma {:induction false} NoMessageStaysForever(s: State, es: seq<Event>)
    requires Consistent(s.message)
    ensures Consistent(Run(s, es).message)
    ensures ExpireAll(Run(s, es).message).text == ""
    decreases |es|
  {
    if es == [] {
      AllExpiriesClear(s.message);
    } else {
      StepKeepsConsistent(s, es[0]);
      NoMessageStaysForever(Step(s, es[0]), es[1..]);
    }
  }
}
