/**
 * Marker (QR code) handling: the observations Vision reports for one frame, the
 * hit test from the screen centre against existing planes, and the marker nodes
 * hung under the scene's root node for each observation that has a payload and
 * a hit.
 */
module Barcodes {
  import opened Wrappers
  import opened SceneGraph

  /** A barcode observation; `payload` is its decoded string, when Vision decoded one. */
  datatype Observation = Observation(payload: Option<string>)

  /** A hit-test result; `position` is the translation of its world transform. */
  datatype Hit = Hit(position: Vec3)

  /** A marker node under the root: its position and the models attached to it. */
  datatype MarkerNode = MarkerNode(position: Vec3, models: seq<string>)

  const CandlePayload := "target_1"
  const LampPayload := "target_2"

  /**
   * The models attached to the marker node for `payload`. The source checks the two
   * known payloads one after the other; they are exclusive, so at most one model is
   * attached, and an unknown payload attaches none.
   */
  function AttachedModels(payload: string): (r: seq<string>)
    ensures |r| <= 1
    ensures r == ["candle"] <==> payload == CandlePayload
    ensures r == ["lamp"] <==> payload == LampPayload
    ensures r == [] <==> payload != CandlePayload && payload != LampPayload
  {
    assert CandlePayload[7] != LampPayload[7];
    assert ["lamp"] != ["candle"] by { assert ["lamp"][0][0] != ["candle"][0][0]; }
    (if payload == CandlePayload then ["candle"] else [])
      + (if payload == LampPayload then ["lamp"] else [])
  }

  /** What one pass of the loop hangs under the root for observation `o`. */
  function Spawned(o: Observation, hits: seq<Hit>): (r: seq<MarkerNode>)
    ensures |r| <= 1
    ensures r != [] <==> o.payload.Some? && hits != []
    ensures r != [] ==> r[0].position == hits[0].position && r[0].models == AttachedModels(o.payload.value)
  {
    match o.payload
    case None => []
    case Some(payload) =>
      if hits == [] then [] else [MarkerNode(hits[0].position, AttachedModels(payload))]
  }

  /** The marker nodes one call of the handler hangs under the root, in loop order. */
  function MarkersFor(obs: seq<Observation>, hits: seq<Hit>): (r: seq<MarkerNode>)
    ensures |r| <= |obs|
    ensures forall m :: m in r ==> hits != [] && m.position == hits[0].position
    decreases |obs|
  {
    if obs == [] then []
    else MarkersFor(obs[..|obs| - 1], hits) + Spawned(obs[|obs| - 1], hits)
  }

  /** Handling the observations up to `i` inclusive adds what observation `i` spawns. */
  lemma MarkersForExtend(obs: seq<Observation>, i: nat, hits: seq<Hit>)
    requires i < |obs|
    ensures MarkersFor(obs[..i + 1], hits) == MarkersFor(obs[..i], hits) + Spawned(obs[i], hits)
  {
    assert obs[..i + 1][..i] == obs[..i];
  }

  /** One more pass of the handler's loop, stated on the markers it extends. */
  lemma HangStep(markers: seq<MarkerNode>, obs: seq<Observation>, i: nat, hits: seq<Hit>)
    requires i < |obs|
    ensures markers + MarkersFor(obs[..i + 1], hits) == (markers + MarkersFor(obs[..i], hits)) + Spawned(obs[i], hits)
    ensures MarkersFor(obs[..i + 1], hits) != [] <==> MarkersFor(obs[..i], hits) != [] || Spawned(obs[i], hits) != []
  {
    MarkersForExtend(obs, i, hits);
  }

  /**
   * The handler's loop: walks the observations in order and, for each one with a
   * payload when the centre hit test finds a plane, appends a marker node to `markers`
   * and sets the latch `found`.
   */
  method HangMarkers(observations: seq<Observation>, hits: seq<Hit>, markers: seq<MarkerNode>, found: bool)
    returns (created: seq<MarkerNode>, latch: bool)
    ensures created == markers + MarkersFor(observations, hits)
    ensures latch == (found || MarkersFor(observations, hits) != [])
  {
    created, latch := markers, found;
    for i := 0 to |observations|
      invariant created == markers + MarkersFor(observations[..i], hits)
      invariant latch == (found || MarkersFor(observations[..i], hits) != [])
    {
      HangStep(markers, observations, i, hits);
      match observations[i].payload {
        case Some(payload) =>
          if |hits| > 0 {
            var marker := MarkerNode(hits[0].position, AttachedModels(payload));
            assert Spawned(observations[i], hits) == [marker];
            created := created + [marker];
            latch := true;
          }
        case None =>
      }
    }
    assert observations[..|observations|] == observations;
  }

  /** The decoded payloads among `obs`, in order: the observations the loop does not skip. */
  function Payloads(obs: seq<Observation>): seq<string>
    decreases |obs|
  {
    if obs == [] then []
    else
      var last := obs[|obs| - 1];
      Payloads(obs[..|obs| - 1]) + (if last.payload.Some? then [last.payload.value] else [])
  }

  /**
   * With a hit, every decoded payload yields one marker node, in order, carrying the
   * models of its payload; without a hit, none does.
   */
  lemma {:induction false} MarkersForPayloads(obs: seq<Observation>, hits: seq<Hit>)
    ensures |MarkersFor(obs, hits)| == if hits == [] then 0 else |Payloads(obs)|
    ensures forall k :: 0 <= k < |MarkersFor(obs, hits)| ==>
      MarkersFor(obs, hits)[k] == MarkerNode(hits[0].position, AttachedModels(Payloads(obs)[k]))
    decreases |obs|
  {
    if obs != [] {
      MarkersForPayloads(obs[..|obs| - 1], hits);
    }
  }

  /** Some observation in `obs` carries a payload. */
  predicate SomePayload(obs: seq<Observation>)
  {
    exists i :: 0 <= i < |obs| && obs[i].payload.Some?
  }

  /** Some marker node is created exactly when there is a hit and some observation has a payload. */
  lemma {:induction false} MarkersFoundIff(obs: seq<Observation>, hits: seq<Hit>)
    ensures MarkersFor(obs, hits) != [] <==>
      hits != [] && exists i :: 0 <= i < |obs| && obs[i].payload.Some?
    decreases |obs|
  {
    if obs != [] {
      var init, last := obs[..|obs| - 1], obs[|obs| - 1];
      MarkersFoundIff(init, hits);
      assert MarkersFor(obs, hits) == MarkersFor(init, hits) + Spawned(last, hits);
      assert SomePayload(obs) <==> SomePayload(init) || last.payload.Some? by {
        if SomePayload(init) {
          var i :| 0 <= i < |init| && init[i].payload.Some?;
          assert obs[i] == init[i];
        }
        if SomePayload(obs) && !last.payload.Some? {
          var i :| 0 <= i < |obs| && obs[i].payload.Some?;
          assert init[i] == obs[i];
        }
      }
    }
  }

  /** Only a missing payload is skipped: an empty payload still spawns a bare marker node. */
  lemma EmptyPayloadIsNotSkipped(h: Hit)
    ensures MarkersFor([Observation(Some(""))], [h]) == [MarkerNode(h.position, [])]
  {
  }

  /** The loop does not stop at the first hit: two decoded markers in one frame give two nodes. */
  lemma TwoMarkersInOneFrame(h: Hit)
    ensures MarkersFor([Observation(Some(CandlePayload)), Observation(Some(LampPayload))], [h])
      == [MarkerNode(h.position, ["candle"]), MarkerNode(h.position, ["lamp"])]
  {
  }
}
