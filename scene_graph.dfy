/**
 * The part of the SceneKit scene graph the controller touches: the nodes ARSCNView
 * creates for anchors, identified by opaque ids, and the children hung under them
 * (plane visualisations and cloned model nodes).
 */
module SceneGraph {
  /** Identity of the scene node that ARSCNView created for an anchor. */
  type NodeId = nat

  /** A float vector (center, extent, world position); only its identity matters here. */
  datatype Vec3 = Vec3(x: real, y: real, z: real)

  /** An anchor reported by the session: a detected plane, or any other anchor. */
  datatype Anchor = Plane(center: Vec3, extent: Vec3) | Generic

  /** A fresh copy of a 3D model, as nodeWithModelName returns it. */
  datatype Clone = Clone(id: nat, model: string)

  /** A child node under an anchor's node. */
  datatype Child = PlaneVisual(center: Vec3, extent: Vec3) | ModelInstance(clone: Clone)

  /** An entry of the controller's `objects`: a clone and the node it was attached to. */
  datatype Placement = Placement(clone: Clone, parent: NodeId)

  /** The children of every anchor node. */
  type Children = map<NodeId, seq<Child>>

  function ChildrenOf(g: Children, n: NodeId): seq<Child>
  {
    if n in g then g[n] else []
  }

  /** `addChildNode`: `c` becomes the last child of `n`; no other node changes. */
  function AddChild(g: Children, n: NodeId, c: Child): (r: Children)
    ensures ChildrenOf(r, n) == ChildrenOf(g, n) + [c]
    ensures forall m :: m != n ==> ChildrenOf(r, m) == ChildrenOf(g, m)
  {
    g[n := ChildrenOf(g, n) + [c]]
  }

  /** Replaces the children of `n` by `cs`; no other node changes. */
  function SetChildren(g: Children, n: NodeId, cs: seq<Child>): (r: Children)
    ensures ChildrenOf(r, n) == cs
    ensures forall m :: m != n ==> ChildrenOf(r, m) == ChildrenOf(g, m)
  {
    g[n := cs]
  }

  /** `cs` without any occurrence of `c`, the others kept in order. */
  function Without(cs: seq<Child>, c: Child): (r: seq<Child>)
    ensures forall d :: d in r <==> d in cs && d != c
    ensures |r| <= |cs|
    ensures c !in cs ==> r == cs
    ensures cs != [] && cs[0] != c ==> r != [] && r[0] == cs[0]
  {
    if cs == [] then []
    else if cs[0] == c then Without(cs[1..], c)
    else [cs[0]] + Without(cs[1..], c)
  }

  /** `removeFromParentNode` on the clone of `p`: it leaves the children of its parent. */
  function Detach(g: Children, p: Placement): (r: Children)
    ensures forall m ::
      ChildrenOf(r, m) == (if m == p.parent then Without(ChildrenOf(g, m), ModelInstance(p.clone)) else ChildrenOf(g, m))
    ensures forall m, d :: d in ChildrenOf(r, m) <==>
      d in ChildrenOf(g, m) && !(m == p.parent && d == ModelInstance(p.clone))
  {
    if p.parent in g then g[p.parent := Without(g[p.parent], ModelInstance(p.clone))] else g
  }

  /** Detaches the clones of `ps`, first to last. */
  function DetachAll(g: Children, ps: seq<Placement>): (r: Children)
    ensures forall n, d :: d in ChildrenOf(r, n) ==> d in ChildrenOf(g, n)
    ensures forall n :: ChildrenOf(r, n) == [] <== ChildrenOf(g, n) == []
    decreases |ps|
  {
    if ps == [] then g else Detach(DetachAll(g, ps[..|ps| - 1]), ps[|ps| - 1])
  }

  /**
   * After detaching the placements `ps`, a node keeps exactly those children that are
   * not a clone placed under that very node by `ps`.
   */
  lemma {:induction false} DetachAllExactly(g: Children, ps: seq<Placement>, n: NodeId, d: Child)
    ensures d in ChildrenOf(DetachAll(g, ps), n) <==>
      d in ChildrenOf(g, n) && !(d.ModelInstance? && Placement(d.clone, n) in ps)
    decreases |ps|
  {
    if ps != [] {
      var init, last := ps[..|ps| - 1], ps[|ps| - 1];
      DetachAllExactly(g, init, n, d);
      assert ps == init + [last];
      assert forall p :: p in ps <==> p in init || p == last;
    }
  }
}
