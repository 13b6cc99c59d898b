/**
 * The scene graph as the pick resolvers see it: a forest of nodes, each with
 * an optional `userData.name` and an optional parent. `depth` is the node's
 * distance from its root; it exists so that walks up the parent chain are
 * seen to end (the host engine keeps the graph a tree).
 */
module SceneGraph {
  import opened Base

  type NodeId = nat

  datatype Node = Node(name: Option<string>, parent: Option<NodeId>, depth: nat)

  type Forest = map<NodeId, Node>

  /** Every parent is in the forest and lies one level nearer the root. */
  ghost predicate WellFormed(f: Forest) {
    forall id | id in f ::
      f[id].parent.Some? ==> f[id].parent.value in f && f[f[id].parent.value].depth < f[id].depth
  }

  /** JavaScript truthiness of `userData.name`: set and not the empty string. */
  predicate Named(n: Node) {
    n.name.Some? && n.name.value != ""
  }

  /** `a` is `id` itself or one of its ancestors. */
  ghost predicate AncestorOrSelf(f: Forest, a: NodeId, id: NodeId)
    requires WellFormed(f) && id in f
    decreases f[id].depth
  {
    a == id || (f[id].parent.Some? && AncestorOrSelf(f, a, f[id].parent.value))
  }

  lemma {:induction false} AncestorIsInForest(f: Forest, a: NodeId, id: NodeId)
    requires WellFormed(f) && id in f && AncestorOrSelf(f, a, id)
    ensures a in f && f[a].depth <= f[id].depth
    decreases f[id].depth
  {
    if a != id {
      AncestorIsInForest(f, a, f[id].parent.value);
    }
  }

  lemma {:induction false} AncestorTransitive(f: Forest, a: NodeId, b: NodeId, id: NodeId)
    requires WellFormed(f) && id in f && AncestorOrSelf(f, b, id)
    requires b in f && AncestorOrSelf(f, a, b)
    ensures AncestorOrSelf(f, a, id)
    decreases f[id].depth
  {
    if b != id {
      AncestorTransitive(f, a, b, f[id].parent.value);
    }
  }

  /** A strict ancestor lies strictly nearer the root. */
  lemma {:induction false} StrictAncestorIsShallower(f: Forest, a: NodeId, id: NodeId)
    requires WellFormed(f) && id in f && AncestorOrSelf(f, a, id) && a != id
    ensures a in f && f[a].depth < f[id].depth
  {
    AncestorIsInForest(f, a, f[id].parent.value);
  }

  /** Adding a node under a parent already in the forest, one level below it, keeps the forest well formed. */
  lemma AddNodeWellFormed(f: Forest, id: NodeId, n: Node)
    requires WellFormed(f) && id !in f
    requires n.parent.Some? ==> n.parent.value in f && f[n.parent.value].depth < n.depth
    ensures WellFormed(f[id := n])
  {
    var g := f[id := n];
    forall k | k in g && g[k].parent.Some?
      ensures g[k].parent.value in g && g[g[k].parent.value].depth < g[k].depth
    {
      if k != id {
        assert g[k] == f[k];
      }
    }
  }
}
