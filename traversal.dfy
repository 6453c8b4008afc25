/**
 * The order in which the loader visits the scene graph: pre-order, depth
 * first, a node's own meshes (in the order of its mesh-index list) before its
 * children, children left to right.
 */
module Traversal {
  import Assimp

  /** The scene mesh indices, in the order the meshes are appended for the subtree at `n`. */
  function MeshOrder(n: Assimp.Node): seq<nat>
    decreases n, 1
  {
    n.meshIndices + ChildrenOrder(n.children)
  }

  /** The mesh order of a list of sibling subtrees, one after the other. */
  function ChildrenOrder(cs: seq<Assimp.Node>): seq<nat>
    decreases cs, 0
  {
    if cs == [] then [] else ChildrenOrder(cs[..|cs| - 1]) + MeshOrder(cs[|cs| - 1])
  }

  /** The nodes of the subtree at `n` in pre-order: the reference definition of "reachable, in visiting order". */
  function PreOrder(n: Assimp.Node): seq<Assimp.Node>
    decreases n, 1
  {
    [n] + PreOrderAll(n.children)
  }

  function PreOrderAll(cs: seq<Assimp.Node>): seq<Assimp.Node>
    decreases cs, 0
  {
    if cs == [] then [] else PreOrderAll(cs[..|cs| - 1]) + PreOrder(cs[|cs| - 1])
  }

  /** The mesh-index lists of `nodes`, concatenated. */
  function OwnMeshes(nodes: seq<Assimp.Node>): seq<nat>
  {
    if nodes == [] then [] else OwnMeshes(nodes[..|nodes| - 1]) + nodes[|nodes| - 1].meshIndices
  }

  /** The sum of `mNumMeshes` over `nodes`. */
  function MeshCount(nodes: seq<Assimp.Node>): nat
  {
    if nodes == [] then 0 else MeshCount(nodes[..|nodes| - 1]) + |nodes[|nodes| - 1].meshIndices|
  }

  lemma {:induction false} OwnMeshesAppend(a: seq<Assimp.Node>, b: seq<Assimp.Node>)
    ensures OwnMeshes(a + b) == OwnMeshes(a) + OwnMeshes(b)
    decreases |b|
  {
    if b != [] {
      assert (a + b)[..|a + b| - 1] == a + b[..|b| - 1];
      OwnMeshesAppend(a, b[..|b| - 1]);
    } else {
      assert a + b == a;
    }
  }

  lemma {:induction false} OwnMeshesLength(nodes: seq<Assimp.Node>)
    ensures |OwnMeshes(nodes)| == MeshCount(nodes)
  {
    if nodes != [] {
      OwnMeshesLength(nodes[..|nodes| - 1]);
    }
  }

  /**
   * The mesh order of a subtree is every reachable node's own mesh list,
   * taken in pre-order.
   */
  lemma {:induction false} MeshOrderIsPreOrder(n: Assimp.Node)
    ensures MeshOrder(n) == OwnMeshes(PreOrder(n))
    decreases n, 1
  {
    ChildrenOrderIsPreOrder(n.children);
    OwnMeshesAppend([n], PreOrderAll(n.children));
    assert OwnMeshes([n]) == n.meshIndices by {
      assert [n][..0] == [];
    }
  }

  lemma {:induction false} ChildrenOrderIsPreOrder(cs: seq<Assimp.Node>)
    ensures ChildrenOrder(cs) == OwnMeshes(PreOrderAll(cs))
    decreases cs, 0
  {
    if cs != [] {
      var init, last := cs[..|cs| - 1], cs[|cs| - 1];
      ChildrenOrderIsPreOrder(init);
      MeshOrderIsPreOrder(last);
      OwnMeshesAppend(PreOrderAll(init), PreOrder(last));
    }
  }

  /** The number of meshes appended for a subtree is the sum of `mNumMeshes` over its reachable nodes. */
  lemma MeshOrderCount(n: Assimp.Node)
    ensures |MeshOrder(n)| == MeshCount(PreOrder(n))
  {
    MeshOrderIsPreOrder(n);
    OwnMeshesLength(PreOrder(n));
  }

  /** Every index in the mesh order of a well-formed subtree is a valid scene mesh index. */
  lemma {:induction false} MeshOrderInRange(n: Assimp.Node, meshCount: nat)
    requires Assimp.NodeWellFormed(n, meshCount)
    ensures forall k :: 0 <= k < |MeshOrder(n)| ==> MeshOrder(n)[k] < meshCount
    decreases n, 1
  {
    ChildrenOrderInRange(n.children, meshCount);
  }

  lemma {:induction false} ChildrenOrderInRange(cs: seq<Assimp.Node>, meshCount: nat)
    requires forall i :: 0 <= i < |cs| ==> Assimp.NodeWellFormed(cs[i], meshCount)
    ensures forall k :: 0 <= k < |ChildrenOrder(cs)| ==> ChildrenOrder(cs)[k] < meshCount
    decreases cs, 0
  {
    if cs != [] {
      ChildrenOrderInRange(cs[..|cs| - 1], meshCount);
      MeshOrderInRange(cs[|cs| - 1], meshCount);
    }
  }

  /** After the node's own meshes and its first `c` subtrees, the next subtree's meshes come. */
  lemma ChildrenOrderStep(node: Assimp.Node, c: nat)
    requires c < |node.children|
    ensures node.meshIndices + ChildrenOrder(node.children[..c + 1])
         == node.meshIndices + ChildrenOrder(node.children[..c]) + MeshOrder(node.children[c])
  {
    assert node.children[..c + 1][..c] == node.children[..c];
  }
}
