/**
 * The tree the nodes are linked into. Ground is the root at level 0, the base
 * nodes at level 1 hang from Ground, and so on: every node but Ground has
 * exactly one parent, one level up, and lists among its children exactly the
 * nodes whose parent it is, each of them once.
 *
 * A tree is given by the sequence of its nodes in nodeNum order: nodes[k] is
 * the node numbered k and nodes[0] is Ground. Nodes are numbered as they are
 * added, so a parent is always numbered before its children.
 */
module RigidBodyTree {
  import opened Transforms
  import opened StateCache
  import opened RigidBodyNodes

  /** nodes[k]'s link to its parent, for a node other than Ground. */
  ghost predicate ParentLink(nodes: seq<RigidBodyNode>, k: int)
    reads nodes`parent, nodes`level, nodes`nodeNum
    requires 0 <= k < |nodes|
  {
    var p := nodes[k].parent;
    && p != null
    && p in nodes
    && 0 <= p.nodeNum < k
    && nodes[k].level == p.level + 1
  }

  /**
   * The numbering, parent links and levels of a tree: nodes[k] is numbered k,
   * Ground has no parent and level 0, and every other node hangs from an
   * earlier node one level up.
   */
  ghost predicate TreeShape(nodes: seq<RigidBodyNode>)
    reads nodes`parent, nodes`level, nodes`nodeNum
  {
    && |nodes| > 0
    && (forall k :: 0 <= k < |nodes| ==> nodes[k].nodeNum == k)
    && nodes[0].parent == null
    && nodes[0].level == 0
    && (forall k :: 0 < k < |nodes| ==> ParentLink(nodes, k))
  }

  /** The children lists of the nodes, in node order. */
  ghost function ChildLists(nodes: seq<RigidBodyNode>): (kids: seq<seq<RigidBodyNode>>)
    reads nodes`children
    ensures |kids| == |nodes|
    ensures forall k :: 0 <= k < |nodes| ==> kids[k] == nodes[k].children
  {
    if nodes == [] then [] else ChildLists(nodes[..|nodes| - 1]) + [nodes[|nodes| - 1].children]
  }

  /**
   * kids[j] is a correct children list for nodes[j]: it holds exactly the
   * nodes whose parent is nodes[j], each of them once.
   */
  ghost predicate ChildLinks(nodes: seq<RigidBodyNode>, kids: seq<seq<RigidBodyNode>>)
    reads nodes`parent
    requires |kids| == |nodes|
  {
    && (forall j, c :: 0 <= j < |nodes| && c in kids[j] ==> c in nodes && c.parent == nodes[j])
    && (forall j, k :: 0 <= j < |nodes| && 0 <= k < |nodes| && nodes[k].parent == nodes[j] ==> nodes[k] in kids[j])
    && (forall j :: 0 <= j < |nodes| ==> NoRepeats(kids[j]))
  }

  ghost predicate WellFormedTree(nodes: seq<RigidBodyNode>)
    reads nodes
  {
    TreeShape(nodes) && ChildLinks(nodes, ChildLists(nodes))
  }

  /** No child is registered twice. */
  predicate NoRepeats<T(==)>(s: seq<T>)
  {
    forall i, j :: 0 <= i < j < |s| ==> s[i] != s[j]
  }

  lemma NoRepeatsAppend<T>(s: seq<T>, x: T)
    requires NoRepeats(s) && x !in s
    ensures NoRepeats(s + [x])
  {
  }

  /** A sequence without repeats has as many elements as its length. */
  lemma {:induction false} NoRepeatsCardinality<T>(s: seq<T>)
    requires NoRepeats(s)
    ensures |set x | x in s| == |s|
  {
    if s != [] {
      var init, last := s[..|s| - 1], s[|s| - 1];
      assert NoRepeats(init);
      NoRepeatsCardinality(init);
      assert s == init + [last];
      assert last !in init;
      assert (set x | x in s) == (set x | x in init) + {last};
    }
  }

  /** The number of parent links from nodes[k] up to Ground. */
  ghost function Depth(nodes: seq<RigidBodyNode>, k: int): nat
    reads nodes
    requires WellFormedTree(nodes) && 0 <= k < |nodes|
    decreases k
  {
    if k == 0 then 0
    else
      assert ParentLink(nodes, k);
      1 + Depth(nodes, nodes[k].parent.nodeNum)
  }

  /** A node of the tree is the node at index nodeNum. */
  lemma NodeAtItsNumber(nodes: seq<RigidBodyNode>, n: RigidBodyNode)
    requires WellFormedTree(nodes) && n in nodes
    ensures 0 <= n.nodeNum < |nodes| && nodes[n.nodeNum] == n
  {
    var k :| 0 <= k < |nodes| && nodes[k] == n;
  }

  /** A node's level is the number of ancestors separating it from Ground. */
  lemma {:induction false} LevelCountsAncestors(nodes: seq<RigidBodyNode>, k: int)
    requires WellFormedTree(nodes) && 0 <= k < |nodes|
    ensures nodes[k].level == Depth(nodes, k)
    ensures k > 0 ==> nodes[k].level >= 1
    decreases k
  {
    if k > 0 {
      assert ParentLink(nodes, k);
      var p := nodes[k].parent;
      NodeAtItsNumber(nodes, p);
      LevelCountsAncestors(nodes, p.nodeNum);
    }
  }

  /** Ground is the one node at level 0. */
  lemma GroundIsUniqueLevelZero(nodes: seq<RigidBodyNode>, n: RigidBodyNode)
    requires WellFormedTree(nodes) && n in nodes
    ensures n.IsGroundNode() <==> n == nodes[0]
  {
    NodeAtItsNumber(nodes, n);
    LevelCountsAncestors(nodes, n.nodeNum);
  }

  /** The base nodes are exactly the children of Ground. */
  lemma BaseNodesHangFromGround(nodes: seq<RigidBodyNode>, n: RigidBodyNode)
    requires WellFormedTree(nodes) && n in nodes
    ensures n.IsBaseNode() <==> n.parent == nodes[0]
  {
    NodeAtItsNumber(nodes, n);
    if n != nodes[0] {
      assert ParentLink(nodes, n.nodeNum);
      GroundIsUniqueLevelZero(nodes, n.parent);
    }
  }

  /**
   * A node of the tree appears in the children of exactly one node, its
   * parent; Ground appears in no node's children.
   */
  lemma ExactlyOneParent(nodes: seq<RigidBodyNode>, c: RigidBodyNode, p: RigidBodyNode)
    requires WellFormedTree(nodes) && c in nodes && p in nodes
    ensures c in p.children <==> p == c.parent
    ensures c == nodes[0] ==> c !in p.children
  {
    NodeAtItsNumber(nodes, p);
    NodeAtItsNumber(nodes, c);
    if c != nodes[0] {
      assert ParentLink(nodes, c.nodeNum);
    }
  }

  /** getNChildren() is the number of nodes of the tree whose parent is p. */
  lemma NChildrenCountsChildren(nodes: seq<RigidBodyNode>, p: RigidBodyNode)
    requires WellFormedTree(nodes) && p in nodes
    ensures p.GetNChildren() == |set c | c in nodes && c.parent == p|
  {
    NodeAtItsNumber(nodes, p);
    forall c | c in nodes ensures c in p.children <==> c.parent == p {
      ExactlyOneParent(nodes, c, p);
    }
    assert (set c | c in nodes && c.parent == p) == (set c | c in p.children);
    NoRepeatsCardinality(p.children);
  }

  /** Children sit one level below their parent. */
  lemma ChildLevel(nodes: seq<RigidBodyNode>, p: RigidBodyNode, c: RigidBodyNode)
    requires WellFormedTree(nodes) && p in nodes && c in p.children
    ensures c in nodes && c.level == p.level + 1 && p.nodeNum < c.nodeNum
  {
    NodeAtItsNumber(nodes, p);
    NodeAtItsNumber(nodes, c);
    assert c != nodes[0];
    assert ParentLink(nodes, c.nodeNum);
  }

  /** Distinct nodes own distinct cache entries. */
  lemma DistinctSlots(nodes: seq<RigidBodyNode>, m: RigidBodyNode, n: RigidBodyNode)
    requires WellFormedTree(nodes) && m in nodes && n in nodes
    ensures 0 <= m.nodeNum < |nodes| && 0 <= n.nodeNum < |nodes|
    ensures m.nodeNum == n.nodeNum <==> m == n
  {
    NodeAtItsNumber(nodes, m);
    NodeAtItsNumber(nodes, n);
  }

  // ---------------------------------------------------------------------------
  // Building a tree with the node's setters

  /** Make a freshly constructed node the Ground of a one-node tree. */
  method MakeGround(ground: RigidBodyNode) returns (nodes: seq<RigidBodyNode>)
    requires ground.parent == null && ground.children == []
    modifies ground`level, ground`nodeNum
    ensures nodes == [ground] && WellFormedTree(nodes)
    ensures ground.IsGroundNode() && ground.GetNodeNum() == 0
  {
    ground.SetLevel(0);
    ground.SetNodeNum(0);
    nodes := [ground];
  }

  /**
   * Attach a freshly constructed node below parent p: it gets the next node
   * number and the level below p, and p registers it as its last child.
   */
  method AddNode(nodes: seq<RigidBodyNode>, p: RigidBodyNode, child: RigidBodyNode)
    returns (tree: seq<RigidBodyNode>)
    requires WellFormedTree(nodes) && p in nodes && child !in nodes
    requires child.parent == null && child.children == []
    modifies p`children, child`level, child`nodeNum, child`parent
    ensures tree == nodes + [child] && WellFormedTree(tree)
    ensures child.GetParent() == p && child.GetLevel() == p.GetLevel() + 1
    ensures child.GetNodeNum() == |nodes|
    ensures p.children == old(p.children) + [child]
  {
    NodeAtItsNumber(nodes, p);
    ghost var pk := p.nodeNum;
    ghost var kids := ChildLists(nodes);
    Link(p, child, |nodes|);
    tree := nodes + [child];

    // Neither part reads the children lists, so both still hold of the old nodes.
    assert TreeShape(nodes) && ChildLinks(nodes, kids);
    forall k | 0 <= k < |nodes| && k != pk ensures nodes[k].children == kids[k] {
      assert nodes[k].nodeNum == k;
    }
    TreeExtend(nodes, kids, pk, child);
  }

  /**
   * The four setter calls that hang child below p with node number n: nothing
   * else changes.
   */
  method Link(p: RigidBodyNode, child: RigidBodyNode, n: int)
    requires p != child
    modifies p`children, child`level, child`nodeNum, child`parent
    ensures child.level == old(p.level) + 1 && child.nodeNum == n && child.parent == p
    ensures p.children == old(p.children) + [child]
  {
    child.SetLevel(p.GetLevel() + 1);
    child.SetNodeNum(n);
    child.SetParent(p);
    p.AddChild(child);
  }

  /**
   * The tree after the link: the old nodes keep their shape and their
   * children lists, except that nodes[pk] has the new node appended, and the
   * new node hangs from nodes[pk] one level down.
   */
  lemma TreeExtend(nodes: seq<RigidBodyNode>, kids: seq<seq<RigidBodyNode>>, pk: int, child: RigidBodyNode)
    requires TreeShape(nodes) && |kids| == |nodes| && ChildLinks(nodes, kids)
    requires 0 <= pk < |nodes| && child !in nodes
    requires forall k :: 0 <= k < |nodes| && k != pk ==> nodes[k].children == kids[k]
    requires nodes[pk].children == kids[pk] + [child] && child.children == []
    requires child.parent == nodes[pk] && child.level == nodes[pk].level + 1 && child.nodeNum == |nodes|
    ensures WellFormedTree(nodes + [child])
  {
    var tree := nodes + [child];
    ShapeExtend(nodes, child);
    LinksExtend(nodes, kids, pk, child);
    assert ChildLists(tree) == kids[pk := kids[pk] + [child]] + [[]];
  }

  /** Appending a node that hangs from a node of the tree keeps its shape. */
  lemma ShapeExtend(nodes: seq<RigidBodyNode>, child: RigidBodyNode)
    requires TreeShape(nodes) && child !in nodes
    requires child.parent != null && child.parent in nodes
    requires child.level == child.parent.level + 1 && child.nodeNum == |nodes|
    ensures TreeShape(nodes + [child])
  {
    var tree := nodes + [child];
    var i :| 0 <= i < |nodes| && nodes[i] == child.parent;
    forall k | 0 < k < |tree| ensures ParentLink(tree, k) {
      if k < |nodes| {
        assert ParentLink(nodes, k);
      }
    }
  }

  /**
   * Registering a new node, whose parent is nodes[pk], as the last child of
   * nodes[pk] keeps every children list correct.
   */
  lemma LinksExtend(nodes: seq<RigidBodyNode>, kids: seq<seq<RigidBodyNode>>, pk: int, child: RigidBodyNode)
    requires TreeShape(nodes) && |kids| == |nodes| && ChildLinks(nodes, kids)
    requires 0 <= pk < |nodes| && child !in nodes && child.parent == nodes[pk]
    ensures ChildLinks(nodes + [child], kids[pk := kids[pk] + [child]] + [[]])
  {
    var tree, kids' := nodes + [child], kids[pk := kids[pk] + [child]] + [[]];
    assert child !in kids[pk];
    NoRepeatsAppend(kids[pk], child);
    forall j, k | 0 <= j < |tree| && 0 <= k < |tree| && tree[k].parent == tree[j] ensures tree[k] in kids'[j] {
      if k < |nodes| {
        assert k > 0 && ParentLink(nodes, k);
        assert j < |nodes|;
      } else {
        assert j < |nodes| && nodes[j].nodeNum == nodes[pk].nodeNum;
      }
    }
  }

  // ---------------------------------------------------------------------------
  // Cache entries in a tree

  /**
   * When a node writes its body configuration in ground, no other node's entry
   * changes, and each of its children reads the new value back as X_GP.
   */
  method StoreX_GB(nodes: seq<RigidBodyNode>, k: int, cc: ConfigurationCache, X_GB: Transform)
    requires WellFormedTree(nodes) && 0 <= k < |nodes|
    requires cc.Valid() && cc.nBodies == |nodes|
    modifies cc.bodyConfigInGround
    ensures nodes[k].GetX_GB(cc) == X_GB
    ensures forall j :: 0 <= j < |nodes| && j != k ==> nodes[j].GetX_GB(cc) == old(nodes[j].GetX_GB(cc))
    ensures forall c :: c in nodes[k].children ==> c.parent != null && c.GetX_GP(cc) == X_GB
  {
    nodes[k].UpdX_GB(cc, X_GB);
    forall c | c in nodes[k].children ensures c.parent != null && c.GetX_GP(cc) == X_GB {
      ChildLevel(nodes, nodes[k], c);
    }
  }
}
