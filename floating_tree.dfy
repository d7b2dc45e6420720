/** The floating tree: a list of registered nodes shared through a context,
    and the node context through which nested floating elements find their
    parent's id.  Nodes are compared by identity, so a node is an object. */
module FloatingTree {
  import opened Common

  /** `{ id, parentId }`. */
  class FloatingNode {
    const id: Option<string>
    const parentId: Option<string>

    constructor (id: Option<string>, parentId: Option<string>)
      ensures this.id == id && this.parentId == parentId
    {
      this.id := id;
      this.parentId := parentId;
    }
  }

  /** The `nodesRef` cell with `addNode` and `removeNode`. */
  class TreeStore {
    var nodes: seq<FloatingNode>

    constructor ()
      ensures nodes == []
    {
      nodes := [];
    }

    /** The node goes at the end; the others keep their order. */
    method AddNode(node: FloatingNode)
      modifies this
      ensures nodes == old(nodes) + [node]
    {
      nodes := nodes + [node];
    }

    /** Every entry that is this very node is dropped. */
    method RemoveNode(node: FloatingNode)
      modifies this
      ensures nodes == Without(old(nodes), node)
      ensures node !in nodes
      ensures forall n :: n in old(nodes) && n != node ==> n in nodes
      ensures nodes == old(nodes) <==> node !in old(nodes)
    {
      WithoutMembers(nodes, node);
      RemovedCount(nodes, node);
      nodes := Without(nodes, node);
    }
  }

  /** Filtering out a present element shortens the list. */
  lemma {:induction false} RemovedCount<T>(s: seq<T>, x: T)
    ensures x in s ==> |Without(s, x)| < |s|
  {
    if s != [] {
      RemovedCount(s[..|s| - 1], x);
      assert s == s[..|s| - 1] + [s[|s| - 1]];
    }
  }

  /** The two context cells: the current node and the current tree. */
  class Contexts {
    var node: Option<FloatingNode>
    var tree: Option<TreeStore>

    constructor ()
      ensures node == None && tree == None
    {
      node := None;
      tree := None;
    }
  }

  /** `node?.id || null`: the id of the node in context, if there is one
      and it is not empty. */
  function ParentNodeId(node: Option<FloatingNode>): (r: Option<string>)
    ensures r.Some? <==> node.Some? && node.value.id.Some? && node.value.id.value != ""
    ensures r.Some? ==> r == node.value.id && r.value != ""
  {
    if node.Some? && node.value.id.Some? && node.value.id.value != "" then node.value.id else None
  }

  method UseFloatingParentNodeId(c: Contexts) returns (r: Option<string>)
    ensures r == ParentNodeId(c.node)
  {
    r := ParentNodeId(c.node);
  }

  /** `customParentId || reactParentId`: an empty custom id falls through to
      the context's parent. */
  function ChooseParent(customParentId: Option<string>, contextParent: Option<string>): (r: Option<string>)
    ensures customParentId.Some? && customParentId.value != "" ==> r == customParentId
    ensures !(customParentId.Some? && customParentId.value != "") ==> r == contextParent
  {
    if customParentId.Some? && customParentId.value != "" then customParentId else contextParent
  }

  /** The registration of `useFloatingNodeId`: `id` is what `useId` gave.
      With a non-empty id a fresh `{ id, parentId }` record joins the tree in
      context; the record is returned so the teardown removes that very
      record. */
  method UseFloatingNodeId(c: Contexts, id: Option<string>, customParentId: Option<string>)
    returns (r: Option<string>, registered: Option<FloatingNode>)
    modifies if c.tree.Some? then {c.tree.value} else {}
    ensures r == id
    ensures registered.Some? <==> id.Some? && id.value != ""
    ensures registered.Some? ==> fresh(registered.value) && registered.value.id == id
    ensures registered.Some? ==>
              registered.value.parentId == ChooseParent(customParentId, ParentNodeId(c.node))
    ensures c.tree.Some? ==>
      c.tree.value.nodes == old(c.tree.value.nodes) + (if registered.Some? then [registered.value] else [])
  {
    r := id;
    registered := None;
    var parentId := ChooseParent(customParentId, ParentNodeId(c.node));
    if id.None? || id.value == "" {
      return;
    }
    var node := new FloatingNode(id, parentId);
    registered := Some(node);
    if c.tree.Some? {
      c.tree.value.AddNode(node);
    }
  }

  /** The teardown of the registration effect. */
  method DisposeFloatingNodeId(c: Contexts, registered: FloatingNode)
    modifies if c.tree.Some? then {c.tree.value} else {}
    ensures c.tree.Some? ==> c.tree.value.nodes == Without(old(c.tree.value.nodes), registered)
  {
    if c.tree.Some? {
      c.tree.value.RemoveNode(registered);
    }
  }

  /** `FloatingNode`: puts `{ id, parentId }` in the node context, with the
      parent id read from the enclosing node. */
  method ProvideNode(c: Contexts, id: Option<string>)
    modifies c
    ensures c.node.Some? && fresh(c.node.value) && c.node.value.id == id
    ensures c.node.value.parentId == ParentNodeId(old(c.node))
    ensures c.tree == old(c.tree)
  {
    var parentId := ParentNodeId(c.node);
    var node := new FloatingNode(id, parentId);
    c.node := Some(node);
  }

  /** `FloatingTree`: a fresh, empty store in the tree context. */
  method ProvideTree(c: Contexts)
    modifies c
    ensures c.tree.Some? && fresh(c.tree.value) && c.tree.value.nodes == []
    ensures c.node == old(c.node)
  {
    var store := new TreeStore();
    c.tree := Some(store);
  }

  /** Registering a node and tearing the registration down leaves the tree
      as it was, whatever it held before. */
  method RegisterThenDispose(c: Contexts, id: Option<string>, customParentId: Option<string>)
    returns (before: seq<FloatingNode>, after: seq<FloatingNode>)
    requires c.tree.Some?
    modifies c.tree.value
    ensures before == after
  {
    before := c.tree.value.nodes;
    var r, registered := UseFloatingNodeId(c, id, customParentId);
    if registered.Some? {
      assert registered.value !in before;
      WithoutAfterAppend(before, registered.value);
      DisposeFloatingNodeId(c, registered.value);
    }
    after := c.tree.value.nodes;
  }

  /** A nested node sees its parent's id; a custom parent id overrides it
      unless it is empty. */
  method NestedNodeParent(parentId: string, childId: string, customParentId: Option<string>)
    returns (child: Option<FloatingNode>)
    requires parentId != "" && childId != ""
    ensures child.Some?
    ensures customParentId.Some? && customParentId.value != "" ==> child.value.parentId == customParentId
    ensures customParentId == None || customParentId == Some("") ==> child.value.parentId == Some(parentId)
  {
    var c := new Contexts();
    ProvideTree(c);
    ProvideNode(c, Some(parentId));
    var r;
    r, child := UseFloatingNodeId(c, Some(childId), customParentId);
  }
}
