/** Cancellable contexts form a tree: cancelling a context cancels everything below it. */
module Contexts {
  import opened Wrappers

  datatype Node = Node(parent: Option<nat>, cancelled: bool)

  /** A node is created after its parent, so parents have smaller indices. */
  predicate ParentsFirst(nodes: seq<Node>) {
    forall i :: 0 <= i < |nodes| && nodes[i].parent.Some? ==> nodes[i].parent.value < i
  }

  type Tree = nodes: seq<Node> | ParentsFirst(nodes) witness []

  /** ctx.Err() == nil: neither the context nor any of its ancestors was cancelled. */
  predicate Live(tree: Tree, c: nat)
    decreases c
  {
    c < |tree| && !tree[c].cancelled && (tree[c].parent.Some? ==> Live(tree, tree[c].parent.value))
  }

  /** `a` is `c` itself or one of the contexts `c` was derived from. */
  predicate IsAncestor(tree: Tree, a: nat, c: nat)
    decreases c
  {
    c < |tree| && (a == c || (tree[c].parent.Some? && IsAncestor(tree, a, tree[c].parent.value)))
  }

  /** The tree after deriving a context; the new context is number |tree|. */
  function WithCancel(tree: Tree, parent: Option<nat>): (r: Tree)
    requires parent.Some? ==> parent.value < |tree|
    ensures |r| == |tree| + 1 && r[..|tree|] == tree
  {
    tree + [Node(parent, false)]
  }

  function Cancel(tree: Tree, c: nat): (r: Tree)
    ensures |r| == |tree|
  {
    if c < |tree| then tree[c := tree[c].(cancelled := true)] else tree
  }

  lemma {:induction false} LiveAfterWithCancel(tree: Tree, parent: Option<nat>, c: nat)
    requires parent.Some? ==> parent.value < |tree|
    ensures c < |tree| ==> Live(WithCancel(tree, parent), c) == Live(tree, c)
    ensures c == |tree| ==>
              (Live(WithCancel(tree, parent), c) <==> parent.Some? ==> Live(tree, parent.value))
    decreases c
  {
    if c < |tree| {
      if tree[c].parent.Some? {
        LiveAfterWithCancel(tree, parent, tree[c].parent.value);
      }
    } else if c == |tree| && parent.Some? {
      LiveAfterWithCancel(tree, parent, parent.value);
    }
  }

  /** Cancelling kills exactly the context and its descendants. */
  lemma {:induction false} LiveAfterCancel(tree: Tree, a: nat, c: nat)
    ensures Live(Cancel(tree, a), c) <==> Live(tree, c) && !IsAncestor(tree, a, c)
    decreases c
  {
    if c < |tree| && tree[c].parent.Some? {
      LiveAfterCancel(tree, a, tree[c].parent.value);
    }
  }

  /** Who is whose ancestor changes neither by cancelling nor by deriving contexts. */
  lemma {:induction false} AncestorsStay(tree: Tree, tree': Tree, a: nat, c: nat)
    requires c < |tree| <= |tree'| && forall i | 0 <= i < |tree| :: tree'[i].parent == tree[i].parent
    ensures IsAncestor(tree', a, c) == IsAncestor(tree, a, c)
    decreases c
  {
    if tree[c].parent.Some? {
      AncestorsStay(tree, tree', a, tree[c].parent.value);
    }
  }

  lemma {:induction false} AncestorsAreOlder(tree: Tree, a: nat, c: nat)
    requires IsAncestor(tree, a, c)
    ensures a <= c
    decreases c
  {
    if a != c {
      AncestorsAreOlder(tree, a, tree[c].parent.value);
    }
  }

  /** The contexts of one process; cancel functions act on it by context number. */
  class ContextTree {
    var nodes: Tree

    constructor ()
      ensures nodes == []
    {
      nodes := [];
    }

    method Derive(parent: Option<nat>) returns (c: nat)
      requires parent.Some? ==> parent.value < |nodes|
      modifies this
      ensures nodes == WithCancel(old(nodes), parent) && c == |old(nodes)|
    {
      c := |nodes|;
      nodes := nodes + [Node(parent, false)];
    }

    method CancelContext(c: nat)
      modifies this
      ensures nodes == Cancel(old(nodes), c)
    {
      if c < |nodes| {
        nodes := nodes[c := nodes[c].(cancelled := true)];
      }
    }
  }
}
