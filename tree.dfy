/**
 * The configuration tree that providers fill and the binder reads: map
 * nodes keyed by path segment, array nodes and scalar value nodes. The tree
 * library itself is not part of this model; its `get`, `set` and `remove`
 * on dotted paths are given here the meaning the legacy bridge relies on:
 * `get` walks map nodes by key, `set` creates the missing intermediate maps
 * (replacing a non-map node that stands in the way) and `remove` deletes
 * the entry at the end of the path.
 */
module Tree {
  import opened Wrappers

  datatype TreeNode =
    | ValueNode(value: string)
    | ArrayNode(items: seq<TreeNode>)
    | MapNode(children: map<string, TreeNode>)

  /** A path is the sequence of segments of a dotted key. */
  type Path = seq<string>

  const EmptyMap: TreeNode := MapNode(map[])

  /** Two paths neither of which lies on the other. */
  predicate Independent(p: Path, q: Path)
  {
    !(p <= q) && !(q <= p)
  }

  /** The node at `p`, if every segment is found. */
  function Get(t: TreeNode, p: Path): Option<TreeNode>
    decreases |p|
  {
    if p == [] then Some(t)
    else if t.MapNode? && p[0] in t.children then Get(t.children[p[0]], p[1..])
    else None
  }

  /** `t` with `n` stored at `p`. */
  function Set(t: TreeNode, p: Path, n: TreeNode): TreeNode
    decreases |p|
  {
    if p == [] then n
    else
      var m := if t.MapNode? then t.children else map[];
      var child := if p[0] in m then m[p[0]] else EmptyMap;
      MapNode(m[p[0] := Set(child, p[1..], n)])
  }

  /** `t` without the entry at `p`; the root itself is never removed. */
  function Remove(t: TreeNode, p: Path): TreeNode
    decreases |p|
  {
    if p == [] || !t.MapNode? || p[0] !in t.children then t
    else if |p| == 1 then MapNode(t.children - {p[0]})
    else MapNode(t.children[p[0] := Remove(t.children[p[0]], p[1..])])
  }

  /** Reading a longer path is reading the rest of it below the node at the prefix. */
  lemma {:induction false} GetAppend(t: TreeNode, p: Path, r: Path)
    ensures Get(t, p + r) == if Get(t, p).Some? then Get(Get(t, p).value, r) else None
    decreases |p|
  {
    if p != [] {
      assert (p + r)[0] == p[0] && (p + r)[1..] == p[1..] + r;
      if t.MapNode? && p[0] in t.children {
        GetAppend(t.children[p[0]], p[1..], r);
      }
    } else {
      assert p + r == r;
    }
  }

  /** Below the path just set, the tree is the node that was set. */
  lemma {:induction false} GetSetBelow(t: TreeNode, p: Path, n: TreeNode, r: Path)
    ensures Get(Set(t, p, n), p + r) == Get(n, r)
    decreases |p|
  {
    if p == [] {
      assert p + r == r;
    } else {
      var m := if t.MapNode? then t.children else map[];
      var child := if p[0] in m then m[p[0]] else EmptyMap;
      assert (p + r)[0] == p[0] && (p + r)[1..] == p[1..] + r;
      GetSetBelow(child, p[1..], n, r);
    }
  }

  /** The node just set is read back. */
  lemma GetSet(t: TreeNode, p: Path, n: TreeNode)
    ensures Get(Set(t, p, n), p) == Some(n)
  {
    GetSetBelow(t, p, n, []);
    assert p + [] == p;
  }

  /** Setting a path leaves every independent path as it was. */
  lemma {:induction false} GetSetOther(t: TreeNode, p: Path, n: TreeNode, q: Path)
    requires Independent(p, q)
    ensures Get(Set(t, p, n), q) == Get(t, q)
    decreases |p|
  {
    var m := if t.MapNode? then t.children else map[];
    var child := if p[0] in m then m[p[0]] else EmptyMap;
    if p[0] == q[0] {
      assert Independent(p[1..], q[1..]);
      GetSetOther(child, p[1..], n, q[1..]);
    }
  }

  /** After a removal nothing is found at or below the removed path. */
  lemma {:induction false} GetRemoveBelow(t: TreeNode, p: Path, r: Path)
    requires p != []
    ensures Get(Remove(t, p), p + r) == None
    decreases |p|
  {
    assert (p + r)[0] == p[0] && (p + r)[1..] == p[1..] + r;
    if t.MapNode? && p[0] in t.children {
      if |p| == 1 {
      } else {
        GetRemoveBelow(t.children[p[0]], p[1..], r);
      }
    } else {
      GetAppend(t, p, r);
      assert Get(t, p) == None by { NotFoundFromPrefix(t, [p[0]], p[1..]); assert [p[0]] + p[1..] == p; }
    }
  }

  /** A path whose first segment is missing is missing. */
  lemma NotFoundFromPrefix(t: TreeNode, head: Path, rest: Path)
    requires Get(t, head) == None
    ensures Get(t, head + rest) == None
  {
    GetAppend(t, head, rest);
  }

  /** The removed path itself is gone. */
  lemma GetRemove(t: TreeNode, p: Path)
    requires p != []
    ensures Get(Remove(t, p), p) == None
  {
    GetRemoveBelow(t, p, []);
    assert p + [] == p;
  }

  /** Removing a path leaves every independent path as it was. */
  lemma {:induction false} GetRemoveOther(t: TreeNode, p: Path, q: Path)
    requires Independent(p, q)
    ensures Get(Remove(t, p), q) == Get(t, q)
    decreases |p|
  {
    if t.MapNode? && p[0] in t.children && p[0] == q[0] && |p| > 1 {
      assert Independent(p[1..], q[1..]);
      GetRemoveOther(t.children[p[0]], p[1..], q[1..]);
    }
  }

  /** A tree that is updated in place, as the providers fill it. */
  class MutableMapNode {
    var root: TreeNode

    constructor ()
      ensures root == EmptyMap
    {
      root := EmptyMap;
    }

    function GetAt(p: Path): Option<TreeNode>
      reads this
    {
      Get(root, p)
    }

    method SetAt(p: Path, n: TreeNode)
      modifies this
      ensures root == Set(old(root), p, n)
    {
      root := Set(root, p, n);
    }

    method RemoveAt(p: Path)
      modifies this
      ensures root == Remove(old(root), p)
    {
      root := Remove(root, p);
    }
  }
}
