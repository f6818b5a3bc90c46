/**
 * The `config` tool: the `@Config` classes arranged as a tree of nodes by their
 * dotted paths, and the command that prints the subtree at a path or the
 * detail of one property.
 *
 * The tree of nodes is a map from a node's position (the child names leading to
 * it from the root) to the node; the root sits at the empty position. A node's
 * children and properties are what its position's extensions and its
 * `properties` say. Printing itself is not modelled: the command returns what
 * it would print.
 */
module ConfigTool {
  import opened Wrappers
  import opened Strings

  /** The position of a node: the names of the children leading to it from the root. */
  type Position = seq<string>

  /**
   * A node made from a `@Config` class: the name it is attached under, the path
   * of its annotation split at `.`, and the names of its properties.
   */
  datatype ToolNode = ToolNode(name: string, path: seq<string>, properties: set<string>)

  const ROOT: ToolNode := ToolNode("", [], {})

  type NodeMap = map<Position, ToolNode>

  /** The root is present and every node's ancestors are. */
  predicate WellFormed(nodes: NodeMap)
  {
    && [] in nodes
    && forall p, k :: p in nodes && 0 <= k <= |p| ==> p[..k] in nodes
  }

  /**
   * `find` from the node at `current`: one child per segment of `path`,
   * `None` at the first missing child.
   */
  function FindFrom(nodes: NodeMap, current: Position, path: seq<string>): (r: Option<ToolNode>)
    requires current in nodes
    ensures r.Some? ==> current + path in nodes && r.value == nodes[current + path]
    decreases |path|
  {
    if path == [] then
      assert current + path == current;
      Some(nodes[current])
    else if current + [path[0]] in nodes then
      assert current + [path[0]] + path[1..] == current + path;
      FindFrom(nodes, current + [path[0]], path[1..])
    else None
  }

  /** `find` from the root. */
  function Find(nodes: NodeMap, path: seq<string>): (r: Option<ToolNode>)
    requires [] in nodes
    ensures r.Some? ==> path in nodes && r.value == nodes[path]
  {
    assert [] + path == path;
    FindFrom(nodes, [], path)
  }

  /** A successful walk passes through a node at every prefix of its path. */
  lemma {:induction false} FindPassesPrefixes(nodes: NodeMap, current: Position, path: seq<string>)
    requires current in nodes && FindFrom(nodes, current, path).Some?
    ensures forall k :: 0 <= k <= |path| ==> current + path[..k] in nodes
    decreases |path|
  {
    if path != [] {
      var next := current + [path[0]];
      FindPassesPrefixes(nodes, next, path[1..]);
      forall k | 0 <= k <= |path| ensures current + path[..k] in nodes {
        if k == 0 {
          assert current + path[..0] == current;
        } else {
          assert current + path[..k] == next + path[1..][..k - 1];
        }
      }
    }
  }

  /** In a well-formed tree the walk finds a node exactly at the positions present. */
  lemma {:induction false} FindFromInTree(nodes: NodeMap, current: Position, path: seq<string>)
    requires WellFormed(nodes) && current in nodes
    ensures FindFrom(nodes, current, path).Some? <==> current + path in nodes
    decreases |path|
  {
    if path != [] {
      var next := current + [path[0]];
      if next in nodes {
        assert next + path[1..] == current + path;
        FindFromInTree(nodes, next, path[1..]);
      } else {
        assert (current + path)[..|next|] == next;
      }
    }
  }

  /** The same from the root: `find` is membership in the tree. */
  lemma FindInTree(nodes: NodeMap, path: seq<string>)
    requires WellFormed(nodes)
    ensures Find(nodes, path) == if path in nodes then Some(nodes[path]) else None
  {
    FindFromInTree(nodes, [], path);
    assert [] + path == path;
  }

  /**
   * The position under which `buildTree` attaches a node with this path,
   * walking from `current`: empty segments are skipped, existing children are
   * entered, and the first missing child stops the walk. `None` when every
   * segment matched and nothing is attached.
   */
  function AttachPoint(nodes: NodeMap, current: Position, path: seq<string>): (r: Option<Position>)
    requires current in nodes
    ensures r.Some? ==> r.value in nodes
    decreases |path|
  {
    if path == [] then None
    else if path[0] == "" then AttachPoint(nodes, current, path[1..])
    else if current + [path[0]] in nodes then AttachPoint(nodes, current + [path[0]], path[1..])
    else Some(current)
  }

  /** The segments of a path that are not empty. */
  function NonEmpty(path: seq<string>): (r: seq<string>)
    ensures forall i :: 0 <= i < |r| ==> r[i] != ""
    ensures |r| <= |path|
  {
    if path == [] then []
    else if path[0] == "" then NonEmpty(path[1..])
    else [path[0]] + NonEmpty(path[1..])
  }

  /** Exactly the non-empty segments are kept, each as often as in the path. */
  lemma {:induction false} NonEmptyKeepsSegments(path: seq<string>)
    ensures multiset(NonEmpty(path))[""] == 0
    ensures forall x :: x != "" ==> multiset(NonEmpty(path))[x] == multiset(path)[x]
    decreases |path|
  {
    if path != [] {
      NonEmptyKeepsSegments(path[1..]);
      assert path == [path[0]] + path[1..];
      assert multiset(path) == multiset([path[0]]) + multiset(path[1..]);
      if path[0] != "" {
        assert multiset(NonEmpty(path)) == multiset([path[0]]) + multiset(NonEmpty(path[1..]));
      }
    }
  }

  /**
   * The attach point is where the walk along the non-empty segments meets its
   * first missing child: a prefix of them leads there and the next one is absent.
   */
  lemma {:induction false} AttachPointIsFirstMissing(nodes: NodeMap, current: Position, path: seq<string>)
    requires current in nodes
    ensures var r := AttachPoint(nodes, current, path);
      r.Some? ==>
        exists k ::
          && 0 <= k < |NonEmpty(path)|
          && r.value == current + NonEmpty(path)[..k]
          && current + NonEmpty(path)[..k + 1] !in nodes
    decreases |path|
  {
    var r := AttachPoint(nodes, current, path);
    if path == [] || r.None? {
    } else if path[0] == "" {
      assert NonEmpty(path) == NonEmpty(path[1..]);
      assert r == AttachPoint(nodes, current, path[1..]);
      AttachPointIsFirstMissing(nodes, current, path[1..]);
    } else {
      var next := current + [path[0]];
      var rest := NonEmpty(path[1..]);
      assert NonEmpty(path) == [path[0]] + rest;
      if next in nodes {
        assert r == AttachPoint(nodes, next, path[1..]);
        AttachPointIsFirstMissing(nodes, next, path[1..]);
        var k :| 0 <= k < |rest| && r.value == next + rest[..k] && next + rest[..k + 1] !in nodes;
        ConsPrefix(current, path[0], rest, k);
        ConsPrefix(current, path[0], rest, k + 1);
      } else {
        ConsPrefix(current, path[0], rest, 0);
        assert current + NonEmpty(path)[..0] == current;
      }
    }
  }

  /** A prefix of a segment list with a head, after `current`, is a prefix of the rest after the head's child. */
  lemma ConsPrefix(current: Position, head: string, rest: seq<string>, k: nat)
    requires k <= |rest|
    ensures current + ([head] + rest)[..k + 1] == current + [head] + rest[..k]
  {
    assert ([head] + rest)[..k + 1] == [head] + rest[..k];
  }

  /**
   * Nothing is attached exactly when the non-empty segments already lead to a
   * node from `current`.
   */
  lemma {:induction false} AttachPointNone(nodes: NodeMap, current: Position, path: seq<string>)
    requires WellFormed(nodes) && current in nodes
    ensures AttachPoint(nodes, current, path).None? <==> current + NonEmpty(path) in nodes
    decreases |path|
  {
    if path == [] {
      assert current + [] == current;
    } else if path[0] == "" {
      AttachPointNone(nodes, current, path[1..]);
    } else {
      var next := current + [path[0]];
      assert current + NonEmpty(path) == next + NonEmpty(path[1..]);
      if next in nodes {
        AttachPointNone(nodes, next, path[1..]);
      } else {
        var full := next + NonEmpty(path[1..]);
        assert full[..|next|] == next;
      }
    }
  }

  /**
   * `addChild` under `parent`: the node is put at its name, replacing any child
   * of that name together with the subtree below it.
   */
  function AddChild(nodes: NodeMap, parent: Position, node: ToolNode): (r: NodeMap)
    requires WellFormed(nodes) && parent in nodes
    ensures WellFormed(r)
    ensures parent + [node.name] in r && r[parent + [node.name]] == node
    ensures forall p :: parent + [node.name] < p ==> p !in r
    ensures forall p :: !(parent + [node.name] <= p) ==> (p in r <==> p in nodes)
    ensures forall p :: p in nodes && !(parent + [node.name] <= p) ==> r[p] == nodes[p]
  {
    var at := parent + [node.name];
    var kept := map p | p in nodes && !(at <= p) :: nodes[p];
    var r := kept[at := node];
    assert forall p, k :: p in r && 0 <= k <= |p| ==> p[..k] in r by {
      forall p, k | p in r && 0 <= k <= |p| ensures p[..k] in r {
        if p == at {
          if k == |p| {
            assert p[..k] == at;
          } else {
            assert p[..k] == parent[..k];
            assert !(at <= parent[..k]);
          }
        } else {
          assert p in nodes && !(at <= p);
          assert p[..k] in nodes;
        }
      }
    }
    r
  }

  /** The tree after `buildTree(node)`. */
  function BuildTreeSpec(nodes: NodeMap, node: ToolNode): (r: NodeMap)
    requires WellFormed(nodes)
    ensures WellFormed(r)
  {
    match AttachPoint(nodes, [], node.path)
    case None => nodes
    case Some(parent) => AddChild(nodes, parent, node)
  }

  /** The tree after `buildTree` on each node in turn. */
  function BuildAll(nodes: NodeMap, list: seq<ToolNode>): (r: NodeMap)
    requires WellFormed(nodes)
    ensures WellFormed(r)
    decreases |list|
  {
    if list == [] then nodes
    else BuildTreeSpec(BuildAll(nodes, list[..|list| - 1]), list[|list| - 1])
  }

  /** A node whose non-empty segments already lead to a node is dropped. */
  lemma BuildTreeUnchanged(nodes: NodeMap, node: ToolNode)
    requires WellFormed(nodes) && NonEmpty(node.path) in nodes
    ensures BuildTreeSpec(nodes, node) == nodes
  {
    AttachPointNone(nodes, [], node.path);
    assert [] + NonEmpty(node.path) == NonEmpty(node.path);
  }

  /**
   * Otherwise the node is found under the deepest existing node of its path,
   * at its name, and nothing outside that child's subtree changes.
   */
  lemma BuildTreeAttaches(nodes: NodeMap, node: ToolNode)
    requires WellFormed(nodes) && NonEmpty(node.path) !in nodes
    ensures AttachPoint(nodes, [], node.path).Some?
    ensures var parent := AttachPoint(nodes, [], node.path).value;
      exists k ::
        && 0 <= k < |NonEmpty(node.path)|
        && parent == NonEmpty(node.path)[..k]
        && NonEmpty(node.path)[..k + 1] !in nodes
    ensures var at := AttachPoint(nodes, [], node.path).value + [node.name];
      && Find(BuildTreeSpec(nodes, node), at) == Some(node)
      && forall p :: !(at <= p) ==> Find(BuildTreeSpec(nodes, node), p) == Find(nodes, p)
  {
    AttachPointNone(nodes, [], node.path);
    assert [] + NonEmpty(node.path) == NonEmpty(node.path);
    AttachPointIsFirstMissing(nodes, [], node.path);
    forall k | 0 <= k <= |NonEmpty(node.path)|
      ensures [] + NonEmpty(node.path)[..k] == NonEmpty(node.path)[..k]
    {
    }
    var r := BuildTreeSpec(nodes, node);
    var at := AttachPoint(nodes, [], node.path).value + [node.name];
    FindInTree(r, at);
    forall p | !(at <= p) ensures Find(r, p) == Find(nodes, p) {
      FindInTree(r, p);
      FindInTree(nodes, p);
    }
  }

  /** What the command prints. */
  datatype Printed =
    | PrintTree(at: Position)                  // the subtree at a node
    | PrintDetail(at: Position, property: string)  // one property of a node

  datatype Completed = Completed(exitCode: int, printed: Printed)

  datatype ToolError =
    | InvalidConfigPath(path: seq<string>)
    | InvalidConfigProperty(property: string)

  /** The path named by the command-line arguments: joined with `.`, then split at `.`. */
  function ArgsPath(args: seq<string>): seq<string>
  {
    JavaSplit(Join(args, '.'), '.')
  }

  /**
   * The unresolved path as a parent and a last segment: a missing parent is an
   * invalid path, a parent without that property an invalid property.
   */
  function Info(nodes: NodeMap, path: seq<string>): (r: Result<Completed, ToolError>)
    requires WellFormed(nodes) && path !in nodes
    ensures r.Ok? <==> path[..|path| - 1] in nodes && path[|path| - 1] in nodes[path[..|path| - 1]].properties
    ensures r.Ok? ==> r.value == Completed(0, PrintDetail(path[..|path| - 1], path[|path| - 1]))
    ensures r.Err? && r.error.InvalidConfigPath? <==> path[..|path| - 1] !in nodes
    ensures r.Err? && r.error.InvalidConfigPath? ==> r.error.path == path
    ensures r.Err? && r.error.InvalidConfigProperty? ==> r.error.property == path[|path| - 1]
  {
    var parent := path[..|path| - 1];
    var last := path[|path| - 1];
    FindInTree(nodes, parent);
    match Find(nodes, parent)
    case None => Err(InvalidConfigPath(path))
    case Some(node) =>
      if last !in node.properties then Err(InvalidConfigProperty(last))
      else Ok(Completed(0, PrintDetail(parent, last)))
  }

  /** The command: `None` stands for absent arguments. */
  function Call(nodes: NodeMap, args: Option<seq<string>>): (r: Result<Completed, ToolError>)
    requires WellFormed(nodes)
    ensures r.Ok? ==> r.value.exitCode == 0
    ensures (args.None? || args.value == []) ==> r == Ok(Completed(0, PrintTree([])))
    ensures args.Some? && args.value != [] && ArgsPath(args.value) in nodes
      ==> r == Ok(Completed(0, PrintTree(ArgsPath(args.value))))
    ensures args.Some? && args.value != [] && ArgsPath(args.value) !in nodes
      ==> r == Info(nodes, ArgsPath(args.value))
  {
    if args.Some? && |args.value| > 0 then
      var path := ArgsPath(args.value);
      FindInTree(nodes, path);
      match Find(nodes, path)
      case None => Info(nodes, path)
      case Some(_) => Ok(Completed(0, PrintTree(path)))
    else
      Ok(Completed(0, PrintTree([])))
  }

  /** An argument with dots names the same path as its segments given apart. */
  lemma CallFlattensArgs(nodes: NodeMap, xs: seq<string>, group: seq<string>, ys: seq<string>)
    requires WellFormed(nodes) && |group| >= 1
    ensures Call(nodes, Some(xs + [Join(group, '.')] + ys)) == Call(nodes, Some(xs + group + ys))
  {
    JoinFlatten(xs, group, ys, '.');
  }

  /** `["a.b", "c"]` and `["a", "b", "c"]` resolve the same. */
  lemma DottedArgument(nodes: NodeMap)
    requires WellFormed(nodes)
    ensures Call(nodes, Some(["a.b", "c"])) == Call(nodes, Some(["a", "b", "c"]))
  {
    assert Join(["b"], '.') == "b";
    assert Join(["a", "b"], '.') == "a.b";
    CallFlattensArgs(nodes, [], ["a", "b"], ["c"]);
    assert [] + [Join(["a", "b"], '.')] + ["c"] == ["a.b", "c"];
    assert [] + ["a", "b"] + ["c"] == ["a", "b", "c"];
  }

  /** The tool's state: the tree of nodes. */
  class ConfigurationTool {
    var nodes: NodeMap

    /** A tool with the root alone. */
    constructor()
      ensures nodes == map[[] := ROOT]
      ensures WellFormed(nodes)
    {
      nodes := map[[] := ROOT];
    }

    predicate Valid()
      reads this
    {
      WellFormed(nodes)
    }

    /** Inserts one node, walking down from the root along its path. */
    method BuildTree(node: ToolNode)
      requires Valid()
      modifies this
      ensures Valid()
      ensures nodes == BuildTreeSpec(old(nodes), node)
    {
      var current: Position := [];
      var i := 0;
      while i < |node.path|
        invariant 0 <= i <= |node.path|
        invariant nodes == old(nodes) && current in nodes
        invariant AttachPoint(nodes, [], node.path) == AttachPoint(nodes, current, node.path[i..])
      {
        var part := node.path[i];
        assert node.path[i..][1..] == node.path[i + 1..];
        if part != "" {
          if current + [part] in nodes {
            current := current + [part];
          } else {
            nodes := AddChild(nodes, current, node);
            return;
          }
        }
        i := i + 1;
      }
    }

    /** Inserts the scanned nodes one by one, in the order given. */
    method Initialize(list: seq<ToolNode>)
      requires Valid()
      modifies this
      ensures Valid()
      ensures nodes == BuildAll(old(nodes), list)
    {
      var i := 0;
      while i < |list|
        invariant 0 <= i <= |list|
        invariant Valid()
        invariant nodes == BuildAll(old(nodes), list[..i])
      {
        assert list[..i + 1][..i] == list[..i];
        BuildTree(list[i]);
        i := i + 1;
      }
      assert list[..i] == list;
    }
  }
}
