/** The object tree of ObjectTreeNode.kt: a trie grown on the heap from item paths, then frozen.

    What it freezes to is told from the items alone: for each path, the items that sit at it and the
    segments with which longer item paths go on. */
module ObjectTree {
  import opened Sorting

  type Path = seq<string>

  datatype Item = Item(id: string, name: string, path: Path)

  datatype ObjectTreeNode = ObjectTreeNode(id: string, name: string, children: seq<ObjectTreeNode>, items: seq<Item>)

  /** The catalog's folder names, and the library's lower-casing. */
  datatype Names = Names(folders: map<string, string>, lowercase: string -> string)

  function FolderKey(names: Names): ObjectTreeNode -> string {
    (node: ObjectTreeNode) => names.lowercase(node.name)
  }

  function ItemKey(names: Names): Item -> string {
    (item: Item) => names.lowercase(item.name)
  }

  /** The id of the folder at a path, as the string builder writes it. */
  function Join(path: Path): string {
    if |path| == 0 then "" else
      var before := Join(path[..|path| - 1]);
      (if before == "" then "" else before + ".") + path[|path| - 1]
  }

  function FolderName(path: Path, names: Names): string {
    if |path| == 0 then ""
    else if Join(path) in names.folders then names.folders[Join(path)] else path[|path| - 1]
  }

  // ---- The tree told from the items alone ----

  predicate Under(item: Item, path: Path) {
    path <= item.path
  }

  function ItemsAt(items: seq<Item>, path: Path): seq<Item> {
    if |items| == 0 then [] else
      var last := items[|items| - 1];
      ItemsAt(items[..|items| - 1], path) + if last.path == path then [last] else []
  }

  // The next segments below a path, in the order they first appear.
  function Segments(items: seq<Item>, path: Path): seq<string> {
    if |items| == 0 then [] else
      var before := Segments(items[..|items| - 1], path);
      var last := items[|items| - 1];
      if path < last.path && last.path[|path|] !in before then before + [last.path[|path|]] else before
  }

  function Depth(items: seq<Item>): nat {
    if |items| == 0 then 0 else
      var before := Depth(items[..|items| - 1]);
      var last := |items[|items| - 1].path|;
      if last > before then last else before
  }

  function ChildrenAt(items: seq<Item>, path: Path, names: Names): (children: seq<ObjectTreeNode>)
    ensures |children| == if |path| < Depth(items) then |Segments(items, path)| else 0
    decreases Depth(items) - |path|, 0
  {
    var segments := if |path| < Depth(items) then Segments(items, path) else [];
    seq(|segments|, i requires 0 <= i < |segments| => TreeAt(items, path + [segments[i]], names))
  }

  function TreeAt(items: seq<Item>, path: Path, names: Names): ObjectTreeNode
    decreases Depth(items) - |path|, 1
  {
    ObjectTreeNode(Join(path), FolderName(path, names),
      SortedBy(ChildrenAt(items, path, names), FolderKey(names)),
      SortedBy(ItemsAt(items, path), ItemKey(names)))
  }

  lemma {:induction false} PathsAreShallow(items: seq<Item>)
    ensures forall item :: item in items ==> |item.path| <= Depth(items)
  {
    if |items| > 0 {
      PathsAreShallow(items[..|items| - 1]);
      assert items == items[..|items| - 1] + [items[|items| - 1]];
    }
  }

  lemma {:induction false} SegmentsAre(items: seq<Item>, path: Path)
    ensures forall i, j :: 0 <= i < j < |Segments(items, path)| ==> Segments(items, path)[i] != Segments(items, path)[j]
    ensures forall segment :: segment in Segments(items, path) <==> exists item :: item in items && Under(item, path + [segment])
  {
    if |items| > 0 {
      var init, last := items[..|items| - 1], items[|items| - 1];
      SegmentsAre(init, path);
      assert items == init + [last];
      forall segment ensures Under(last, path + [segment]) <==> path < last.path && last.path[|path|] == segment {
        if path < last.path && last.path[|path|] == segment {
          assert last.path[..|path| + 1] == path + [segment];
        }
      }
      forall segment ensures segment in Segments(items, path) <==> exists item :: item in items && Under(item, path + [segment]) {
        if segment in Segments(init, path) {
          var item :| item in init && Under(item, path + [segment]);
          assert item in items;
        } else if Under(last, path + [segment]) {
          assert last in items;
        }
      }
    }
  }

  // Nothing lies below the deepest path.
  lemma NoSegmentsAtDepth(items: seq<Item>, path: Path)
    requires |path| >= Depth(items)
    ensures Segments(items, path) == []
  {
    SegmentsAre(items, path);
    PathsAreShallow(items);
    assert |Segments(items, path)| > 0 ==> Segments(items, path)[0] in Segments(items, path);
  }

  lemma NothingBelowNewFolder(items: seq<Item>, path: Path, segment: string)
    requires segment !in Segments(items, path)
    ensures Segments(items, path + [segment]) == [] && ItemsAt(items, path + [segment]) == []
  {
    var below := path + [segment];
    SegmentsAre(items, path);
    SegmentsAre(items, below);
    ItemsAtAre(items, below);
    forall item, next | item in items ensures !Under(item, below + [next]) && item.path != below {
      assert Under(item, below + [next]) ==> Under(item, below);
      assert !Under(item, below);
    }
    forall i | 0 <= i < |Segments(items, below)| ensures Segments(items, below)[i] in Segments(items, below) {}
    forall i | 0 <= i < |ItemsAt(items, below)| ensures ItemsAt(items, below)[i] in ItemsAt(items, below) {}
  }

  lemma {:induction false} ItemsAtAre(items: seq<Item>, path: Path)
    ensures forall item :: item in ItemsAt(items, path) ==> item in items && item.path == path
  {
    if |items| > 0 {
      ItemsAtAre(items[..|items| - 1], path);
    }
  }

  // ---- The heap ----

  class MutableTreeNode {
    const name: string
    const id: string
    // The keys of the linked map, in insertion order.
    var keys: seq<string>
    var children: map<string, MutableTreeNode>
    var items: seq<Item>

    constructor (name: string, id: string)
      ensures this.name == name && this.id == id && keys == [] && children == map[] && items == []
    {
      this.name, this.id := name, id;
      keys, children, items := [], map[], [];
    }
  }

  /** The fields of a node. */
  datatype Cell = Cell(id: string, name: string, keys: seq<string>, children: map<string, MutableTreeNode>, items: seq<Item>)

  ghost function CellOf(node: MutableTreeNode): Cell
    reads node
  {
    Cell(node.id, node.name, node.keys, node.children, node.items)
  }

  // Every folder of the trie by its path, and what its fields hold.
  type Nodes = map<Path, MutableTreeNode>

  type Cells = map<Path, Cell>

  ghost predicate Mirrors(nodes: Nodes, cells: Cells)
    reads nodes.Values
  {
    nodes.Keys == cells.Keys && forall path {:trigger nodes[path]} :: path in nodes ==> CellOf(nodes[path]) == cells[path]
  }

  ghost predicate CellOk(nodes: Nodes, cells: Cells, names: Names, path: Path, keys: seq<string>, items: seq<Item>) {
    path in cells ==>
      var cell := cells[path];
      && cell.id == Join(path) && cell.name == FolderName(path, names)
      && cell.keys == keys && cell.items == items
      && (forall key :: key in cell.children <==> key in keys)
      && (forall key :: key in cell.children ==> path + [key] in nodes && cell.children[key] == nodes[path + [key]])
  }

  ghost predicate Attached(cells: Cells, path: Path) {
    path in cells && |path| > 0 ==> path[..|path| - 1] in cells && path[|path| - 1] in cells[path[..|path| - 1]].keys
  }

  // No node is shared, and each but the root is a child of the one above it.
  ghost predicate Connected(nodes: Nodes, cells: Cells) {
    && [] in nodes && nodes.Keys == cells.Keys
    && (forall p, q {:trigger nodes[p], nodes[q]} :: p in nodes && q in nodes && nodes[p] == nodes[q] ==> p == q)
    && (forall path {:trigger Attached(cells, path)} :: Attached(cells, path))
  }

  // The folders on the way to the next item exist down to some depth.
  ghost function KeysSoFar(done: seq<Item>, item: Item, depth: nat, path: Path): seq<string> {
    if |path| < depth then Segments(done + [item], path) else Segments(done, path)
  }

  ghost predicate GrowingAt(nodes: Nodes, cells: Cells, names: Names, done: seq<Item>, item: Item, depth: nat, path: Path) {
    CellOk(nodes, cells, names, path, KeysSoFar(done, item, depth, path), ItemsAt(done, path))
  }

  ghost predicate Growing(nodes: Nodes, cells: Cells, names: Names, done: seq<Item>, item: Item, depth: nat) {
    Connected(nodes, cells) &&
    forall path {:trigger GrowingAt(nodes, cells, names, done, item, depth, path)} ::
      GrowingAt(nodes, cells, names, done, item, depth, path)
  }

  ghost predicate GrownAt(nodes: Nodes, cells: Cells, names: Names, done: seq<Item>, path: Path) {
    CellOk(nodes, cells, names, path, Segments(done, path), ItemsAt(done, path))
  }

  ghost predicate Grown(nodes: Nodes, cells: Cells, names: Names, done: seq<Item>) {
    Connected(nodes, cells) &&
    forall path {:trigger GrownAt(nodes, cells, names, done, path)} :: GrownAt(nodes, cells, names, done, path)
  }

  lemma OneMoreItem(done: seq<Item>, item: Item, path: Path)
    ensures !(path < item.path) ==> Segments(done + [item], path) == Segments(done, path)
    ensures path < item.path && item.path[|path|] in Segments(done, path) ==> Segments(done + [item], path) == Segments(done, path)
    ensures path < item.path && item.path[|path|] !in Segments(done, path) ==>
      Segments(done + [item], path) == Segments(done, path) + [item.path[|path|]]
    ensures ItemsAt(done + [item], path) == ItemsAt(done, path) + if item.path == path then [item] else []
  {
    assert (done + [item])[..|done|] == done;
  }

  lemma KeysStep(done: seq<Item>, item: Item, depth: nat, path: Path)
    requires depth < |item.path| && path != item.path[..depth]
    ensures KeysSoFar(done, item, depth + 1, path) == KeysSoFar(done, item, depth, path)
  {
    OneMoreItem(done, item, path);
  }

  lemma ChildFound(nodes: Nodes, cells: Cells, names: Names, done: seq<Item>, item: Item, depth: nat)
    requires depth < |item.path| && Growing(nodes, cells, names, done, item, depth) && item.path[..depth] in cells
    requires item.path[depth] in cells[item.path[..depth]].children
    ensures Growing(nodes, cells, names, done, item, depth + 1)
  {
    var deeper := depth + 1;
    forall path ensures GrowingAt(nodes, cells, names, done, item, deeper, path) {
      assert GrowingAt(nodes, cells, names, done, item, depth, path);
      if path == item.path[..depth] {
        OneMoreItem(done, item, path);
      } else {
        KeysStep(done, item, depth, path);
      }
    }
  }

  ghost function WithChild(cells: Cells, names: Names, here: Path, segment: string, child: MutableTreeNode): Cells
    requires here in cells
  {
    var below := here + [segment];
    cells[here := cells[here].(keys := cells[here].keys + [segment], children := cells[here].children[segment := child])]
         [below := Cell(Join(below), FolderName(below, names), [], map[], [])]
  }

  // A child is missing from its parent and so from the trie.
  ghost predicate Missing(nodes: Nodes, cells: Cells, names: Names, done: seq<Item>, item: Item, depth: nat) {
    && depth < |item.path| && Growing(nodes, cells, names, done, item, depth) && item.path[..depth] in cells
    && item.path[depth] !in cells[item.path[..depth]].children
  }

  lemma MissingIsNew(nodes: Nodes, cells: Cells, names: Names, done: seq<Item>, item: Item, depth: nat)
    requires Missing(nodes, cells, names, done, item, depth)
    ensures item.path[..depth] + [item.path[depth]] !in nodes
    ensures item.path[depth] !in Segments(done, item.path[..depth])
  {
    var here, below := item.path[..depth], item.path[..depth] + [item.path[depth]];
    assert GrowingAt(nodes, cells, names, done, item, depth, here);
    assert below[..|below| - 1] == here && Attached(cells, below);
  }

  lemma ChildAddedAt(nodes: Nodes, cells: Cells, names: Names, done: seq<Item>, item: Item, depth: nat, child: MutableTreeNode, path: Path)
    requires Missing(nodes, cells, names, done, item, depth)
    ensures var here, segment := item.path[..depth], item.path[depth];
      GrowingAt(nodes[here + [segment] := child], WithChild(cells, names, here, segment, child), names, done, item, depth + 1, path)
  {
    var here, segment := item.path[..depth], item.path[depth];
    var below := here + [segment];
    assert GrowingAt(nodes, cells, names, done, item, depth, path);
    MissingIsNew(nodes, cells, names, done, item, depth);
    if path == here {
      OneMoreItem(done, item, path);
    } else {
      KeysStep(done, item, depth, path);
      NothingBelowNewFolder(done, here, segment);
      forall key ensures path + [key] != below {
        assert (path + [key])[..|path|] == path && below[..|here|] == here;
      }
    }
  }

  lemma ChildAdded(nodes: Nodes, cells: Cells, names: Names, done: seq<Item>, item: Item, depth: nat, child: MutableTreeNode)
    requires Missing(nodes, cells, names, done, item, depth) && child !in nodes.Values
    ensures var here, segment := item.path[..depth], item.path[depth];
      Growing(nodes[here + [segment] := child], WithChild(cells, names, here, segment, child), names, done, item, depth + 1)
  {
    var here, segment, deeper := item.path[..depth], item.path[depth], depth + 1;
    var below := here + [segment];
    var nodes', cells' := nodes[below := child], WithChild(cells, names, here, segment, child);
    forall path ensures GrowingAt(nodes', cells', names, done, item, deeper, path) {
      ChildAddedAt(nodes, cells, names, done, item, depth, child, path);
    }
    MissingIsNew(nodes, cells, names, done, item, depth);
    assert below[..|below| - 1] == here;
    forall path ensures Attached(cells', path) {
      assert Attached(cells, path);
    }
  }

  lemma ItemAdded(nodes: Nodes, cells: Cells, names: Names, done: seq<Item>, item: Item)
    requires Growing(nodes, cells, names, done, item, |item.path|) && item.path in cells
    ensures Grown(nodes, WithItem(cells, item), names, done + [item])
  {
    var cells' := WithItem(cells, item);
    forall path ensures GrownAt(nodes, cells', names, done + [item], path) {
      assert GrowingAt(nodes, cells, names, done, item, |item.path|, path);
      OneMoreItem(done, item, path);
    }
    forall path ensures Attached(cells', path) {
      assert Attached(cells, path);
    }
  }

  lemma NextItem(nodes: Nodes, cells: Cells, names: Names, done: seq<Item>, item: Item)
    requires Grown(nodes, cells, names, done)
    ensures Growing(nodes, cells, names, done, item, 0)
  {
    forall path ensures GrowingAt(nodes, cells, names, done, item, 0, path) {
      assert GrownAt(nodes, cells, names, done, path);
    }
  }

  /** One turn of the loop over a path: the child is found, or made and linked. */
  method GetOrPut(ghost nodes: Nodes, ghost cells: Cells, node: MutableTreeNode, names: Names,
                  ghost done: seq<Item>, item: Item, depth: nat, folderId: string)
    returns (child: MutableTreeNode, ghost nodes': Nodes, ghost cells': Cells)
    requires depth < |item.path| && Mirrors(nodes, cells) && Growing(nodes, cells, names, done, item, depth)
    requires item.path[..depth] in nodes && nodes[item.path[..depth]] == node
    requires folderId == Join(item.path[..depth + 1])
    modifies node
    ensures Mirrors(nodes', cells') && Growing(nodes', cells', names, done, item, depth + 1)
    ensures item.path[..depth + 1] in nodes' && nodes'[item.path[..depth + 1]] == child
    ensures nodes'.Values <= nodes.Values + {child} && (child in nodes.Values || fresh(child))
    ensures nodes'[[]] == nodes[[]]
  {
    var segment := item.path[depth];
    ghost var here := item.path[..depth];
    assert item.path[..depth + 1] == here + [segment];
    if segment in node.children {
      child, nodes', cells' := node.children[segment], nodes, cells;
      assert GrowingAt(nodes, cells, names, done, item, depth, here);
      ChildFound(nodes, cells, names, done, item, depth);
    } else {
      MissingIsNew(nodes, cells, names, done, item, depth);
      child := new MutableTreeNode(if folderId in names.folders then names.folders[folderId] else segment, folderId);
      ChildAdded(nodes, cells, names, done, item, depth, child);
      nodes', cells' := nodes[here + [segment] := child], WithChild(cells, names, here, segment, child);
      LinkChild(nodes, cells, node, names, here, segment, child);
    }
  }

  method LinkChild(ghost nodes: Nodes, ghost cells: Cells, node: MutableTreeNode, names: Names, ghost here: Path, segment: string,
                   child: MutableTreeNode)
    requires Mirrors(nodes, cells) && here in nodes && nodes[here] == node && here + [segment] !in nodes && child !in nodes.Values
    requires forall p, q {:trigger nodes[p], nodes[q]} :: p in nodes && q in nodes && nodes[p] == nodes[q] ==> p == q
    requires CellOf(child) == Cell(Join(here + [segment]), FolderName(here + [segment], names), [], map[], [])
    modifies node`keys, node`children
    ensures Mirrors(nodes[here + [segment] := child], WithChild(cells, names, here, segment, child))
  {
    node.keys, node.children := node.keys + [segment], node.children[segment := child];
    forall path | path in nodes && path != here ensures CellOf(nodes[path]) == cells[path] {
      assert nodes[path] != nodes[here];
    }
  }

  /** The loop over one item's path, and the item added where it ends. */
  method AddItem(ghost nodes: Nodes, ghost cells: Cells, root: MutableTreeNode, names: Names, ghost done: seq<Item>, item: Item)
    returns (ghost nodes': Nodes, ghost cells': Cells)
    requires Mirrors(nodes, cells) && Grown(nodes, cells, names, done) && nodes[[]] == root
    modifies nodes.Values
    ensures Mirrors(nodes', cells') && Grown(nodes', cells', names, done + [item]) && nodes'[[]] == root
    ensures fresh(nodes'.Values - nodes.Values)
  {
    nodes', cells' := nodes, cells;
    NextItem(nodes, cells, names, done, item);
    var node := root;
    var pathSoFar := "";
    for depth := 0 to |item.path|
      invariant Mirrors(nodes', cells') && Growing(nodes', cells', names, done, item, depth)
      invariant item.path[..depth] in nodes' && nodes'[item.path[..depth]] == node && nodes'[[]] == root
      invariant pathSoFar == Join(item.path[..depth]) && fresh(nodes'.Values - nodes.Values)
    {
      if pathSoFar != "" {
        pathSoFar := pathSoFar + ".";
      }
      pathSoFar := pathSoFar + item.path[depth];
      assert item.path[..depth + 1][..depth] == item.path[..depth];
      node, nodes', cells' := GetOrPut(nodes', cells', node, names, done, item, depth, pathSoFar);
    }
    assert item.path[..|item.path|] == item.path;
    ItemAdded(nodes', cells', names, done, item);
    PutItem(nodes', cells', node, item);
    cells' := WithItem(cells', item);
  }

  ghost function WithItem(cells: Cells, item: Item): Cells
    requires item.path in cells
  {
    cells[item.path := cells[item.path].(items := cells[item.path].items + [item])]
  }

  method PutItem(ghost nodes: Nodes, ghost cells: Cells, node: MutableTreeNode, item: Item)
    requires Mirrors(nodes, cells) && item.path in nodes && nodes[item.path] == node
    requires forall p, q {:trigger nodes[p], nodes[q]} :: p in nodes && q in nodes && nodes[p] == nodes[q] ==> p == q
    modifies node`items
    ensures Mirrors(nodes, WithItem(cells, item))
  {
    node.items := node.items + [item];
    forall path | path in nodes && path != item.path ensures CellOf(nodes[path]) == cells[path] {
      assert nodes[path] != nodes[item.path];
    }
  }

  /** Freezing a node freezes what the items alone say of its folder. */
  method ToImmutable(ghost nodes: Nodes, ghost cells: Cells, node: MutableTreeNode, names: Names, ghost done: seq<Item>, ghost path: Path)
    returns (frozen: ObjectTreeNode)
    requires Mirrors(nodes, cells) && Grown(nodes, cells, names, done) && path in nodes && nodes[path] == node
    ensures frozen == TreeAt(done, path, names)
    decreases Depth(done) - |path|, 1
  {
    assert GrownAt(nodes, cells, names, done, path);
    var children := FreezeChildren(nodes, cells, node, names, done, path);
    frozen := ObjectTreeNode(node.id, node.name, SortedBy(children, FolderKey(names)), SortedBy(node.items, ItemKey(names)));
  }

  method FreezeChildren(ghost nodes: Nodes, ghost cells: Cells, node: MutableTreeNode, names: Names, ghost done: seq<Item>, ghost path: Path)
    returns (children: seq<ObjectTreeNode>)
    requires Mirrors(nodes, cells) && Grown(nodes, cells, names, done) && path in nodes && nodes[path] == node
    ensures children == ChildrenAt(done, path, names)
    decreases Depth(done) - |path|, 0
  {
    assert GrownAt(nodes, cells, names, done, path);
    children := [];
    if |path| >= Depth(done) {
      NoSegmentsAtDepth(done, path);
    }
    for i := 0 to |node.keys|
      invariant |children| == i && children == ChildrenAt(done, path, names)[..i]
    {
      assert node.keys[i] in node.keys;
      var child := ToImmutable(nodes, cells, node.children[node.keys[i]], names, done, path + [node.keys[i]]);
      children := children + [child];
    }
  }

  method BuildObjectTree(items: seq<Item>, names: Names) returns (tree: ObjectTreeNode)
    ensures tree == TreeAt(items, [], names)
  {
    var root := new MutableTreeNode("", "");
    ghost var nodes: Nodes, cells: Cells := map[[] := root], map[[] := Cell("", "", [], map[], [])];
    forall path ensures GrownAt(nodes, cells, names, [], path) && Attached(cells, path) {}
    for i := 0 to |items|
      invariant Mirrors(nodes, cells) && Grown(nodes, cells, names, items[..i]) && nodes[[]] == root && fresh(nodes.Values)
    {
      assert items[..i + 1] == items[..i] + [items[i]];
      nodes, cells := AddItem(nodes, cells, root, names, items[..i], items[i]);
    }
    assert items[..|items|] == items;
    tree := ToImmutable(nodes, cells, root, names, items, []);
  }
}
