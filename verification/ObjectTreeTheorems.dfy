/** What the frozen tree holds, and what of it is visible. */
module ObjectTreeTheorems {
  import opened Sorting
  import opened ObjectTree

  // ---- Walking the tree ----

  ghost function VisibleItems(node: ObjectTreeNode, expanded: iset<string>): seq<Item>
    decreases node, 0
  {
    node.items + VisibleBelow(node.children, expanded)
  }

  ghost function VisibleBelow(children: seq<ObjectTreeNode>, expanded: iset<string>): seq<Item>
    decreases children, 0
  {
    if |children| == 0 then [] else
      var last := children[|children| - 1];
      VisibleBelow(children[..|children| - 1], expanded) + Contribution(last, expanded)
  }

  ghost function Contribution(child: ObjectTreeNode, expanded: iset<string>): seq<Item>
    decreases child, 1
  {
    if child.id in expanded then VisibleItems(child, expanded) else []
  }

  function Ids(items: seq<Item>): seq<string> {
    if |items| == 0 then [] else Ids(items[..|items| - 1]) + [items[|items| - 1].id]
  }

  lemma {:induction false} IdsConcat(a: seq<Item>, b: seq<Item>)
    ensures Ids(a + b) == Ids(a) + Ids(b)
  {
    if |b| == 0 {
      assert a + b == a;
    } else {
      assert (a + b)[..|a + b| - 1] == a + b[..|b| - 1];
      IdsConcat(a, b[..|b| - 1]);
    }
  }

  ghost const EVERY_ID := iset id: string | 0 <= |id|

  ghost function AsISet(s: set<string>): iset<string> {
    iset x | x in s
  }

  /** visibleLeafIds: the ids of a folder's items, then those of its expanded folders. */
  method VisibleLeafIds(node: ObjectTreeNode, expanded: set<string>) returns (result: seq<string>)
    ensures result == Ids(VisibleItems(node, AsISet(expanded)))
  {
    result := Walk(node, expanded, []);
  }

  lemma WalkedOn(before: seq<string>, shown: seq<Item>, more: seq<Item>)
    ensures before + Ids(shown) + Ids(more) == before + Ids(shown + more)
    ensures more == [] ==> before + Ids(shown) == before + Ids(shown + more)
  {
    IdsConcat(shown, more);
  }

  method Walk(node: ObjectTreeNode, expanded: set<string>, before: seq<string>) returns (result: seq<string>)
    ensures result == before + Ids(VisibleItems(node, AsISet(expanded)))
    decreases node
  {
    ghost var shown: seq<Item> := node.items;
    result := before + Ids(node.items);
    for i := 0 to |node.children|
      invariant shown == node.items + VisibleBelow(node.children[..i], AsISet(expanded))
      invariant result == before + Ids(shown)
    {
      var child := node.children[i];
      ghost var more := Contribution(child, AsISet(expanded));
      assert shown + more == node.items + VisibleBelow(node.children[..i + 1], AsISet(expanded)) by {
        BelowOneMore(node.children, i + 1, AsISet(expanded));
      }
      WalkedOn(before, shown, more);
      if child.id in expanded {
        result := Walk(child, expanded, result);
      }
      shown := shown + more;
    }
    assert node.children[..|node.children|] == node.children;
  }

  lemma BelowOneMore(children: seq<ObjectTreeNode>, n: nat, expanded: iset<string>)
    requires 0 < n <= |children|
    ensures VisibleBelow(children[..n], expanded) == VisibleBelow(children[..n - 1], expanded) + Contribution(children[n - 1], expanded)
  {
    assert children[..n][..n - 1] == children[..n - 1];
  }

  // ---- Sorting the folders does not matter to what is visible ----

  lemma {:induction false} InsertShows(sorted: seq<ObjectTreeNode>, x: ObjectTreeNode, key: ObjectTreeNode -> string, expanded: iset<string>)
    ensures multiset(VisibleBelow(Insert(sorted, x, key), expanded)) ==
      multiset(VisibleBelow(sorted, expanded)) + multiset(Contribution(x, expanded))
  {
    if |sorted| == 0 || !Less(key(x), key(sorted[|sorted| - 1])) {
      assert (sorted + [x])[..|sorted|] == sorted;
    } else {
      var init, last := sorted[..|sorted| - 1], sorted[|sorted| - 1];
      InsertShows(init, x, key, expanded);
      var r := Insert(sorted, x, key);
      assert r[..|r| - 1] == Insert(init, x, key) && r[|r| - 1] == last;
    }
  }

  lemma {:induction false} SortingShows(children: seq<ObjectTreeNode>, key: ObjectTreeNode -> string, expanded: iset<string>)
    ensures multiset(VisibleBelow(SortedBy(children, key), expanded)) == multiset(VisibleBelow(children, expanded))
  {
    if |children| > 0 {
      SortingShows(children[..|children| - 1], key, expanded);
      InsertShows(SortedBy(children[..|children| - 1], key), children[|children| - 1], key, expanded);
    }
  }

  // ---- The items below a folder, by the folders in it ----

  ghost predicate FolderOpen(item: Item, k: nat, expanded: iset<string>) {
    k <= |item.path| ==> Join(item.path[..k]) in expanded
  }

  ghost predicate Opens(item: Item, from: nat, expanded: iset<string>) {
    forall k: nat {:trigger FolderOpen(item, k, expanded)} :: from < k ==> FolderOpen(item, k, expanded)
  }

  /** The items at or below a path to which every folder on the way is expanded. */
  ghost function Shown(items: seq<Item>, path: Path, expanded: iset<string>): seq<Item> {
    if |items| == 0 then [] else
      var last := items[|items| - 1];
      Shown(items[..|items| - 1], path, expanded) + if Under(last, path) && Opens(last, |path|, expanded) then [last] else []
  }

  ghost function ShownVia(items: seq<Item>, path: Path, segment: string, expanded: iset<string>): multiset<Item> {
    if Join(path + [segment]) in expanded then multiset(Shown(items, path + [segment], expanded)) else multiset{}
  }

  ghost function ShownThrough(items: seq<Item>, path: Path, segments: seq<string>, expanded: iset<string>): multiset<Item> {
    if |segments| == 0 then multiset{} else
      ShownThrough(items, path, segments[..|segments| - 1], expanded) + ShownVia(items, path, segments[|segments| - 1], expanded)
  }

  ghost predicate Distinct(segments: seq<string>) {
    forall i, j :: 0 <= i < j < |segments| ==> segments[i] != segments[j]
  }

  lemma OpensFrom(item: Item, from: nat, expanded: iset<string>)
    ensures Opens(item, from, expanded) <==> FolderOpen(item, from + 1, expanded) && Opens(item, from + 1, expanded)
  {
    var next := from + 1;
    assert Opens(item, from, expanded) ==> FolderOpen(item, next, expanded);
  }

  lemma NextFolder(item: Item, path: Path, expanded: iset<string>)
    requires path < item.path
    ensures FolderOpen(item, |path| + 1, expanded) <==> Join(path + [item.path[|path|]]) in expanded
  {
    OneFurther(item.path, path);
  }

  lemma OneFurther(path: Path, start: Path)
    requires start < path
    ensures path[..|start| + 1] == start + [path[|start|]]
  {
  }

  lemma OpensStep(item: Item, path: Path, expanded: iset<string>)
    requires path < item.path
    ensures Opens(item, |path|, expanded) <==> Join(path + [item.path[|path|]]) in expanded && Opens(item, |path| + 1, expanded)
  {
    NextFolder(item, path, expanded);
    OpensFrom(item, |path|, expanded);
  }

  lemma UnderChild(item: Item, path: Path, segment: string)
    ensures Under(item, path + [segment]) <==> path < item.path && item.path[|path|] == segment
  {
    var below := path + [segment];
    if Under(item, below) {
      assert item.path[..|path|] == below[..|path|] == path && item.path[|path|] == below[|path|];
    }
    if path < item.path && item.path[|path|] == segment {
      assert item.path[..|path| + 1] == below;
    }
  }

  ghost predicate Passes(item: Item, path: Path, segment: string, expanded: iset<string>) {
    path < item.path && item.path[|path|] == segment && Opens(item, |path|, expanded)
  }

  ghost predicate PassesAny(item: Item, path: Path, segments: seq<string>, expanded: iset<string>) {
    path < item.path && item.path[|path|] in segments && Opens(item, |path|, expanded)
  }

  lemma ViaOneMore(items: seq<Item>, item: Item, path: Path, segment: string, expanded: iset<string>)
    ensures ShownVia(items + [item], path, segment, expanded) ==
      ShownVia(items, path, segment, expanded) + if Passes(item, path, segment, expanded) then multiset{item} else multiset{}
  {
    assert (items + [item])[..|items|] == items;
    UnderChild(item, path, segment);
    if path < item.path && item.path[|path|] == segment {
      OpensStep(item, path, expanded);
    }
  }

  // An item passes through one folder at most.
  lemma PassesOne(item: Item, path: Path, segments: seq<string>, expanded: iset<string>)
    requires |segments| > 0 && Distinct(segments)
    ensures var init, last := segments[..|segments| - 1], segments[|segments| - 1];
      && Distinct(init)
      && (PassesAny(item, path, segments, expanded) <==> PassesAny(item, path, init, expanded) || Passes(item, path, last, expanded))
      && !(PassesAny(item, path, init, expanded) && Passes(item, path, last, expanded))
  {
    var init, last := segments[..|segments| - 1], segments[|segments| - 1];
    assert segments == init + [last] && last !in init;
  }

  lemma {:induction false} ThroughOneMore(items: seq<Item>, item: Item, path: Path, segments: seq<string>, expanded: iset<string>)
    requires Distinct(segments)
    ensures ShownThrough(items + [item], path, segments, expanded) ==
      ShownThrough(items, path, segments, expanded) + if PassesAny(item, path, segments, expanded) then multiset{item} else multiset{}
  {
    if |segments| > 0 {
      PassesOne(item, path, segments, expanded);
      ThroughOneMore(items, item, path, segments[..|segments| - 1], expanded);
      ViaOneMore(items, item, path, segments[|segments| - 1], expanded);
    }
  }

  lemma {:induction false} ThroughNothing(path: Path, segments: seq<string>, expanded: iset<string>)
    ensures ShownThrough([], path, segments, expanded) == multiset{}
  {
    if |segments| > 0 {
      ThroughNothing(path, segments[..|segments| - 1], expanded);
    }
  }

  /** What is shown below a folder is its own items and what its expanded folders show. */
  lemma {:induction false} ShownSplits(items: seq<Item>, path: Path, segments: seq<string>, expanded: iset<string>)
    requires Distinct(segments)
    requires forall item :: item in items && path < item.path ==> item.path[|path|] in segments
    ensures multiset(Shown(items, path, expanded)) ==
      multiset(ItemsAt(items, path)) + ShownThrough(items, path, segments, expanded)
  {
    if |items| == 0 {
      ThroughNothing(path, segments, expanded);
    } else {
      var init, last := items[..|items| - 1], items[|items| - 1];
      assert items == init + [last] && last in items;
      ShownSplits(init, path, segments, expanded);
      ThroughOneMore(init, last, path, segments, expanded);
    }
  }

  lemma SegmentsSuffice(items: seq<Item>, path: Path)
    ensures Distinct(Segments(items, path))
    ensures forall item :: item in items && path < item.path ==> item.path[|path|] in Segments(items, path)
  {
    SegmentsAre(items, path);
    forall item | item in items && path < item.path ensures item.path[|path|] in Segments(items, path) {
      assert item.path[..|path| + 1] == path + [item.path[|path|]];
      assert Under(item, path + [item.path[|path|]]);
    }
  }

  // ---- The theorems ----

  // A child contributes what is shown by way of its segment.
  lemma ChildShows(items: seq<Item>, path: Path, names: Names, i: nat, expanded: iset<string>)
    requires i < |ChildrenAt(items, path, names)|
    ensures multiset(Contribution(ChildrenAt(items, path, names)[i], expanded)) ==
      ShownVia(items, path, Segments(items, path)[i], expanded)
    decreases Depth(items) - |path|, 0
  {
    TreeShows(items, path + [Segments(items, path)[i]], names, expanded);
  }

  // Sums over the folders, term by term.
  lemma {:induction false} SumsAgree(children: seq<ObjectTreeNode>, items: seq<Item>, path: Path, segments: seq<string>, expanded: iset<string>)
    requires |children| == |segments|
    requires forall i :: 0 <= i < |children| ==> multiset(Contribution(children[i], expanded)) == ShownVia(items, path, segments[i], expanded)
    ensures multiset(VisibleBelow(children, expanded)) == ShownThrough(items, path, segments, expanded)
    decreases |children|
  {
    if |children| > 0 {
      SumsAgree(children[..|children| - 1], items, path, segments[..|segments| - 1], expanded);
    }
  }

  /** Walking the tree shows exactly the items all of whose folders below the start are expanded, each
      as often as it is listed. */
  lemma {:induction false} TreeShows(items: seq<Item>, path: Path, names: Names, expanded: iset<string>)
    ensures multiset(VisibleItems(TreeAt(items, path, names), expanded)) == multiset(Shown(items, path, expanded))
    decreases Depth(items) - |path|, 1
  {
    var children, segments := ChildrenAt(items, path, names), Segments(items, path);
    if |path| >= Depth(items) {
      NoSegmentsAtDepth(items, path);
    }
    forall i | 0 <= i < |children|
      ensures multiset(Contribution(children[i], expanded)) == ShownVia(items, path, segments[i], expanded)
    {
      ChildShows(items, path, names, i, expanded);
    }
    SumsAgree(children, items, path, segments, expanded);
    SortingShows(children, FolderKey(names), expanded);
    SortedByIsStableSort(ItemsAt(items, path), ItemKey(names));
    SegmentsSuffice(items, path);
    ShownSplits(items, path, segments, expanded);
  }

  lemma {:induction false} AllShown(items: seq<Item>)
    ensures Shown(items, [], EVERY_ID) == items
  {
    if |items| > 0 {
      AllShown(items[..|items| - 1]);
      assert items == items[..|items| - 1] + [items[|items| - 1]];
    }
  }

  /** Every item is in the tree, as often as in the catalog. */
  lemma TreeConservesItems(items: seq<Item>, names: Names)
    ensures multiset(VisibleItems(TreeAt(items, [], names), EVERY_ID)) == multiset(items)
  {
    TreeShows(items, [], names, EVERY_ID);
    AllShown(items);
  }

  lemma {:induction false} ShownAre(items: seq<Item>, expanded: iset<string>, item: Item)
    ensures multiset(Shown(items, [], expanded))[item] == if Opens(item, 0, expanded) then multiset(items)[item] else 0
  {
    if |items| > 0 {
      ShownAre(items[..|items| - 1], expanded, item);
      assert items == items[..|items| - 1] + [items[|items| - 1]];
    }
  }

  /** With some folders expanded, an item is visible, as often as it is listed, if and only if every
      folder on its path is expanded. */
  lemma VisibleIffExpanded(items: seq<Item>, names: Names, expanded: set<string>, item: Item)
    ensures multiset(VisibleItems(TreeAt(items, [], names), AsISet(expanded)))[item] ==
      if forall k {:trigger item.path[..k]} :: 0 < k <= |item.path| ==> Join(item.path[..k]) in expanded
      then multiset(items)[item] else 0
  {
    TreeShows(items, [], names, AsISet(expanded));
    ShownAre(items, AsISet(expanded), item);
    forall k: nat | 0 < k <= |item.path| ensures FolderOpen(item, k, AsISet(expanded)) <==> Join(item.path[..k]) in expanded {}
  }

  // ---- Where items are ----

  ghost predicate PlacedAt(node: ObjectTreeNode, path: Path)
    decreases node, 0
  {
    && node.id == Join(path)
    && (forall i :: 0 <= i < |node.items| ==> node.items[i].path == path)
    && (forall i :: 0 <= i < |node.children| ==> PlacedBelow(node.children[i], path))
    && DistinctIds(node.children)
  }

  ghost predicate DistinctIds(nodes: seq<ObjectTreeNode>) {
    forall i, j :: 0 <= i < j < |nodes| ==> nodes[i].id != nodes[j].id
  }

  ghost predicate PlacedBelow(child: ObjectTreeNode, path: Path)
    decreases child, 1
  {
    exists segment {:trigger path + [segment]} :: PlacedAt(child, path + [segment])
  }

  lemma OnceInDistinct(nodes: seq<ObjectTreeNode>, p: nat)
    requires DistinctIds(nodes) && p < |nodes|
    ensures multiset(nodes)[nodes[p]] == 1
  {
    assert nodes == nodes[..p] + [nodes[p]] + nodes[p + 1..];
  }

  lemma TwiceIfRepeated(nodes: seq<ObjectTreeNode>, i: nat, j: nat)
    requires i < j < |nodes| && nodes[i] == nodes[j]
    ensures multiset(nodes)[nodes[i]] >= 2
  {
    assert nodes == nodes[..j] + [nodes[j]] + nodes[j + 1..];
    assert nodes[i] in nodes[..j];
  }

  // Rearranging nodes leaves their ids distinct.
  lemma RearrangedIds(nodes: seq<ObjectTreeNode>, others: seq<ObjectTreeNode>)
    requires DistinctIds(nodes) && multiset(others) == multiset(nodes)
    ensures DistinctIds(others)
  {
    forall i, j | 0 <= i < j < |others| ensures others[i].id != others[j].id {
      assert others[i] in multiset(nodes) && others[j] in multiset(nodes);
      var p :| 0 <= p < |nodes| && nodes[p] == others[i];
      var q :| 0 <= q < |nodes| && nodes[q] == others[j];
      OnceInDistinct(nodes, p);
      if others[i] == others[j] {
        TwiceIfRepeated(others, i, j);
      }
    }
  }

  lemma SiblingIds(items: seq<Item>, path: Path, names: Names)
    ensures DistinctIds(ChildrenAt(items, path, names))
  {
    var children, segments := ChildrenAt(items, path, names), Segments(items, path);
    SegmentsSuffice(items, path);
    forall i, j | 0 <= i < j < |children| ensures children[i].id != children[j].id {
      IdOfChild(items, path, names, i);
      IdOfChild(items, path, names, j);
      JoinsApart(path, segments[i], segments[j]);
    }
  }

  lemma IdOfChild(items: seq<Item>, path: Path, names: Names, i: nat)
    requires i < |ChildrenAt(items, path, names)|
    ensures ChildrenAt(items, path, names)[i].id == Join(path + [Segments(items, path)[i]])
  {
    assert ChildrenAt(items, path, names)[i] == TreeAt(items, path + [Segments(items, path)[i]], names);
  }

  lemma JoinsApart(path: Path, segment: string, other: string)
    requires segment != other
    ensures Join(path + [segment]) != Join(path + [other])
  {
    var before := if Join(path) == "" then "" else Join(path) + ".";
    assert (path + [segment])[..|path|] == path && (path + [other])[..|path|] == path;
    assert Join(path + [segment])[|before|..] == segment && Join(path + [other])[|before|..] == other;
  }

  // Going down by child numbers follows the segments.
  ghost predicate Follows(node: ObjectTreeNode, path: Path, segments: seq<string>, way: seq<nat>)
    decreases |segments|
  {
    |way| == |segments| &&
    (|way| > 0 ==>
       && way[0] < |node.children| && PlacedAt(node.children[way[0]], path + [segments[0]])
       && Follows(node.children[way[0]], path + [segments[0]], segments[1..], way[1..]))
  }

  /** A path leads to one node at most. */
  lemma {:induction false} OneNodeAPath(node: ObjectTreeNode, path: Path, segments: seq<string>, way: seq<nat>, other: seq<nat>)
    requires PlacedAt(node, path) && Follows(node, path, segments, way) && Follows(node, path, segments, other)
    ensures way == other
    decreases |segments|
  {
    if |segments| > 0 {
      assert DistinctIds(node.children);
      assert way[0] == other[0];
      OneNodeAPath(node.children[way[0]], path + [segments[0]], segments[1..], way[1..], other[1..]);
      assert way == [way[0]] + way[1..] && other == [other[0]] + other[1..];
    }
  }

  /** Each node reached along some segments has their joined id and holds only items of that very path, and
      no two children of a node have the same id, so none the same segment. */
  lemma {:induction false} ItemsSitAtTheirPath(items: seq<Item>, path: Path, names: Names)
    ensures PlacedAt(TreeAt(items, path, names), path)
    decreases Depth(items) - |path|, 1
  {
    SortedByMembers(ItemsAt(items, path), ItemKey(names));
    SortedByMembers(ChildrenAt(items, path, names), FolderKey(names));
    ItemsAtAre(items, path);
    SiblingIds(items, path, names);
    SortedByIsStableSort(ChildrenAt(items, path, names), FolderKey(names));
    RearrangedIds(ChildrenAt(items, path, names), SortedBy(ChildrenAt(items, path, names), FolderKey(names)));
    forall child | child in ChildrenAt(items, path, names) ensures PlacedBelow(child, path) {
      ChildSitsBelow(items, path, names, child);
    }
  }

  lemma ChildSitsBelow(items: seq<Item>, path: Path, names: Names, child: ObjectTreeNode)
    requires child in ChildrenAt(items, path, names)
    ensures PlacedBelow(child, path)
    decreases Depth(items) - |path|, 0
  {
    var j :| 0 <= j < |ChildrenAt(items, path, names)| && ChildrenAt(items, path, names)[j] == child;
    ItemsSitAtTheirPath(items, path + [Segments(items, path)[j]], names);
  }

  // ---- What folders are called ----

  /** A folder has the catalog's name for its id, or else the last segment of its path; the root has none. */
  ghost predicate NamedFrom(node: ObjectTreeNode, path: Path, names: Names)
    decreases node, 0
  {
    && node.name == (if |path| == 0 then ""
                     else if node.id in names.folders then names.folders[node.id]
                     else path[|path| - 1])
    && (forall i :: 0 <= i < |node.children| ==> NamedBelow(node.children[i], path, names))
  }

  ghost predicate NamedBelow(child: ObjectTreeNode, path: Path, names: Names)
    decreases child, 1
  {
    exists segment {:trigger path + [segment]} :: child.id == Join(path + [segment]) && NamedFrom(child, path + [segment], names)
  }

  lemma {:induction false} FoldersAreNamed(items: seq<Item>, path: Path, names: Names)
    ensures NamedFrom(TreeAt(items, path, names), path, names)
    decreases Depth(items) - |path|, 1
  {
    SortedByMembers(ChildrenAt(items, path, names), FolderKey(names));
    forall child | child in ChildrenAt(items, path, names) ensures NamedBelow(child, path, names) {
      ChildIsNamed(items, path, names, child);
    }
  }

  lemma ChildIsNamed(items: seq<Item>, path: Path, names: Names, child: ObjectTreeNode)
    requires child in ChildrenAt(items, path, names)
    ensures NamedBelow(child, path, names)
    decreases Depth(items) - |path|, 0
  {
    var j :| 0 <= j < |ChildrenAt(items, path, names)| && ChildrenAt(items, path, names)[j] == child;
    IdOfChild(items, path, names, j);
    FoldersAreNamed(items, path + [Segments(items, path)[j]], names);
  }

  function DotJoin(path: Path): string {
    if |path| == 0 then "" else if |path| == 1 then path[0] else DotJoin(path[..|path| - 1]) + "." + path[|path| - 1]
  }

  lemma {:induction false} JoinIsShorter(path: Path)
    requires |path| > 1
    ensures path[0] != "" ==> Join(path) == DotJoin(path) && Join(path) != ""
    ensures path[0] == "" ==> |Join(path)| < |DotJoin(path)|
  {
    var init := path[..|path| - 1];
    if |path| > 2 {
      JoinIsShorter(init);
    } else {
      assert init == [path[0]] && Join([]) == "" && Join(init) == path[0];
    }
  }

  /** A folder's id is its segments joined with dots, except that leading empty segments leave no dot. */
  lemma {:induction false} IdIsDotJoinedIff(path: Path)
    ensures Join(path) == DotJoin(path) <==> |path| <= 1 || path[0] != ""
  {
    if |path| > 1 {
      JoinIsShorter(path);
    } else if |path| == 1 {
      assert path[..0] == [] && Join([]) == "";
    }
  }

  /** A leading empty segment leaves no trace: the folder shares the id of the path without it. */
  lemma {:induction false} LeadingEmptySegment(path: Path)
    ensures Join([""] + path) == Join(path)
  {
    if |path| == 0 {
      assert [""] + path == [""] && [""][..0] == [];
      assert Join([]) == "";
    } else {
      assert ([""] + path)[..|path|] == [""] + path[..|path| - 1];
      LeadingEmptySegment(path[..|path| - 1]);
    }
  }

  /** Folders and items are listed by lower-cased name, equal names in order of appearance. */
  lemma TreeIsOrdered(items: seq<Item>, path: Path, names: Names, k: string)
    ensures var node := TreeAt(items, path, names);
      && Ordered(node.children, FolderKey(names)) && Ordered(node.items, ItemKey(names))
      && OfKey(node.items, ItemKey(names), k) == OfKey(ItemsAt(items, path), ItemKey(names), k)
      && OfKey(node.children, FolderKey(names), k) == OfKey(ChildrenAt(items, path, names), FolderKey(names), k)
  {
    SortedByIsStableSort(ItemsAt(items, path), ItemKey(names));
    SortedByIsStableSort(ChildrenAt(items, path, names), FolderKey(names));
  }
}
