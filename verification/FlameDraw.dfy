/** The drawing pass of tools/pprof-flamegraph/main.go over the mutable tree. Maps are
    walked in an arbitrary order, yet what is drawn is a function of the samples. */
module FlameDraw {
  import opened Common
  import opened FlameTree
  import opened FlameOrder
  import opened FlameGraph
  import L = FlameLayout

  /** What buildTree leaves behind. */
  ghost predicate Stands(nodes: Nodes, root: TreeNode, ticks: seq<Tick>)
    reads nodes.Values
  {
    Shaped(nodes, root) && Accounts(ValuesOf(nodes), ticks, [], 0) && Positive(ticks)
  }

  ghost predicate Standing(nodes: Nodes, root: TreeNode, ticks: seq<Tick>)
    reads nodes.Values
  {
    forall key: nat :: Opened(TreeLock, key) ==> Stands(nodes, root, ticks)
  }

  lemma WorthIsWeight(ticks: seq<Tick>, p: Path)
    ensures Worth(ticks, [], 0, p) == Weight(ticks, p)
  {
  }

  lemma ChildIs(nodes: Nodes, root: TreeNode, ticks: seq<Tick>, p: Path, name: string)
    requires Standing(nodes, root, ticks) && p in nodes
    ensures name in nodes[p].children <==> name in KidNames(ticks, p)
    ensures name in nodes[p].children ==>
      p + [name] in nodes && nodes[p].children[name] == nodes[p + [name]]
      && nodes[p + [name]].name == name && nodes[p + [name]].value == Weight(ticks, p + [name]) > 0
  {
    assert Opened(TreeLock, 0);
    ChildLink(nodes, root, ChildrenOf(nodes), p, name);
    assert p + [name] in nodes <==> p + [name] in ValuesOf(nodes);
    WorthIsWeight(ticks, p + [name]);
    KidNamesArePaths(ticks, p, name);
  }

  /** The children of the node at `p` whose names are not in `left`. */
  ghost predicate Gathered(ticks: seq<Tick>, p: Path, order: seq<Kid>, left: set<string>) {
    Ordered(order) && forall k: Kid :: k in order <==> k in KidsOf(ticks, p) && k.name !in left
  }

  lemma GatheredStep(ticks: seq<Tick>, p: Path, order: seq<Kid>, left: set<string>, name: string, order': seq<Kid>)
    requires Gathered(ticks, p, order, left) && name in left && name in KidNames(ticks, p)
    requires Ordered(order') && forall k: Kid :: k in order' <==>
              k in order || k == Kid(name, Weight(ticks, p + [name]))
    ensures Gathered(ticks, p, order', left - {name})
  {
  }

  lemma GatheredAll(ticks: seq<Tick>, p: Path, order: seq<Kid>)
    requires Gathered(ticks, p, order, {})
    ensures order == Sorted(ticks, p)
  {
    OrderIsUnique(order, Sorted(ticks, p), KidsOf(ticks, p));
  }

  /** The children in drawing order, whichever order the map yields them in. */
  method SortedChildren(node: TreeNode, ghost p: Path, ghost nodes: Nodes, ghost root: TreeNode, ghost ticks: seq<Tick>)
    returns (children: seq<TreeNode>)
    requires Standing(nodes, root, ticks) && p in nodes && nodes[p] == node
    ensures |children| == |Sorted(ticks, p)|
    ensures forall i: nat :: i < |children| ==>
      p + [Sorted(ticks, p)[i].name] in nodes && children[i] == nodes[p + [Sorted(ticks, p)[i].name]]
  {
    var order: seq<Kid>, left := [], node.children.Keys;
    forall name: string ensures name in left <==> name in KidNames(ticks, p) {
      ChildIs(nodes, root, ticks, p, name);
    }
    while left != {}
      invariant left <= node.children.Keys && Gathered(ticks, p, order, left)
    {
      var name :| name in left;
      var child := node.children[name];
      ChildIs(nodes, root, ticks, p, name);
      var longer := Insert(order, Kid(child.name, child.value));
      GatheredStep(ticks, p, order, left, name, longer);
      order, left := longer, left - {name};
    }
    GatheredAll(ticks, p, order);
    forall i: nat | i < |order|
      ensures order[i].name in node.children
      ensures p + [order[i].name] in nodes && node.children[order[i].name] == nodes[p + [order[i].name]]
    {
      KidIsShort(ticks, p, order[i]);
      ChildIs(nodes, root, ticks, p, order[i].name);
    }
    children := seq(|order|, i requires 0 <= i < |order| && order[i].name in node.children reads node =>
                               node.children[order[i].name]);
  }

  // ---------- maximumDepth ----------

  /** The depth is the largest among the children, and nothing more. */
  lemma DepthIsLargest(t: L.Tree, depth: nat)
    requires forall i: nat :: i < |t.kids| ==> 1 + L.MaximumDepth(t.kids[i]) <= depth
    requires depth == 0 || exists i: nat :: i < |t.kids| && 1 + L.MaximumDepth(t.kids[i]) == depth
    ensures depth == L.MaximumDepth(t)
  {
    DepthAtMost(t, depth, |t.kids|);
    if depth > 0 {
      var i: nat :| i < |t.kids| && 1 + L.MaximumDepth(t.kids[i]) == depth;
      L.KidDepth(t, i, |t.kids|);
    }
  }

  lemma {:induction false} DepthAtMost(t: L.Tree, depth: nat, n: nat)
    requires n <= |t.kids| && forall i: nat :: i < |t.kids| ==> 1 + L.MaximumDepth(t.kids[i]) <= depth
    ensures L.DepthUpTo(t, n) <= depth
  {
    if n > 0 {
      DepthAtMost(t, depth, n - 1);
    }
  }

  /** The largest depth below the children of `p` whose names are not in `left`. */
  ghost predicate Deepest(ticks: seq<Tick>, p: Path, left: set<string>, depth: nat) {
    && (forall name: string :: name in KidNames(ticks, p) && name !in left ==>
          Below(ticks, p + [name], name, depth))
    && (depth == 0 || exists name: string :: name in KidNames(ticks, p) && Reaches(ticks, p + [name], name, depth))
  }

  ghost predicate Reaches(ticks: seq<Tick>, p: Path, name: string, depth: nat) {
    1 + L.MaximumDepth(TreeOf(ticks, p, name)) == depth
  }

  ghost predicate Below(ticks: seq<Tick>, p: Path, name: string, depth: nat) {
    1 + L.MaximumDepth(TreeOf(ticks, p, name)) <= depth
  }

  lemma DeepestStep(ticks: seq<Tick>, p: Path, left: set<string>, maximum: nat, name: string, depth: nat)
    requires Deepest(ticks, p, left, maximum) && name in left && name in KidNames(ticks, p)
    requires Reaches(ticks, p + [name], name, depth)
    ensures Deepest(ticks, p, left - {name}, if depth > maximum then depth else maximum)
  {
  }

  lemma DeepestStarts(nodes: Nodes, root: TreeNode, ticks: seq<Tick>, p: Path)
    requires Standing(nodes, root, ticks) && p in nodes
    ensures Deepest(ticks, p, nodes[p].children.Keys, 0)
  {
    forall name: string | name in KidNames(ticks, p) ensures name in nodes[p].children.Keys {
      ChildIs(nodes, root, ticks, p, name);
    }
  }

  lemma DeepestAll(ticks: seq<Tick>, p: Path, name: string, depth: nat)
    requires Deepest(ticks, p, {}, depth)
    ensures Reaches(ticks, p, name, 1 + depth)
  {
    var s, t := Sorted(ticks, p), TreeOf(ticks, p, name);
    forall i: nat | i < |t.kids| ensures 1 + L.MaximumDepth(t.kids[i]) <= depth {
      KidIsShort(ticks, p, s[i]);
      assert Below(ticks, p + [s[i].name], s[i].name, depth);
    }
    if depth > 0 {
      var n: string :| n in KidNames(ticks, p) && Reaches(ticks, p + [n], n, depth);
      var k := Kid(n, Weight(ticks, p + [n]));
      assert k in KidsOf(ticks, p);
      assert k in s;
      var i: nat :| i < |s| && s[i] == k;
      assert t.kids[i] == TreeOf(ticks, p + [n], n);
    }
    DepthIsLargest(t, depth);
  }

  method MaximumDepth(node: TreeNode, ghost p: Path, ghost nodes: Nodes, ghost root: TreeNode, ghost ticks: seq<Tick>)
    returns (maximum: nat)
    requires Standing(nodes, root, ticks) && p in nodes && nodes[p] == node
    ensures Reaches(ticks, p, node.name, 1 + maximum)
    decreases Longest(ticks) - |p|
  {
    maximum := 0;
    var left := node.children.Keys;
    DeepestStarts(nodes, root, ticks, p);
    while left != {}
      invariant left <= node.children.Keys && Deepest(ticks, p, left, maximum)
    {
      var name :| name in left;
      KidIs(nodes, root, ticks, p, name);
      var depth := MaximumDepth(node.children[name], p + [name], nodes, root, ticks);
      DeepestStep(ticks, p, left, maximum, name, 1 + depth);
      if 1 + depth > maximum {
        maximum := 1 + depth;
      }
      left := left - {name};
    }
    DeepestAll(ticks, p, node.name, maximum);
  }

  lemma KidIs(nodes: Nodes, root: TreeNode, ticks: seq<Tick>, p: Path, name: string)
    requires Standing(nodes, root, ticks) && p in nodes && name in nodes[p].children
    ensures p + [name] in nodes && nodes[p].children[name] == nodes[p + [name]] && nodes[p + [name]].name == name
    ensures name in KidNames(ticks, p) && |p + [name]| == |p| + 1 <= Longest(ticks)
  {
    ChildIs(nodes, root, ticks, p, name);
    NameIsShort(ticks, p, name);
  }

  lemma NameIsShort(ticks: seq<Tick>, p: Path, name: string)
    requires name in KidNames(ticks, p)
    ensures |p| < Longest(ticks)
  {
    var i: nat :| i < |ticks| && p <= ticks[i].stack && |p| < |ticks[i].stack| && ticks[i].stack[|p|] == name;
    LongestBounds(ticks, i);
  }

  // ---------- drawNode and drawChildren ----------

  /** A drawn rectangle. */
  datatype Frame = Frame(name: string, x: real, y: real, width: real)

  /** Rows counted from the bottom of the chart. */
  function Placed(rs: seq<L.Rect>, chartY: real, maximumDepth: nat): (frames: seq<Frame>)
    ensures |frames| == |rs|
  {
    seq(|rs|, i requires 0 <= i < |rs| => Frame(rs[i].name, rs[i].x, L.RowY(chartY, rs[i].depth, maximumDepth),
                                                rs[i].width))
  }

  lemma PlacedConcat(a: seq<L.Rect>, b: seq<L.Rect>, chartY: real, maximumDepth: nat)
    ensures Placed(a + b, chartY, maximumDepth) == Placed(a, chartY, maximumDepth) + Placed(b, chartY, maximumDepth)
  {
  }

  lemma KidIsTree(ticks: seq<Tick>, p: Path, name: string, i: nat)
    requires i < |Sorted(ticks, p)|
    ensures var s, t := Sorted(ticks, p), TreeOf(ticks, p, name);
      |t.kids| == |s| && t.value == Weight(ticks, p) && |p| < Longest(ticks)
      && t.kids[i] == TreeOf(ticks, p + [s[i].name], s[i].name) && t.kids[i].value == Weight(ticks, p + [s[i].name])
  {
    KidIsShort(ticks, p, Sorted(ticks, p)[i]);
  }

  /** The frames of a node, and those of its first `n` children. */
  ghost function NodeFrames(ticks: seq<Tick>, p: Path, name: string, x: real, chartY: real, width: real, depth: nat,
                            maximumDepth: nat): seq<Frame> {
    Placed(L.Layout(TreeOf(ticks, p, name), x, width, depth), chartY, maximumDepth)
  }

  ghost predicate ChildFrames(ticks: seq<Tick>, p: Path, name: string, x: real, chartY: real, width: real, depth: nat,
                              maximumDepth: nat, n: nat, childX: real, frames: seq<Frame>) {
    var t := TreeOf(ticks, p, name);
    && n <= |t.kids| && t.value > 0 && childX == L.KidX(t, x, width, n)
    && frames == Placed(L.LayoutUpTo(t, x, width, depth, n), chartY, maximumDepth)
  }

  lemma NoFrames(ticks: seq<Tick>, p: Path, name: string, x: real, chartY: real, width: real, depth: nat,
                 maximumDepth: nat)
    requires Weight(ticks, p) > 0
    ensures ChildFrames(ticks, p, name, x, chartY, width, depth, maximumDepth, 0, x, [])
  {
  }

  function Share(width: real, part: nat, whole: nat): real
    requires whole > 0
  {
    width * part as real / whole as real
  }

  lemma KidShare(t: L.Tree, width: real, i: nat)
    requires i < |t.kids| && t.value > 0
    ensures L.KidWidth(t, width, i) == Share(width, t.kids[i].value, t.value)
  {
  }

  lemma FramesStep(ticks: seq<Tick>, p: Path, name: string, x: real, chartY: real, width: real, depth: nat,
                   maximumDepth: nat, n: nat, childX: real, frames: seq<Frame>, childWidth: real, drawn: seq<Frame>)
    requires ChildFrames(ticks, p, name, x, chartY, width, depth, maximumDepth, n, childX, frames)
    requires n < |Sorted(ticks, p)| && Weight(ticks, p) > 0
    requires var k := Sorted(ticks, p)[n].name;
      && childWidth == Share(width, Weight(ticks, p + [k]), Weight(ticks, p))
      && drawn == NodeFrames(ticks, p + [k], k, childX, chartY, childWidth, depth + 1, maximumDepth)
    ensures ChildFrames(ticks, p, name, x, chartY, width, depth, maximumDepth, n + 1, childX + childWidth,
                        frames + drawn)
  {
    var t := TreeOf(ticks, p, name);
    KidIsTree(ticks, p, name, n);
    KidShare(t, width, n);
    PlacedConcat(L.LayoutUpTo(t, x, width, depth, n), L.Layout(t.kids[n], childX, childWidth, depth + 1), chartY,
                 maximumDepth);
  }

  lemma FramesOfNode(ticks: seq<Tick>, p: Path, name: string, x: real, chartY: real, width: real, depth: nat,
                     maximumDepth: nat, childX: real, below: seq<Frame>)
    requires width >= L.MINIMUM_WIDTH
    requires ChildFrames(ticks, p, name, x, chartY, width, depth, maximumDepth, |Sorted(ticks, p)|, childX, below)
    ensures [Frame(name, x, L.RowY(chartY, depth, maximumDepth), width)] + below
         == NodeFrames(ticks, p, name, x, chartY, width, depth, maximumDepth)
  {
    var t := TreeOf(ticks, p, name);
    var r := L.Rect(t.name, x, width, depth);
    assert |t.kids| == |Sorted(ticks, p)|;
    assert Placed([r], chartY, maximumDepth) == [Frame(name, x, L.RowY(chartY, depth, maximumDepth), width)];
    PlacedConcat([r], L.LayoutUpTo(t, x, width, depth, |t.kids|), chartY, maximumDepth);
  }

  lemma TooNarrow(ticks: seq<Tick>, p: Path, name: string, x: real, chartY: real, width: real, depth: nat,
                  maximumDepth: nat)
    requires width < L.MINIMUM_WIDTH
    ensures NodeFrames(ticks, p, name, x, chartY, width, depth, maximumDepth) == []
  {
  }

  method DrawNode(node: TreeNode, x: real, chartY: real, width: real, depth: nat, maximumDepth: nat,
                  ghost p: Path, ghost nodes: Nodes, ghost root: TreeNode, ghost ticks: seq<Tick>)
    returns (frames: seq<Frame>)
    requires Standing(nodes, root, ticks) && p in nodes && nodes[p] == node && Weight(ticks, p) > 0
    ensures frames == NodeFrames(ticks, p, node.name, x, chartY, width, depth, maximumDepth)
    decreases Longest(ticks) - |p|, 1
  {
    if width < L.MINIMUM_WIDTH {
      TooNarrow(ticks, p, node.name, x, chartY, width, depth, maximumDepth);
      return [];
    }
    var y := chartY + (maximumDepth as real - depth as real) * L.FRAME_HEIGHT as real;
    var below, end := DrawChildren(node, x, chartY, width, depth, maximumDepth, p, nodes, root, ticks);
    FramesOfNode(ticks, p, node.name, x, chartY, width, depth, maximumDepth, end, below);
    frames := [Frame(node.name, x, y, width)] + below;
  }

  /** The loop with the running x; drawChildren runs it on the root, one row up. */
  method DrawChildren(node: TreeNode, x: real, chartY: real, width: real, depth: nat, maximumDepth: nat,
                      ghost p: Path, ghost nodes: Nodes, ghost root: TreeNode, ghost ticks: seq<Tick>)
    returns (frames: seq<Frame>, childX: real)
    requires Standing(nodes, root, ticks) && p in nodes && nodes[p] == node && Weight(ticks, p) > 0
    ensures ChildFrames(ticks, p, node.name, x, chartY, width, depth, maximumDepth, |Sorted(ticks, p)|, childX, frames)
    decreases Longest(ticks) - |p|, 0
  {
    var children := SortedChildren(node, p, nodes, root, ticks);
    childX, frames := x, [];
    NoFrames(ticks, p, node.name, x, chartY, width, depth, maximumDepth);
    for i := 0 to |children|
      invariant ChildFrames(ticks, p, node.name, x, chartY, width, depth, maximumDepth, i, childX, frames)
    {
      ChildOf(nodes, root, ticks, p, i);
      var child := children[i];
      ghost var name := Sorted(ticks, p)[i].name;
      assert child.value == Weight(ticks, p + [name]) && node.value == Weight(ticks, p);
      var childWidth := Share(width, child.value, node.value);
      var drawn := DrawNode(child, childX, chartY, childWidth, depth + 1, maximumDepth, p + [name], nodes, root, ticks);
      FramesStep(ticks, p, node.name, x, chartY, width, depth, maximumDepth, i, childX, frames, childWidth, drawn);
      frames, childX := frames + drawn, childX + childWidth;
    }
  }

  lemma ChildOf(nodes: Nodes, root: TreeNode, ticks: seq<Tick>, p: Path, i: nat)
    requires Standing(nodes, root, ticks) && p in nodes && i < |Sorted(ticks, p)|
    ensures var name := Sorted(ticks, p)[i].name;
      && p + [name] in nodes && nodes[p + [name]].name == name
          && nodes[p + [name]].value == Weight(ticks, p + [name]) > 0
      && nodes[p].value == Weight(ticks, p) && |p + [name]| == |p| + 1 <= Longest(ticks)
  {
    assert Opened(TreeLock, 0);
    WorthIsWeight(ticks, p);
    KidIsShort(ticks, p, Sorted(ticks, p)[i]);
    ChildIs(nodes, root, ticks, p, Sorted(ticks, p)[i].name);
  }

  // ---------- the picture of a profile ----------

  lemma {:induction false} TicksArePositive(samples: seq<Sample>, index: nat)
    ensures Positive(TicksOf(samples, index))
    ensures forall i: nat :: i < |TicksOf(samples, index)| ==> |TicksOf(samples, index)[i].stack| > 0
  {
    if |samples| > 0 {
      TicksArePositive(samples[..|samples| - 1], index);
    }
  }

  /** Everything the chart of a profile promises. */
  ghost predicate Picture(frames: seq<Frame>, ticks: seq<Tick>, chartY: real, width: real, depth: nat) {
    var t := TreeOf(ticks, [], "");
    var rs := L.LayoutUpTo(t, 0.0, width, 0, |t.kids|);
    && depth == L.MaximumDepth(t)
    && frames == Placed(rs, chartY, depth)
    && L.RowsDisjoint(rs) && L.Nested(rs, 1)
    && (forall i: nat :: i < |rs| ==> 1 <= rs[i].depth <= depth)
    && (forall i: nat :: i < |frames| ==>
          0.0 <= frames[i].x && frames[i].x + frames[i].width <= width
          && chartY <= frames[i].y <= chartY + ((depth as int - 1) * L.FRAME_HEIGHT) as real)
  }

  lemma PictureHolds(frames: seq<Frame>, ticks: seq<Tick>, chartY: real, width: real, depth: nat)
    requires Positive(ticks) && Weight(ticks, []) > 0 && width >= 0.0
    requires var t := TreeOf(ticks, [], "");
      depth == L.MaximumDepth(t) && frames == Placed(L.LayoutUpTo(t, 0.0, width, 0, |t.kids|), chartY, depth)
    ensures Picture(frames, ticks, chartY, width, depth)
  {
    var t := TreeOf(ticks, [], "");
    TreeIsProper(ticks, [], "");
    L.ChartIsWellFormed(t, width, chartY);
    var rs := L.LayoutUpTo(t, 0.0, width, 0, |t.kids|);
    forall i: nat | i < |frames|
      ensures 0.0 <= frames[i].x && frames[i].x + frames[i].width <= width
      ensures chartY <= frames[i].y <= chartY + ((depth as int - 1) * L.FRAME_HEIGHT) as real
    {
      assert L.Within(rs[i], 0.0, width);
    }
  }

  /** The children of the root tile the chart from edge to edge. */
  lemma ChartIsTiled(samples: seq<Sample>, index: nat, width: real)
    requires Weight(TicksOf(samples, index), []) > 0 && width >= 0.0
    ensures var t := TreeOf(TicksOf(samples, index), [], "");
      && L.KidX(t, 0.0, width, 0) == 0.0 && L.KidX(t, 0.0, width, |t.kids|) == width
      && forall i: nat :: i < |t.kids| ==>
           L.KidWidth(t, width, i) >= 0.0
               && L.KidX(t, 0.0, width, i) + L.KidWidth(t, width, i) == L.KidX(t, 0.0, width, i + 1)
  {
    var ticks := TicksOf(samples, index);
    var t := TreeOf(ticks, [], "");
    TicksArePositive(samples, index);
    TreeIsProper(ticks, [], "");
    RootIsCovered(ticks, "");
    L.ChildrenTile(t, 0.0, width);
    forall i: nat | i < |t.kids| ensures L.KidWidth(t, width, i) >= 0.0 {
      L.KidWidthPositive(t, width, i);
    }
  }

  /** buildTree, maximumDepth and drawChildren on a profile: the picture is fixed by
      the samples, whatever order the maps are walked in, and is well formed. */
  method DrawProfile(samples: seq<Sample>, index: nat, chartTop: nat, width: nat)
    returns (built: Built, depth: nat, frames: seq<Frame>)
    ensures built.MissingValue? || built.NegativeValue? <==> !NoneBad(samples, index, |samples|)
    ensures built.NoSamples? <==> NoneBad(samples, index, |samples|) && Weight(TicksOf(samples, index), []) == 0
    ensures built.Tree? ==> Picture(frames, TicksOf(samples, index), chartTop as real, width as real, depth)
                            && built.total == Weight(TicksOf(samples, index), []) > 0
  {
    ghost var nodes, ticks := map[], TicksOf(samples, index);
    built, nodes := BuildTree(samples, index);
    depth, frames := 0, [];
    TicksArePositive(samples, index);
    if built.Tree? {
      var root := built.root;
      WorthIsWeight(ticks, []);
      depth := MaximumDepth(root, [], nodes, root, ticks);
      var end: real;
      frames, end := DrawChildren(root, 0.0, chartTop as real, width as real, 0, depth, [], nodes, root, ticks);
      PictureHolds(frames, ticks, chartTop as real, width as real, depth);
    }
  }
}
