/** buildTree of tools/pprof-flamegraph/main.go: a mutable prefix tree over the
    stacks of a profile. `nodes` lists its nodes by the path of names to them. */
module FlameTree {
  import opened Common

  type Path = seq<string>

  class TreeNode {
    const name: string
    var value: nat
    var children: map<string, TreeNode>

    constructor (name: string)
      ensures this.name == name && value == 0 && children == map[]
    {
      this.name := name;
      value, children := 0, map[];
    }
  }

  /** A sample that counts: a value above zero and a stack from the root to the leaf. */
  datatype Tick = Tick(stack: Path, value: nat)

  /** The value of a path: of all samples whose stack starts with it. */
  function Weight(ticks: seq<Tick>, p: Path): nat {
    if ticks == [] then 0
    else
      var t := ticks[|ticks| - 1];
      Weight(ticks[..|ticks| - 1], p) + if p <= t.stack then t.value else 0
  }

  type Nodes = map<Path, TreeNode>

  /** One node per path, closed under taking prefixes. */
  ghost predicate Indexed(nodes: Nodes, root: TreeNode) {
    && [] in nodes && nodes[[]] == root
    && (forall p: Path :: p in nodes && |p| > 0 ==> p[..|p| - 1] in nodes && nodes[p].name == p[|p| - 1])
    && (forall p: Path, q: Path :: p in nodes && q in nodes && nodes[p] == nodes[q] ==> p == q)
  }

  /** The children of a node are the nodes one name further. */
  ghost predicate Branches(nodes: Nodes, p: Path, children: map<string, TreeNode>) {
    forall name: string ::
      if p + [name] in nodes then name in children && children[name] == nodes[p + [name]]
      else name !in children
  }

  type Children = map<Path, map<string, TreeNode>>

  /** Every node has the children its path says. */
  ghost predicate Linked(nodes: Nodes, kids: Children) {
    forall p: Path :: p in nodes ==> p in kids && Branches(nodes, p, kids[p])
  }

  ghost predicate Shape(nodes: Nodes, root: TreeNode, kids: Children) {
    forall key: nat :: Opened(TreeLock, key) ==> Indexed(nodes, root) && Linked(nodes, kids)
  }

  ghost function ChildrenOf(nodes: Nodes): Children
    reads nodes.Values
  {
    map p: Path | p in nodes :: nodes[p].children
  }

  /** What each node is worth so far. */
  ghost function ValuesOf(nodes: Nodes): map<Path, nat>
    reads nodes.Values
  {
    map p: Path | p in nodes :: nodes[p].value
  }

  ghost predicate Shaped(nodes: Nodes, root: TreeNode)
    reads nodes.Values
  {
    Shape(nodes, root, ChildrenOf(nodes))
  }

  /** Nodes are reached by one path each. */
  lemma OnePath(nodes: Nodes, root: TreeNode, kids: Children, q: Path)
    requires Shape(nodes, root, kids) && q in nodes
    ensures forall p: Path :: p in nodes && nodes[p] == nodes[q] ==> p == q
  {
    assert Opened(TreeLock, 0);
  }

  lemma ChildLink(nodes: Nodes, root: TreeNode, kids: Children, q: Path, name: string)
    requires Shape(nodes, root, kids) && q in nodes
    ensures q in kids && (name in kids[q] <==> q + [name] in nodes)
    ensures name in kids[q] ==> kids[q][name] == nodes[q + [name]] && nodes[q + [name]].name == name
  {
    assert Opened(TreeLock, 0);
    assert (q + [name])[|q + [name]| - 1] == name;
    assert Branches(nodes, q, kids[q]);
  }

  lemma IndexedChild(nodes: Nodes, root: TreeNode, q: Path, name: string, child: TreeNode)
    requires Indexed(nodes, root) && q in nodes && q + [name] !in nodes && child.name == name
    requires child !in nodes.Values
    ensures Indexed(nodes[q + [name] := child], root)
  {
    var r := q + [name];
    assert r[..|r| - 1] == q && r[|r| - 1] == name;
  }

  lemma AppendInjective(p: Path, n: string, q: Path, m: string)
    requires p + [n] == q + [m]
    ensures p == q && n == m
  {
    assert (p + [n])[..|p|] == p && (q + [m])[..|q|] == q;
    assert (p + [n])[|p|] == n && (q + [m])[|q|] == m;
  }

  /** A new child changes its parent's branches only, and has none itself. */
  lemma BranchesGrow(nodes: Nodes, root: TreeNode, q: Path, name: string, child: TreeNode, p: Path,
                     children: map<string, TreeNode>)
    requires Indexed(nodes, root) && p in nodes && Branches(nodes, p, children)
    ensures Branches(nodes[q + [name] := child], p, if p == q then children[name := child] else children)
  {
    forall n: string | p + [n] == q + [name] ensures p == q && n == name {
      AppendInjective(p, n, q, name);
    }
  }

  lemma NewIsLeaf(nodes: Nodes, root: TreeNode, q: Path, name: string, child: TreeNode)
    requires Indexed(nodes, root) && q + [name] !in nodes
    ensures Branches(nodes[q + [name] := child], q + [name], map[])
  {
    var r := q + [name];
    forall n: string ensures r + [n] !in nodes[r := child] {
      assert (r + [n])[..|r + [n]| - 1] == r;
    }
  }

  lemma GrownShape(nodes: Nodes, root: TreeNode, kids: Children, q: Path, name: string, child: TreeNode)
    requires Shape(nodes, root, kids) && q in nodes && q in kids && q + [name] !in nodes
    requires child.name == name && child !in nodes.Values
    ensures Shape(nodes[q + [name] := child], root, kids[q := kids[q][name := child]][q + [name] := map[]])
  {
    assert Opened(TreeLock, 0);
    var nodes', kids' := nodes[q + [name] := child], kids[q := kids[q][name := child]][q + [name] := map[]];
    IndexedChild(nodes, root, q, name, child);
    NewIsLeaf(nodes, root, q, name, child);
    assert q != q + [name];
    forall p: Path | p in nodes' ensures p in kids' && Branches(nodes', p, kids'[p]) {
      if p in nodes {
        BranchesGrow(nodes, root, q, name, child, p, kids[p]);
      }
    }
  }

  lemma Extended(nodes: Nodes, r: Path, child: TreeNode)
    requires r !in nodes
    ensures ChildrenOf(nodes[r := child]) == ChildrenOf(nodes)[r := child.children]
    ensures ValuesOf(nodes[r := child]) == ValuesOf(nodes)[r := child.value]
  {
  }

  method Attach(root: TreeNode, node: TreeNode, ghost q: Path, child: TreeNode, ghost nodes: Nodes)
    requires Shaped(nodes, root) && q in nodes && nodes[q] == node
    modifies node`children
    ensures ChildrenOf(nodes) == old(ChildrenOf(nodes))[q := old(node.children)[child.name := child]]
    ensures ValuesOf(nodes) == old(ValuesOf(nodes))
  {
    OnePath(nodes, root, ChildrenOf(nodes), q);
    node.children := node.children[child.name := child];
  }

  /** The missing child of a node. */
  method Grow(root: TreeNode, node: TreeNode, ghost q: Path, name: string, ghost nodes: Nodes)
    returns (child: TreeNode, ghost nodes': Nodes)
    requires Shaped(nodes, root) && q in nodes && nodes[q] == node && q + [name] !in nodes
    modifies node`children
    ensures fresh(child) && nodes' == nodes[q + [name] := child] && Shaped(nodes', root)
    ensures ValuesOf(nodes') == old(ValuesOf(nodes))[q + [name] := 0]
  {
    child := new TreeNode(name);
    GrownShape(nodes, root, ChildrenOf(nodes), q, name, child);
    Attach(root, node, q, child, nodes);
    nodes' := nodes[q + [name] := child];
    Extended(nodes, q + [name], child);
  }

  function With(nodes: Nodes, p: Path, node: TreeNode): Nodes {
    if p in nodes then nodes else nodes[p := node]
  }

  /** The values after `value` is added at a path, new or not. */
  function Credited(values: map<Path, nat>, p: Path, value: nat): map<Path, nat> {
    values[p := (if p in values then values[p] else 0) + value]
  }

  /** One step down the tree from the node at `q`: find or make the child, add to it. */
  method Descend(root: TreeNode, node: TreeNode, ghost q: Path, name: string, value: nat, ghost nodes: Nodes)
    returns (child: TreeNode, ghost nodes': Nodes)
    requires Shaped(nodes, root) && q in nodes && nodes[q] == node
    modifies nodes.Values
    ensures nodes' == With(nodes, q + [name], child) && Shaped(nodes', root) && nodes'[q + [name]] == child
    ensures fresh(child) || q + [name] in nodes
    ensures ValuesOf(nodes') == Credited(old(ValuesOf(nodes)), q + [name], value)
  {
    ChildLink(nodes, root, ChildrenOf(nodes), q, name);
    if name in node.children {
      child := node.children[name];
      nodes' := nodes;
    } else {
      child, nodes' := Grow(root, node, q, name, nodes);
    }
    AddValue(root, child, q + [name], value, nodes');
  }

  method AddValue(root: TreeNode, node: TreeNode, ghost r: Path, value: nat, ghost nodes: Nodes)
    requires Shaped(nodes, root) && r in nodes && nodes[r] == node
    modifies node`value
    ensures Shaped(nodes, root) && node.value == old(node.value) + value
    ensures ValuesOf(nodes) == Credited(old(ValuesOf(nodes)), r, value)
  {
    OnePath(nodes, root, ChildrenOf(nodes), r);
    node.value := node.value + value;
    assert ChildrenOf(nodes) == old(ChildrenOf(nodes));
  }

  /** What a node is worth while a stack is being added: its samples, and the new
      value if the walk has come through it. */
  function Worth(ticks: seq<Tick>, walked: Path, value: nat, p: Path): nat {
    Weight(ticks, p) + if p <= walked then value else 0
  }

  /** The paths are those of the samples, each with its worth. */
  ghost predicate Accounts(values: map<Path, nat>, ticks: seq<Tick>, walked: Path, value: nat) {
    && (forall p: Path :: p in values <==> p == [] || Worth(ticks, walked, value, p) > 0)
    && (forall p: Path :: p in values ==> values[p] == Worth(ticks, walked, value, p))
  }

  /** The tree while a stack is being added. */
  ghost predicate Grown(nodes: Nodes, root: TreeNode, ticks: seq<Tick>, walked: Path, value: nat)
    reads nodes.Values
  {
    forall key: nat :: Opened(TreeLock, key) ==> Shaped(nodes, root) && Accounts(ValuesOf(nodes), ticks, walked, value)
  }

  lemma PrefixStep(p: Path, walked: Path, name: string)
    ensures p <= walked + [name] <==> p <= walked || p == walked + [name]
  {
    if p <= walked + [name] {
      if |p| <= |walked| {
        assert p == (walked + [name])[..|p|] == walked[..|p|];
      } else {
        assert p == walked + [name];
      }
    }
  }

  lemma NotAPrefix(walked: Path, name: string)
    ensures !(walked + [name] <= walked)
  {
  }

  /** One name further, everything else keeps its worth. */
  lemma WorthStep(ticks: seq<Tick>, walked: Path, name: string, value: nat, p: Path)
    ensures Worth(ticks, walked + [name], value, p)
         == if p == walked + [name] then Worth(ticks, walked, value, p) + value else Worth(ticks, walked, value, p)
  {
    PrefixStep(p, walked, name);
    NotAPrefix(walked, name);
  }

  lemma AccountsStep(values: map<Path, nat>, ticks: seq<Tick>, walked: Path, name: string, value: nat)
    requires Accounts(values, ticks, walked, value) && value > 0
    ensures Accounts(Credited(values, walked + [name], value), ticks, walked + [name], value)
  {
    var r := walked + [name];
    var values' := Credited(values, r, value);
    forall p: Path
      ensures p in values' <==> p == [] || Worth(ticks, r, value, p) > 0
      ensures p in values' ==> values'[p] == Worth(ticks, r, value, p)
    {
      WorthStep(ticks, walked, name, value, p);
    }
  }

  lemma AccountsRoot(values: map<Path, nat>, ticks: seq<Tick>, value: nat)
    requires Accounts(values, ticks, [], 0)
    ensures Accounts(Credited(values, [], value), ticks, [], value)
  {
    assert forall p: Path ::
           Worth(ticks, [], value, p) == if p == [] then Weight(ticks, p) + value else Weight(ticks, p);
  }

  /** The same tree, with the stack counted among the samples. */
  lemma Rebook(nodes: Nodes, root: TreeNode, ticks: seq<Tick>, walked: Path, value: nat, ticks': seq<Tick>)
    requires Grown(nodes, root, ticks, walked, value)
    requires forall p: Path :: Worth(ticks', [], 0, p) == Worth(ticks, walked, value, p)
    ensures Grown(nodes, root, ticks', [], 0)
  {
    assert Opened(TreeLock, 0);
  }

  /** The loop of buildTree over the names of one stack. */
  method AddStack(root: TreeNode, stack: Path, value: nat, ghost nodes: Nodes, ghost ticks: seq<Tick>)
    returns (ghost nodes': Nodes)
    requires Grown(nodes, root, ticks, [], 0) && value > 0
    modifies nodes.Values
    ensures Grown(nodes', root, ticks, stack, value)
    ensures fresh(nodes'.Values - nodes.Values)
  {
    AddToRoot(root, value, nodes, ticks);
    var node := root;
    nodes' := nodes;
    for k := 0 to |stack|
      invariant Grown(nodes', root, ticks, stack[..k], value)
      invariant stack[..k] in nodes' && nodes'[stack[..k]] == node
      invariant fresh(nodes'.Values - nodes.Values)
    {
      OneMoreName(stack, k);
      node, nodes' := Pass(root, node, stack[..k], stack[k], value, nodes', ticks);
    }
    assert stack[..|stack|] == stack;
  }

  lemma OneMoreName(stack: Path, k: nat)
    requires k < |stack|
    ensures stack[..k + 1] == stack[..k] + [stack[k]]
  {
  }

  lemma RootIs(nodes: Nodes, root: TreeNode, ticks: seq<Tick>)
    requires Grown(nodes, root, ticks, [], 0)
    ensures [] in nodes && nodes[[]] == root && root.value == Weight(ticks, [])
  {
    assert Opened(TreeLock, 0);
    assert ValuesOf(nodes)[[]] == Worth(ticks, [], 0, []);
  }

  method AddToRoot(root: TreeNode, value: nat, ghost nodes: Nodes, ghost ticks: seq<Tick>)
    requires Grown(nodes, root, ticks, [], 0)
    modifies nodes.Values
    ensures Grown(nodes, root, ticks, [], value) && [] in nodes && nodes[[]] == root
  {
    RootIs(nodes, root, ticks);
    assert Opened(TreeLock, 0);
    AccountsRoot(ValuesOf(nodes), ticks, value);
    AddValue(root, root, [], value, nodes);
  }

  lemma Credit(nodes: Nodes, root: TreeNode, ticks: seq<Tick>, walked: Path, name: string, value: nat)
    requires Grown(nodes, root, ticks, walked, value) && value > 0
    ensures Shaped(nodes, root)
    ensures Accounts(Credited(ValuesOf(nodes), walked + [name], value), ticks, walked + [name], value)
  {
    assert Opened(TreeLock, 0);
    AccountsStep(ValuesOf(nodes), ticks, walked, name, value);
  }

  method Pass(root: TreeNode, node: TreeNode, ghost walked: Path, name: string, value: nat, ghost nodes: Nodes,
              ghost ticks: seq<Tick>)
    returns (child: TreeNode, ghost nodes': Nodes)
    requires Grown(nodes, root, ticks, walked, value) && value > 0
    requires walked in nodes && nodes[walked] == node
    modifies nodes.Values
    ensures Grown(nodes', root, ticks, walked + [name], value)
    ensures walked + [name] in nodes' && nodes'[walked + [name]] == child
    ensures fresh(nodes'.Values - nodes.Values)
  {
    Credit(nodes, root, ticks, walked, name, value);
    child, nodes' := Descend(root, node, walked, name, value, nodes);
  }

  const UNKNOWN := "[unknown]"

  /** A sample of a parsed profile: its values, and its names from the root down. */
  datatype Sample = Sample(values: seq<int>, names: Path)

  function StackOf(s: Sample): Path { if s.names == [] then [UNKNOWN] else s.names }

  predicate Missing(s: Sample, index: nat) { |s.values| <= index }

  predicate Negative(s: Sample, index: nat) { index < |s.values| && s.values[index] < 0 }

  predicate Bad(s: Sample, index: nat) { Missing(s, index) || Negative(s, index) }

  /** The samples that count. */
  function TicksOf(samples: seq<Sample>, index: nat): seq<Tick> {
    if samples == [] then []
    else
      var s, rest := samples[|samples| - 1], TicksOf(samples[..|samples| - 1], index);
      if index < |s.values| && s.values[index] > 0 then rest + [Tick(StackOf(s), s.values[index])] else rest
  }

  datatype Built = MissingValue | NegativeValue | NoSamples | Tree(root: TreeNode, total: nat)

  /** The first sample that cannot be used, if any. */
  ghost predicate FirstBad(samples: seq<Sample>, index: nat, i: nat) {
    i < |samples| && Bad(samples[i], index) && forall j: nat :: j < i ==> !Bad(samples[j], index)
  }

  ghost predicate NoneBad(samples: seq<Sample>, index: nat, n: nat) {
    n <= |samples| && forall i: nat :: i < n ==> !Bad(samples[i], index)
  }

  lemma TickAdded(samples: seq<Sample>, index: nat, i: nat, p: Path)
    requires i < |samples| && !Bad(samples[i], index)
    ensures var s := samples[i]; var before := Weight(TicksOf(samples[..i], index), p);
      Weight(TicksOf(samples[..i + 1], index), p) ==
        if s.values[index] == 0 then before else before + if p <= StackOf(s) then s.values[index] else 0
  {
    assert samples[..i + 1][..i] == samples[..i] && samples[..i + 1][i] == samples[i];
    var ticks := TicksOf(samples[..i], index);
    if samples[i].values[index] != 0 {
      var t := Tick(StackOf(samples[i]), samples[i].values[index]);
      assert (ticks + [t])[..|ticks|] == ticks;
    }
  }

  /** buildTree: after it, every node's value is the sum over the samples whose stack
      begins with the node's path, and there is a node for each such path. */
  method BuildTree(samples: seq<Sample>, index: nat) returns (r: Built, ghost nodes: Nodes)
    ensures r.MissingValue? ==> exists i: nat :: FirstBad(samples, index, i) && Missing(samples[i], index)
    ensures r.NegativeValue? ==> exists i: nat :: FirstBad(samples, index, i) && Negative(samples[i], index)
    ensures r.NoSamples? || r.Tree? ==> NoneBad(samples, index, |samples|)
    ensures r.NoSamples? ==> Weight(TicksOf(samples, index), []) == 0
    ensures r.Tree? ==>
      && Shaped(nodes, r.root) && Accounts(ValuesOf(nodes), TicksOf(samples, index), [], 0)
      && r.total == Weight(TicksOf(samples, index), []) > 0 && r.root.name == "" && fresh(nodes.Values)
      && [] in nodes && nodes[[]] == r.root
  {
    var root := new TreeNode("");
    nodes := map[[] := root];
    Seedling(nodes, root);
    for i := 0 to |samples|
      invariant NoneBad(samples, index, i)
      invariant Grown(nodes, root, TicksOf(samples[..i], index), [], 0) && fresh(nodes.Values)
    {
      if index >= |samples[i].values| {
        assert FirstBad(samples, index, i);
        return MissingValue, nodes;
      }
      if samples[i].values[index] < 0 {
        assert FirstBad(samples, index, i);
        return NegativeValue, nodes;
      }
      OneMoreGood(samples, index, i);
      nodes := AddSample(root, samples, index, i, nodes);
    }
    assert samples[..|samples|] == samples;
    RootIs(nodes, root, TicksOf(samples, index));
    if root.value == 0 {
      return NoSamples, nodes;
    }
    assert Opened(TreeLock, 0);
    r := Tree(root, root.value);
  }

  lemma Seedling(nodes: Nodes, root: TreeNode)
    requires nodes == map[[] := root] && root.value == 0 && root.children == map[]
    ensures Grown(nodes, root, [], [], 0)
  {
    assert forall name: string :: [] + [name] !in nodes;
  }

  lemma OneMoreGood(samples: seq<Sample>, index: nat, i: nat)
    requires NoneBad(samples, index, i) && i < |samples| && !Bad(samples[i], index)
    ensures NoneBad(samples, index, i + 1)
  {
  }
  method AddSample(root: TreeNode, samples: seq<Sample>, index: nat, i: nat, ghost nodes: Nodes)
    returns (ghost nodes': Nodes)
    requires i < |samples| && !Bad(samples[i], index)
    requires Grown(nodes, root, TicksOf(samples[..i], index), [], 0)
    modifies nodes.Values
    ensures Grown(nodes', root, TicksOf(samples[..i + 1], index), [], 0)
    ensures fresh(nodes'.Values - nodes.Values)
  {
    var value := samples[i].values[index];
    ghost var ticks := TicksOf(samples[..i], index);
    nodes' := nodes;
    SameWorth(samples, index, i);
    if value != 0 {
      nodes' := AddStack(root, StackOf(samples[i]), value, nodes, ticks);
      Rebook(nodes', root, ticks, StackOf(samples[i]), value, TicksOf(samples[..i + 1], index));
    } else {
      Rebook(nodes', root, ticks, [], 0, TicksOf(samples[..i + 1], index));
    }
  }

  lemma SameWorth(samples: seq<Sample>, index: nat, i: nat)
    requires i < |samples| && !Bad(samples[i], index)
    ensures forall p: Path ::
              Worth(TicksOf(samples[..i + 1], index), [], 0, p)
                == Worth(TicksOf(samples[..i], index), StackOf(samples[i]), samples[i].values[index], p)
    ensures samples[i].values[index] == 0 ==> forall p: Path ::
              Worth(TicksOf(samples[..i + 1], index), [], 0, p) == Worth(TicksOf(samples[..i], index), [], 0, p)
  {
    forall p: Path
      ensures Worth(TicksOf(samples[..i + 1], index), [], 0, p)
           == Worth(TicksOf(samples[..i], index), StackOf(samples[i]), samples[i].values[index], p)
    {
      TickAdded(samples, index, i, p);
    }
    if samples[i].values[index] == 0 {
      forall p: Path
        ensures Worth(TicksOf(samples[..i + 1], index), [], 0, p) == Worth(TicksOf(samples[..i], index), [], 0, p)
      {
        TickAdded(samples, index, i, p);
      }
    }
  }
}
