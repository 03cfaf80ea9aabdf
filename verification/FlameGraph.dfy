/** The flame graph of tools/pprof-flamegraph/main.go: what is drawn for a profile is
    a function of its samples, and the picture is well formed. */
module FlameGraph {
  import opened FlameTree
  import opened FlameOrder
  import L = FlameLayout

  function Longest(ticks: seq<Tick>): nat {
    if ticks == [] then 0
    else
      var n, rest := |ticks[|ticks| - 1].stack|, Longest(ticks[..|ticks| - 1]);
      if n > rest then n else rest
  }

  lemma {:induction false} LongestBounds(ticks: seq<Tick>, i: nat)
    requires i < |ticks|
    ensures |ticks[i].stack| <= Longest(ticks)
  {
    if i < |ticks| - 1 {
      LongestBounds(ticks[..|ticks| - 1], i);
    }
  }

  /** The names that continue a path in some sample. */
  function KidNames(ticks: seq<Tick>, p: Path): set<string> {
    set i: nat | i < |ticks| && p <= ticks[i].stack && |p| < |ticks[i].stack| :: ticks[i].stack[|p|]
  }

  function Positive(ticks: seq<Tick>): bool { forall i: nat :: i < |ticks| ==> ticks[i].value > 0 }

  lemma {:induction false} WeightIsPositive(ticks: seq<Tick>, p: Path)
    requires Positive(ticks)
    ensures Weight(ticks, p) > 0 <==> exists i: nat :: i < |ticks| && p <= ticks[i].stack
  {
    if ticks != [] {
      var n := |ticks| - 1;
      WeightIsPositive(ticks[..n], p);
      if exists i: nat :: i < n && p <= ticks[..n][i].stack {
        var i: nat :| i < n && p <= ticks[..n][i].stack;
        assert p <= ticks[i].stack;
      }
      if exists i: nat :: i < |ticks| && p <= ticks[i].stack {
        var i: nat :| i < |ticks| && p <= ticks[i].stack;
        if i < n { assert ticks[..n][i] == ticks[i]; }
      }
    }
  }

  lemma KidNamesArePaths(ticks: seq<Tick>, p: Path, name: string)
    requires Positive(ticks)
    ensures name in KidNames(ticks, p) <==> Weight(ticks, p + [name]) > 0
  {
    WeightIsPositive(ticks, p + [name]);
    if name in KidNames(ticks, p) {
      var i: nat :| i < |ticks| && p <= ticks[i].stack && |p| < |ticks[i].stack| && ticks[i].stack[|p|] == name;
      assert p + [name] <= ticks[i].stack;
    }
    if exists i: nat :: i < |ticks| && p + [name] <= ticks[i].stack {
      var i: nat :| i < |ticks| && p + [name] <= ticks[i].stack;
      assert p == (p + [name])[..|p|] == ticks[i].stack[..|p|];
      assert ticks[i].stack[|p|] == (p + [name])[|p|];
    }
  }

  function KidsOf(ticks: seq<Tick>, p: Path): set<Kid> {
    set name | name in KidNames(ticks, p) :: Kid(name, Weight(ticks, p + [name]))
  }

  /** The siblings under a path, in drawing order. */
  ghost function Sorted(ticks: seq<Tick>, p: Path): (s: seq<Kid>)
    ensures Ordered(s) && Lists(s, KidsOf(ticks, p))
  {
    SortedExists(ticks, p);
    var s :| Ordered(s) && Lists(s, KidsOf(ticks, p));
    s
  }

  lemma SortedExists(ticks: seq<Tick>, p: Path)
    ensures exists s: seq<Kid> :: Ordered(s) && Lists(s, KidsOf(ticks, p))
  {
    var s := OrderExists(KidsOf(ticks, p));
  }

  lemma KidIsShort(ticks: seq<Tick>, p: Path, k: Kid)
    requires k in Sorted(ticks, p)
    ensures |p| < Longest(ticks) && k.name in KidNames(ticks, p) && k.value == Weight(ticks, p + [k.name])
  {
    assert k in KidsOf(ticks, p);
    var i: nat :| i < |ticks| && p <= ticks[i].stack && |p| < |ticks[i].stack| && ticks[i].stack[|p|] == k.name;
    LongestBounds(ticks, i);
  }

  /** The tree under a path, as it is drawn. */
  ghost function TreeOf(ticks: seq<Tick>, p: Path, name: string): L.Tree
    decreases Longest(ticks) - |p|
  {
    var kids := Sorted(ticks, p);
    L.Tree(name, Weight(ticks, p),
           seq(|kids|, i requires 0 <= i < |kids| =>
             KidIsShort(ticks, p, kids[i]);
             TreeOf(ticks, p + [kids[i].name], kids[i].name)))
  }

  // ---------- a node is worth its children and no less ----------

  /** What the first `n` siblings are worth together. */
  function Branching(ticks: seq<Tick>, p: Path, s: seq<Kid>, n: nat): nat
    requires n <= |s|
  {
    if n == 0 then 0 else Branching(ticks, p, s, n - 1) + Weight(ticks, p + [s[n - 1].name])
  }

  /** One sample's part of that. */
  function Passing(t: Tick, p: Path, s: seq<Kid>, n: nat): nat
    requires n <= |s|
  {
    if n == 0 then 0 else Passing(t, p, s, n - 1) + if p + [s[n - 1].name] <= t.stack then t.value else 0
  }

  ghost predicate Named(s: seq<Kid>) {
    forall i: nat, j: nat :: i < j < |s| ==> s[i].name != s[j].name
  }

  lemma Continues(t: Tick, p: Path, name: string)
    ensures p + [name] <= t.stack <==> p <= t.stack && |p| < |t.stack| && t.stack[|p|] == name
  {
    if p + [name] <= t.stack {
      assert p == (p + [name])[..|p|] == t.stack[..|p|];
      assert t.stack[|p|] == (p + [name])[|p|];
    }
  }

  /** A sample passes through at most one of several siblings, and through their parent. */
  lemma {:induction false} PassesOnce(t: Tick, p: Path, s: seq<Kid>, n: nat)
    requires n <= |s| && Named(s)
    ensures Passing(t, p, s, n)
          == if p <= t.stack && |p| < |t.stack| && (exists j: nat :: j < n && s[j].name == t.stack[|p|])
             then t.value else 0
  {
    if n > 0 {
      PassesOnce(t, p, s, n - 1);
      Continues(t, p, s[n - 1].name);
      if p <= t.stack && |p| < |t.stack| && s[n - 1].name == t.stack[|p|] {
        assert forall j: nat :: j < n - 1 ==> s[j].name != s[n - 1].name;
      }
    }
  }

  lemma {:induction false} LastTick(ticks: seq<Tick>, p: Path, s: seq<Kid>, n: nat)
    requires |ticks| > 0 && n <= |s|
    ensures Branching(ticks, p, s, n)
         == Branching(ticks[..|ticks| - 1], p, s, n) + Passing(ticks[|ticks| - 1], p, s, n)
  {
    if n > 0 {
      LastTick(ticks, p, s, n - 1);
    }
  }

  lemma {:induction false} BranchingBound(ticks: seq<Tick>, p: Path, s: seq<Kid>)
    requires Named(s)
    ensures Branching(ticks, p, s, |s|) <= Weight(ticks, p)
  {
    if ticks == [] {
      NothingBranches(p, s, |s|);
    } else {
      var n := |ticks| - 1;
      BranchingBound(ticks[..n], p, s);
      LastTick(ticks, p, s, |s|);
      PassesOnce(ticks[n], p, s, |s|);
    }
  }

  lemma {:induction false} NothingBranches(p: Path, s: seq<Kid>, n: nat)
    requires n <= |s|
    ensures Branching([], p, s, n) == 0
  {
    if n > 0 {
      NothingBranches(p, s, n - 1);
    }
  }

  /** No sample ends at the path, and every continuation is among the siblings. */
  ghost predicate AllContinue(ticks: seq<Tick>, p: Path, s: seq<Kid>) {
    forall i: nat :: i < |ticks| && p <= ticks[i].stack ==>
      |p| < |ticks[i].stack| && exists j: nat :: j < |s| && s[j].name == ticks[i].stack[|p|]
  }

  lemma {:induction false} BranchingExact(ticks: seq<Tick>, p: Path, s: seq<Kid>)
    requires Named(s) && AllContinue(ticks, p, s)
    ensures Branching(ticks, p, s, |s|) == Weight(ticks, p)
  {
    if ticks == [] {
      NothingBranches(p, s, |s|);
    } else {
      var n := |ticks| - 1;
      forall i: nat | i < n && p <= ticks[..n][i].stack
        ensures |p| < |ticks[..n][i].stack| && exists j: nat :: j < |s| && s[j].name == ticks[..n][i].stack[|p|]
      {
        assert ticks[..n][i] == ticks[i];
      }
      BranchingExact(ticks[..n], p, s);
      LastTick(ticks, p, s, |s|);
      PassesOnce(ticks[n], p, s, |s|);
    }
  }

  lemma SortedIsNamed(ticks: seq<Tick>, p: Path)
    ensures Named(Sorted(ticks, p))
  {
    var s := Sorted(ticks, p);
    forall i: nat, j: nat | i < j < |s| ensures s[i].name != s[j].name {
      KidIsShort(ticks, p, s[i]);
      KidIsShort(ticks, p, s[j]);
      BeforeIsOrder(s[i], s[j], s[j]);
    }
  }

  lemma {:induction false} KidSumIsBranching(ticks: seq<Tick>, p: Path, name: string, n: nat)
    requires n <= |Sorted(ticks, p)|
    ensures |TreeOf(ticks, p, name).kids| == |Sorted(ticks, p)|
    ensures L.KidSum(TreeOf(ticks, p, name), n) == Branching(ticks, p, Sorted(ticks, p), n)
  {
    if n > 0 {
      KidSumIsBranching(ticks, p, name, n - 1);
    }
  }

  /** The tree of any path that occurs is one the layout can draw. */
  lemma {:induction false} TreeIsProper(ticks: seq<Tick>, p: Path, name: string)
    requires Positive(ticks) && Weight(ticks, p) > 0
    ensures L.Proper(TreeOf(ticks, p, name))
    decreases Longest(ticks) - |p|
  {
    var s, t := Sorted(ticks, p), TreeOf(ticks, p, name);
    SortedIsNamed(ticks, p);
    BranchingBound(ticks, p, s);
    KidSumIsBranching(ticks, p, name, |s|);
    forall i: nat | i < |t.kids| ensures L.Proper(t.kids[i]) {
      KidIsShort(ticks, p, s[i]);
      KidNamesArePaths(ticks, p, s[i].name);
      TreeIsProper(ticks, p + [s[i].name], s[i].name);
    }
  }

  /** Every sample has a first name, so the children of the root tile the chart. */
  lemma RootIsCovered(ticks: seq<Tick>, name: string)
    requires Positive(ticks) && forall i: nat :: i < |ticks| ==> |ticks[i].stack| > 0
    ensures var t := TreeOf(ticks, [], name); L.KidSum(t, |t.kids|) == t.value
  {
    var s := Sorted(ticks, []);
    SortedIsNamed(ticks, []);
    forall i: nat | i < |ticks| ensures exists j: nat :: j < |s| && s[j].name == ticks[i].stack[0] {
      var name := ticks[i].stack[0];
      assert name in KidNames(ticks, []);
      var k := Kid(name, Weight(ticks, [] + [name]));
      assert k in KidsOf(ticks, []);
      assert k in s;
    }
    BranchingExact(ticks, [], s);
    KidSumIsBranching(ticks, [], name, |s|);
  }
}
