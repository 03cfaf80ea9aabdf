/** The geometry of tools/pprof-flamegraph/main.go on trees whose children are in
    drawing order, with widths idealised as reals. */
module FlameLayout {
  const MINIMUM_WIDTH := 0.25
  const FRAME_HEIGHT := 18

  datatype Tree = Tree(name: string, value: nat, kids: seq<Tree>)

  datatype Rect = Rect(name: string, x: real, width: real, depth: nat)

  function KidSum(t: Tree, n: nat): nat
    requires n <= |t.kids|
  {
    if n == 0 then 0 else KidSum(t, n - 1) + t.kids[n - 1].value
  }

  /** Values of an inclusive tree: positive, and no less than those of the children. */
  ghost predicate Proper(t: Tree) {
    Fair(t) && forall i: nat :: i < |t.kids| ==> Proper(t.kids[i])
  }

  predicate Fair(t: Tree) { t.value > 0 && KidSum(t, |t.kids|) <= t.value }

  /** maximumDepth. */
  function MaximumDepth(t: Tree): nat
    decreases t, |t.kids| + 1
  {
    DepthUpTo(t, |t.kids|)
  }

  function DepthUpTo(t: Tree, n: nat): nat
    requires n <= |t.kids|
    decreases t, n
  {
    if n == 0 then 0
    else
      var depth, rest := 1 + MaximumDepth(t.kids[n - 1]), DepthUpTo(t, n - 1);
      if depth > rest then depth else rest
  }

  lemma {:induction false} KidDepth(t: Tree, i: nat, n: nat)
    requires i < n <= |t.kids|
    ensures 1 + MaximumDepth(t.kids[i]) <= DepthUpTo(t, n)
  {
    if i < n - 1 {
      KidDepth(t, i, n - 1);
    }
  }

  function KidWidth(t: Tree, width: real, i: nat): real
    requires i < |t.kids| && t.value > 0
  {
    width * t.kids[i].value as real / t.value as real
  }

  /** The running x before child `n`. */
  function KidX(t: Tree, x: real, width: real, n: nat): real
    requires n <= |t.kids| && t.value > 0
  {
    if n == 0 then x else KidX(t, x, width, n - 1) + KidWidth(t, width, n - 1)
  }

  /** drawNode: the node's own rectangle, unless it is too narrow, and its children's. */
  function Layout(t: Tree, x: real, width: real, depth: nat): seq<Rect>
    decreases t, |t.kids| + 1
  {
    if width < MINIMUM_WIDTH then []
    else [Rect(t.name, x, width, depth)] + LayoutUpTo(t, x, width, depth, |t.kids|)
  }

  /** The first `n` children of a node. */
  function LayoutUpTo(t: Tree, x: real, width: real, depth: nat, n: nat): seq<Rect>
    requires n <= |t.kids|
    decreases t, n
  {
    if n == 0 || t.value == 0 then []
    else LayoutUpTo(t, x, width, depth, n - 1)
         + Layout(t.kids[n - 1], KidX(t, x, width, n - 1), KidWidth(t, width, n - 1), depth + 1)
  }

  // ---------- children share their parent's width ----------

  lemma Shares(w: real, a: real, b: real, v: real)
    requires v > 0.0
    ensures w * a / v + w * b / v == w * (a + b) / v
  {
    var p, q := w * a, w * b;
    assert w * (a + b) == p + q;
    assert p / v + q / v == (p + q) / v;
  }

  lemma {:induction false} KidXIsShare(t: Tree, x: real, width: real, n: nat)
    requires n <= |t.kids| && t.value > 0
    ensures KidX(t, x, width, n) == x + width * KidSum(t, n) as real / t.value as real
  {
    if n > 0 {
      KidXIsShare(t, x, width, n - 1);
      Shares(width, KidSum(t, n - 1) as real, t.kids[n - 1].value as real, t.value as real);
    }
  }

  lemma WholeShare(w: real, s: real, v: real)
    requires v > 0.0 && w >= 0.0 && 0.0 <= s <= v
    ensures 0.0 <= w * s / v <= w
    ensures s == v ==> w * s / v == w
  {
    var p := w * s;
    assert 0.0 <= p;
    assert p <= w * v;
    assert (w * v) / v == w;
  }

  lemma PartShare(w: real, s: nat, v: nat)
    requires v > 0 && w >= 0.0 && s <= v
    ensures 0.0 <= w * s as real / v as real <= w
    ensures s == v ==> w * s as real / v as real == w
  {
    WholeShare(w, s as real, v as real);
  }

  lemma KidSumBound(t: Tree, i: nat)
    requires Fair(t) && i <= |t.kids|
    ensures KidSum(t, i) <= t.value
  {
    KidSumGrows(t, i, |t.kids|);
  }

  lemma KidValueBound(t: Tree, i: nat)
    requires Fair(t) && i < |t.kids|
    ensures t.kids[i].value <= t.value
  {
    KidSumBound(t, i + 1);
  }

  lemma {:induction false} KidSumGrows(t: Tree, i: nat, n: nat)
    requires i <= n <= |t.kids|
    ensures KidSum(t, i) <= KidSum(t, n)
  {
    if i < n {
      KidSumGrows(t, i, n - 1);
    }
  }

  lemma KidXInside(t: Tree, x: real, width: real, i: nat)
    requires Fair(t) && width >= 0.0 && i <= |t.kids|
    ensures x <= KidX(t, x, width, i) <= x + width
  {
    KidSumBound(t, i);
    KidXIsShare(t, x, width, i);
    ShareInside(KidX(t, x, width, i), x, width, KidSum(t, i), t.value);
  }

  lemma ShareInside(kx: real, x: real, width: real, s: nat, v: nat)
    requires v > 0 && width >= 0.0 && s <= v && kx == x + width * s as real / v as real
    ensures x <= kx <= x + width
  {
    PartShare(width, s, v);
  }

  lemma KidWidthPositive(t: Tree, width: real, i: nat)
    requires Fair(t) && width >= 0.0 && i < |t.kids|
    ensures KidWidth(t, width, i) >= 0.0
  {
    KidValueBound(t, i);
    PartShare(width, t.kids[i].value, t.value);
  }

  /** A child's interval lies inside its parent's. */
  lemma KidInside(t: Tree, x: real, width: real, i: nat)
    requires Fair(t) && width >= 0.0 && i < |t.kids|
    ensures KidWidth(t, width, i) >= 0.0
    ensures x <= KidX(t, x, width, i)
    ensures KidX(t, x, width, i) + KidWidth(t, width, i) == KidX(t, x, width, i + 1) <= x + width
  {
    KidWidthPositive(t, width, i);
    KidXInside(t, x, width, i);
    KidXInside(t, x, width, i + 1);
  }

  /** The children of a node that has no value of its own tile its interval: each
      starts where the one before ends, the first at the left and the last at the right end. */
  lemma ChildrenTile(t: Tree, x: real, width: real)
    requires Fair(t) && width >= 0.0 && KidSum(t, |t.kids|) == t.value
    ensures KidX(t, x, width, 0) == x && KidX(t, x, width, |t.kids|) == x + width
    ensures forall i: nat :: i < |t.kids| ==> KidX(t, x, width, i) + KidWidth(t, width, i) == KidX(t, x, width, i + 1)
  {
    KidXIsShare(t, x, width, |t.kids|);
    PartShare(width, KidSum(t, |t.kids|), t.value);
  }

  // ---------- the picture ----------

  predicate Within(r: Rect, x: real, width: real) { x <= r.x && r.x + r.width <= x + width }

  ghost predicate AllWithin(rs: seq<Rect>, x: real, width: real, low: nat, high: nat) {
    forall i: nat :: i < |rs| ==>
      Within(rs[i], x, width) && low <= rs[i].depth <= high && rs[i].width >= MINIMUM_WIDTH
  }

  lemma WithinWider(rs: seq<Rect>, x: real, width: real, low: nat, high: nat, x': real, width': real, low': nat,
                    high': nat)
    requires AllWithin(rs, x, width, low, high) && x' <= x && x + width <= x' + width' && low' <= low && high <= high'
    ensures AllWithin(rs, x', width', low', high')
  {
  }

  /** Everything drawn for a node lies in its interval, and no row below it is
      deeper than the tree. */
  lemma {:induction false} LayoutInside(t: Tree, x: real, width: real, depth: nat)
    requires Proper(t) && width >= 0.0
    ensures AllWithin(Layout(t, x, width, depth), x, width, depth, depth + MaximumDepth(t))
    decreases t, |t.kids| + 1
  {
    if width >= MINIMUM_WIDTH {
      KidsInside(t, x, width, depth, |t.kids|);
    }
  }

  lemma {:induction false} KidsInside(t: Tree, x: real, width: real, depth: nat, n: nat)
    requires Proper(t) && width >= 0.0 && n <= |t.kids|
    ensures AllWithin(LayoutUpTo(t, x, width, depth, n), x, KidX(t, x, width, n) - x, depth + 1,
                      depth + DepthUpTo(t, |t.kids|))
    ensures x <= KidX(t, x, width, n) <= x + width
    ensures AllWithin(LayoutUpTo(t, x, width, depth, n), x, width, depth, depth + MaximumDepth(t))
    decreases t, n
  {
    KidXInside(t, x, width, n);
    if n > 0 {
      var i := n - 1;
      KidsInside(t, x, width, depth, i);
      KidInside(t, x, width, i);
      KidDepth(t, i, |t.kids|);
      var kx, kw := KidX(t, x, width, i), KidWidth(t, width, i);
      LayoutInside(t.kids[i], kx, kw, depth + 1);
      WithinWider(LayoutUpTo(t, x, width, depth, i), x, kx - x, depth + 1, depth + DepthUpTo(t, |t.kids|),
                  x, kx + kw - x, depth + 1, depth + DepthUpTo(t, |t.kids|));
      WithinWider(Layout(t.kids[i], kx, kw, depth + 1), kx, kw, depth + 1, depth + 1 + MaximumDepth(t.kids[i]),
                  x, kx + kw - x, depth + 1, depth + DepthUpTo(t, |t.kids|));
      WithinConcat(LayoutUpTo(t, x, width, depth, i), Layout(t.kids[i], kx, kw, depth + 1), x, kx + kw - x,
                   depth + 1, depth + DepthUpTo(t, |t.kids|));
    }
    WithinWider(LayoutUpTo(t, x, width, depth, n), x, KidX(t, x, width, n) - x, depth + 1,
                depth + DepthUpTo(t, |t.kids|),
                x, width, depth, depth + MaximumDepth(t));
  }

  lemma WithinConcat(a: seq<Rect>, b: seq<Rect>, x: real, width: real, low: nat, high: nat)
    requires AllWithin(a, x, width, low, high) && AllWithin(b, x, width, low, high)
    ensures AllWithin(a + b, x, width, low, high)
  {
  }

  /** Rectangles of a row come from left to right and do not overlap. */
  ghost predicate RowsDisjoint(rs: seq<Rect>) {
    forall i: nat, j: nat :: i < j < |rs| && rs[i].depth == rs[j].depth ==> rs[i].x + rs[i].width <= rs[j].x
  }

  lemma {:induction false} LayoutDisjoint(t: Tree, x: real, width: real, depth: nat)
    requires Proper(t) && width >= 0.0
    ensures RowsDisjoint(Layout(t, x, width, depth))
    decreases t, |t.kids| + 1
  {
    if width >= MINIMUM_WIDTH {
      KidsDisjoint(t, x, width, depth, |t.kids|);
      KidsInside(t, x, width, depth, |t.kids|);
    }
  }

  lemma {:induction false} KidsDisjoint(t: Tree, x: real, width: real, depth: nat, n: nat)
    requires Proper(t) && width >= 0.0 && n <= |t.kids|
    ensures RowsDisjoint(LayoutUpTo(t, x, width, depth, n))
    decreases t, n
  {
    if n > 0 {
      var i := n - 1;
      var kx, kw := KidX(t, x, width, i), KidWidth(t, width, i);
      KidsDisjoint(t, x, width, depth, i);
      KidsInside(t, x, width, depth, i);
      KidInside(t, x, width, i);
      LayoutDisjoint(t.kids[i], kx, kw, depth + 1);
      LayoutInside(t.kids[i], kx, kw, depth + 1);
      SideBySide(LayoutUpTo(t, x, width, depth, i), Layout(t.kids[i], kx, kw, depth + 1), x, kx, kw,
                 depth + 1, depth + DepthUpTo(t, |t.kids|), depth + 1 + MaximumDepth(t.kids[i]));
    }
  }

  lemma SideBySide(a: seq<Rect>, b: seq<Rect>, x: real, middle: real, width: real, low: nat, high: nat, high': nat)
    requires RowsDisjoint(a) && RowsDisjoint(b)
    requires AllWithin(a, x, middle - x, low, high) && AllWithin(b, middle, width, low, high')
    ensures RowsDisjoint(a + b)
  {
  }

  /** Each rectangle below the first row stands on one of the row above it. */
  ghost predicate Supported(rs: seq<Rect>, i: nat)
    requires i < |rs|
  {
    exists k: nat :: k < i && rs[k].depth + 1 == rs[i].depth && Within(rs[i], rs[k].x, rs[k].width)
  }

  ghost predicate Nested(rs: seq<Rect>, low: nat) {
    forall i: nat :: i < |rs| && rs[i].depth > low ==> Supported(rs, i)
  }

  lemma NestedConcat(a: seq<Rect>, b: seq<Rect>, low: nat)
    requires Nested(a, low) && Nested(b, low)
    ensures Nested(a + b, low)
  {
    forall i: nat | i < |a + b| && (a + b)[i].depth > low ensures Supported(a + b, i) {
      if i < |a| {
        assert Supported(a, i);
        var k: nat :| k < i && a[k].depth + 1 == a[i].depth && Within(a[i], a[k].x, a[k].width);
        assert (a + b)[k] == a[k];
      } else {
        assert Supported(b, i - |a|);
        var k: nat :| k < i - |a| && b[k].depth + 1 == b[i - |a|].depth && Within(b[i - |a|], b[k].x, b[k].width);
        assert (a + b)[k + |a|] == b[k];
      }
    }
  }

  lemma NestedUnder(r: Rect, rs: seq<Rect>)
    requires Nested(rs, r.depth + 1)
    requires forall i: nat :: i < |rs| ==> r.depth < rs[i].depth && Within(rs[i], r.x, r.width)
    ensures Nested([r] + rs, r.depth)
  {
    forall i: nat | i < |[r] + rs| && ([r] + rs)[i].depth > r.depth ensures Supported([r] + rs, i) {
      SupportedUnder(r, rs, i);
    }
  }

  lemma SupportedUnder(r: Rect, rs: seq<Rect>, i: nat)
    requires Nested(rs, r.depth + 1) && 0 < i <= |rs|
    requires r.depth < rs[i - 1].depth && Within(rs[i - 1], r.x, r.width)
    ensures Supported([r] + rs, i)
  {
    var all := [r] + rs;
    assert all[0] == r && all[i] == rs[i - 1];
    if rs[i - 1].depth != r.depth + 1 {
      assert Supported(rs, i - 1);
      var k: nat :| k < i - 1 && rs[k].depth + 1 == rs[i - 1].depth && Within(rs[i - 1], rs[k].x, rs[k].width);
      assert all[k + 1] == rs[k];
    }
  }

  lemma {:induction false} LayoutNested(t: Tree, x: real, width: real, depth: nat)
    requires Proper(t) && width >= 0.0
    ensures Nested(Layout(t, x, width, depth), depth)
    decreases t, |t.kids| + 1
  {
    if width >= MINIMUM_WIDTH {
      KidsNested(t, x, width, depth, |t.kids|);
      KidsInside(t, x, width, depth, |t.kids|);
      var rs := LayoutUpTo(t, x, width, depth, |t.kids|);
      WithinWider(rs, x, KidX(t, x, width, |t.kids|) - x, depth + 1, depth + DepthUpTo(t, |t.kids|),
                  x, width, depth + 1, depth + DepthUpTo(t, |t.kids|));
      NestedUnder(Rect(t.name, x, width, depth), rs);
    }
  }

  lemma {:induction false} KidsNested(t: Tree, x: real, width: real, depth: nat, n: nat)
    requires Proper(t) && width >= 0.0 && n <= |t.kids|
    ensures Nested(LayoutUpTo(t, x, width, depth, n), depth + 1)
    decreases t, n
  {
    if n > 0 {
      var kx, kw := KidX(t, x, width, n - 1), KidWidth(t, width, n - 1);
      KidsNested(t, x, width, depth, n - 1);
      KidWidthPositive(t, width, n - 1);
      LayoutNested(t.kids[n - 1], kx, kw, depth + 1);
      NestedConcat(LayoutUpTo(t, x, width, depth, n - 1), Layout(t.kids[n - 1], kx, kw, depth + 1), depth + 1);
    }
  }

  /** The y of a row, counted from the bottom of a chart as high as the tree. */
  function RowY(chartY: real, depth: nat, maximumDepth: nat): real {
    chartY + (maximumDepth as real - depth as real) * FRAME_HEIGHT as real
  }

  /** The picture of a whole tree: rows do not overlap, every rectangle is inside the
      chart and stands on its parent's, and none is drawn above the chart. */
  lemma ChartIsWellFormed(root: Tree, width: real, chartY: real)
    requires Proper(root) && width >= 0.0
    ensures var rs := LayoutUpTo(root, 0.0, width, 0, |root.kids|);
      && RowsDisjoint(rs) && Nested(rs, 1) && AllWithin(rs, 0.0, width, 0, MaximumDepth(root))
      && forall i: nat :: i < |rs| ==>
           1 <= rs[i].depth <= MaximumDepth(root) && RowY(chartY, rs[i].depth, MaximumDepth(root)) >= chartY
  {
    KidsDisjoint(root, 0.0, width, 0, |root.kids|);
    KidsNested(root, 0.0, width, 0, |root.kids|);
    KidsInside(root, 0.0, width, 0, |root.kids|);
  }
}
