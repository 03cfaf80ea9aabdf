/** Sums over the aggregate table and the live map of src/memory_core.c: how the
    totals, each aggregate's share and the live entries move together. */
module MemoryTotals {
  import opened Common
  import opened Probing
  import opened Symbols
  import opened LiveMap

  /** The weights of lp_memory_aggregate, and the same six counters of the result. */
  datatype Totals = Totals(allocSpace: nat, allocObjects: nat, inuseSpace: nat, inuseObjects: nat,
                           sampledBytes: nat, samples: nat)

  const ZERO := Totals(0, 0, 0, 0, 0, 0)

  const MAX_STACK_DEPTH := 64

  type Stack = s: seq<Compact> | |s| <= MAX_STACK_DEPTH

  type Aggregates = Slots<Stack, Totals>

  function Plus(a: Totals, b: Totals): Totals {
    Totals(a.allocSpace + b.allocSpace, a.allocObjects + b.allocObjects, a.inuseSpace + b.inuseSpace,
           a.inuseObjects + b.inuseObjects, a.sampledBytes + b.sampledBytes, a.samples + b.samples)
  }

  function InCell(c: Option<Entry<Stack, Totals>>): Totals {
    match c case None => ZERO case Some(e) => e.value
  }

  /** Everything the table holds. */
  function SumTotals(slots: Aggregates): Totals {
    if |slots| == 0 then ZERO else Plus(SumTotals(slots[..|slots| - 1]), InCell(slots[|slots| - 1]))
  }

  lemma {:induction false} SumOfChange(slots: Aggregates, i: nat, c: Option<Entry<Stack, Totals>>)
    requires i < |slots|
    ensures Plus(SumTotals(slots[i := c]), InCell(slots[i])) == Plus(SumTotals(slots), InCell(c))
  {
    var n, t := |slots| - 1, slots[i := c];
    SumUnfolds(slots);
    SumUnfolds(t);
    if i == n {
      assert t[..n] == slots[..n];
      PlusSwaps(SumTotals(slots[..n]), InCell(c), InCell(slots[n]));
    } else {
      assert t[..n] == slots[..n][i := c];
      SumOfChange(slots[..n], i, c);
      PlusSwaps(SumTotals(t[..n]), InCell(slots[n]), InCell(slots[i]));
      PlusSwaps(SumTotals(slots[..n]), InCell(slots[n]), InCell(c));
    }
  }

  lemma SumUnfolds(slots: Aggregates)
    requires |slots| > 0
    ensures SumTotals(slots) == Plus(SumTotals(slots[..|slots| - 1]), InCell(slots[|slots| - 1]))
  {
  }

  lemma PlusSwaps(a: Totals, b: Totals, c: Totals)
    ensures Plus(Plus(a, b), c) == Plus(Plus(a, c), b)
  {
  }

  lemma {:induction false} CellWithinSum(slots: Aggregates, i: nat)
    requires i < |slots|
    ensures InCell(slots[i]).inuseSpace <= SumTotals(slots).inuseSpace
    ensures InCell(slots[i]).inuseObjects <= SumTotals(slots).inuseObjects
  {
    if i < |slots| - 1 {
      CellWithinSum(slots[..|slots| - 1], i);
    }
  }

  /** The sum over a list of aggregates. */
  function SumListed(es: seq<Entry<Stack, Totals>>): Totals {
    if |es| == 0 then ZERO else Plus(SumListed(es[..|es| - 1]), es[|es| - 1].value)
  }

  /** Reading the aggregates out by number visits each used cell once. */
  lemma {:induction false} ListingSums(slots: Aggregates)
    ensures SumListed(Listing(slots)) == SumTotals(slots)
  {
    if |slots| > 0 {
      var n := |slots| - 1;
      ListingSums(slots[..n]);
      SumUnfolds(slots);
      ListingUnfolds(slots);
      if slots[n].Some? {
        SumListedAppend(Listing(slots[..n]), slots[n].value);
      } else {
        assert Listing(slots) == Listing(slots[..n]);
        PlusZero(SumTotals(slots[..n]));
      }
    }
  }

  lemma PlusZero(t: Totals)
    ensures Plus(t, ZERO) == t
  {
  }

  lemma ListingUnfolds(slots: Aggregates)
    requires |slots| > 0
    ensures Listing(slots)
         == Listing(slots[..|slots| - 1]) + if slots[|slots| - 1].Some? then [slots[|slots| - 1].value] else []
  {
  }

  lemma SumListedAppend(es: seq<Entry<Stack, Totals>>, e: Entry<Stack, Totals>)
    ensures SumListed(es + [e]) == Plus(SumListed(es), e.value)
  {
    assert (es + [e])[..|es|] == es;
  }

  lemma {:induction false} SumOfNothing(slots: Aggregates)
    requires forall i: nat :: i < |slots| ==> slots[i].None?
    ensures SumTotals(slots) == ZERO
  {
    if |slots| > 0 {
      SumOfNothing(slots[..|slots| - 1]);
    }
  }

  datatype Weight = Weight(space: nat, objects: nat)

  /** What one entry contributes to aggregate `a`. */
  function Share(e: Live, a: nat): Weight {
    if e.pointer != 0 && e.aggregate == a then Weight(e.space, e.objects) else Weight(0, 0)
  }

  function InUse(es: seq<Live>, a: nat): Weight {
    if |es| == 0 then Weight(0, 0)
    else
      var w, v := InUse(es[..|es| - 1], a), Share(es[|es| - 1], a);
      Weight(w.space + v.space, w.objects + v.objects)
  }

  lemma {:induction false} InUseOfSame(s: seq<Live>, t: seq<Live>, a: nat)
    requires |s| == |t| && forall j: nat :: j < |s| ==> t[j].(next := 0) == s[j].(next := 0)
    ensures InUse(t, a) == InUse(s, a)
  {
    if |s| > 0 {
      var n := |s| - 1;
      InUseOfSame(s[..n], t[..n], a);
      assert t[n].(next := 0) == s[n].(next := 0);
    }
  }

  lemma {:induction false} InUseOfChange(s: seq<Live>, t: seq<Live>, i: nat, a: nat)
    requires Changed(s, t, i)
    ensures InUse(t, a).space + Share(s[i], a).space == InUse(s, a).space + Share(t[i], a).space
    ensures InUse(t, a).objects + Share(s[i], a).objects == InUse(s, a).objects + Share(t[i], a).objects
  {
    var n := |s| - 1;
    if i == n {
      InUseOfSame(s[..n], t[..n], a);
    } else {
      InUseOfChange(s[..n], t[..n], i, a);
      assert t[n].(next := 0) == s[n].(next := 0);
    }
  }

  lemma {:induction false} InUseOfNothing(es: seq<Live>, a: nat)
    requires forall i: nat :: i < |es| ==> es[i].pointer == 0
    ensures InUse(es, a) == Weight(0, 0)
  {
    if |es| > 0 {
      InUseOfNothing(es[..|es| - 1], a);
    }
  }

  /** Each aggregate's in-use weight is the sum of its live entries. */
  ghost predicate Accounted(slots: Aggregates, es: seq<Live>) {
    Charged(slots, es) && Attributed(slots, es)
  }

  ghost predicate Charged(slots: Aggregates, es: seq<Live>) {
    forall a: nat :: a < |slots| ==> InUse(es, a) == Charge(slots[a])
  }

  function Charge(c: Option<Entry<Stack, Totals>>): Weight {
    Weight(InCell(c).inuseSpace, InCell(c).inuseObjects)
  }

  ghost predicate Attributed(slots: Aggregates, es: seq<Live>) {
    forall i: nat :: i < |es| && es[i].pointer != 0 ==>
      es[i].aggregate < |slots| && slots[es[i].aggregate].Some?
  }

  ghost predicate WithinAlloc(slots: Aggregates) {
    forall a: nat :: a < |slots| ==>
      InCell(slots[a]).inuseSpace <= InCell(slots[a]).allocSpace &&
      InCell(slots[a]).inuseObjects <= InCell(slots[a]).allocObjects
  }

  /** saturating_subtract. */
  function Subtract(a: nat, b: nat): nat { if a < b then 0 else a - b }

  function Less(v: Totals, e: Live): Totals {
    v.(inuseSpace := Subtract(v.inuseSpace, e.space), inuseObjects := Subtract(v.inuseObjects, e.objects))
  }

  function More(v: Totals, w: Weight): Totals {
    v.(inuseSpace := v.inuseSpace + w.space, inuseObjects := v.inuseObjects + w.objects)
  }

  function WithCell(slots: Aggregates, a: nat, v: Totals): Aggregates
    requires a < |slots| && slots[a].Some?
  {
    slots[a := Some(Entry(slots[a].value.key, v))]
  }

  /** A live entry's weight is really there to be taken off. */
  lemma EntryIsCharged(slots: Aggregates, s: seq<Live>, t: seq<Live>, i: nat)
    requires Accounted(slots, s) && Changed(s, t, i) && s[i].pointer != 0 && t[i].pointer == 0
    ensures s[i].aggregate < |slots| && slots[s[i].aggregate].Some?
    ensures var v := InCell(slots[s[i].aggregate]); v.inuseSpace >= s[i].space && v.inuseObjects >= s[i].objects
  {
    assert InUse(s, s[i].aggregate) == Charge(slots[s[i].aggregate]);
    InUseOfChange(s, t, i, s[i].aggregate);
  }

  lemma StillAttributed(slots: Aggregates, s: seq<Live>, t: seq<Live>, i: nat, a: nat, v: Totals)
    requires Attributed(slots, s) && Changed(s, t, i) && a < |slots| && slots[a].Some?
    requires t[i].pointer == 0 || t[i].aggregate == a
    ensures Attributed(WithCell(slots, a, v), t)
  {
    forall j: nat | j < |t| && t[j].pointer != 0
      ensures t[j].aggregate < |slots| && WithCell(slots, a, v)[t[j].aggregate].Some?
    {
      if j != i {
        assert t[j].(next := 0) == s[j].(next := 0);
        assert s[j].pointer == t[j].pointer && s[j].aggregate == t[j].aggregate;
      }
    }
  }

  lemma LessIsCharged(slots: Aggregates, s: seq<Live>, t: seq<Live>, i: nat)
    requires Accounted(slots, s) && Changed(s, t, i) && s[i].pointer != 0 && t[i].pointer == 0
    requires s[i].aggregate < |slots| && slots[s[i].aggregate].Some?
    ensures Charged(WithCell(slots, s[i].aggregate, Less(slots[s[i].aggregate].value.value, s[i])), t)
  {
    var a := s[i].aggregate;
    var slots' := WithCell(slots, a, Less(slots[a].value.value, s[i]));
    forall b: nat | b < |slots| ensures InUse(t, b) == Charge(slots'[b]) {
      assert InUse(s, b) == Charge(slots[b]);
      InUseOfChange(s, t, i, b);
    }
  }

  lemma MoreIsCharged(slots: Aggregates, s: seq<Live>, t: seq<Live>, i: nat, now: Live)
    requires Accounted(slots, s) && Changed(s, t, i) && s[i].pointer == 0
    requires t[i].(next := 0) == now.(next := 0) && now.pointer != 0
    requires now.aggregate < |slots| && slots[now.aggregate].Some?
    ensures Charged(WithCell(slots, now.aggregate,
                             More(slots[now.aggregate].value.value, Weight(now.space, now.objects))), t)
  {
    var a := now.aggregate;
    var slots' := WithCell(slots, a, More(slots[a].value.value, Weight(now.space, now.objects)));
    forall b: nat | b < |slots| ensures InUse(t, b) == Charge(slots'[b]) {
      assert InUse(s, b) == Charge(slots[b]);
      InUseOfChange(s, t, i, b);
      assert Share(t[i], b) == Share(now, b) by { SameShare(t[i], now, b); }
    }
  }

  lemma SameShare(e: Live, f: Live, a: nat)
    requires e.(next := 0) == f.(next := 0)
    ensures Share(e, a) == Share(f, a)
  {
    assert e.(next := 0).pointer == f.(next := 0).pointer && e.(next := 0).aggregate == f.(next := 0).aggregate;
    assert e.(next := 0).space == f.(next := 0).space && e.(next := 0).objects == f.(next := 0).objects;
  }

  lemma SumOfLess(slots: Aggregates, a: nat, e: Live)
    requires a < |slots| && slots[a].Some?
    requires slots[a].value.value.inuseSpace >= e.space && slots[a].value.value.inuseObjects >= e.objects
    ensures SumTotals(WithCell(slots, a, Less(slots[a].value.value, e))) == Less(SumTotals(slots), e)
    ensures SumTotals(slots).inuseSpace >= e.space && SumTotals(slots).inuseObjects >= e.objects
  {
    var v := slots[a].value.value;
    CellWithinSum(slots, a);
    SumOfChange(slots, a, Some(Entry(slots[a].value.key, Less(v, e))));
    LessOfSum(SumTotals(slots), v, e, SumTotals(WithCell(slots, a, Less(v, e))));
  }

  lemma LessOfSum(sum: Totals, v: Totals, e: Live, sum': Totals)
    requires Plus(sum', v) == Plus(sum, Less(v, e)) && v.inuseSpace >= e.space && v.inuseObjects >= e.objects
    requires sum.inuseSpace >= v.inuseSpace && sum.inuseObjects >= v.inuseObjects
    ensures sum' == Less(sum, e)
  {
  }

  lemma SumOfMore(slots: Aggregates, a: nat, w: Weight)
    requires a < |slots| && slots[a].Some?
    ensures SumTotals(WithCell(slots, a, More(slots[a].value.value, w))) == More(SumTotals(slots), w)
  {
    SumOfChange(slots, a, Some(Entry(slots[a].value.key, More(slots[a].value.value, w))));
  }

  /** Forgetting an entry and taking its weight off keeps the books; the
      saturating subtraction never saturates. */
  lemma ForgetKeepsBooks(slots: Aggregates, s: seq<Live>, t: seq<Live>, gone: Live)
    requires Accounted(slots, s) && WithinAlloc(slots) && Forgotten(s, t, gone) && gone.pointer != 0
    ensures gone.aggregate < |slots| && slots[gone.aggregate].Some?
    ensures var slots' := WithCell(slots, gone.aggregate, Less(slots[gone.aggregate].value.value, gone));
      Accounted(slots', t) && WithinAlloc(slots') && SumTotals(slots') == Less(SumTotals(slots), gone)
    ensures SumTotals(slots).inuseSpace >= gone.space && SumTotals(slots).inuseObjects >= gone.objects
  {
    var i: nat :| Changed(s, t, i) && s[i] == gone && t[i].pointer == 0;
    EntryIsCharged(slots, s, t, i);
    LessIsCharged(slots, s, t, i);
    StillAttributed(slots, s, t, i, gone.aggregate, Less(slots[gone.aggregate].value.value, gone));
    SumOfLess(slots, gone.aggregate, gone);
  }

  /** Entering an entry on a free cell of the map and adding its weight, too. */
  lemma EnterKeepsBooks(slots: Aggregates, s: seq<Live>, t: seq<Live>, now: Live)
    requires Accounted(slots, s) && Entered(s, t, None, now) && now.pointer != 0
    requires now.aggregate < |slots| && slots[now.aggregate].Some?
    ensures var w := Weight(now.space, now.objects);
      var slots' := WithCell(slots, now.aggregate, More(slots[now.aggregate].value.value, w));
      Accounted(slots', t) && SumTotals(slots') == More(SumTotals(slots), w)
  {
    var i: nat :| Changed(s, t, i) && t[i].(next := 0) == now.(next := 0) && s[i].pointer == 0;
    MoreIsCharged(slots, s, t, i, now);
    assert t[i].(next := 0).aggregate == now.(next := 0).aggregate;
    StillAttributed(slots, s, t, i, now.aggregate,
                    More(slots[now.aggregate].value.value, Weight(now.space, now.objects)));
    SumOfMore(slots, now.aggregate, Weight(now.space, now.objects));
  }

  /** Replacing an entry is forgetting it and entering another. */
  lemma ReplaceSplits(s: seq<Live>, t: seq<Live>, was: Live, now: Live) returns (m: seq<Live>)
    requires Entered(s, t, Some(was), now)
    ensures Forgotten(s, m, was) && Entered(m, t, None, now)
  {
    var i: nat :| Changed(s, t, i) && t[i].(next := 0) == now.(next := 0) && s[i] == was;
    m := s[i := s[i].(pointer := 0)];
    assert Changed(s, m, i) && Changed(m, t, i);
  }
}
