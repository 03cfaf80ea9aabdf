/** lp_memory_profile of src/memory_core.c: recording samples, tracking live
    blocks and reading the aggregates back. */
module MemoryProfile {
  import opened Common
  import opened Probing
  import opened Symbols
  import opened LiveMap
  import opened MemoryTotals
  import Sampler

  const AGGREGATE_CAPACITY := 2048
  const LIVE_CAPACITY := 16384
  const BUCKET_CAPACITY := 32768

  /** What a profile says about memory, without stacks: the tracked blocks with
      their weights, and the running totals. */
  datatype Ledger = Ledger(live: map<nat, Weight>, inuse: Weight, alloc: Weight)

  function Forget(l: Ledger, p: nat): Ledger {
    if p in l.live then
      l.(live := l.live - {p},
         inuse := Weight(Subtract(l.inuse.space, l.live[p].space), Subtract(l.inuse.objects, l.live[p].objects)))
    else l
  }

  function Track(l: Ledger, p: nat, w: Weight): Ledger {
    var f := Forget(l, p);
    f.(live := f.live[p := w], inuse := Weight(f.inuse.space + w.space, f.inuse.objects + w.objects))
  }

  function Allocate(l: Ledger, w: Weight): Ledger {
    l.(alloc := Weight(l.alloc.space + w.space, l.alloc.objects + w.objects))
  }

  /** A block can be tracked: it is already, or the map has a free entry. */
  predicate Fits(l: Ledger, tracking: bool, capacity: nat, p: nat) {
    tracking && p != 0 && (p in l.live || |l.live| < capacity)
  }

  /** What tracking a block adds to the live-map overflows. */
  function LiveOverflow(l: Ledger, tracking: bool, capacity: nat, p: nat): nat {
    if tracking && p != 0 && !Fits(l, tracking, capacity, p) then 1 else 0
  }

  function Weights(m: map<nat, (nat, nat, nat)>): map<nat, Weight> {
    map p | p in m :: Weight(m[p].0, m[p].1)
  }

  class Profile {
    const symbols: SymbolTable
    const aggregates: Table<Stack, Totals>
    const sampleBytes: nat
    const live: LiveTable
    var tracking: bool
    var budget: nat
    var totals: Totals
    var aggregateCount: nat
    var liveMapOverflows: nat
    var stackTruncations: nat
    var aggregateOverflows: nat
    ghost var accepted: nat

    /** The arrays of the parts are different objects. */
    ghost predicate Separate() {
      var sources: object, keys: object, stacks: object := symbols.sources, symbols.table.slots, aggregates.slots;
      var entries: object, buckets: object := live.entries, live.buckets;
      {sources, keys} !! {stacks} !! {entries, buckets}
    }

    /** The tables and the totals agree, live map aside. */
    ghost predicate Tallied()
      reads this, aggregates.slots
    {
      && aggregates.Valid()
      && totals == SumTotals(aggregates.slots[..])
      && aggregateCount == Used(aggregates.slots[..])
      && WithinAlloc(aggregates.slots[..])
      && totals.samples + aggregateOverflows == accepted
    }

    ghost predicate Whole()
      reads this, symbols, symbols.table.slots, symbols.sources, aggregates.slots, live, live.entries, live.buckets
    {
      && Separate()
      && symbols.Valid()
      && Tallied()
      && sampleBytes >= 1 && budget >= 1
      && aggregates.slots.Length == AGGREGATE_CAPACITY && symbols.table.slots.Length == SYMBOL_CAPACITY
      && (tracking ==> live.Valid() && Accounted(aggregates.slots[..], live.entries[..]))
    }

    ghost predicate Valid()
      reads this, symbols, symbols.table.slots, symbols.sources, aggregates.slots, live, live.entries, live.buckets
    {
      forall key: nat :: Opened(ProfileLock, key) ==> Whole()
    }

    /** Tracked blocks and totals; without tracking no block is tracked. */
    ghost function Books(): Ledger
      requires Valid()
      reads this, symbols, symbols.table.slots, symbols.sources, aggregates.slots, live, live.entries, live.buckets
    {
      assert Opened(ProfileLock, 0);
      BooksOf(if tracking then live.Contents() else map[], totals)
    }

    /** lp_memory_profile_new, given that its allocations succeed. */
    constructor (sampleBytes: nat, bits: nat, trackFree: bool,
                 symbolHash: Key -> nat, digest: seq<byte> -> nat, stackHash: Stack -> nat, pointerHash: nat -> nat)
      requires sampleBytes >= 1 && bits <= Sampler.UINT64_MAX
      ensures Valid() && fresh(symbols) && fresh(symbols.table.slots) && fresh(symbols.sources)
      ensures fresh(aggregates.slots) && fresh(live) && fresh(live.entries) && fresh(live.buckets)
      ensures Books() == Ledger(map[], Weight(0, 0), Weight(0, 0)) && accepted == 0
      ensures aggregateOverflows == liveMapOverflows == stackTruncations == 0
      ensures tracking == trackFree && this.sampleBytes == sampleBytes
      ensures budget == Sampler.GeometricInterval(sampleBytes, bits)
      ensures live.entries.Length == LIVE_CAPACITY
    {
      var s := new SymbolTable(symbolHash, digest);
      symbols := s;
      var t := new Table<Stack, Totals>(AGGREGATE_CAPACITY, stackHash);
      aggregates := t;
      var l := new LiveTable(LIVE_CAPACITY, BUCKET_CAPACITY, pointerHash);
      live, tracking := l, trackFree;
      this.sampleBytes := sampleBytes;
      budget := Sampler.GeometricInterval(sampleBytes, bits);
      totals, aggregateCount, liveMapOverflows, stackTruncations, aggregateOverflows := ZERO, 0, 0, 0, 0;
      accepted := 0;
      new;
      NothingYet(aggregates.slots[..], live.entries[..]);
    }

    /** subtract_live_weight. */
    method SubtractWeight(e: Live)
      requires aggregates.Valid()
      requires e.aggregate < aggregates.slots.Length && aggregates.slots[e.aggregate].Some?
      modifies this`totals, aggregates.slots
      ensures aggregates.Valid() && totals == Less(old(totals), e)
      ensures aggregates.slots[..] == WithCell(old(aggregates.slots[..]), e.aggregate,
                                               Less(old(aggregates.slots[e.aggregate]).value.value, e))
    {
      aggregates.Amend(e.aggregate, Less(aggregates.slots[e.aggregate].value.value, e));
      totals := Less(totals, e);
    }

    /** The last part of add_live. */
    method AddWeight(a: nat, w: Weight)
      requires aggregates.Valid()
      requires a < aggregates.slots.Length && aggregates.slots[a].Some?
      modifies this`totals, aggregates.slots
      ensures aggregates.Valid() && totals == More(old(totals), w)
      ensures aggregates.slots[..] == WithCell(old(aggregates.slots[..]), a,
                                               More(old(aggregates.slots[a]).value.value, w))
    {
      aggregates.Amend(a, More(aggregates.slots[a].value.value, w));
      totals := More(totals, w);
    }

    /** subtract_live_weight for an entry that left the map `es`. */
    method Discharge(e: Live, ghost es: seq<Live>, ghost es': seq<Live>)
      requires Tallied() && Accounted(aggregates.slots[..], es) && Forgotten(es, es', e) && e.pointer != 0
      modifies this`totals, aggregates.slots
      ensures Tallied() && Accounted(aggregates.slots[..], es') && totals == Less(old(totals), e)
      ensures Reduced(old(aggregates.slots[..]), aggregates.slots[..])
    {
      ghost var slots := aggregates.slots[..];
      ForgetKeepsBooks(slots, es, es', e);
      CellUsed(slots, e.aggregate, Less(slots[e.aggregate].value.value, e));
      SubtractWeight(e);
    }

    /** The weight of an entry that came into the map `es`. */
    method Admit(now: Live, ghost es: seq<Live>, ghost es': seq<Live>)
      requires Tallied() && Accounted(aggregates.slots[..], es) && Entered(es, es', None, now) && now.pointer != 0
      requires now.aggregate < aggregates.slots.Length && aggregates.slots[now.aggregate].Some?
      requires Spare(aggregates.slots[now.aggregate].value.value, Weight(now.space, now.objects))
      modifies this`totals, aggregates.slots
      ensures Tallied() && Accounted(aggregates.slots[..], es')
                && totals == More(old(totals), Weight(now.space, now.objects))
      ensures SameStacks(old(aggregates.slots[..]), aggregates.slots[..])
    {
      ghost var slots := aggregates.slots[..];
      var w := Weight(now.space, now.objects);
      EnterKeepsBooks(slots, es, es', now);
      CellUsed(slots, now.aggregate, More(slots[now.aggregate].value.value, w));
      AddWeight(now.aggregate, w);
    }

    /** Weights follow what an addition did to the map, from `es` to `es'`. */
    method Settle(r: Added, now: Live, ghost es: seq<Live>, ghost es': seq<Live>)
      requires Tallied() && Accounted(aggregates.slots[..], es) && now.pointer != 0
      requires now.aggregate < aggregates.slots.Length && aggregates.slots[now.aggregate].Some?
      requires Spare(aggregates.slots[now.aggregate].value.value, Weight(now.space, now.objects))
      requires r.Replaced? || r.Inserted?
      requires Entered(es, es', if r.Replaced? then Some(r.was) else None, now)
      requires r.Replaced? ==> r.was.pointer != 0
      modifies this`totals, aggregates.slots
      ensures Tallied() && Accounted(aggregates.slots[..], es')
      ensures SameStacks(old(aggregates.slots[..]), aggregates.slots[..])
      ensures totals == More(if r.Replaced? then Less(old(totals), r.was) else old(totals),
                             Weight(now.space, now.objects))
    {
      if r.Replaced? {
        ghost var slots, a := aggregates.slots[..], now.aggregate;
        ghost var mid := ReplaceSplits(es, es', r.was, now);
        Discharge(r.was, es, mid);
        assert SameStack(slots[a], aggregates.slots[..][a]);
        assert InCell(aggregates.slots[..][a]).inuseSpace <= InCell(slots[a]).inuseSpace;
        Admit(now, mid, es');
      } else {
        Admit(now, es, es');
      }
    }

    /** add_live. */
    method AddLive(p: nat, a: nat, w: Weight)
      requires Valid() && a < aggregates.slots.Length && aggregates.slots[a].Some?
      requires Spare(aggregates.slots[a].value.value, w)
      modifies this`totals, this`liveMapOverflows, aggregates.slots, live, live.entries, live.buckets
      ensures Valid() && SameStacks(old(aggregates.slots[..]), aggregates.slots[..])
      ensures Books() == if Fits(old(Books()), old(tracking), live.entries.Length, p) then Track(old(Books()), p, w)
                         else old(Books())
      ensures liveMapOverflows == old(liveMapOverflows) + LiveOverflow(old(Books()), tracking, live.entries.Length, p)
    {
      assert Opened(ProfileLock, 0);
      if tracking && p != 0 {
        BooksAfter(live.Contents(), totals, p, w, a, live.entries.Length);
        TrackLive(p, a, w);
      }
    }

    method TrackLive(p: nat, a: nat, w: Weight)
      requires Whole() && tracking && p != 0 && a < aggregates.slots.Length && aggregates.slots[a].Some?
      requires Spare(aggregates.slots[a].value.value, w)
      modifies this`totals, this`liveMapOverflows, aggregates.slots, live, live.entries, live.buckets
      ensures Whole() && SameStacks(old(aggregates.slots[..]), aggregates.slots[..])
      ensures live.Contents() == ContentsAfter(old(live.Contents()), live.entries.Length, p, w, a)
      ensures totals == TotalsAfter(old(live.Contents()), live.entries.Length, old(totals), p, w)
      ensures liveMapOverflows == old(liveMapOverflows)
                                  + if HasRoom(old(live.Contents()), live.entries.Length, p) then 0 else 1
    {
      ghost var es, m := live.entries[..], live.Contents();
      assert Weight(w.space, w.objects) == w;
      var r := live.Add(p, w.space, w.objects, a);
      if r.Overflow? {
        liveMapOverflows := liveMapOverflows + 1;
      } else {
        ghost var es', m' := live.entries[..], live.Contents();
        assert m' == ContentsAfter(m, live.entries.Length, p, w, a);
        Settle(r, Live(p, w.space, w.objects, a, 0), es, es');
        assert live.entries[..] == es';
        assert live.Valid() && live.Contents() == m';
        assert totals == TotalsAfter(m, live.entries.Length, old(totals), p, w);
      }
    }

    /** remove_live. */
    method RemoveLive(p: nat)
      requires Valid()
      modifies this`totals, aggregates.slots, live, live.entries, live.buckets
      ensures Valid() && Books() == Forget(old(Books()), p)
    {
      assert Opened(ProfileLock, 0);
      if tracking {
        BooksWithout(live.Contents(), totals, p);
        UntrackLive(p);
      }
    }

    method UntrackLive(p: nat)
      requires Whole() && tracking
      modifies this`totals, aggregates.slots, live, live.entries, live.buckets
      ensures Whole() && live.Contents() == old(live.Contents()) - {p}
      ensures totals == TotalsWithout(old(live.Contents()), old(totals), p)
    {
      ghost var es := live.entries[..];
      var gone := live.Remove(p);
      if gone.Some? {
        ghost var es', m' := live.entries[..], live.Contents();
        Discharge(gone.value, es, es');
        assert live.entries[..] == es';
        assert live.Valid() && live.Contents() == m';
      }
    }

    /** lp_memory_profile_allocation_event: a free or a resize ends a tracked block. */
    method AllocationEvent(oldPointer: nat, newPointer: nat, newSize: nat, success: bool)
      requires Valid()
      modifies this`totals, aggregates.slots, live, live.entries, live.buckets
      ensures Valid()
      ensures Books() == if Ends(oldPointer, newPointer, newSize, success) then Forget(old(Books()), oldPointer)
                         else old(Books())
    {
      if !success || oldPointer == 0 { return; }
      if (newPointer == 0 && newSize == 0) || (newPointer != 0 && newSize != 0) {
        RemoveLive(oldPointer);
      }
    }

    /** lp_memory_profile_should_sample; `bits`, `u` and `v` are its random draws. */
    method ShouldSample(size: nat, bits: nat, u: real, v: real) returns (selected: bool, space: nat, objects: nat)
      requires Valid() && bits <= Sampler.UINT64_MAX
      modifies this`budget
      ensures Valid() && Books() == old(Books())
      ensures old(budget) >= 1 && sampleBytes >= 1
      ensures (selected, budget) == Sampler.Spend(old(budget), size, Sampler.GeometricInterval(sampleBytes, bits))
      ensures selected ==> size > 0 && space == Sampler.SpaceWeight(sampleBytes, size, u)
                           && objects == Sampler.ObjectsWeight(sampleBytes, size, v)
    {
      assert Opened(ProfileLock, 0);
      selected, space, objects := false, 0, 0;
      if size == 0 { return; }
      if size < budget {
        budget := budget - size;
        return;
      }
      budget := Sampler.GeometricInterval(sampleBytes, bits);
      selected := true;
      space := Sampler.SpaceWeight(sampleBytes, size, u);
      objects := Sampler.ObjectsWeight(sampleBytes, size, v);
    }

    /** The aggregate loop of lp_memory_profile_record: add the sample to its
        stack's aggregate, or start one, or find the table full. */
    method Aggregate(stack: Stack, d: Totals) returns (a: Option<nat>)
      requires Tallied() && d.inuseSpace == 0 && d.inuseObjects == 0 && d.samples == 1
      modifies this`totals, this`aggregateCount, this`aggregateOverflows, this`accepted, aggregates.slots
      ensures Tallied() && accepted == old(accepted) + 1
      ensures a.Some? ==> a.value < aggregates.slots.Length && totals == Plus(old(totals), d)
                          && SampleAdded(old(aggregates.slots[..]), aggregates.slots[..], a.value, stack, d)
                          && aggregateOverflows == old(aggregateOverflows)
      ensures a.None? ==> aggregates.slots[..] == old(aggregates.slots[..]) && totals == old(totals)
                          && aggregateOverflows == old(aggregateOverflows) + 1 && Absent(aggregates.slots[..], stack)
                          && Used(aggregates.slots[..]) == aggregates.slots.Length
    {
      ghost var slots := aggregates.slots[..];
      var found := aggregates.Locate(stack);
      match found
      case Full =>
        UsedBounds(slots);
        aggregateOverflows := aggregateOverflows + 1;
        accepted := accepted + 1;
        a := None;
      case Hit(i) =>
        var v := Plus(aggregates.slots[i].value.value, d);
        Tally(slots, i, stack, v, d);
        aggregates.Amend(i, v);
        totals, accepted := Plus(totals, d), accepted + 1;
        a := Some(i);
      case Free(i) =>
        Tally(slots, i, stack, d, d);
        aggregates.Fill(i, stack, d);
        aggregateCount := aggregateCount + 1;
        totals, accepted := Plus(totals, d), accepted + 1;
        a := Some(i);
    }

    /** A sample with its stack made compact: the aggregate, then the live block. */
    method Store(p: nat, compact: Stack, cut: bool, size: nat, w: Weight)
      requires Valid() && Countable(size, w)
      modifies this, aggregates.slots, live, live.entries, live.buckets
      ensures Valid() && tracking == old(tracking) && budget == old(budget) && accepted == old(accepted) + 1
      ensures Recorded(old(aggregates.slots[..]), aggregates.slots[..], compact, Sample(size, w),
                       aggregateOverflows - old(aggregateOverflows))
      ensures Books() == if aggregateOverflows == old(aggregateOverflows)
                         then AfterSample(old(Books()), tracking, live.entries.Length, p, w) else old(Books())
      ensures stackTruncations == old(stackTruncations)
                                  + if cut && aggregateOverflows == old(aggregateOverflows) then 1 else 0
      ensures liveMapOverflows == old(liveMapOverflows)
                                  + if aggregateOverflows == old(aggregateOverflows)
                                    then LiveOverflow(old(Books()), tracking, live.entries.Length, p) else 0
    {
      ghost var slots := aggregates.slots[..];
      var a := CountAllocation(compact, cut, size, w);
      if a.Some? {
        ghost var slots' := aggregates.slots[..];
        AddLive(p, a.value, w);
        RecordedBy(slots, slots', aggregates.slots[..], a.value, compact, Sample(size, w));
      }
    }

    method CountAllocation(compact: Stack, cut: bool, size: nat, w: Weight) returns (a: Option<nat>)
      requires Valid() && Countable(size, w)
      modifies this, aggregates.slots
      ensures Valid() && tracking == old(tracking) && budget == old(budget) && accepted == old(accepted) + 1
      ensures liveMapOverflows == old(liveMapOverflows)
      ensures a.None? ==>
                && Recorded(old(aggregates.slots[..]), aggregates.slots[..], compact, Sample(size, w), 1)
                && aggregateOverflows == old(aggregateOverflows) + 1 && Books() == old(Books())
                && stackTruncations == old(stackTruncations)
      ensures a.Some? ==>
                && SampleAdded(old(aggregates.slots[..]), aggregates.slots[..], a.value, compact, Sample(size, w))
                && aggregateOverflows == old(aggregateOverflows) && Books() == Allocate(old(Books()), w)
                && stackTruncations == old(stackTruncations) + (if cut then 1 else 0)
                && a.value < aggregates.slots.Length && aggregates.slots[a.value].Some?
                && Spare(aggregates.slots[a.value].value.value, w)
    {
      assert Opened(ProfileLock, 0);
      ghost var slots, m := aggregates.slots[..], if tracking then live.Contents() else map[];
      BooksAllocate(m, totals, size, w);
      a := Aggregate(compact, Sample(size, w));
      if a.Some? {
        if cut {
          stackTruncations := stackTruncations + 1;
        }
        SampleKeepsAccounted(slots, aggregates.slots[..], a.value, compact, Sample(size, w), live.entries[..]);
        SampleIsSpare(slots, a.value, compact, size, w);
      }
    }

    /** lp_memory_profile_record. `stack` is the sample's compact stack. */
    method Record(p: nat, frames: seq<Frame>, truncated: bool, size: nat, w: Weight) returns (ghost stack: Stack)
      requires Valid()
      modifies this, symbols, symbols.table.slots, symbols.sources, aggregates.slots, live, live.entries, live.buckets
      ensures Valid() && tracking == old(tracking) && budget == old(budget)
      ensures !Countable(size, w) ==>
                && Books() == old(Books()) && accepted == old(accepted) && aggregateOverflows == old(aggregateOverflows)
                && liveMapOverflows == old(liveMapOverflows) && stackTruncations == old(stackTruncations)
                && aggregates.slots[..] == old(aggregates.slots[..])
      ensures Countable(size, w) ==>
                && accepted == old(accepted) + 1
                && Resolved(symbols.table.slots[..], symbols.digest, Captured(frames), stack)
                && Recorded(old(aggregates.slots[..]), aggregates.slots[..], stack, Sample(size, w),
                            aggregateOverflows - old(aggregateOverflows))
                && Books() == (if aggregateOverflows == old(aggregateOverflows)
                               then AfterSample(old(Books()), tracking, live.entries.Length, p, w) else old(Books()))
                && liveMapOverflows == old(liveMapOverflows)
                                       + (if aggregateOverflows == old(aggregateOverflows)
                                          then LiveOverflow(old(Books()), tracking, live.entries.Length, p) else 0)
                && stackTruncations == old(stackTruncations)
                                       + (if (truncated || |frames| > MAX_STACK_DEPTH)
                                             && aggregateOverflows == old(aggregateOverflows) then 1 else 0)
    {
      stack := [];
      if size == 0 || w.space == 0 || w.objects == 0 { return; }
      var compact := Compress(frames);
      stack := compact;
      Store(p, compact, truncated || |frames| > MAX_STACK_DEPTH, size, w);
    }

    method Compress(frames: seq<Frame>) returns (stack: Stack)
      requires Valid()
      modifies symbols, symbols.table.slots, symbols.sources
      ensures Valid() && Books() == old(Books()) && aggregates.slots[..] == old(aggregates.slots[..])
      ensures Resolved(symbols.table.slots[..], symbols.digest, Captured(frames), stack)
    {
      assert Opened(ProfileLock, 0);
      stack := symbols.Compress(Captured(frames));
    }

    /** aggregate_at and lp_memory_profile_sample. */
    method SampleAt(index: nat) returns (r: Option<Entry<Stack, Totals>>)
      requires Valid()
      ensures r == if index < Used(aggregates.slots[..]) then Some(Listing(aggregates.slots[..])[index]) else None
    {
      assert Opened(ProfileLock, 0);
      r := aggregates.Nth(index, aggregateCount);
    }

    /** lp_memory_profile_finish: the live map goes, the totals stay. */
    method Finish()
      requires Valid()
      modifies this`tracking
      ensures Valid() && !tracking && Books() == old(Books()).(live := map[])
    {
      assert Opened(ProfileLock, 0);
      tracking := false;
      assert Weights(map[]) == map[];
    }
  }

  /** In every state a profile can be in: the six totals are the sums over the
      aggregates as they are read out; what an aggregate has in use is what its
      live entries weigh, and no more than it allocated; and each accepted record
      call is a sample or an aggregate overflow. */
  lemma TotalsAreConserved(p: Profile)
    requires p.Valid()
    ensures p.totals == SumListed(Listing(p.aggregates.slots[..]))
    ensures p.aggregateCount == |Listing(p.aggregates.slots[..])|
    ensures WithinAlloc(p.aggregates.slots[..])
    ensures p.tracking ==> Charged(p.aggregates.slots[..], p.live.entries[..])
    ensures p.totals.samples + p.aggregateOverflows == p.accepted
  {
    assert Opened(ProfileLock, 0);
    ListingSums(p.aggregates.slots[..]);
  }

  /** The books after a sample that found room in the aggregate table. */
  function AfterSample(l: Ledger, tracking: bool, capacity: nat, p: nat, w: Weight): Ledger {
    if Fits(l, tracking, capacity, p) then Track(Allocate(l, w), p, w) else Allocate(l, w)
  }

  lemma BooksAllocate(m: map<nat, (nat, nat, nat)>, t: Totals, size: nat, w: Weight)
    ensures BooksOf(m, Plus(t, Sample(size, w))) == Allocate(BooksOf(m, t), w)
  {
  }

  lemma SampleIsSpare(s: Aggregates, a: nat, stack: Stack, size: nat, w: Weight)
    requires a < |s| && WithinAlloc(s)
    ensures Spare(Plus(InCell(s[a]), Sample(size, w)), w)
  {
  }

  lemma RecordedBy(s: Aggregates, m: Aggregates, t: Aggregates, a: nat, stack: Stack, d: Totals)
    requires SampleAdded(s, m, a, stack, d) && SameStacks(m, t)
    ensures Recorded(s, t, stack, d, 0)
  {
  }

  /** Samples that are not dropped as malformed. */
  predicate Countable(size: nat, w: Weight) { size != 0 && w.space != 0 && w.objects != 0 }

  function Captured(frames: seq<Frame>): seq<Frame> { frames[..Min(|frames|, MAX_STACK_DEPTH)] }

  function Sample(size: nat, w: Weight): Totals { Totals(w.space, w.objects, 0, 0, size, 1) }

  /** What a sample does to the aggregates, in-use weights aside: its stack gains
      it, or it is counted as an overflow of a full table without that stack. */
  ghost predicate Recorded(s: Aggregates, t: Aggregates, stack: Stack, d: Totals, overflowed: int) {
    if overflowed == 0 then
      exists a: nat, m: Aggregates :: SampleAdded(s, m, a, stack, d) && SameStacks(m, t)
    else overflowed == 1 && t == s && Absent(s, stack) && Used(s) == |s|
  }

  lemma SampleKeepsAccounted(s: Aggregates, t: Aggregates, a: nat, stack: Stack, d: Totals, es: seq<Live>)
    requires SampleAdded(s, t, a, stack, d) && d.inuseSpace == 0 && d.inuseObjects == 0
    ensures Accounted(s, es) ==> Accounted(t, es)
  {
    if Accounted(s, es) {
      forall b: nat | b < |t| ensures InUse(es, b) == Charge(t[b]) {
        assert InUse(es, b) == Charge(s[b]);
      }
    }
  }

  /** An event that ends the block at the old pointer. */
  predicate Ends(oldPointer: nat, newPointer: nat, newSize: nat, success: bool) {
    success && oldPointer != 0 && ((newPointer == 0 && newSize == 0) || (newPointer != 0 && newSize != 0))
  }

  /** The one cell a sample changes: its stack's aggregate is `d` heavier. */
  ghost predicate SampleAdded(s: Aggregates, t: Aggregates, a: nat, stack: Stack, d: Totals) {
    && a < |s| && t == s[a := Some(Entry(stack, Plus(InCell(s[a]), d)))]
    && (if s[a].Some? then s[a].value.key == stack else Absent(s, stack))
  }

  lemma Tally(s: Aggregates, a: nat, stack: Stack, v: Totals, d: Totals)
    requires a < |s| && WithinAlloc(s) && d.inuseSpace == 0 && d.inuseObjects == 0
    requires v == Plus(InCell(s[a]), d)
    ensures var t := s[a := Some(Entry(stack, v))];
      && SumTotals(t) == Plus(SumTotals(s), d) && WithinAlloc(t)
      && Used(t) == Used(s) + (if s[a].Some? then 0 else 1)
  {
    SumOfChange(s, a, Some(Entry(stack, v)));
    UsedInsert(s, a, Entry(stack, v));
  }

  /** Aggregates keep their stacks and allocation weights, and have no more in use. */
  ghost predicate Reduced(s: Aggregates, t: Aggregates) {
    SameStacks(s, t) && forall i: nat :: i < |s| ==>
      InCell(t[i]).inuseSpace <= InCell(s[i]).inuseSpace && InCell(t[i]).inuseObjects <= InCell(s[i]).inuseObjects
  }

  ghost predicate SameStacks(s: Aggregates, t: Aggregates) {
    |s| == |t| && forall i: nat :: i < |s| ==> SameStack(s[i], t[i])
  }

  predicate SameStack(c: Option<Entry<Stack, Totals>>, d: Option<Entry<Stack, Totals>>) {
    if c.None? then d.None?
    else d.Some? && d.value.key == c.value.key && AllocPart(d.value.value) == AllocPart(c.value.value)
  }

  /** An aggregate has room for `w` more in use below what it allocated. */
  predicate Spare(v: Totals, w: Weight) {
    v.inuseSpace + w.space <= v.allocSpace && v.inuseObjects + w.objects <= v.allocObjects
  }

  function AllocPart(v: Totals): Totals { v.(inuseSpace := 0, inuseObjects := 0) }

  function BooksOf(m: map<nat, (nat, nat, nat)>, t: Totals): Ledger {
    Ledger(Weights(m), Weight(t.inuseSpace, t.inuseObjects), Weight(t.allocSpace, t.allocObjects))
  }

  lemma WeightsSize(m: map<nat, (nat, nat, nat)>)
    ensures |Weights(m)| == |m| && Weights(m).Keys == m.Keys
  {
    assert Weights(m).Keys == m.Keys;
  }

  predicate HasRoom(m: map<nat, (nat, nat, nat)>, capacity: nat, p: nat) { p in m || |m| < capacity }
  function ContentsAfter(m: map<nat, (nat, nat, nat)>, capacity: nat, p: nat, w: Weight, a: nat)
    : map<nat, (nat, nat, nat)>
  {
    if HasRoom(m, capacity, p) then m[p := (w.space, w.objects, a)] else m
  }

  function TotalsAfter(m: map<nat, (nat, nat, nat)>, capacity: nat, t: Totals, p: nat, w: Weight): Totals {
    if p in m then More(Less(t, Live(p, m[p].0, m[p].1, m[p].2, 0)), w)
    else if |m| < capacity then More(t, w)
    else t
  }

  lemma BooksAfter(m: map<nat, (nat, nat, nat)>, t: Totals, p: nat, w: Weight, a: nat, capacity: nat)
    requires p != 0
    ensures Fits(BooksOf(m, t), true, capacity, p) <==> HasRoom(m, capacity, p)
    ensures BooksOf(ContentsAfter(m, capacity, p, w, a), TotalsAfter(m, capacity, t, p, w))
         == if HasRoom(m, capacity, p) then Track(BooksOf(m, t), p, w) else BooksOf(m, t)
  {
    WeightsSize(m);
    if HasRoom(m, capacity, p) {
      BooksTrack(m, t, p, w, a, if p in m then Some(Live(p, m[p].0, m[p].1, m[p].2, 0)) else None);
    }
  }

  lemma BooksTrack(m: map<nat, (nat, nat, nat)>, t: Totals, p: nat, w: Weight, a: nat, gone: Option<Live>)
    requires gone.Some? <==> p in m
    requires gone.Some? ==> m[p] == (gone.value.space, gone.value.objects, gone.value.aggregate)
    ensures var t' := if gone.Some? then Less(t, gone.value) else t;
      BooksOf(m[p := (w.space, w.objects, a)], More(t', w)) == Track(BooksOf(m, t), p, w)
  {
    assert Weights(m[p := (w.space, w.objects, a)]) == Weights(m)[p := w];
    assert (Weights(m) - {p})[p := w] == Weights(m)[p := w];
  }

  function TotalsWithout(m: map<nat, (nat, nat, nat)>, t: Totals, p: nat): Totals {
    if p in m then Less(t, Live(p, m[p].0, m[p].1, m[p].2, 0)) else t
  }

  lemma BooksWithout(m: map<nat, (nat, nat, nat)>, t: Totals, p: nat)
    ensures BooksOf(m - {p}, TotalsWithout(m, t, p)) == Forget(BooksOf(m, t), p)
  {
    if p in m {
      assert Weights(m - {p}) == Weights(m) - {p};
    } else {
      assert m - {p} == m;
    }
  }

  lemma CellUsed(slots: Aggregates, a: nat, v: Totals)
    requires a < |slots| && slots[a].Some?
    ensures Used(WithCell(slots, a, v)) == Used(slots)
  {
    UsedInsert(slots, a, Entry(slots[a].value.key, v));
  }

  lemma NothingYet(slots: Aggregates, es: seq<Live>)
    requires forall i: nat :: i < |slots| ==> slots[i].None?
    requires forall i: nat :: i < |es| ==> es[i].pointer == 0
    ensures SumTotals(slots) == ZERO && Used(slots) == 0 && WithinAlloc(slots) && Accounted(slots, es)
  {
    SumOfNothing(slots);
    NoneUsed(slots);
    forall a: nat | a < |slots| ensures InUse(es, a) == Charge(slots[a]) {
      InUseOfNothing(es, a);
    }
  }

  lemma {:induction false} NoneUsed(slots: Aggregates)
    requires forall i: nat :: i < |slots| ==> slots[i].None?
    ensures Used(slots) == 0
  {
    if |slots| > 0 {
      NoneUsed(slots[..|slots| - 1]);
    }
  }
}
