/** Memory profiling through the bridge: the allocation callback of
    src/lua_bridge.c with its profiler-work guard, and what a profile that samples
    every byte says about the blocks of the allocator. */
module ExactMode {
  import opened Common
  import opened Probing
  import opened Symbols
  import opened MemoryTotals
  import opened MemoryProfile
  import Sampler

  /** What the host VM reports, and the guard it is reported under. */
  datatype Event =
    | GuardBegin
    | GuardEnd
    | Allocation(oldPointer: nat, newPointer: nat, newSize: nat, success: bool)

  /** The bridge as far as memory is concerned. */
  datatype State = State(depth: nat, books: Ledger)

  /** One sample at one byte per sample: the block's own size, one object. */
  function Whole(size: nat): Weight { Weight(size, 1) }

  /** What the callback does when each block is sampled and the tables have room. */
  function Step(s: State, e: Event): State {
    match e
    case GuardBegin => s.(depth := s.depth + 1)
    case GuardEnd => if s.depth == 0 then s else s.(depth := s.depth - 1)
    case Allocation(p, q, size, success) =>
      var forgotten := if Ends(p, q, size, success) then Forget(s.books, p) else s.books;
      if s.depth != 0 || !success || q == 0 || size == 0 then s.(books := forgotten)
      else s.(books := Track(Allocate(forgotten, Whole(size)), q, Whole(size)))
  }

  /** The counters of lp_runtime_allocation. */
  datatype Counts = Counts(allocations: nat, frees: nat, reallocations: nat, failures: nat)

  /** The counter an event moves; events of no known kind move none. */
  function Classified(c: Counts, e: Event): Counts
    requires e.Allocation?
  {
    if !e.success then c.(failures := c.failures + 1)
    else if e.oldPointer == 0 && e.newPointer != 0 && e.newSize != 0 then c.(allocations := c.allocations + 1)
    else if e.oldPointer != 0 && e.newPointer == 0 && e.newSize == 0 then c.(frees := c.frees + 1)
    else if e.oldPointer != 0 && e.newPointer != 0 && e.newSize != 0 then c.(reallocations := c.reallocations + 1)
    else c
  }

  /** What an event may meet: the sampler's draws, and the stack capture_stack would find. */
  datatype Draw = Draw(frames: seq<Frame>, truncated: bool, bits: nat, u: real, v: real)

  predicate DrawOk(d: Draw) { d.bits <= Sampler.UINT64_MAX && 0.0 <= d.u < 1.0 && 0.0 <= d.v < 1.0 }

  predicate SizeOk(e: Event) { e.Allocation? ==> e.newSize < Sampler.UINT64_MAX }

  /** A successful event outside every guard that hands out a block. */
  predicate HandsOut(e: Event) { e.Allocation? && e.success && e.newPointer != 0 && e.newSize != 0 }

  /** The bridge of one Lua state while its memory collector runs; `draining` is the
      event drain of a CPU collector that runs beside it. */
  class MemoryBridge {
    const profile: Profile
    const cpuActive: bool
    var depth: nat
    var draining: bool
    var counts: Counts

    ghost predicate Valid()
      reads this, profile, profile.symbols, profile.symbols.table.slots, profile.symbols.sources,
            profile.aggregates.slots, profile.live, profile.live.entries, profile.live.buckets
    {
      profile.Valid() && (cpuActive && depth > 0 ==> draining)
    }

    ghost predicate AggregatesFull()
      reads this, profile, profile.aggregates.slots
    {
      Used(profile.aggregates.slots[..]) == profile.aggregates.slots.Length
    }

    /** Every byte is sampled and blocks are tracked. */
    predicate Exact()
      reads this, profile
    {
      profile.sampleBytes == 1 && profile.budget == 1 && profile.tracking
    }

    constructor (profile: Profile, cpuActive: bool)
      requires profile.Valid()
      ensures Valid() && this.profile == profile && this.cpuActive == cpuActive && depth == 0
      ensures counts == Counts(0, 0, 0, 0)
    {
      this.profile, this.cpuActive := profile, cpuActive;
      depth, draining, counts := 0, false, Counts(0, 0, 0, 0);
    }

    /** lp_lua_bridge_begin_profiler_work. */
    method BeginWork()
      requires Valid()
      modifies this`depth, this`draining
      ensures Valid() && depth == old(depth) + 1
      ensures draining == (old(draining) || (cpuActive && old(depth) == 0))
    {
      depth := depth + 1;
      if depth == 1 && cpuActive {
        draining := true;
      }
    }

    /** lp_lua_bridge_end_profiler_work. */
    method EndWork()
      requires Valid()
      modifies this`depth, this`draining
      ensures Valid() && depth == if old(depth) == 0 then 0 else old(depth) - 1
      ensures draining == (old(draining) && !(cpuActive && old(depth) == 1))
    {
      if depth == 0 { return; }
      depth := depth - 1;
      if depth == 0 && cpuActive {
        draining := false;
      }
    }

    /** The allocation hook. */
    method Allocated(e: Event, d: Draw)
      requires Valid() && e.Allocation? && SizeOk(e) && DrawOk(d)
      modifies this, profile, profile.symbols, profile.symbols.table.slots, profile.symbols.sources,
               profile.aggregates.slots, profile.live, profile.live.entries, profile.live.buckets
      ensures Valid() && depth == old(depth) && (old(Exact()) ==> Exact())
      ensures counts == if depth == 0 then Classified(old(counts), e) else old(counts)
      ensures profile.aggregateOverflows != old(profile.aggregateOverflows) ==>
                profile.aggregateOverflows == old(profile.aggregateOverflows) + 1 && AggregatesFull()
      ensures profile.liveMapOverflows >= old(profile.liveMapOverflows)
      ensures old(Exact()) && profile.aggregateOverflows == old(profile.aggregateOverflows) ==>
                profile.liveMapOverflows == old(profile.liveMapOverflows)
                                            + Overflows(State(depth, old(profile.Books())), profile.live.entries.Length,
                                                        e)
      ensures old(Exact()) && profile.aggregateOverflows == old(profile.aggregateOverflows)
              && profile.liveMapOverflows == old(profile.liveMapOverflows) ==>
                profile.Books() == Step(State(depth, old(profile.Books())), e).books
    {
      if depth != 0 {
        profile.AllocationEvent(e.oldPointer, e.newPointer, e.newSize, e.success);
        return;
      }
      BeginWork();
      Reconcile(e, d);
      EndWork();
    }

    /** The callback's work inside its guard: end the old block, sample the new one. */
    method Reconcile(e: Event, d: Draw)
      requires Valid() && e.Allocation? && SizeOk(e) && DrawOk(d)
      modifies this`counts, profile, profile.symbols, profile.symbols.table.slots, profile.symbols.sources,
               profile.aggregates.slots, profile.live, profile.live.entries, profile.live.buckets
      ensures Valid() && profile.tracking == old(profile.tracking) && counts == Classified(old(counts), e)
      ensures profile.sampleBytes == 1 && old(profile.budget) == 1 ==> profile.budget == 1
      ensures profile.aggregateOverflows != old(profile.aggregateOverflows) ==>
                profile.aggregateOverflows == old(profile.aggregateOverflows) + 1 && AggregatesFull()
      ensures profile.liveMapOverflows >= old(profile.liveMapOverflows)
      ensures profile.sampleBytes == 1 && old(profile.budget) == 1
              && profile.aggregateOverflows == old(profile.aggregateOverflows) ==>
                && profile.Books() == Reconciled(old(profile.Books()), profile.tracking, profile.live.entries.Length, e)
                && profile.liveMapOverflows == old(profile.liveMapOverflows)
                                               + Unplaced(old(profile.Books()), profile.tracking,
                                                          profile.live.entries.Length, e)
    {
      counts := Classified(counts, e);
      profile.AllocationEvent(e.oldPointer, e.newPointer, e.newSize, e.success);
      if HandsOut(e) {
        SampleNew(e.newPointer, e.newSize, d);
      }
    }

    /** The new block of a successful event outside every guard. */
    method SampleNew(q: nat, size: nat, d: Draw)
      requires Valid() && size < Sampler.UINT64_MAX && DrawOk(d) && q != 0 && size != 0
      modifies profile, profile.symbols, profile.symbols.table.slots, profile.symbols.sources,
               profile.aggregates.slots, profile.live, profile.live.entries, profile.live.buckets
      ensures Valid() && profile.tracking == old(profile.tracking)
      ensures profile.sampleBytes == 1 && old(profile.budget) == 1 ==> profile.budget == 1
      ensures profile.aggregateOverflows != old(profile.aggregateOverflows) ==>
                profile.aggregateOverflows == old(profile.aggregateOverflows) + 1 && AggregatesFull()
      ensures profile.liveMapOverflows >= old(profile.liveMapOverflows)
      ensures profile.sampleBytes == 1 && old(profile.budget) == 1
              && profile.aggregateOverflows == old(profile.aggregateOverflows) ==>
                && profile.Books() == AfterSample(old(profile.Books()), profile.tracking, profile.live.entries.Length,
                                                  q, Whole(size))
                && profile.liveMapOverflows == old(profile.liveMapOverflows)
                                               + LiveOverflow(old(profile.Books()), profile.tracking,
                                                              profile.live.entries.Length, q)
    {
      var selected, space, objects := profile.ShouldSample(size, d.bits, d.u, d.v);
      if selected {
        Sampler.ExactWeights(size, d.u);
        Sampler.ExactWeights(size, d.v);
        ghost var stack := profile.Record(q, d.frames, d.truncated, size, Weight(space, objects));
      }
    }

    /** One event of the host VM. */
    method Handle(e: Event, d: Draw, ghost h: Heap)
      requires Valid() && SizeOk(e) && DrawOk(d) && Exact()
      requires h.depth == depth && 0 !in h.blocks && WellFormed(h, e)
      modifies this, profile, profile.symbols, profile.symbols.table.slots, profile.symbols.sources,
               profile.aggregates.slots, profile.live, profile.live.entries, profile.live.buckets
      ensures Valid() && Exact() && depth == HeapStep(h, e).depth && 0 !in HeapStep(h, e).blocks
      ensures profile.aggregateOverflows >= old(profile.aggregateOverflows)
      ensures profile.liveMapOverflows >= old(profile.liveMapOverflows)
      ensures profile.aggregateOverflows == old(profile.aggregateOverflows)
              && profile.liveMapOverflows == old(profile.liveMapOverflows)
              && Agrees(h, State(old(depth), old(profile.Books()))) ==>
                Agrees(HeapStep(h, e), State(depth, profile.Books()))
    {
      ghost var s := State(depth, profile.Books());
      match e
      case GuardBegin => BeginWork();
      case GuardEnd => EndWork();
      case Allocation(_, _, _, _) => Allocated(e, d);
      if Agrees(h, s) {
        StepAgrees(h, s, e);
      }
    }

    /** A whole trace. Unless a table overflows on the way, the books tell the truth
        about the heap at its end if they did at its beginning. */
    method Replay(es: seq<Event>, draws: seq<Draw>, ghost h: Heap)
      requires Valid() && Exact() && |draws| == |es|
      requires forall i: nat :: i < |es| ==> SizeOk(es[i]) && DrawOk(draws[i])
      requires h.depth == depth && 0 !in h.blocks && Trace(h, es) && Agrees(h, State(depth, profile.Books()))
      modifies this, profile, profile.symbols, profile.symbols.table.slots, profile.symbols.sources,
               profile.aggregates.slots, profile.live, profile.live.entries, profile.live.buckets
      ensures Valid() && Exact() && depth == HeapRun(h, es).depth
      ensures profile.aggregateOverflows == old(profile.aggregateOverflows)
              && profile.liveMapOverflows == old(profile.liveMapOverflows) ==>
                Agrees(HeapRun(h, es), State(depth, profile.Books()))
    {
      ghost var now := h;
      for i := 0 to |es|
        invariant Valid() && Exact() && now.depth == depth && 0 !in now.blocks
        invariant Trace(now, es[i..]) && HeapRun(now, es[i..]) == HeapRun(h, es)
        invariant profile.aggregateOverflows >= old(profile.aggregateOverflows)
        invariant profile.liveMapOverflows >= old(profile.liveMapOverflows)
        invariant profile.aggregateOverflows == old(profile.aggregateOverflows)
                  && profile.liveMapOverflows == old(profile.liveMapOverflows) ==>
                    Agrees(now, State(depth, profile.Books()))
      {
        assert es[i..][0] == es[i] && es[i..][1..] == es[i + 1..];
        Handle(es[i], draws[i], now);
        now := HeapStep(now, es[i]);
      }
    }
  }

  /** The blocks there were before the run, none of them counted. */
  ghost function HeapBefore(before: map<nat, nat>): Heap {
    Heap(map p | p in before :: Block(before[p], false), 0, Weight(0, 0))
  }

  /** A bridge with a new memory profile at one byte per sample. */
  method NewBridge(bits: nat, cpuActive: bool, symbolHash: Key -> nat, digest: seq<byte> -> nat,
                   stackHash: Stack -> nat, pointerHash: nat -> nat)
    returns (bridge: MemoryBridge)
    requires bits <= Sampler.UINT64_MAX
    ensures bridge.Valid() && bridge.Exact() && bridge.depth == 0 && fresh(bridge) && Untouched(bridge.profile)
    ensures fresh(bridge.profile) && fresh(bridge.profile.symbols) && fresh(bridge.profile.symbols.table.slots)
    ensures fresh(bridge.profile.symbols.sources) && fresh(bridge.profile.aggregates.slots)
    ensures fresh(bridge.profile.live) && fresh(bridge.profile.live.entries) && fresh(bridge.profile.live.buckets)
  {
    var profile := new Profile(1, bits, true, symbolHash, digest, stackHash, pointerHash);
    bridge := new MemoryBridge(profile, cpuActive);
  }

  ghost predicate Untouched(profile: Profile)
    requires profile.Valid()
    reads profile, profile.symbols, profile.symbols.table.slots, profile.symbols.sources, profile.aggregates.slots,
          profile.live, profile.live.entries, profile.live.buckets
  {
    && profile.Books() == Ledger(map[], Weight(0, 0), Weight(0, 0))
    && profile.aggregateOverflows == profile.liveMapOverflows == 0
  }

  /** A memory profile at one byte per sample that tracks frees, from its start over any
      well-formed trace of allocations, resizes, frees, failures and guards to its
      end: unless a table overflowed, what is in use is exactly the blocks whose last
      successful (re)allocation was outside a guard, and what was allocated is
      exactly what was handed out outside guards. */
  method ProfileExactly(es: seq<Event>, draws: seq<Draw>, ghost before: map<nat, nat>, bits: nat, cpuActive: bool,
                        symbolHash: Key -> nat, digest: seq<byte> -> nat, stackHash: Stack -> nat,
                        pointerHash: nat -> nat)
    returns (profile: Profile)
    requires bits <= Sampler.UINT64_MAX && |draws| == |es| && 0 !in before && Trace(HeapBefore(before), es)
    requires forall i: nat :: i < |es| ==> SizeOk(es[i]) && DrawOk(draws[i])
    ensures profile.Valid() && !profile.tracking
    ensures profile.aggregateOverflows == 0 && profile.liveMapOverflows == 0 ==>
              && profile.Books().inuse == Sum(Counted(HeapRun(HeapBefore(before), es).blocks))
              && profile.Books().alloc == HeapRun(HeapBefore(before), es).handedOut
  {
    var bridge := NewBridge(bits, cpuActive, symbolHash, digest, stackHash, pointerHash);
    profile := bridge.profile;
    ReplayNew(bridge, es, draws, before);
    profile.Finish();
  }

  method ReplayNew(bridge: MemoryBridge, es: seq<Event>, draws: seq<Draw>, ghost before: map<nat, nat>)
    requires bridge.Valid() && bridge.Exact() && bridge.depth == 0 && Untouched(bridge.profile)
    requires |draws| == |es| && 0 !in before && Trace(HeapBefore(before), es)
    requires forall i: nat :: i < |es| ==> SizeOk(es[i]) && DrawOk(draws[i])
    modifies bridge, bridge.profile, bridge.profile.symbols, bridge.profile.symbols.table.slots,
             bridge.profile.symbols.sources, bridge.profile.aggregates.slots, bridge.profile.live,
             bridge.profile.live.entries, bridge.profile.live.buckets
    ensures bridge.Valid() && bridge.Exact()
    ensures bridge.profile.aggregateOverflows == 0 && bridge.profile.liveMapOverflows == 0 ==>
              && bridge.profile.Books().inuse == Sum(Counted(HeapRun(HeapBefore(before), es).blocks))
              && bridge.profile.Books().alloc == HeapRun(HeapBefore(before), es).handedOut
  {
    ghost var h := HeapBefore(before);
    AgreesBefore(before, State(0, bridge.profile.Books()));
    bridge.Replay(es, draws, h);
    AgreesSays(HeapRun(h, es), State(bridge.depth, bridge.profile.Books()));
  }

  function Reconciled(l: Ledger, tracking: bool, capacity: nat, e: Event): Ledger
    requires e.Allocation?
  {
    var forgotten := if Ends(e.oldPointer, e.newPointer, e.newSize, e.success) then Forget(l, e.oldPointer) else l;
    if e.success && e.newPointer != 0 && e.newSize != 0
    then AfterSample(forgotten, tracking, capacity, e.newPointer, Whole(e.newSize)) else forgotten
  }

  /** Blocks of an event that find the live map full once the old one is gone. */
  function Unplaced(l: Ledger, tracking: bool, capacity: nat, e: Event): nat
    requires e.Allocation?
  {
    var forgotten := if Ends(e.oldPointer, e.newPointer, e.newSize, e.success) then Forget(l, e.oldPointer) else l;
    if HandsOut(e) then LiveOverflow(forgotten, tracking, capacity, e.newPointer) else 0
  }

  /** The same for an event at any depth of guards. */
  function Overflows(s: State, capacity: nat, e: Event): nat
    requires e.Allocation?
  {
    if s.depth == 0 then Unplaced(s.books, true, capacity, e) else 0
  }

  /** A block of the allocator; `counted` if its last successful (re)allocation was
      made during the run and outside every guard. */
  datatype Block = Block(size: nat, counted: bool)

  /** The allocator's own state, and the bytes and blocks handed out outside guards. */
  datatype Heap = Heap(blocks: map<nat, Block>, depth: nat, handedOut: Weight)

  /** Events an allocator can report: live old blocks, free new addresses, and a
      null new block exactly for frees. */
  predicate WellFormed(h: Heap, e: Event) {
    e.Allocation? && e.success ==>
      && (e.oldPointer != 0 ==> e.oldPointer in h.blocks)
      && (e.newPointer != 0 <==> e.newSize != 0)
      && (e.newPointer != 0 ==> e.newPointer == e.oldPointer || e.newPointer !in h.blocks)
  }

  function HeapStep(h: Heap, e: Event): Heap {
    match e
    case GuardBegin => h.(depth := h.depth + 1)
    case GuardEnd => if h.depth == 0 then h else h.(depth := h.depth - 1)
    case Allocation(p, q, size, success) =>
      if !success then h
      else
        var rest := h.blocks - {p};
        if q == 0 then h.(blocks := rest)
        else Heap(rest[q := Block(size, h.depth == 0)], h.depth,
                  if h.depth == 0 then Weight(h.handedOut.space + size, h.handedOut.objects + 1) else h.handedOut)
  }

  function Counted(blocks: map<nat, Block>): map<nat, Weight> {
    map p | p in blocks && blocks[p].counted :: Weight(blocks[p].size, 1)
  }

  ghost function Sum(m: map<nat, Weight>): Weight
    decreases |m|
  {
    if m == map[] then Weight(0, 0)
    else
      var p :| p in m;
      var rest := Sum(m - {p});
      Weight(m[p].space + rest.space, m[p].objects + rest.objects)
  }

  lemma {:induction false} SumWithout(m: map<nat, Weight>, p: nat)
    requires p in m
    ensures Sum(m).space == m[p].space + Sum(m - {p}).space
    ensures Sum(m).objects == m[p].objects + Sum(m - {p}).objects
    decreases |m|
  {
    var q :| q in m && Sum(m) == Weight(m[q].space + Sum(m - {q}).space, m[q].objects + Sum(m - {q}).objects);
    if q != p {
      SumWithout(m - {q}, p);
      SumWithout(m - {p}, q);
      assert m - {q} - {p} == m - {p} - {q};
    }
  }

  /** The books tell the truth about the heap. */
  ghost predicate Agrees(h: Heap, s: State) {
    && s.depth == h.depth
    && s.books.live == Counted(h.blocks)
    && s.books.inuse == Sum(s.books.live)
    && s.books.alloc == h.handedOut
  }

  lemma AgreesBefore(before: map<nat, nat>, s: State)
    requires s == State(0, Ledger(map[], Weight(0, 0), Weight(0, 0)))
    ensures Agrees(HeapBefore(before), s)
  {
    assert Counted(HeapBefore(before).blocks) == map[];
  }

  lemma AgreesSays(h: Heap, s: State)
    ensures Agrees(h, s) ==> s.books.inuse == Sum(Counted(h.blocks)) && s.books.alloc == h.handedOut
  {
  }

  lemma ForgetKeepsSum(l: Ledger, p: nat)
    requires l.inuse == Sum(l.live)
    ensures Forget(l, p).inuse == Sum(Forget(l, p).live)
  {
    if p in l.live {
      SumWithout(l.live, p);
    }
  }

  lemma TrackKeepsSum(l: Ledger, p: nat, w: Weight)
    requires l.inuse == Sum(l.live)
    ensures Track(l, p, w).inuse == Sum(Track(l, p, w).live)
  {
    ForgetKeepsSum(l, p);
    var f := Forget(l, p);
    SumWithout(f.live[p := w], p);
    assert f.live[p := w] - {p} == f.live;
  }

  lemma StepAgrees(h: Heap, s: State, e: Event)
    requires Agrees(h, s) && WellFormed(h, e) && 0 !in h.blocks
    ensures Agrees(HeapStep(h, e), Step(s, e)) && 0 !in HeapStep(h, e).blocks
  {
    if e.Allocation? && e.success {
      ForgetKeepsSum(s.books, e.oldPointer);
      AllocationAgrees(h, s, e);
    }
  }

  lemma AllocationAgrees(h: Heap, s: State, e: Event)
    requires Agrees(h, s) && WellFormed(h, e) && 0 !in h.blocks && e.Allocation? && e.success
    requires Forget(s.books, e.oldPointer).inuse == Sum(Forget(s.books, e.oldPointer).live)
    ensures Agrees(HeapStep(h, e), Step(s, e))
  {
    var rest := h.blocks - {e.oldPointer};
    var f := Forget(s.books, e.oldPointer);
    assert f.live == Counted(rest);
    if e.newPointer != 0 {
      var b := Block(e.newSize, h.depth == 0);
      assert e.newPointer !in rest;
      if h.depth == 0 {
        assert Counted(rest[e.newPointer := b]) == Counted(rest)[e.newPointer := Whole(e.newSize)];
        TrackKeepsSum(Allocate(f, Whole(e.newSize)), e.newPointer, Whole(e.newSize));
      } else {
        assert Counted(rest[e.newPointer := b]) == Counted(rest);
      }
    }
  }

  ghost predicate Trace(h: Heap, es: seq<Event>)
    decreases |es|
  {
    es == [] || (WellFormed(h, es[0]) && Trace(HeapStep(h, es[0]), es[1..]))
  }

  function HeapRun(h: Heap, es: seq<Event>): Heap
    decreases |es|
  {
    if es == [] then h else HeapRun(HeapStep(h, es[0]), es[1..])
  }

  function Run(s: State, es: seq<Event>): State
    decreases |es|
  {
    if es == [] then s else Run(Step(s, es[0]), es[1..])
  }

  lemma {:induction false} RunAgrees(h: Heap, s: State, es: seq<Event>)
    requires Agrees(h, s) && Trace(h, es) && 0 !in h.blocks
    ensures Agrees(HeapRun(h, es), Run(s, es))
    decreases |es|
  {
    if es != [] {
      StepAgrees(h, s, es[0]);
      RunAgrees(HeapStep(h, es[0]), Step(s, es[0]), es[1..]);
    }
  }

  /** For every trace of allocations, resizes, frees, failures and guards, whatever
      blocks existed before: what is in use is exactly the blocks whose last
      successful (re)allocation was outside a guard, and what was allocated is
      exactly what was handed out outside guards. */
  lemma ExactModeAgreesWithTheAllocator(before: map<nat, nat>, depth: nat, es: seq<Event>)
    requires 0 !in before
    requires var h := Heap(map p | p in before :: Block(before[p], false), depth, Weight(0, 0)); Trace(h, es)
    ensures var h := Heap(map p | p in before :: Block(before[p], false), depth, Weight(0, 0));
      var h', books := HeapRun(h, es), Run(State(depth, Ledger(map[], Weight(0, 0), Weight(0, 0))), es).books;
      && books.live == Counted(h'.blocks)
      && books.inuse == Sum(Counted(h'.blocks))
      && books.alloc == h'.handedOut
  {
    var h := Heap(map p | p in before :: Block(before[p], false), depth, Weight(0, 0));
    assert Counted(h.blocks) == map[];
    RunAgrees(h, State(depth, Ledger(map[], Weight(0, 0), Weight(0, 0))), es);
  }
}
