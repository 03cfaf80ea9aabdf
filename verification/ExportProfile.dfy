/** The sample loops of src/pprof_exporter.c: every sample of a finished profile gets
    the locations of its frames and its values, and the values add up. */
module ExportProfile {
  import opened Common
  import opened Pprof
  import opened Interning
  import opened ExportSamples

  ghost predicate CpuInput(symbols: seq<SymbolView>, samples: seq<CpuSample>) {
    && SymbolsOk(symbols) && |samples| <= AGGREGATE_CAPACITY
    && forall i: nat :: i < |samples| ==> StackOk(samples[i].stack) && samples[i].cfunction < WORD
  }

  ghost predicate MemoryInput(symbols: seq<SymbolView>, samples: seq<MemorySample>) {
    && SymbolsOk(symbols) && |samples| <= AGGREGATE_CAPACITY
    && forall i: nat :: i < |samples| ==> StackOk(samples[i].stack)
  }

  /** Each exported sample lists the locations of its stack, leaf first. */
  ghost predicate Placed(exported: seq<ExportSample>, stacks: seq<seq<FrameDesc>>, locations: seq<ExportLocation>,
                         keys: seq<FunctionKey>) {
    |exported| == |stacks| && forall i: nat :: i < |stacks| ==> PlacedOne(exported[i], stacks[i], locations, keys)
  }

  ghost predicate PlacedOne(s: ExportSample, stack: seq<FrameDesc>, locations: seq<ExportLocation>,
                            keys: seq<FunctionKey>) {
    |s.locations| == |stack| && AllNamed(s.locations, locations, keys, stack)
  }

  lemma PlacedMore(exported: seq<ExportSample>, stacks: seq<seq<FrameDesc>>, ls: seq<ExportLocation>,
                   ks: seq<FunctionKey>,
                   exported': seq<ExportSample>, stack: seq<FrameDesc>, ls': seq<ExportLocation>, ks': seq<FunctionKey>)
    requires Placed(exported, stacks, ls, ks) && ls <= ls' && ks <= ks'
    requires |exported'| == |exported| + 1 && exported <= exported' && PlacedOne(exported'[|exported|], stack, ls', ks')
    ensures Placed(exported', stacks + [stack], ls', ks')
  {
    forall i: nat | i < |stacks| ensures PlacedOne(exported'[i], stacks[i], ls', ks') {
      assert PlacedOne(exported[i], stacks[i], ls, ks);
      NamedStay(exported[i].locations, ls, ks, ls', ks', stacks[i]);
    }
  }

  function CpuValues(s: CpuSample, period: nat): seq<int> { [Clamp(s.weight), Multiply(s.weight, period)] }

  function MemoryValues(s: MemorySample): seq<int> {
    [Clamp(s.allocObjects), Clamp(s.allocSpace), Clamp(s.inuseObjects), Clamp(s.inuseSpace)]
  }

  /** `n` samples are in, and the tables have room for the rest. */
  ghost predicate Ready(e: Exporter, universe: set<FunctionKey>, n: nat)
    reads e, e.functionTable.slots, e.locationTable.slots
  {
    && e.Valid() && |e.mappings| > 0 && e.failure == None && KeysIn(e.keys, universe)
    && |e.samples| == n <= AGGREGATE_CAPACITY && |e.locations| <= n * (MAX_DEPTH + 1)
    && |universe| <= FUNCTION_CAPACITY
  }

  /** The frames of some stacks, one after the other. */
  function Flat(stacks: seq<seq<FrameDesc>>): seq<FrameDesc> {
    if stacks == [] then [] else Flat(stacks[..|stacks| - 1]) + stacks[|stacks| - 1]
  }

  lemma FlatMore(stacks: seq<seq<FrameDesc>>, stack: seq<FrameDesc>)
    ensures Flat(stacks + [stack]) == Flat(stacks) + stack
  {
    assert (stacks + [stack])[..|stacks|] == stacks;
  }

  lemma NothingMade(e: Exporter)
    requires e.Valid() && e.keys == []
    ensures Sourced(e.firsts, e.keys, Flat([]))
  {
    assert Opened(ModelLock, 0) && Opened(ExportLock, 0);
  }

  method AppendStack(e: Exporter, frames: seq<FrameDesc>, values: seq<int>, ghost universe: set<FunctionKey>,
                     ghost stacks: seq<seq<FrameDesc>>)
    returns (ok: bool)
    requires Ready(e, universe, |stacks|) && |stacks| < AGGREGATE_CAPACITY
    requires Placed(e.samples, stacks, e.locations, e.keys) && Sourced(e.firsts, e.keys, Flat(stacks))
    requires Exportable(frames, universe) && |frames| <= MAX_DEPTH + 1
    modifies e, e.functionTable.slots, e.locationTable.slots
    ensures e.Valid()
    ensures !ok ==> e.failure == Some(OutOfMemory) && Cramped(e.ample, |e.strings|, |e.mappings|)
    ensures ok ==>
              && Ready(e, universe, |stacks| + 1) && Placed(e.samples, stacks + [frames], e.locations, e.keys)
              && old(e.samples) <= e.samples && e.samples[|stacks|].values == values && old(e.strings) <= e.strings
              && Sourced(e.firsts, e.keys, Flat(stacks + [frames]))
  {
    ghost var exported, ls, ks := e.samples, e.locations, e.keys;
    ok := e.AppendSample(frames, values, universe, Flat(stacks));
    FlatMore(stacks, frames);
    if ok {
      PlacedMore(exported, stacks, ls, ks, e.samples, frames, e.locations, e.keys);
    }
  }

  /** What the first `n` exported samples are. */
  ghost predicate CpuDone(symbols: seq<SymbolView>, samples: seq<CpuSample>, period: nat, stacks: seq<seq<FrameDesc>>,
                          exported: seq<ExportSample>, n: nat) {
    n <= |samples| && |stacks| == n == |exported| && forall i: nat :: i < n ==>
      CpuStack(symbols, samples[i], stacks[i]) && exported[i].values == CpuValues(samples[i], period)
  }

  lemma CpuOneMore(symbols: seq<SymbolView>, samples: seq<CpuSample>, period: nat, stacks: seq<seq<FrameDesc>>,
                   exported: seq<ExportSample>, exported': seq<ExportSample>, frames: seq<FrameDesc>)
    requires CpuDone(symbols, samples, period, stacks, exported, |stacks|) && |stacks| < |samples|
    requires exported <= exported' && |exported'| == |exported| + 1
    requires CpuStack(symbols, samples[|stacks|], frames)
    requires exported'[|stacks|].values == CpuValues(samples[|stacks|], period)
    ensures CpuDone(symbols, samples, period, stacks + [frames], exported', |stacks| + 1)
  {
  }

  /** build_cpu_samples: it fails for lack of memory only, never for a full table. */
  method BuildCpuSamples(e: Exporter, symbols: seq<SymbolView>, samples: seq<CpuSample>, period: nat)
    returns (ok: bool, ghost stacks: seq<seq<FrameDesc>>)
    requires e.Valid() && |e.mappings| > 0 && e.failure == None && e.keys == [] && e.locations == [] && e.samples == []
    requires CpuInput(symbols, samples)
    modifies e, e.functionTable.slots, e.locationTable.slots
    ensures e.Valid()
    ensures !ok ==> e.failure == Some(OutOfMemory) && Cramped(e.ample, |e.strings|, |e.mappings|)
    ensures ok ==>
              && e.failure == None && |e.mappings| > 0 && old(e.strings) <= e.strings
              && Placed(e.samples, stacks, e.locations, e.keys) && Sourced(e.firsts, e.keys, Flat(stacks))
              && CpuDone(symbols, samples, period, stacks, e.samples, |samples|)
  {
    ghost var universe := Universe(symbols, samples);
    UniverseFits(symbols, samples);
    stacks := [];
    NothingMade(e);
    for i := 0 to |samples|
      invariant Ready(e, universe, i) && Placed(e.samples, stacks, e.locations, e.keys) && old(e.strings) <= e.strings
      invariant CpuDone(symbols, samples, period, stacks, e.samples, i) && Sourced(e.firsts, e.keys, Flat(stacks))
    {
      ghost var exported := e.samples;
      var frames := BuildCpuStack(symbols, samples[i]);
      CpuStackExportable(symbols, samples, i, frames);
      var stored := AppendStack(e, frames, CpuValues(samples[i], period), universe, stacks);
      if !stored {
        return false, stacks;
      }
      CpuOneMore(symbols, samples, period, stacks, exported, e.samples, frames);
      stacks := stacks + [frames];
    }
    ok := true;
  }

  ghost predicate MemoryDone(symbols: seq<SymbolView>, samples: seq<MemorySample>, stacks: seq<seq<FrameDesc>>,
                             exported: seq<ExportSample>, n: nat) {
    n <= |samples| && |stacks| == n == |exported| && forall i: nat :: i < n ==>
      stacks[i] == MemoryStack(symbols, samples[i]) && exported[i].values == MemoryValues(samples[i])
  }

  lemma MemoryOneMore(symbols: seq<SymbolView>, samples: seq<MemorySample>, stacks: seq<seq<FrameDesc>>,
                      exported: seq<ExportSample>, exported': seq<ExportSample>)
    requires MemoryDone(symbols, samples, stacks, exported, |stacks|) && |stacks| < |samples|
    requires exported <= exported' && |exported'| == |exported| + 1
    requires exported'[|stacks|].values == MemoryValues(samples[|stacks|])
    ensures MemoryDone(symbols, samples, stacks + [MemoryStack(symbols, samples[|stacks|])], exported', |stacks| + 1)
  {
  }

  /** build_memory_samples. */
  method BuildMemorySamples(e: Exporter, symbols: seq<SymbolView>, samples: seq<MemorySample>)
    returns (ok: bool, ghost stacks: seq<seq<FrameDesc>>)
    requires e.Valid() && |e.mappings| > 0 && e.failure == None && e.keys == [] && e.locations == [] && e.samples == []
    requires MemoryInput(symbols, samples)
    modifies e, e.functionTable.slots, e.locationTable.slots
    ensures e.Valid()
    ensures !ok ==> e.failure == Some(OutOfMemory) && Cramped(e.ample, |e.strings|, |e.mappings|)
    ensures ok ==>
              && e.failure == None && |e.mappings| > 0 && old(e.strings) <= e.strings
              && Placed(e.samples, stacks, e.locations, e.keys) && Sourced(e.firsts, e.keys, Flat(stacks))
              && MemoryDone(symbols, samples, stacks, e.samples, |samples|)
  {
    ghost var universe := Universe(symbols, []);
    UniverseFits(symbols, []);
    stacks := [];
    NothingMade(e);
    for i := 0 to |samples|
      invariant Ready(e, universe, i) && Placed(e.samples, stacks, e.locations, e.keys) && old(e.strings) <= e.strings
      invariant MemoryDone(symbols, samples, stacks, e.samples, i) && Sourced(e.firsts, e.keys, Flat(stacks))
    {
      ghost var exported := e.samples;
      var frames := MemoryStack(symbols, samples[i]);
      MemoryStackExportable(symbols, samples[i]);
      var stored := AppendStack(e, frames, MemoryValues(samples[i]), universe, stacks);
      if !stored {
        return false, stacks;
      }
      MemoryOneMore(symbols, samples, stacks, exported, e.samples);
      stacks := stacks + [frames];
    }
    ok := true;
  }

  // ---------- sums ----------

  function Weights(samples: seq<CpuSample>): nat {
    if samples == [] then 0 else Weights(samples[..|samples| - 1]) + samples[|samples| - 1].weight
  }

  function Column(rows: seq<seq<int>>, j: nat): int
    requires forall i: nat :: i < |rows| ==> j < |rows[i]|
  {
    if rows == [] then 0 else Column(rows[..|rows| - 1], j) + rows[|rows| - 1][j]
  }

  /** Exported values add up to the samples and to their time, as long as that fits
      in 63 bits. */
  lemma {:induction false} ValuesAddUp(samples: seq<CpuSample>, rows: seq<seq<int>>, period: nat)
    requires |rows| == |samples| && period > 0
    requires forall i: nat :: i < |samples| ==> rows[i] == CpuValues(samples[i], period)
    requires Weights(samples) * period <= INT64_MAX
    ensures forall i: nat :: i < |rows| ==> |rows[i]| == 2
    ensures Column(rows, 0) == Weights(samples)
    ensures Column(rows, 1) == Weights(samples) * period
  {
    if |samples| > 0 {
      var n := |samples| - 1;
      var w := samples[n].weight;
      Spread(Weights(samples[..n]), w, period);
      ValuesAddUp(samples[..n], rows[..n], period);
      MultiplySaturatesExactly(w, period);
    }
  }

  lemma Spread(a: nat, b: nat, p: nat)
    requires p > 0
    ensures (a + b) * p == a * p + b * p
    ensures a * p >= 0 && b * p >= b
  {
    Scale(b, 1, p);
    assert b * p == p * b;
  }
}
