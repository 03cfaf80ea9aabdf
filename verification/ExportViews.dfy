/** What the exporter sees of a finished profile: the samples of lp_cpu_profile_sample
    and lp_memory_profile_sample, and the frames of lp_cpu_profile_frame and
    lp_memory_profile_frame. Any profile is within the exporter's bounds, and its
    samples add up to its counters. */
module ExportViews {
  import opened Common
  import opened Probing
  import opened ExportSamples
  import opened ExportProfile
  import Symbols
  import Cpu = CpuProfile
  import Totals = MemoryTotals
  import Memory = MemoryProfile

  // ---------- symbols and stacks ----------

  /** A symbol cell with its texts; an unused one is blank. */
  function SymbolSeen(cell: Option<Entry<Symbols.Key, Symbols.Symbol>>, arena: seq<byte>): SymbolView {
    match cell
    case None => SymbolView(false, 0, 0, 0, None, [], 0)
    case Some(e) =>
      SymbolView(true, e.key.kind, e.key.function_, e.key.cfunction, Symbols.TextOf(arena, e.value.source),
                 OrEmpty(Symbols.TextOf(arena, e.value.name)), e.key.linedefined)
  }

  function SymbolsSeen(cells: Slots<Symbols.Key, Symbols.Symbol>, arena: seq<byte>): (r: seq<SymbolView>)
    ensures |r| == |cells|
  {
    seq(|cells|, i requires 0 <= i < |cells| => SymbolSeen(cells[i], arena))
  }

  function StackSeen(stack: seq<Symbols.Compact>): (r: seq<StackFrame>)
    ensures |r| == |stack|
  {
    seq(|stack|, i requires 0 <= i < |stack| => StackFrame(stack[i].symbol, stack[i].line))
  }

  lemma SymbolsAreOk(cells: Slots<Symbols.Key, Symbols.Symbol>, arena: seq<byte>)
    requires |cells| == Symbols.SYMBOL_CAPACITY
    ensures SymbolsOk(SymbolsSeen(cells, arena))
  {
  }

  /** The symbols of a profile, cell by cell. */
  method ReadSymbols(table: Symbols.SymbolTable) returns (symbols: seq<SymbolView>)
    requires table.Valid()
    ensures symbols == SymbolsSeen(table.table.slots[..], table.sources[..])
  {
    var cells, arena := table.table.slots[..], table.sources[..];
    symbols := [];
    for i := 0 to |cells|
      invariant symbols == SymbolsSeen(cells, arena)[..i]
    {
      symbols := symbols + [SymbolSeen(cells[i], arena)];
    }
  }

  // ---------- CPU profiles ----------

  function CpuSeen(e: Entry<Cpu.CpuKey, nat>): CpuSample {
    CpuSample(e.key.vmState, e.key.cfunction, e.value, StackSeen(e.key.stack))
  }

  function CpuSamples(es: seq<Entry<Cpu.CpuKey, nat>>): (r: seq<CpuSample>)
    ensures |r| == |es|
  {
    seq(|es|, i requires 0 <= i < |es| => CpuSeen(es[i]))
  }

  lemma {:induction false} CpuWeightsSum(es: seq<Entry<Cpu.CpuKey, nat>>)
    ensures Weights(CpuSamples(es)) == Cpu.SumListed(es)
  {
    if |es| > 0 {
      var n := |es| - 1;
      CpuWeightsSum(es[..n]);
      assert CpuSamples(es)[..n] == CpuSamples(es[..n]);
    }
  }

  /** The symbols and the samples of a profile, as its readers see them. */
  function CpuSymbolsOf(p: Cpu.Profile): seq<SymbolView>
    reads p.symbols, p.symbols.table.slots, p.symbols.sources
  {
    SymbolsSeen(p.symbols.table.slots[..], p.symbols.sources[..])
  }

  function CpuSamplesOf(p: Cpu.Profile): seq<CpuSample>
    reads p.aggregates.slots
  {
    CpuSamples(Listing(p.aggregates.slots[..]))
  }

  /** A finished CPU profile fits the exporter, and its samples weigh what it counted. */
  lemma CpuProfileFits(p: Cpu.Profile)
    requires p.Valid()
    ensures CpuInput(CpuSymbolsOf(p), CpuSamplesOf(p)) && Weights(CpuSamplesOf(p)) == p.samples
    ensures |CpuSamplesOf(p)| == p.aggregateCount
  {
    SymbolsAreOk(p.symbols.table.slots[..], p.symbols.sources[..]);
    UsedBounds(p.aggregates.slots[..]);
    Cpu.SamplesAreConserved(p);
    CpuWeightsSum(Listing(p.aggregates.slots[..]));
  }

  /** Reading a CPU profile sample by sample. */
  method ReadCpu(p: Cpu.Profile) returns (symbols: seq<SymbolView>, samples: seq<CpuSample>)
    requires p.Valid()
    ensures symbols == CpuSymbolsOf(p) && samples == CpuSamplesOf(p)
  {
    symbols := ReadSymbols(p.symbols);
    samples := [];
    for i := 0 to p.aggregateCount
      invariant samples == CpuSamples(Listing(p.aggregates.slots[..]))[..i]
    {
      var e := p.SampleAt(i);
      samples := samples + [CpuSeen(e.value)];
    }
  }

  // ---------- memory profiles ----------

  function MemorySeen(e: Entry<Totals.Stack, Totals.Totals>): MemorySample {
    MemorySample(e.value.allocObjects, e.value.allocSpace, e.value.inuseObjects, e.value.inuseSpace, StackSeen(e.key))
  }

  function MemorySamples(es: seq<Entry<Totals.Stack, Totals.Totals>>): (r: seq<MemorySample>)
    ensures |r| == |es|
  {
    seq(|es|, i requires 0 <= i < |es| => MemorySeen(es[i]))
  }

  /** The four exported columns of the samples, before they are cut to 63 bits. */
  function MemorySums(samples: seq<MemorySample>): (nat, nat, nat, nat) {
    if |samples| == 0 then (0, 0, 0, 0)
    else
      var rest, s := MemorySums(samples[..|samples| - 1]), samples[|samples| - 1];
      (rest.0 + s.allocObjects, rest.1 + s.allocSpace, rest.2 + s.inuseObjects, rest.3 + s.inuseSpace)
  }
  function SumsOf(t: Totals.Totals): (nat, nat, nat, nat) {
    (t.allocObjects, t.allocSpace, t.inuseObjects, t.inuseSpace)
  }

  lemma {:induction false} MemorySumsAreTotals(es: seq<Entry<Totals.Stack, Totals.Totals>>)
    ensures MemorySums(MemorySamples(es)) == SumsOf(Totals.SumListed(es))
  {
    if |es| > 0 {
      var n := |es| - 1;
      MemorySumsAreTotals(es[..n]);
      assert MemorySamples(es)[..n] == MemorySamples(es[..n]);
    }
  }

  function MemorySymbolsOf(p: Memory.Profile): seq<SymbolView>
    reads p.symbols, p.symbols.table.slots, p.symbols.sources
  {
    SymbolsSeen(p.symbols.table.slots[..], p.symbols.sources[..])
  }

  function MemorySamplesOf(p: Memory.Profile): seq<MemorySample>
    reads p.aggregates.slots
  {
    MemorySamples(Listing(p.aggregates.slots[..]))
  }

  /** A finished memory profile fits the exporter, and its samples sum to its totals. */
  lemma MemoryProfileFits(p: Memory.Profile)
    requires p.Valid()
    ensures MemoryInput(MemorySymbolsOf(p), MemorySamplesOf(p))
    ensures MemorySums(MemorySamplesOf(p)) == SumsOf(p.totals) && |MemorySamplesOf(p)| == p.aggregateCount
  {
    assert Opened(ProfileLock, 0);
    SymbolsAreOk(p.symbols.table.slots[..], p.symbols.sources[..]);
    UsedBounds(p.aggregates.slots[..]);
    Memory.TotalsAreConserved(p);
    MemorySumsAreTotals(Listing(p.aggregates.slots[..]));
  }

  /** Reading a memory profile sample by sample. */
  method ReadMemory(p: Memory.Profile) returns (symbols: seq<SymbolView>, samples: seq<MemorySample>)
    requires p.Valid()
    ensures symbols == MemorySymbolsOf(p) && samples == MemorySamplesOf(p)
  {
    assert Opened(ProfileLock, 0);
    symbols := ReadSymbols(p.symbols);
    samples := [];
    for i := 0 to p.aggregateCount
      invariant samples == MemorySamples(Listing(p.aggregates.slots[..]))[..i]
    {
      var e := p.SampleAt(i);
      samples := samples + [MemorySeen(e.value)];
    }
  }
}
