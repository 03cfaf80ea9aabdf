/** Building the samples of an export from a finished profile: build_cpu_samples
    and build_memory_samples of src/pprof_exporter.c. */
module ExportSamples {
  import opened Common
  import opened Pprof
  import opened Interning

  const INT64_MAX := 0x7fff_ffff_ffff_ffff
  const SYMBOL_CAPACITY := 4096
  const AGGREGATE_CAPACITY := 2048
  const MAX_DEPTH := 64

  /** clamp_i64. */
  function Clamp(value: nat): int { if value > INT64_MAX then INT64_MAX else value }

  /** multiply_i64: the test divides, so that nothing overflows. */
  function Multiply(left: nat, right: nat): int
  {
    if left != 0 && right > INT64_MAX / left then INT64_MAX else left * right
  }

  lemma ProductExceeds(left: nat, right: nat)
    requires left > 0
    ensures right > INT64_MAX / left <==> left * right > INT64_MAX
  {
    var q, r := INT64_MAX / left, INT64_MAX % left;
    assert INT64_MAX == left * q + r && r < left;
    if right > q {
      Scale(left, q + 1, right);
      assert left * (q + 1) == left * q + left;
    } else {
      Scale(left, right, q);
    }
  }

  lemma Scale(c: nat, a: nat, b: nat)
    requires a <= b
    ensures c * a <= c * b
  {
  }

  /** Saturation sets in exactly where the true product leaves the range. */
  lemma MultiplySaturatesExactly(left: nat, right: nat)
    ensures Multiply(left, right) == if left * right > INT64_MAX then INT64_MAX else left * right
    ensures 0 <= Multiply(left, right) <= INT64_MAX
  {
    if left > 0 {
      ProductExceeds(left, right);
    }
  }

  /** A symbol of the profile, and a frame by symbol number (0 for none) and line. */
  datatype SymbolView = SymbolView(used: bool, kind: int, function_: nat, cfunction: nat, source: Option<seq<byte>>,
                                   name: seq<byte>, linedefined: int)

  function OrEmpty(text: Option<seq<byte>>): seq<byte> { if text.Some? then text.value else [] }

  datatype StackFrame = StackFrame(symbol: nat, line: int)

  datatype CpuSample = CpuSample(vmState: nat, cfunction: nat, weight: nat, stack: seq<StackFrame>)

  datatype MemorySample = MemorySample(allocObjects: nat, allocSpace: nat, inuseObjects: nat, inuseSpace: nat,
                                       stack: seq<StackFrame>)

  /** synthetic_desc. */
  function SyntheticFrame(name: seq<byte>): FrameDesc { FrameDesc(FRAME_LUA, 0, 0, [], [], 0, 0, Some(name)) }

  /** cfunction_desc. */
  function LeafFrame(cfunction: nat): FrameDesc { FrameDesc(FRAME_C, 0, cfunction, [], [], -1, -1, None) }

  /** A captured frame: its symbol's fields, or nothing but a line. */
  function Seen(symbols: seq<SymbolView>, f: StackFrame): FrameDesc {
    if f.symbol == 0 || f.symbol > |symbols| then FrameDesc(FRAME_LUA, 0, 0, [], [], 0, f.line, None)
    else
      var y := symbols[f.symbol - 1];
      FrameDesc(y.kind, y.function_, y.cfunction, OrEmpty(y.source), y.name, y.linedefined, f.line, None)
  }

  /** Neither a symbol nor anything in it says what the frame is. */
  predicate Unknown(symbols: seq<SymbolView>, f: StackFrame) {
    f.symbol == 0 || f.symbol > |symbols| ||
    var y := symbols[f.symbol - 1];
    y.source == None && y.function_ == 0 && y.cfunction == 0
  }

  function Shown(symbols: seq<SymbolView>, f: StackFrame): FrameDesc {
    if Unknown(symbols, f) then SyntheticFrame(Ascii("[unknown frame]")) else Seen(symbols, f)
  }

  predicate IsLeaf(symbols: seq<SymbolView>, f: StackFrame, cfunction: nat) {
    Seen(symbols, f).kind == FRAME_C && Seen(symbols, f).cfunction == cfunction
  }

  /** How many captured frames lie above the sampled C function: those up to and
      with its first occurrence, if it occurs. */
  ghost predicate Above(symbols: seq<SymbolView>, s: CpuSample, start: nat) {
    && start <= |s.stack|
    && (start > 0 ==> s.vmState == 2 && s.cfunction != 0 && IsLeaf(symbols, s.stack[start - 1], s.cfunction)
                      && forall j: nat :: j < start - 1 ==> !IsLeaf(symbols, s.stack[j], s.cfunction))
    && (start == 0 && s.vmState == 2 && s.cfunction != 0 ==>
          forall j: nat :: j < |s.stack| ==> !IsLeaf(symbols, s.stack[j], s.cfunction))
  }

  function ShownAll(symbols: seq<SymbolView>, stack: seq<StackFrame>): (r: seq<FrameDesc>)
    ensures |r| == |stack|
  {
    seq(|stack|, i requires 0 <= i < |stack| => Shown(symbols, stack[i]))
  }

  /** The frames in front of the captured ones. */
  function Lead(s: CpuSample): seq<FrameDesc> {
    if s.vmState == 0 then [SyntheticFrame(Ascii("[host]"))]
    else if s.vmState == 3 then [SyntheticFrame(Ascii("[gc]"))]
    else if s.vmState == 2 && s.cfunction != 0 then [LeafFrame(s.cfunction)]
    else []
  }

  /** The frames of a sample whose stack at the tick begins at `start`. */
  function Framed(symbols: seq<SymbolView>, s: CpuSample, start: nat): seq<FrameDesc>
    requires start <= |s.stack|
  {
    var body := Lead(s) + ShownAll(symbols, s.stack[start..]);
    if |body| == 0 then [SyntheticFrame(Ascii("[lua]"))] else body
  }

  /** The export stack of a CPU sample: never empty, with the sampled C function as
      the leaf and no frame that was entered after the tick. */
  ghost predicate CpuStack(symbols: seq<SymbolView>, s: CpuSample, frames: seq<FrameDesc>) {
    exists start: nat :: Above(symbols, s, start) && frames == Framed(symbols, s, start)
  }

  /** Where the captured frames that were on the stack at the tick begin. */
  method FindLeaf(symbols: seq<SymbolView>, s: CpuSample) returns (start: nat)
    ensures Above(symbols, s, start)
  {
    start := 0;
    for j := 0 to |s.stack|
      invariant start <= j
      invariant start > 0 ==> s.vmState == 2 && s.cfunction != 0 && IsLeaf(symbols, s.stack[start - 1], s.cfunction)
                              && forall k: nat :: k < start - 1 ==> !IsLeaf(symbols, s.stack[k], s.cfunction)
      invariant start == 0 && s.vmState == 2 && s.cfunction != 0 ==>
                  forall k: nat :: k < j ==> !IsLeaf(symbols, s.stack[k], s.cfunction)
    {
      if s.vmState == 2 && s.cfunction != 0 && start == 0 && IsLeaf(symbols, s.stack[j], s.cfunction) {
        start := j + 1;
      }
    }
  }

  method ShowFrom(symbols: seq<SymbolView>, stack: seq<StackFrame>, start: nat) returns (frames: seq<FrameDesc>)
    requires start <= |stack|
    ensures frames == ShownAll(symbols, stack[start..])
  {
    frames := [];
    for j := start to |stack|
      invariant |frames| == j - start
      invariant forall k: nat :: k < j - start ==> frames[k] == Shown(symbols, stack[start + k])
    {
      frames := frames + [Shown(symbols, stack[j])];
    }
  }

  /** The frames build_cpu_samples hands over for one sample. */
  method BuildCpuStack(symbols: seq<SymbolView>, s: CpuSample) returns (frames: seq<FrameDesc>)
    requires |s.stack| <= MAX_DEPTH
    ensures CpuStack(symbols, s, frames)
    ensures 0 < |frames| <= MAX_DEPTH + 1
  {
    frames := [];
    if s.vmState == 0 {
      frames := [SyntheticFrame(Ascii("[host]"))];
    } else if s.vmState == 3 {
      frames := [SyntheticFrame(Ascii("[gc]"))];
    }
    var start := FindLeaf(symbols, s);
    if s.vmState == 2 && s.cfunction != 0 {
      frames := frames + [LeafFrame(s.cfunction)];
    }
    assert frames == Lead(s);
    var captured := ShowFrom(symbols, s.stack, start);
    frames := frames + captured;
    if |frames| == 0 {
      frames := [SyntheticFrame(Ascii("[lua]"))];
    }
  }

  /** The frames of build_memory_samples for one sample. */
  function MemoryStack(symbols: seq<SymbolView>, s: MemorySample): (r: seq<FrameDesc>)
    ensures 0 < |r| <= |s.stack| + 1
  {
    if s.stack == [] then [SyntheticFrame(Ascii("[allocation]"))]
    else
      seq(|s.stack|, i requires 0 <= i < |s.stack| =>
        if s.stack[i].symbol == 0 || s.stack[i].symbol > |symbols| || !symbols[s.stack[i].symbol - 1].used
        then SyntheticFrame(Ascii("[unknown frame]"))
        else Seen(symbols, s.stack[i]))
  }

  // ---------- no table can fill ----------

  ghost function SetOf(keys: seq<FunctionKey>): set<FunctionKey> {
    set i: nat | i < |keys| :: keys[i]
  }

  lemma {:induction false} SetOfBound(keys: seq<FunctionKey>)
    ensures |SetOf(keys)| <= |keys|
  {
    if |keys| > 0 {
      var n := |keys| - 1;
      SetOfBound(keys[..n]);
      assert SetOf(keys) == SetOf(keys[..n]) + {keys[n]} by {
        forall k | k in SetOf(keys) ensures k in SetOf(keys[..n]) + {keys[n]} {
          var i: nat :| i < |keys| && keys[i] == k;
          if i < n { assert keys[..n][i] == k; }
        }
        forall k | k in SetOf(keys[..n]) ensures k in SetOf(keys) {
          var i: nat :| i < n && keys[..n][i] == k;
          assert keys[i] == k;
        }
      }
    }
  }

  function KeyOfSymbol(y: SymbolView): FunctionKey {
    FunctionKey(y.kind, y.function_, y.cfunction, y.linedefined, Source(OrEmpty(y.source)))
  }

  ghost function SymbolKeys(symbols: seq<SymbolView>): (r: seq<FunctionKey>)
    ensures |r| == |symbols|
  {
    seq(|symbols|, i requires 0 <= i < |symbols| => KeyOfSymbol(symbols[i]))
  }

  ghost function LeafKeys(samples: seq<CpuSample>): (r: seq<FunctionKey>)
    ensures |r| == |samples|
  {
    seq(|samples|, i requires 0 <= i < |samples| => KeyOf(LeafFrame(samples[i].cfunction)))
  }

  function SyntheticKeys(): set<FunctionKey> {
    {KeyOf(SyntheticFrame(Ascii("[host]"))), KeyOf(SyntheticFrame(Ascii("[gc]"))),
     KeyOf(SyntheticFrame(Ascii("[lua]"))),
     KeyOf(SyntheticFrame(Ascii("[unknown frame]"))), KeyOf(SyntheticFrame(Ascii("[allocation]")))}
  }

  /** Every function key an export of this profile can need. */
  ghost function Universe(symbols: seq<SymbolView>, samples: seq<CpuSample>): set<FunctionKey> {
    SetOf(SymbolKeys(symbols)) + SetOf(LeafKeys(samples)) + SyntheticKeys()
  }

  /** 4096 symbols, 2048 sampled C functions and five made-up names are far fewer
      than the 16384 cells. */
  lemma UniverseFits(symbols: seq<SymbolView>, samples: seq<CpuSample>)
    requires |symbols| <= SYMBOL_CAPACITY && |samples| <= AGGREGATE_CAPACITY
    ensures |Universe(symbols, samples)| <= FUNCTION_CAPACITY
  {
    SetOfBound(SymbolKeys(symbols));
    SetOfBound(LeafKeys(samples));
  }

  lemma SeenKey(symbols: seq<SymbolView>, f: StackFrame, samples: seq<CpuSample>)
    ensures KeyOf(Shown(symbols, f)) in Universe(symbols, samples)
    ensures 0 < f.symbol <= |symbols| ==> KeyOf(Seen(symbols, f)) in Universe(symbols, samples)
  {
    if 0 < f.symbol <= |symbols| {
      assert SymbolKeys(symbols)[f.symbol - 1] == KeyOf(Seen(symbols, f));
    }
  }

  predicate SymbolOk(y: SymbolView) { y.cfunction < WORD && Int64(y.linedefined) }

  ghost predicate SymbolsOk(symbols: seq<SymbolView>) {
    |symbols| <= SYMBOL_CAPACITY && forall i: nat :: i < |symbols| ==> SymbolOk(symbols[i])
  }

  ghost predicate StackOk(stack: seq<StackFrame>) {
    |stack| <= MAX_DEPTH && forall i: nat :: i < |stack| ==> Int64(stack[i].line)
  }

  ghost predicate Exportable(frames: seq<FrameDesc>, universe: set<FunctionKey>) {
    forall i: nat :: i < |frames| ==> FrameOk(frames[i]) && KeyOf(frames[i]) in universe
  }

  lemma ShownExportable(symbols: seq<SymbolView>, stack: seq<StackFrame>, samples: seq<CpuSample>)
    requires SymbolsOk(symbols) && StackOk(stack)
    ensures Exportable(ShownAll(symbols, stack), Universe(symbols, samples))
  {
    forall i: nat | i < |stack|
      ensures FrameOk(Shown(symbols, stack[i])) && KeyOf(Shown(symbols, stack[i])) in Universe(symbols, samples)
    {
      SeenKey(symbols, stack[i], samples);
    }
  }

  lemma LeadExportable(symbols: seq<SymbolView>, samples: seq<CpuSample>, n: nat)
    requires n < |samples| && samples[n].cfunction < WORD
    ensures Exportable(Lead(samples[n]), Universe(symbols, samples))
  {
    assert LeafKeys(samples)[n] == KeyOf(LeafFrame(samples[n].cfunction));
  }

  lemma ExportableConcat(a: seq<FrameDesc>, b: seq<FrameDesc>, universe: set<FunctionKey>)
    requires Exportable(a, universe) && Exportable(b, universe)
    ensures Exportable(a + b, universe)
  {
  }

  lemma FramedExportable(symbols: seq<SymbolView>, samples: seq<CpuSample>, n: nat, start: nat)
    requires SymbolsOk(symbols) && n < |samples| && StackOk(samples[n].stack) && samples[n].cfunction < WORD
    requires start <= |samples[n].stack|
    ensures Exportable(Framed(symbols, samples[n], start), Universe(symbols, samples))
  {
    var s := samples[n];
    LeadExportable(symbols, samples, n);
    ShownExportable(symbols, s.stack[start..], samples);
    ExportableConcat(Lead(s), ShownAll(symbols, s.stack[start..]), Universe(symbols, samples));
  }

  lemma CpuStackExportable(symbols: seq<SymbolView>, samples: seq<CpuSample>, n: nat, frames: seq<FrameDesc>)
    requires SymbolsOk(symbols) && n < |samples| && StackOk(samples[n].stack) && samples[n].cfunction < WORD
    requires CpuStack(symbols, samples[n], frames)
    ensures Exportable(frames, Universe(symbols, samples))
  {
    var start: nat :| Above(symbols, samples[n], start) && frames == Framed(symbols, samples[n], start);
    FramedExportable(symbols, samples, n, start);
  }

  lemma MemoryStackExportable(symbols: seq<SymbolView>, s: MemorySample)
    requires SymbolsOk(symbols) && StackOk(s.stack)
    ensures Exportable(MemoryStack(symbols, s), Universe(symbols, []))
  {
    var frames := MemoryStack(symbols, s);
    forall i: nat | i < |frames| ensures FrameOk(frames[i]) && KeyOf(frames[i]) in Universe(symbols, []) {
      if s.stack != [] {
        SeenKey(symbols, s.stack[i], []);
      }
    }
  }

  // ---------- and it is the symbol table that bounds them ----------

  /** The function keys of all frames of some memory samples. */
  ghost function FrameKeys(symbols: seq<SymbolView>, samples: seq<MemorySample>): set<FunctionKey> {
    set i: nat, j: nat | i < |samples| && j < |MemoryStack(symbols, samples[i])| ::
      KeyOf(MemoryStack(symbols, samples[i])[j])
  }

  /** A different Lua function for every frame there can be. */
  function ManySymbols(): (r: seq<SymbolView>)
    ensures |r| == AGGREGATE_CAPACITY * MAX_DEPTH
  {
    seq(AGGREGATE_CAPACITY * MAX_DEPTH, n requires n >= 0 => SymbolView(true, FRAME_LUA, n + 1, 0, None, [], 0))
  }

  function FullStack(i: nat): (r: seq<StackFrame>)
    ensures |r| == MAX_DEPTH
  {
    seq(MAX_DEPTH, j requires j >= 0 => StackFrame(i * MAX_DEPTH + j + 1, 0))
  }

  function FullSamples(): (r: seq<MemorySample>)
    ensures |r| == AGGREGATE_CAPACITY
  {
    seq(AGGREGATE_CAPACITY, i requires i >= 0 => MemorySample(1, 1, 1, 1, FullStack(i)))
  }

  lemma FullSampleShows(n: nat)
    requires n < AGGREGATE_CAPACITY * MAX_DEPTH
    ensures KeyOfSymbol(ManySymbols()[n]) in FrameKeys(ManySymbols(), FullSamples())
  {
    var symbols, i, j := ManySymbols(), n / MAX_DEPTH, n % MAX_DEPTH;
    var s := FullSamples()[i];
    assert s.stack[j].symbol == n + 1;
    assert MemoryStack(symbols, s)[j] == Seen(symbols, s.stack[j]);
    assert KeyOf(MemoryStack(symbols, s)[j]) == KeyOfSymbol(symbols[n]);
  }

  /** The number of samples and the depth of their stacks would not do: here are full
      samples, in order but for the number of symbols, whose frames have more functions
      than there are cells. */
  lemma DepthAloneIsNotEnough()
    ensures |FullSamples()| == AGGREGATE_CAPACITY && forall i: nat :: i < |FullSamples()| ==>
              StackOk(FullSamples()[i].stack)
    ensures forall n: nat :: n < |ManySymbols()| ==> SymbolOk(ManySymbols()[n])
    ensures |FrameKeys(ManySymbols(), FullSamples())| > FUNCTION_CAPACITY
  {
    var keys := SymbolKeys(ManySymbols());
    assert Unique(keys);
    SetOfUnique(keys);
    forall k | k in SetOf(keys) ensures k in FrameKeys(ManySymbols(), FullSamples()) {
      var n: nat :| n < |keys| && keys[n] == k;
      FullSampleShows(n);
    }
    SubsetSize(SetOf(keys), FrameKeys(ManySymbols(), FullSamples()));
  }
}
