/** lp_export_result_with_symbols of src/pprof_exporter.c on a finished profile: the
    decoded columns sum to the profile's own counters, and the quality metadata that
    tools/pprof-flamegraph/quality.go reads from the decoded comments are the thirteen
    counters of the result. */
module ExportResult {
  import opened Common
  import opened Pprof
  import opened PprofProfile
  import opened Interning
  import opened ExportSamples
  import opened ExportProfile
  import opened ExportBytes
  import opened ExportViews
  import Cpu = CpuProfile
  import Memory = MemoryProfile
  import Metadata

  // ---------- texts ----------

  predicate PlainText(s: string) { forall i: nat :: i < |s| ==> 0 < s[i] as int < 128 }

  predicate PlainTexts(texts: seq<string>) { forall i: nat :: i < |texts| ==> PlainText(texts[i]) }

  function Bytes(texts: seq<string>): (r: seq<seq<byte>>)
    requires PlainTexts(texts)
    ensures |r| == |texts|
  {
    seq(|texts|, i requires 0 <= i < |texts| => Ascii(texts[i]))
  }

  function Chars(bytes: seq<byte>): string { seq(|bytes|, i requires 0 <= i < |bytes| => bytes[i] as char) }

  lemma CharsOfAscii(s: string)
    requires PlainText(s)
    ensures Chars(Ascii(s)) == s && 0 !in Ascii(s)
  {
  }

  function StringOf(p: Profile, i: nat): string { if i < |p.strings| then Chars(p.strings[i]) else "" }

  /** The comments and sample types of a decoded profile, as its reader gets them. */
  function CommentsRead(p: Profile): seq<string> {
    seq(|p.comments|, i requires 0 <= i < |p.comments| => StringOf(p, p.comments[i]))
  }

  function TypesRead(p: Profile): seq<(string, string)> {
    seq(|p.sampleTypes|, i requires 0 <= i < |p.sampleTypes| =>
          (StringOf(p, p.sampleTypes[i].kind), StringOf(p, p.sampleTypes[i].unit)))
  }

  lemma CommentsComeBack(p: Profile, l: Label, texts: seq<string>)
    requires Labelled(p, l) && PlainTexts(texts) && l.comments == Bytes(texts)
    ensures CommentsRead(p) == texts
  {
    forall i: nat | i < |texts| ensures CommentsRead(p)[i] == texts[i] {
      assert Spells(p.strings, p.comments[i], l.comments[i]);
      CharsOfAscii(texts[i]);
    }
  }

  // ---------- what is printed is plain ----------

  lemma {:induction false} DecimalIsPlain(n: nat)
    ensures PlainText(Metadata.Decimal(n))
  {
    if n >= 10 {
      DecimalIsPlain(n / 10);
    }
  }

  lemma PlainConcat(a: string, b: string)
    requires PlainText(a) && PlainText(b)
    ensures PlainText(a + b)
  {
  }

  lemma {:induction false} CountersArePlain(fields: seq<string>, values: seq<nat>, k: nat)
    requires |values| == |fields| && k <= |fields| && PlainTexts(fields)
    ensures PlainTexts(Metadata.CounterLines(fields, values, k))
  {
    if k > 0 {
      CountersArePlain(fields, values, k - 1);
      DecimalIsPlain(values[k - 1]);
      PlainConcat(Metadata.PREFIX, fields[k - 1]);
      PlainConcat(Metadata.PREFIX + fields[k - 1], "=");
      PlainConcat(Metadata.PREFIX + fields[k - 1] + "=", Metadata.Decimal(values[k - 1]));
    }
  }

  lemma FieldsArePlain()
    ensures PlainTexts(Metadata.FIELDS)
  {
    FirstFieldsArePlain();
    LastFieldsArePlain();
  }

  lemma FirstFieldsArePlain()
    ensures |Metadata.FIELDS| == 13 && forall i: nat :: i < 7 ==> PlainText(Metadata.FIELDS[i])
  {
  }

  lemma LastFieldsArePlain()
    ensures |Metadata.FIELDS| == 13 && forall i: nat :: 7 <= i < 13 ==> PlainText(Metadata.FIELDS[i])
  {
  }

  lemma HeadIsPlain()
    ensures PlainTexts([Metadata.HEADER, Metadata.VERSION_KEY + "=1"])
  {
    PlainConcat(Metadata.VERSION_KEY, "=1");
  }

  lemma PlainListConcat(a: seq<string>, b: seq<string>)
    requires PlainTexts(a) && PlainTexts(b)
    ensures PlainTexts(a + b)
  {
  }

  lemma PrintedIsPlain(values: seq<nat>)
    requires |values| == |Metadata.FIELDS|
    ensures PlainTexts(Metadata.Printed(Metadata.FIELDS, values))
  {
    FieldsArePlain();
    CountersArePlain(Metadata.FIELDS, values, |values|);
    HeadIsPlain();
    PlainListConcat([Metadata.HEADER, Metadata.VERSION_KEY + "=1"],
                    Metadata.CounterLines(Metadata.FIELDS, values, |Metadata.FIELDS|));
  }

  lemma BytesAreStrings(texts: seq<string>)
    requires PlainTexts(texts) && forall i: nat :: i < |texts| ==> |texts[i]| < Metadata.TEXT_CAPACITY
    ensures ShortStrings(Bytes(texts)) && AllPlain(Bytes(texts))
  {
    forall i: nat | i < |texts| ensures 0 !in Bytes(texts)[i] {
      CharsOfAscii(texts[i]);
    }
  }

  // ---------- CPU results ----------

  /** lp_result_stats beside the profile's own counters. */
  datatype Around = Around(hz: nat, stale: nat, timerFailures: nat, workers: nat)

  /** The fields of add_cpu_quality, in its order. */
  function Counters(p: Cpu.Profile, a: Around): (r: seq<nat>)
    reads p, p.symbols
    ensures |r| == 13 && r[0] == a.hz && r[1] == p.samples
  {
    [a.hz, p.samples, p.quality.overrunEvents, p.quality.overrunTicks, p.quality.dropped, p.quality.unstable,
     p.quality.overhead, a.stale, a.timerFailures, p.stackTruncations, p.aggregateOverflows, p.symbols.overflows,
     a.workers]
  }

  ghost predicate AllWords(values: seq<nat>) { forall i: nat :: i < |values| ==> values[i] < WORD }

  /** Whoever reads the comments of this profile gets exactly these counters. */
  ghost predicate TellsCounters(p: Profile, values: seq<nat>) {
    && |values| == 13 && ("cpu", "nanoseconds") in TypesRead(p)
    && forall q: Metadata.Quality :: Metadata.Reads(CommentsRead(p), Metadata.FIELDS, q) ==> Says(q, values)
  }

  ghost predicate Says(q: Metadata.Quality, values: seq<nat>)
    requires |values| == 13
  {
    && q.unavailable == "" && q.problems == []
    && (forall name: string :: name in q.values <==> name in Metadata.FIELDS)
    && forall i: nat :: i < 13 ==> Metadata.FIELDS[i] in q.values && q.values[Metadata.FIELDS[i]] == values[i]
  }

  /** The two columns add up to these. */
  ghost predicate CpuColumns(p: Profile, samples: nat, time: nat) {
    && (forall i: nat :: i < |p.samples| ==> |Rows(p)[i]| == 2)
    && Column(Rows(p), 0) == samples && Column(Rows(p), 1) == time
  }

  lemma CountersComeBack(p: Profile, l: Label, values: seq<nat>)
    requires |values| == 13 && 1 <= values[0] <= 10000 && AllWords(values)
    requires PlainTexts(Metadata.Printed(Metadata.FIELDS, values))
    requires Labelled(p, l) && l.comments == Bytes(Metadata.Printed(Metadata.FIELDS, values))
    requires |l.names| == 2 && l.names[1] == Ascii("cpu") && l.units[1] == Ascii("nanoseconds")
    ensures TellsCounters(p, values)
  {
    var texts := Metadata.Printed(Metadata.FIELDS, values);
    CommentsComeBack(p, l, texts);
    forall q: Metadata.Quality | Metadata.Reads(texts, Metadata.FIELDS, q) ensures Says(q, values) {
      Metadata.ThirteenCountersRoundTrip(values, [], texts, q);
    }
    TypesComeBack(p, l);
  }

  lemma TypesComeBack(p: Profile, l: Label)
    requires Labelled(p, l) && |l.names| == 2 && l.names[1] == Ascii("cpu") && l.units[1] == Ascii("nanoseconds")
    ensures ("cpu", "nanoseconds") in TypesRead(p)
  {
    CharsOfAscii("cpu");
    CharsOfAscii("nanoseconds");
    assert TypesRead(p)[1] == ("cpu", "nanoseconds");
  }

  /** The CPU time of so many samples, in nanoseconds. */
  function Time(samples: nat, hz: nat): nat
    requires hz > 0
  {
    samples * (NANOSECONDS / hz)
  }

  /** The decoded profile is intact and shows every sample; its comments tell the
      counters; its values add up to the number of samples and, while that fits in 63
      bits, to their time. */
  ghost predicate CpuResultRead(p: Option<Profile>, symbols: seq<SymbolView>, samples: seq<CpuSample>,
                                counters: seq<nat>, l: Label, stacks: seq<seq<FrameDesc>>,
                                format: FrameDesc -> Formatted) {
    && |counters| == 13 && counters[0] > 0 && CpuProfileRead(p, symbols, samples, l, stacks, format)
    && TellsCounters(p.value, counters)
    && (Time(counters[1], counters[0]) <= INT64_MAX ==>
          CpuColumns(p.value, counters[1], Time(counters[1], counters[0])))
  }

  lemma ColumnsShown(p: Profile, symbols: seq<SymbolView>, samples: seq<CpuSample>, hz: nat, l: Label,
                     stacks: seq<seq<FrameDesc>>, format: FrameDesc -> Formatted)
    requires CpuProfileRead(Some(p), symbols, samples, l, stacks, format)
    requires 1 <= hz <= 10000 && l.period == NANOSECONDS / hz && Time(Weights(samples), hz) <= INT64_MAX
    ensures CpuColumns(p, Weights(samples), Time(Weights(samples), hz))
  {
    assert l.period >= 1;
    DecodedValuesAddUp(p, symbols, samples, l, stacks, format);
  }

  lemma CpuResultShown(p: Option<Profile>, symbols: seq<SymbolView>, samples: seq<CpuSample>, counters: seq<nat>,
                       selected: nat, stacks: seq<seq<FrameDesc>>, format: FrameDesc -> Formatted)
    requires |counters| == 13 && 1 <= counters[0] <= 10000 && AllWords(counters) && counters[1] == Weights(samples)
    requires PlainTexts(Metadata.Printed(Metadata.FIELDS, counters))
    requires CpuProfileRead(p, symbols, samples, ResultLabel(counters, selected), stacks, format)
    ensures CpuResultRead(p, symbols, samples, counters, ResultLabel(counters, selected), stacks, format)
  {
    var l := ResultLabel(counters, selected);
    CountersComeBack(p.value, l, counters);
    if Time(counters[1], counters[0]) <= INT64_MAX {
      ColumnsShown(p.value, symbols, samples, counters[0], l, stacks, format);
    }
  }

  /** What a CPU result says about itself. */
  function ResultLabel(counters: seq<nat>, selected: nat): (l: Label)
    requires |counters| == 13 && counters[0] > 0
    ensures l.period == NANOSECONDS / counters[0] && l.selected == selected
  {
    Metadata.ProgramFields();
    PrintedIsPlain(counters);
    CpuLabel(counters[0], Bytes(Metadata.Printed(Metadata.FIELDS, counters)), selected)
  }

  /** The model before model_init. */
  ghost predicate Blank(e: Exporter)
    reads e, e.functionTable.slots, e.locationTable.slots
  {
    && e.Valid() && e.strings == [] && e.mappings == [] && e.failure == None
    && e.keys == [] && e.locations == [] && e.samples == []
  }

  /** The tables of the model are none of these objects. */
  ghost predicate Apart(e: Exporter, x: object) {
    x != e && x != e.functionTable.slots && x != e.locationTable.slots
  }

  /** Exporting the result of a CPU profile. */
  method ExportCpuResult(e: Exporter, p: Cpu.Profile, a: Around, selected: nat)
    returns (ok: bool, bytes: seq<byte>, ghost stacks: seq<seq<FrameDesc>>)
    requires Blank(e) && Apart(e, p.symbols.table.slots) && Apart(e, p.symbols.sources) && Apart(e, p.aggregates.slots)
    requires p.Valid() && 1 <= a.hz <= 10000 && selected < 2 && AllWords(Counters(p, a))
    modifies e, e.functionTable.slots, e.locationTable.slots
    ensures ok ==> CpuResultRead(ReadProfile(bytes), CpuSymbolsOf(p), CpuSamplesOf(p), Counters(p, a),
                                 ResultLabel(Counters(p, a), selected), stacks, e.format)
    ensures !ok ==>
              Cramped(e.ample, |e.strings|, |e.mappings|) || Oversized(e, ResultLabel(Counters(p, a), selected))
  {
    var symbols, samples := ReadCpu(p);
    CpuProfileFits(p);
    var counters := Counters(p, a);
    ok, bytes, stacks := ExportCpuSeen(e, symbols, samples, counters, selected);
    assert CpuSymbolsOf(p) == symbols && CpuSamplesOf(p) == samples && Counters(p, a) == counters;
  }

  method ExportCpuSeen(e: Exporter, symbols: seq<SymbolView>, samples: seq<CpuSample>, counters: seq<nat>,
                       selected: nat)
    returns (ok: bool, bytes: seq<byte>, ghost stacks: seq<seq<FrameDesc>>)
    requires Blank(e)
    requires CpuInput(symbols, samples) && selected < 2
    requires |counters| == 13 && 1 <= counters[0] <= 10000 && AllWords(counters) && counters[1] == Weights(samples)
    modifies e, e.functionTable.slots, e.locationTable.slots
    ensures ok ==> CpuResultRead(ReadProfile(bytes), symbols, samples, counters, ResultLabel(counters, selected),
                                 stacks, e.format)
    ensures !ok ==> Cramped(e.ample, |e.strings|, |e.mappings|) || Oversized(e, ResultLabel(counters, selected))
  {
    var comments := CpuComments(counters);
    ok, bytes, stacks := ExportCpu(e, symbols, samples, counters[0], comments, selected);
    if ok {
      CpuResultShown(ReadProfile(bytes), symbols, samples, counters, selected, stacks, e.format);
    }
  }

  /** The comments of model_init for a CPU result. */
  method CpuComments(counters: seq<nat>) returns (comments: seq<seq<byte>>)
    requires |counters| == 13 && AllWords(counters)
    ensures PlainTexts(Metadata.Printed(Metadata.FIELDS, counters))
    ensures comments == Bytes(Metadata.Printed(Metadata.FIELDS, counters))
    ensures ShortStrings(comments) && AllPlain(comments)
  {
    Metadata.ProgramFields();
    var texts := Metadata.AddCpuQuality(Metadata.FIELDS, counters);
    PrintedIsPlain(counters);
    BytesAreStrings(texts);
    comments := Bytes(texts);
  }

  /** Reading a profile's quality back from its bytes, as the flame graph tool does. */
  method ReadResult(bytes: seq<byte>) returns (q: Option<Metadata.Quality>)
    requires ReadProfile(bytes).Some?
    ensures forall values: seq<nat> :: TellsCounters(ReadProfile(bytes).value, values) ==>
              q.Some? && Says(q.value, values)
  {
    var p := ReadProfile(bytes).value;
    q := Metadata.ReadCpuQuality(TypesRead(p), CommentsRead(p), Metadata.FIELDS);
  }

  // ---------- memory results ----------

  const TITLE := "luaprof memory sampling profile"

  ghost predicate MemoryColumns(p: Profile, sums: (nat, nat, nat, nat)) {
    && (forall i: nat :: i < |p.samples| ==> |Rows(p)[i]| == 4)
    && Column(Rows(p), 0) == sums.0 && Column(Rows(p), 1) == sums.1
    && Column(Rows(p), 2) == sums.2 && Column(Rows(p), 3) == sums.3
  }

  ghost predicate Fit(sums: (nat, nat, nat, nat)) {
    sums.0 <= INT64_MAX && sums.1 <= INT64_MAX && sums.2 <= INT64_MAX && sums.3 <= INT64_MAX
  }

  lemma {:induction false} MemoryValuesAddUp(samples: seq<MemorySample>, rows: seq<seq<int>>)
    requires |rows| == |samples| && Fit(MemorySums(samples))
    requires forall i: nat :: i < |samples| ==> rows[i] == MemoryValues(samples[i])
    ensures forall i: nat :: i < |rows| ==> |rows[i]| == 4
    ensures Column(rows, 0) == MemorySums(samples).0 && Column(rows, 1) == MemorySums(samples).1
    ensures Column(rows, 2) == MemorySums(samples).2 && Column(rows, 3) == MemorySums(samples).3
  {
    if |samples| > 0 {
      MemoryValuesAddUp(samples[..|samples| - 1], rows[..|samples| - 1]);
    }
  }

  /** The decoded profile is intact and shows every sample, and its four columns add up
      to these totals, if those fit in 63 bits. */
  ghost predicate MemoryResultRead(p: Option<Profile>, symbols: seq<SymbolView>, samples: seq<MemorySample>,
                                   sums: (nat, nat, nat, nat), l: Label, stacks: seq<seq<FrameDesc>>,
                                   format: FrameDesc -> Formatted) {
    && MemoryProfileRead(p, symbols, samples, l, stacks, format)
    && CommentsRead(p.value) == [TITLE]
    && (Fit(sums) ==> MemoryColumns(p.value, sums))
  }

  lemma MemoryResultShown(p: Option<Profile>, symbols: seq<SymbolView>, samples: seq<MemorySample>, l: Label,
                          stacks: seq<seq<FrameDesc>>, format: FrameDesc -> Formatted)
    requires MemoryProfileRead(p, symbols, samples, l, stacks, format)
    requires PlainTexts([TITLE]) && l.comments == Bytes([TITLE])
    ensures MemoryResultRead(p, symbols, samples, MemorySums(samples), l, stacks, format)
  {
    CommentsComeBack(p.value, l, [TITLE]);
    if Fit(MemorySums(samples)) {
      MemoryValuesAddUp(samples, Rows(p.value));
    }
  }

  function MemoryResultLabel(sampleBytes: nat, selected: nat): (l: Label) {
    TitleIsPlain();
    MemoryLabel(sampleBytes, Bytes([TITLE]), selected)
  }

  /** Exporting the result of a memory profile. */
  method ExportMemoryResult(e: Exporter, p: Memory.Profile, selected: nat)
    returns (ok: bool, bytes: seq<byte>, ghost stacks: seq<seq<FrameDesc>>)
    requires Blank(e) && Apart(e, p.symbols.table.slots) && Apart(e, p.symbols.sources) && Apart(e, p.aggregates.slots)
    requires p.Valid() && p.sampleBytes >= 1 && selected < 4
    modifies e, e.functionTable.slots, e.locationTable.slots
    ensures ok ==> MemoryResultRead(ReadProfile(bytes), MemorySymbolsOf(p), MemorySamplesOf(p), SumsOf(p.totals),
                                    MemoryResultLabel(p.sampleBytes, selected), stacks, e.format)
    ensures !ok ==>
              Cramped(e.ample, |e.strings|, |e.mappings|) || Oversized(e, MemoryResultLabel(p.sampleBytes, selected))
  {
    var symbols, samples := ReadMemory(p);
    MemoryProfileFits(p);
    ok, bytes, stacks := ExportMemorySeen(e, symbols, samples, p.sampleBytes, selected);
  }

  method ExportMemorySeen(e: Exporter, symbols: seq<SymbolView>, samples: seq<MemorySample>, sampleBytes: nat,
                          selected: nat)
    returns (ok: bool, bytes: seq<byte>, ghost stacks: seq<seq<FrameDesc>>)
    requires Blank(e)
    requires MemoryInput(symbols, samples) && sampleBytes >= 1 && selected < 4
    modifies e, e.functionTable.slots, e.locationTable.slots
    ensures ok ==> MemoryResultRead(ReadProfile(bytes), symbols, samples, MemorySums(samples),
                                    MemoryResultLabel(sampleBytes, selected), stacks, e.format)
    ensures !ok ==>
              Cramped(e.ample, |e.strings|, |e.mappings|) || Oversized(e, MemoryResultLabel(sampleBytes, selected))
  {
    TitleIsPlain();
    ok, bytes, stacks := ExportMemory(e, symbols, samples, sampleBytes, Bytes([TITLE]), selected);
    if ok {
      MemoryResultShown(ReadProfile(bytes), symbols, samples, MemoryResultLabel(sampleBytes, selected), stacks,
                        e.format);
    }
  }

  lemma TitleIsPlain()
    ensures PlainTexts([TITLE]) && ShortStrings(Bytes([TITLE])) && AllPlain(Bytes([TITLE]))
  {
    BytesAreStrings([TITLE]);
  }
}
