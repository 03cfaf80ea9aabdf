/** A whole export, from model_init to the encoded bytes of src/pprof_exporter.c: what
    a reader decodes names the frames of every sample, with its values and labels,
    and nothing dangles. */
module ExportBytes {
  import opened Common
  import opened Wire
  import opened Buffers
  import opened Pprof
  import opened PprofProfile
  import opened PprofEncoder
  import opened Interning
  import opened ExportSamples
  import opened ExportProfile

  /** References in a decoded profile: ids are dense from 1, and everything referred
      to is there. */
  ghost predicate Intact(p: Profile) {
    && |p.strings| > 0 && p.strings[0] == []
    && (forall i: nat :: i < |p.mappings| ==> p.mappings[i].id == i + 1 && p.mappings[i].filename < |p.strings|)
    && (forall i: nat :: i < |p.functions| ==>
          p.functions[i].id == i + 1 && p.functions[i].name < |p.strings| && p.functions[i].filename < |p.strings|)
    && (forall i: nat :: i < |p.locations| ==>
          && p.locations[i].id == i + 1 && 0 < p.locations[i].mapping <= |p.mappings|
          && |p.locations[i].lines| == 1 && 0 < p.locations[i].lines[0].function_ <= |p.functions|)
    && (forall i: nat, j: nat :: i < |p.samples| && j < |p.samples[i].locations| ==>
          0 < p.samples[i].locations[j] <= |p.locations|)
    && (forall i: nat :: i < |p.samples| ==> |p.samples[i].values| == |p.sampleTypes|)
    && (forall i: nat :: i < |p.sampleTypes| ==>
        p.sampleTypes[i].kind < |p.strings| && p.sampleTypes[i].unit < |p.strings|)
    && (forall i: nat :: i < |p.comments| ==> p.comments[i] < |p.strings|)
    && p.defaultType < |p.strings|
  }

  // ---------- frames ----------

  /** What format_function makes of the frame that the function of `f` is made for: the
      first of the exported frames with its key. */
  function FormattedFor(all: seq<FrameDesc>, f: FrameDesc, format: FrameDesc -> Formatted): Formatted {
    format(FirstLike(all, f))
  }

  /** A decoded function has the name, the file and the first line of the frame `f`. */
  ghost predicate ShowsFunction(fn: Function, strings: seq<seq<byte>>, f: FrameDesc, d: Formatted) {
    && Spells(strings, fn.name, d.name) && Spells(strings, fn.filename, d.filename) && fn.systemName == fn.name
    && fn.startLine == if f.linedefined > 0 then f.linedefined else 0
  }

  /** A decoded mapping is the one format_function found, or else the profiler's own. */
  ghost predicate ShowsMapping(m: Mapping, strings: seq<seq<byte>>, d: Formatted) {
    var k := if d.mapping.Some? then d.mapping.value else OWN;
    m.start == k.start && m.limit == k.limit && m.offset == k.offset && Spells(strings, m.filename, k.filename)
  }

  /** The location `id` of a decoded profile is the frame `f`: its function, its line,
      its address and its mapping. */
  ghost predicate ShowsFrame(p: Profile, id: nat, f: FrameDesc, d: Formatted) {
    && 0 < id <= |p.locations| && |p.locations[id - 1].lines| == 1
    && var l, line := p.locations[id - 1], p.locations[id - 1].lines[0];
       && line.line == LineOf(f) && l.address == AddressOf(KeyOf(f))
       && 0 < line.function_ <= |p.functions| && ShowsFunction(p.functions[line.function_ - 1], p.strings, f, d)
       && 0 < l.mapping <= |p.mappings| && ShowsMapping(p.mappings[l.mapping - 1], p.strings, d)
  }

  ghost predicate ShowsStack(p: Profile, ids: seq<nat>, frames: seq<FrameDesc>, all: seq<FrameDesc>,
                             format: FrameDesc -> Formatted) {
    |ids| == |frames| && forall j: nat :: j < |frames| ==>
      ShowsFrame(p, ids[j], frames[j], FormattedFor(all, frames[j], format))
  }

  ghost predicate ShowsAll(p: Profile, stacks: seq<seq<FrameDesc>>, format: FrameDesc -> Formatted) {
    |p.samples| == |stacks| && forall i: nat :: i < |stacks| ==>
        ShowsStack(p, p.samples[i].locations, stacks[i], Flat(stacks), format)
  }

  /** The first frame with a key is the one its function was made for. */
  lemma FirstIsSource(firsts: seq<FrameDesc>, keys: seq<FunctionKey>, all: seq<FrameDesc>, n: nat, f: FrameDesc)
    requires Sourced(firsts, keys, all) && n < |keys| && keys[n] == KeyOf(f)
    ensures FirstLike(all, f) == firsts[n]
  {
    assert SourcedAt(firsts[n], keys[n], all);
    FirstByKey(all, f, firsts[n]);
  }

  /** What the model under construction says of a location. */
  lemma LocationShows(e: Exporter, i: nat, f: FrameDesc, all: seq<FrameDesc>)
    requires e.Valid() && i < |e.locations| && Names(e.locations[i], e.keys, f) && Sourced(e.firsts, e.keys, all)
    ensures var l, d := e.locations[i], FormattedFor(all, f, e.format);
      && l.functionIndex < |e.functions| && l.mappingIndex < |e.mappings|
      && e.functions[l.functionIndex].id == l.functionIndex + 1 && e.mappings[l.mappingIndex].id == l.mappingIndex + 1
      && l.line == LineOf(f) && l.address == AddressOf(KeyOf(f))
      && ShowsFunction(SeenFunction(e.functions[l.functionIndex]), e.strings, f, d)
      && ShowsMapping(SeenMapping(e.mappings[l.mappingIndex]), e.strings, d)
  {
    assert Opened(ModelLock, 0) && Opened(ExportLock, 0);
    var n := e.locations[i].functionIndex;
    FirstIsSource(e.firsts, e.keys, all, n, f);
    assert Inherits(e.locations[i], e.functions, e.keys);
    assert Describes(e.functions[n], e.strings, e.mappings, e.firsts[n], e.format(e.firsts[n]));
  }

  lemma ViewShowsFrame(e: Exporter, h: Header, units: seq<nat>, id: nat, f: FrameDesc, all: seq<FrameDesc>)
    requires e.Valid() && ModelOk(ModelNow(e, h), units) && Sourced(e.firsts, e.keys, all)
    requires 0 < id <= |e.locations| && Names(e.locations[id - 1], e.keys, f)
    ensures ShowsFrame(View(ModelNow(e, h), units), id, f, FormattedFor(all, f, e.format))
  {
    var m := ModelNow(e, h);
    LocationShows(e, id - 1, f, all);
    ViewAt(m, units, id - 1);
  }

  lemma ViewAt(m: Model, units: seq<nat>, i: nat)
    requires ModelOk(m, units) && i < |m.locations|
    ensures var p, l := View(m, units), m.locations[i];
      && |p.locations| == |m.locations| && |p.functions| == |m.functions| && p.strings == m.strings
      && |p.mappings| == |m.mappings|
      && p.locations[i] == Location(l.id, m.mappings[l.mappingIndex].id, l.address,
                                    [Line(m.functions[l.functionIndex].id, l.line)])
      && p.functions[l.functionIndex] == SeenFunction(m.functions[l.functionIndex])
      && p.mappings[l.mappingIndex] == SeenMapping(m.mappings[l.mappingIndex])
  {
    assert LocationOk(m, m.locations[i]);
  }

  lemma ViewShows(e: Exporter, h: Header, units: seq<nat>, stacks: seq<seq<FrameDesc>>)
    requires e.Valid() && ModelOk(ModelNow(e, h), units) && Placed(e.samples, stacks, e.locations, e.keys)
    requires Sourced(e.firsts, e.keys, Flat(stacks))
    ensures ShowsAll(View(ModelNow(e, h), units), stacks, e.format)
  {
    var p, all := View(ModelNow(e, h), units), Flat(stacks);
    forall i: nat | i < |stacks| ensures ShowsStack(p, p.samples[i].locations, stacks[i], all, e.format) {
      assert PlacedOne(e.samples[i], stacks[i], e.locations, e.keys);
      forall j: nat | j < |stacks[i]|
        ensures ShowsFrame(p, p.samples[i].locations[j], stacks[i][j], FormattedFor(all, stacks[i][j], e.format))
      {
        ViewShowsFrame(e, h, units, e.samples[i].locations[j], stacks[i][j], all);
      }
    }
  }

  // ---------- labels ----------

  /** What a kind of profile says about itself. */
  datatype Label = Label(names: seq<seq<byte>>, units: seq<seq<byte>>, selected: nat,
                         periodName: seq<byte>, periodUnit: seq<byte>, period: int, comments: seq<seq<byte>>)

  /** The same by numbers of strings. */
  datatype Header = Header(names: seq<nat>, units: seq<seq<byte>>, defaultValue: nat, periodType: nat, periodUnit: nat,
                           period: int, comments: seq<nat>)

  ghost predicate LabelOk(l: Label) {
    && |l.names| == |l.units| && l.selected < |l.names| && Int64(l.period)
    && ShortStrings(l.names) && ShortStrings(l.units) && ShortStrings(l.comments)
    && |l.periodName| < WORD && |l.periodUnit| < WORD
    && AllPlain(l.names) && AllPlain(l.units) && AllPlain(l.comments) && AllPlain([l.periodName, l.periodUnit])
  }

  /** C strings: a NUL ends a string, so none is inside one. */
  ghost predicate AllPlain(strings: seq<seq<byte>>) { forall i: nat :: i < |strings| ==> 0 !in strings[i] }

  /** A text is among the strings, and nothing up to it could be mistaken for it. */
  ghost predicate Plainly(strings: seq<seq<byte>>, text: seq<byte>) {
    exists j: nat :: j < |strings| && strings[j] == text && AllPlain(strings[..j + 1])
  }

  predicate Spells(strings: seq<seq<byte>>, i: nat, text: seq<byte>) { i < |strings| && strings[i] == text }

  ghost predicate HeaderOk(h: Header, l: Label, strings: seq<seq<byte>>) {
    && |h.names| == |l.names| && h.units == l.units && h.defaultValue == l.selected && h.period == l.period
    && (forall i: nat :: i < |l.names| ==> Spells(strings, h.names[i], l.names[i]))
    && (forall i: nat :: i < |l.units| ==> Plainly(strings, l.units[i]))
    && Spells(strings, h.periodType, l.periodName) && Spells(strings, h.periodUnit, l.periodUnit)
    && |h.comments| == |l.comments|
        && (forall i: nat :: i < |l.comments| ==> Spells(strings, h.comments[i], l.comments[i]))
  }

  lemma HeaderStays(h: Header, l: Label, strings: seq<seq<byte>>, strings': seq<seq<byte>>)
    requires HeaderOk(h, l, strings) && strings <= strings'
    ensures HeaderOk(h, l, strings')
  {
    forall i: nat | i < |l.units| ensures Plainly(strings', l.units[i]) {
      var j: nat :| j < |strings| && strings[j] == l.units[i] && AllPlain(strings[..j + 1]);
      assert strings'[j] == l.units[i] && strings'[..j + 1] == strings[..j + 1];
    }
  }

  /** A decoded profile carries these labels. */
  ghost predicate Labelled(p: Profile, l: Label) {
    && |p.sampleTypes| == |l.names| == |l.units| && l.selected < |l.names|
    && (forall i: nat :: i < |l.names| ==>
          Spells(p.strings, p.sampleTypes[i].kind, l.names[i]) && Spells(p.strings, p.sampleTypes[i].unit, l.units[i]))
    && p.defaultType == p.sampleTypes[l.selected].kind
    && |p.periodTypes| == 1 && Spells(p.strings, p.periodTypes[0].kind, l.periodName)
    && Spells(p.strings, p.periodTypes[0].unit, l.periodUnit) && p.period == l.period
    && |p.comments| == |l.comments|
        && (forall i: nat :: i < |l.comments| ==> Spells(p.strings, p.comments[i], l.comments[i]))
  }

  function ModelOf(h: Header, strings: seq<seq<byte>>, functions: seq<ExportFunction>, locations: seq<ExportLocation>,
                   samples: seq<ExportSample>, mappings: seq<ExportMapping>): Model {
    Model(strings, functions, locations, samples, mappings, h.names, h.units, h.defaultValue,
          h.periodType, h.periodUnit, h.period, h.comments)
  }

  function ModelNow(e: Exporter, h: Header): Model
    reads e
  {
    ModelOf(h, e.strings, e.functions, e.locations, e.samples, e.mappings)
  }

  ghost predicate SampleWidths(samples: seq<ExportSample>, width: nat) {
    forall i: nat :: i < |samples| ==>
      |samples[i].values| == width && forall j: nat :: j < width ==> Int64(samples[i].values[j])
  }

  lemma ModelIsBuilt(e: Exporter, h: Header, l: Label)
    requires e.Valid() && LabelOk(l) && HeaderOk(h, l, e.strings) && SampleWidths(e.samples, |h.names|)
    ensures Built(ModelNow(e, h))
  {
    assert Opened(ModelLock, 0);
    FullMeansCapacity(e.locationTable.slots[..], e.places);
    FullMeansCapacity(e.functionTable.slots[..], e.keys);
    var m := ModelNow(e, h);
    forall i: nat | i < |h.names| ensures h.names[i] < |e.strings| {
      assert Spells(e.strings, h.names[i], l.names[i]);
    }
    forall i: nat | i < |h.comments| ensures h.comments[i] < |e.strings| {
      assert Spells(e.strings, h.comments[i], l.comments[i]);
    }
    forall i: nat | i < |m.samples| ensures SampleOk(m.samples[i]) {
      SampleIsOk(m.samples[i], |h.names|, |e.locations|);
    }
  }

  lemma SampleIsOk(s: ExportSample, width: nat, locations: nat)
    requires |s.values| == width && (forall j: nat :: j < width ==> Int64(s.values[j])) && locations < WORD
    requires forall j: nat :: j < |s.locations| ==> 0 < s.locations[j] <= locations
    ensures SampleOk(s)
  {
  }

  ghost predicate UnitsFound(strings: seq<seq<byte>>, wanted: seq<seq<byte>>, units: seq<nat>) {
    |units| == |wanted| && forall i: nat :: i < |units| ==> FirstMatch(strings, wanted[i], units[i])
  }

  lemma ViewIsIntact(e: Exporter, h: Header, l: Label, units: seq<nat>)
    requires e.Valid() && LabelOk(l) && HeaderOk(h, l, e.strings) && SampleWidths(e.samples, |h.names|)
    requires |e.strings| > 0 && e.strings[0] == []
    requires ModelOk(ModelNow(e, h), units) && UnitsFound(e.strings, h.units, units)
    ensures Intact(View(ModelNow(e, h), units))
  {
    assert Opened(ModelLock, 0);
    forall i: nat | i < |h.names| ensures h.names[i] < |e.strings| {
      assert Spells(e.strings, h.names[i], l.names[i]);
    }
    forall i: nat | i < |h.comments| ensures h.comments[i] < |e.strings| {
      assert Spells(e.strings, h.comments[i], l.comments[i]);
    }
  }

  lemma ViewIsLabelled(m: Model, h: Header, l: Label, units: seq<nat>)
    requires LabelOk(l) && HeaderOk(h, l, m.strings) && ModelOk(m, units) && UnitsFound(m.strings, h.units, units)
    requires m == ModelOf(h, m.strings, m.functions, m.locations, m.samples, m.mappings)
    ensures Labelled(View(m, units), l)
  {
    forall i: nat | i < |units| ensures Spells(m.strings, units[i], l.units[i]) {
      FoundExactly(m.strings, l.units[i], units[i]);
    }
  }

  /** The unit found by strcmp is the unit itself. */
  lemma FoundExactly(strings: seq<seq<byte>>, text: seq<byte>, j: nat)
    requires Plainly(strings, text) && FirstMatch(strings, text, j)
    ensures Spells(strings, j, text)
  {
    var k: nat :| k < |strings| && strings[k] == text && AllPlain(strings[..k + 1]);
    assert strings[..k + 1][k] == text;
    CStringWhole(text);
    assert j <= k;
    assert strings[..k + 1][j] == strings[j];
    CStringWhole(strings[j]);
  }

  lemma {:induction false} CStringWhole(s: seq<byte>)
    requires 0 !in s
    ensures CString(s) == s
  {
    if s != [] {
      assert s[0] in s;
      CStringWhole(s[1..]);
      assert s == [s[0]] + s[1..];
    }
  }

  /** The units are among the strings, so each is found. */
  lemma UnitsAreThere(h: Header, l: Label, strings: seq<seq<byte>>, i: nat)
    requires LabelOk(l) && HeaderOk(h, l, strings) && i < |h.units|
    ensures !NoMatch(strings, h.units[i])
  {
    CStringWhole(l.units[i]);
    var j: nat :| j < |strings| && strings[j] == l.units[i] && AllPlain(strings[..j + 1]);
  }

  /** The message of an export has become absurdly long. */
  ghost predicate Oversized(e: Exporter, l: Label)
    reads e
  {
    exists h: Header, units: seq<nat> :: HeaderOk(h, l, e.strings) && ModelOk(ModelNow(e, h), units)
                                         && |Encode(ProfileFields(ModelNow(e, h), units))| > PLENTY
  }

  /** The encoding step of lp_export_result_with_symbols. */
  method Finish(e: Exporter, h: Header, ghost l: Label) returns (ok: bool, bytes: seq<byte>, ghost units: seq<nat>)
    requires e.Valid() && LabelOk(l) && HeaderOk(h, l, e.strings) && SampleWidths(e.samples, |h.names|)
    ensures ok ==>
              && ModelOk(ModelNow(e, h), units) && UnitsFound(e.strings, h.units, units)
              && ReadProfile(bytes) == Some(View(ModelNow(e, h), units))
    ensures !ok ==> !e.ample || Oversized(e, l)
  {
    ModelIsBuilt(e, h, l);
    var m := ModelNow(e, h);
    var buffer := new Buffer(e.ample);
    forall i: nat | i < |h.units| ensures !NoMatch(e.strings, h.units[i]) {
      UnitsAreThere(h, l, e.strings, i);
    }
    ok, units := EncodeProfile(m, buffer);
    bytes := buffer.data[..buffer.size];
  }

  lemma NoNul(s: string)
    requires forall i: nat :: i < |s| ==> 0 < s[i] as int < 256
    ensures 0 !in Ascii(s)
  {
  }

  /** The strings of a list, added in order. */
  method AddAll(e: Exporter, values: seq<seq<byte>>) returns (indices: Option<seq<nat>>)
    requires e.Valid() && ShortStrings(values) && e.failure == None
    modifies e`strings, e`failure
    ensures e.Valid() && old(e.strings) <= e.strings
    ensures indices.Some? ==> e.strings == old(e.strings) + values
    ensures indices.Some? ==> |indices.value| == |values| && e.failure == None
                              && forall i: nat :: i < |values| ==> Spells(e.strings, indices.value[i], values[i])
    ensures indices.None? ==> e.failure.Some? && Cramped(e.ample, |e.strings|, |e.mappings|)
  {
    var found: seq<nat> := [];
    for i := 0 to |values|
      invariant e.Valid() && e.strings == old(e.strings) + values[..i] && e.failure == None && |found| == i
      invariant forall j: nat :: j < i ==> Spells(e.strings, found[j], values[j])
    {
      var index := e.AddString(values[i]);
      if index.None? { return None; }
      found := found + [index.value];
    }
    assert values[..|values|] == values;
    indices := Some(found);
  }

  /** The part of model_init before the samples: the empty string, the mapping of the
      profiler itself, the period, the comments and the value types. */
  method Describe(e: Exporter, l: Label) returns (h: Option<Header>)
    requires e.Valid() && e.strings == [] && e.mappings == [] && e.failure == None && LabelOk(l)
    modifies e`strings, e`mappings, e`failure
    ensures e.Valid()
    ensures h.Some? ==> e.failure == None && HeaderOk(h.value, l, e.strings)
                        && |e.strings| > 0 && e.strings[0] == [] && |e.mappings| > 0
    ensures h.None? ==> e.failure.Some? && Cramped(e.ample, |e.strings|, |e.mappings|)
  {
    var empty := e.AddString([]);
    if empty.None? { return None; }
    var own := e.InternMapping(OWN, true, true, true);
    if own.None? { return None; }
    NoNul("luaprof");
    h := Entitle(e, l);
  }

  method Entitle(e: Exporter, l: Label) returns (h: Option<Header>)
    requires e.Valid() && e.failure == None && LabelOk(l) && AllPlain(e.strings)
    modifies e`strings, e`failure
    ensures e.Valid() && old(e.strings) <= e.strings
    ensures h.Some? ==> e.failure == None && HeaderOk(h.value, l, e.strings)
    ensures h.None? ==> e.failure.Some? && Cramped(e.ample, |e.strings|, |e.mappings|)
  {
    var texts := AddAll(e, [l.periodName, l.periodUnit] + l.comments);
    if texts.None? { return None; }
    ghost var before := e.strings;
    var indices := AddAll(e, Interleaved(l.names, l.units));
    if indices.None? { return None; }
    AllPlainConcat(old(e.strings), [l.periodName, l.periodUnit] + l.comments);
    AllPlainConcat(before, Interleaved(l.names, l.units));
    h := Some(Header(Evens(indices.value, |l.names|), l.units, l.selected, texts.value[0], texts.value[1], l.period,
                     texts.value[2..]));
    Entitled(l, before, e.strings, texts.value, indices.value);
  }

  lemma AllPlainConcat(a: seq<seq<byte>>, b: seq<seq<byte>>)
    requires AllPlain(a) && AllPlain(b)
    ensures AllPlain(a + b)
  {
  }

  lemma Entitled(l: Label, before: seq<seq<byte>>, strings: seq<seq<byte>>, texts: seq<nat>, indices: seq<nat>)
    requires LabelOk(l) && before <= strings && AllPlain(strings) && |texts| == 2 + |l.comments|
              && |indices| == 2 * |l.names|
    requires forall i: nat :: i < |texts| ==> Spells(before, texts[i], ([l.periodName, l.periodUnit] + l.comments)[i])
    requires forall i: nat :: i < |indices| ==> Spells(strings, indices[i], Interleaved(l.names, l.units)[i])
    ensures HeaderOk(Header(Evens(indices, |l.names|), l.units, l.selected, texts[0], texts[1], l.period, texts[2..]),
                     l, strings)
  {
    forall i: nat | i < |l.units|
      ensures Plainly(strings, l.units[i]) && Spells(strings, indices[2 * i], l.names[i])
    {
      assert Spells(strings, indices[2 * i], Interleaved(l.names, l.units)[2 * i]);
      assert Spells(strings, indices[2 * i + 1], Interleaved(l.names, l.units)[2 * i + 1]);
      assert strings[indices[2 * i + 1]] == l.units[i];
    }
    forall i: nat | i < |l.comments| ensures Spells(strings, texts[2..][i], l.comments[i]) {
      assert Spells(before, texts[i + 2], ([l.periodName, l.periodUnit] + l.comments)[i + 2]);
    }
    assert Spells(before, texts[0], l.periodName) && Spells(before, texts[1], l.periodUnit);
  }

  function Interleaved(a: seq<seq<byte>>, b: seq<seq<byte>>): (r: seq<seq<byte>>)
    requires |a| == |b|
    ensures |r| == 2 * |a|
  {
    seq(2 * |a|, i requires 0 <= i < 2 * |a| => if i % 2 == 0 then a[i / 2] else b[i / 2])
  }

  function Evens(xs: seq<nat>, n: nat): (r: seq<nat>)
    requires |xs| == 2 * n
    ensures |r| == n
  {
    seq(n, i requires 0 <= i < n => xs[2 * i])
  }

  // ---------- CPU profiles ----------

  const NANOSECONDS := 1000000000

  function CpuLabel(hz: nat, comments: seq<seq<byte>>, selected: nat): Label
    requires hz > 0
  {
    Label([Ascii("samples"), Ascii("cpu")], [Ascii("count"), Ascii("nanoseconds")], selected,
          Ascii("cpu"), Ascii("nanoseconds"), NANOSECONDS / hz, comments)
  }

  /** The decoded profile: no reference dangles, it is labelled as a CPU profile, and
      each sample has the weight, the weight times the period, and the frames of its stack. */
  ghost predicate CpuProfileRead(p: Option<Profile>, symbols: seq<SymbolView>, samples: seq<CpuSample>, l: Label,
                                 stacks: seq<seq<FrameDesc>>, format: FrameDesc -> Formatted) {
    && p.Some? && Intact(p.value) && Labelled(p.value, l)
    && |p.value.samples| == |stacks| == |samples| && l.period >= 0
    && (forall i: nat :: i < |samples| ==>
          CpuStack(symbols, samples[i], stacks[i]) && p.value.samples[i].values == CpuValues(samples[i], l.period))
    && ShowsAll(p.value, stacks, format)
  }

  /** Everything is in the model under construction. */
  ghost predicate CpuReady(e: Exporter, h: Header, l: Label, symbols: seq<SymbolView>, samples: seq<CpuSample>,
                           stacks: seq<seq<FrameDesc>>)
    reads e, e.functionTable.slots, e.locationTable.slots
  {
    && e.Valid() && LabelOk(l) && HeaderOk(h, l, e.strings) && SampleWidths(e.samples, |h.names|) && l.period >= 0
    && |e.strings| > 0 && e.strings[0] == []
    && Placed(e.samples, stacks, e.locations, e.keys) && Sourced(e.firsts, e.keys, Flat(stacks))
    && CpuDone(symbols, samples, l.period, stacks, e.samples, |samples|)
  }

  lemma CpuShown(e: Exporter, h: Header, l: Label, units: seq<nat>, symbols: seq<SymbolView>, samples: seq<CpuSample>,
                 stacks: seq<seq<FrameDesc>>)
    requires CpuReady(e, h, l, symbols, samples, stacks)
    requires ModelOk(ModelNow(e, h), units) && UnitsFound(e.strings, h.units, units)
    ensures CpuProfileRead(Some(View(ModelNow(e, h), units)), symbols, samples, l, stacks, e.format)
  {
    ViewIsIntact(e, h, l, units);
    ViewIsLabelled(ModelNow(e, h), h, l, units);
    ViewShows(e, h, units, stacks);
  }

  /** Exporting a CPU profile, when nothing is left out for lack of memory. */
  method ExportCpu(e: Exporter, symbols: seq<SymbolView>, samples: seq<CpuSample>, hz: nat, comments: seq<seq<byte>>,
                   selected: nat)
    returns (ok: bool, bytes: seq<byte>, ghost stacks: seq<seq<FrameDesc>>)
    requires e.Valid() && e.strings == [] && e.mappings == [] && e.failure == None
    requires e.keys == [] && e.locations == [] && e.samples == []
    requires CpuInput(symbols, samples) && 1 <= hz <= 10000 && ShortStrings(comments) && AllPlain(comments)
              && selected < 2
    modifies e, e.functionTable.slots, e.locationTable.slots
    ensures ok ==> CpuProfileRead(ReadProfile(bytes), symbols, samples, CpuLabel(hz, comments, selected), stacks,
                                  e.format)
    ensures !ok ==> Cramped(e.ample, |e.strings|, |e.mappings|) || Oversized(e, CpuLabel(hz, comments, selected))
  {
    var l := CpuLabel(hz, comments, selected);
    CpuLabelOk(hz, comments, selected);
    ok, bytes, stacks := ExportCpuAs(e, symbols, samples, l);
  }

  method ExportCpuAs(e: Exporter, symbols: seq<SymbolView>, samples: seq<CpuSample>, l: Label)
    returns (ok: bool, bytes: seq<byte>, ghost stacks: seq<seq<FrameDesc>>)
    requires e.Valid() && e.strings == [] && e.mappings == [] && e.failure == None
    requires e.keys == [] && e.locations == [] && e.samples == []
    requires CpuInput(symbols, samples) && LabelOk(l) && |l.names| == 2 && l.period >= 0
    modifies e, e.functionTable.slots, e.locationTable.slots
    ensures ok ==> CpuProfileRead(ReadProfile(bytes), symbols, samples, l, stacks, e.format)
    ensures !ok ==> Cramped(e.ample, |e.strings|, |e.mappings|) || Oversized(e, l)
  {
    ghost var units: seq<nat> := [];
    bytes := [];
    var h;
    h, stacks := PrepareCpu(e, symbols, samples, l);
    ok := h.Some?;
    if ok {
      ghost var m := ModelNow(e, h.value);
      forall units: seq<nat> | ModelOk(m, units) && UnitsFound(m.strings, h.value.units, units)
        ensures CpuProfileRead(Some(View(m, units)), symbols, samples, l, stacks, e.format)
      {
        CpuShown(e, h.value, l, units, symbols, samples, stacks);
      }
      ok, bytes, units := Finish(e, h.value, l);
      assert ModelNow(e, h.value) == m;
    }
  }

  /** model_init for a CPU result. */
  method PrepareCpu(e: Exporter, symbols: seq<SymbolView>, samples: seq<CpuSample>, l: Label)
    returns (h: Option<Header>, ghost stacks: seq<seq<FrameDesc>>)
    requires e.Valid() && e.strings == [] && e.mappings == [] && e.failure == None
    requires e.keys == [] && e.locations == [] && e.samples == []
    requires CpuInput(symbols, samples) && LabelOk(l) && |l.names| == 2 && l.period >= 0
    modifies e, e.functionTable.slots, e.locationTable.slots
    ensures h.Some? ==> CpuReady(e, h.value, l, symbols, samples, stacks)
    ensures h.None? ==> Cramped(e.ample, |e.strings|, |e.mappings|)
  {
    stacks := [];
    h := Describe(e, l);
    if h.None? { return; }
    ghost var before := e.strings;
    var ok;
    ok, stacks := BuildCpuSamples(e, symbols, samples, l.period);
    if ok {
      HeaderStays(h.value, l, before, e.strings);
      CpuWidths(symbols, samples, l.period, stacks, e.samples);
    } else {
      h := None;
    }
  }

  lemma CpuLabelOk(hz: nat, comments: seq<seq<byte>>, selected: nat)
    requires 1 <= hz <= 10000 && ShortStrings(comments) && AllPlain(comments) && selected < 2
    ensures LabelOk(CpuLabel(hz, comments, selected))
  {
    NoNul("count");
    NoNul("nanoseconds");
    NoNul("samples");
    NoNul("cpu");
  }

  lemma CpuWidths(symbols: seq<SymbolView>, samples: seq<CpuSample>, period: nat, stacks: seq<seq<FrameDesc>>,
                  exported: seq<ExportSample>)
    requires CpuDone(symbols, samples, period, stacks, exported, |samples|)
    ensures SampleWidths(exported, 2)
  {
    forall i: nat | i < |exported|
      ensures |exported[i].values| == 2 && forall j: nat :: j < 2 ==> Int64(exported[i].values[j])
    {
      MultiplySaturatesExactly(samples[i].weight, period);
    }
  }

  /** The values of the decoded samples. */
  function Rows(p: Profile): (rows: seq<seq<int>>)
    ensures |rows| == |p.samples|
  {
    seq(|p.samples|, i requires 0 <= i < |p.samples| => p.samples[i].values)
  }

  /** The decoded profile has as many samples as were taken, and their time. */
  lemma DecodedValuesAddUp(p: Profile, symbols: seq<SymbolView>, samples: seq<CpuSample>, l: Label,
                           stacks: seq<seq<FrameDesc>>, format: FrameDesc -> Formatted)
    requires CpuProfileRead(Some(p), symbols, samples, l, stacks, format) && l.period > 0
    requires Weights(samples) * l.period <= INT64_MAX
    ensures forall i: nat :: i < |p.samples| ==> |Rows(p)[i]| == 2
    ensures Column(Rows(p), 0) == Weights(samples) && Column(Rows(p), 1) == Weights(samples) * l.period
  {
    ValuesAddUp(samples, Rows(p), l.period);
  }

  // ---------- memory profiles ----------

  function MemoryLabel(sampleBytes: nat, comments: seq<seq<byte>>, selected: nat): Label {
    Label([Ascii("alloc_objects"), Ascii("alloc_space"), Ascii("inuse_objects"), Ascii("inuse_space")],
          [Ascii("count"), Ascii("bytes"), Ascii("count"), Ascii("bytes")], selected,
          Ascii("space"), Ascii("bytes"), Clamp(sampleBytes), comments)
  }

  ghost predicate MemoryProfileRead(p: Option<Profile>, symbols: seq<SymbolView>, samples: seq<MemorySample>, l: Label,
                                    stacks: seq<seq<FrameDesc>>, format: FrameDesc -> Formatted) {
    && p.Some? && Intact(p.value) && Labelled(p.value, l)
    && |p.value.samples| == |stacks| == |samples|
    && (forall i: nat :: i < |samples| ==>
          stacks[i] == MemoryStack(symbols, samples[i]) && p.value.samples[i].values == MemoryValues(samples[i]))
    && ShowsAll(p.value, stacks, format)
  }

  lemma MemoryWidths(symbols: seq<SymbolView>, samples: seq<MemorySample>, stacks: seq<seq<FrameDesc>>,
                     exported: seq<ExportSample>)
    requires MemoryDone(symbols, samples, stacks, exported, |samples|)
    ensures SampleWidths(exported, 4)
  {
    forall i: nat | i < |exported|
      ensures |exported[i].values| == 4 && forall j: nat :: j < 4 ==> Int64(exported[i].values[j])
    {
      assert exported[i].values == MemoryValues(samples[i]);
    }
  }

  lemma MemoryLabelOk(sampleBytes: nat, comments: seq<seq<byte>>, selected: nat)
    requires ShortStrings(comments) && AllPlain(comments) && selected < 4
    ensures LabelOk(MemoryLabel(sampleBytes, comments, selected))
  {
    NoNul("count");
    NoNul("bytes");
    NoNul("space");
    NoNul("alloc_objects");
    NoNul("alloc_space");
    NoNul("inuse_objects");
    NoNul("inuse_space");
  }

  /** Everything is in the model under construction. */
  ghost predicate MemoryReady(e: Exporter, h: Header, l: Label, symbols: seq<SymbolView>, samples: seq<MemorySample>,
                           stacks: seq<seq<FrameDesc>>)
    reads e, e.functionTable.slots, e.locationTable.slots
  {
    && e.Valid() && LabelOk(l) && HeaderOk(h, l, e.strings) && SampleWidths(e.samples, |h.names|)
    && |e.strings| > 0 && e.strings[0] == []
    && Placed(e.samples, stacks, e.locations, e.keys) && Sourced(e.firsts, e.keys, Flat(stacks))
    && MemoryDone(symbols, samples, stacks, e.samples, |samples|)
  }

  lemma MemoryShown(e: Exporter, h: Header, l: Label, units: seq<nat>, symbols: seq<SymbolView>,
                    samples: seq<MemorySample>,
                 stacks: seq<seq<FrameDesc>>)
    requires MemoryReady(e, h, l, symbols, samples, stacks)
    requires ModelOk(ModelNow(e, h), units) && UnitsFound(e.strings, h.units, units)
    ensures MemoryProfileRead(Some(View(ModelNow(e, h), units)), symbols, samples, l, stacks, e.format)
  {
    ViewIsIntact(e, h, l, units);
    ViewIsLabelled(ModelNow(e, h), h, l, units);
    ViewShows(e, h, units, stacks);
  }

  /** Exporting a memory profile. */
  method ExportMemory(e: Exporter, symbols: seq<SymbolView>, samples: seq<MemorySample>, sampleBytes: nat,
                      comments: seq<seq<byte>>, selected: nat)
    returns (ok: bool, bytes: seq<byte>, ghost stacks: seq<seq<FrameDesc>>)
    requires e.Valid() && e.strings == [] && e.mappings == [] && e.failure == None
    requires e.keys == [] && e.locations == [] && e.samples == []
    requires MemoryInput(symbols, samples) && sampleBytes >= 1 && ShortStrings(comments) && AllPlain(comments)
              && selected < 4
    modifies e, e.functionTable.slots, e.locationTable.slots
    ensures ok ==>
              MemoryProfileRead(ReadProfile(bytes), symbols, samples, MemoryLabel(sampleBytes, comments, selected),
                                stacks, e.format)
    ensures !ok ==>
              Cramped(e.ample, |e.strings|, |e.mappings|) || Oversized(e, MemoryLabel(sampleBytes, comments, selected))
  {
    var l := MemoryLabel(sampleBytes, comments, selected);
    MemoryLabelOk(sampleBytes, comments, selected);
    ok, bytes, stacks := ExportMemoryAs(e, symbols, samples, l);
  }

  method ExportMemoryAs(e: Exporter, symbols: seq<SymbolView>, samples: seq<MemorySample>, l: Label)
    returns (ok: bool, bytes: seq<byte>, ghost stacks: seq<seq<FrameDesc>>)
    requires e.Valid() && e.strings == [] && e.mappings == [] && e.failure == None
    requires e.keys == [] && e.locations == [] && e.samples == []
    requires MemoryInput(symbols, samples) && LabelOk(l) && |l.names| == 4
    modifies e, e.functionTable.slots, e.locationTable.slots
    ensures ok ==> MemoryProfileRead(ReadProfile(bytes), symbols, samples, l, stacks, e.format)
    ensures !ok ==> Cramped(e.ample, |e.strings|, |e.mappings|) || Oversized(e, l)
  {
    ghost var units: seq<nat> := [];
    bytes := [];
    var h;
    h, stacks := PrepareMemory(e, symbols, samples, l);
    ok := h.Some?;
    if ok {
      ghost var m := ModelNow(e, h.value);
      forall units: seq<nat> | ModelOk(m, units) && UnitsFound(m.strings, h.value.units, units)
        ensures MemoryProfileRead(Some(View(m, units)), symbols, samples, l, stacks, e.format)
      {
        MemoryShown(e, h.value, l, units, symbols, samples, stacks);
      }
      ok, bytes, units := Finish(e, h.value, l);
      assert ModelNow(e, h.value) == m;
    }
  }

  /** model_init for a memory result. */
  method PrepareMemory(e: Exporter, symbols: seq<SymbolView>, samples: seq<MemorySample>, l: Label)
    returns (h: Option<Header>, ghost stacks: seq<seq<FrameDesc>>)
    requires e.Valid() && e.strings == [] && e.mappings == [] && e.failure == None
    requires e.keys == [] && e.locations == [] && e.samples == []
    requires MemoryInput(symbols, samples) && LabelOk(l) && |l.names| == 4
    modifies e, e.functionTable.slots, e.locationTable.slots
    ensures h.Some? ==> MemoryReady(e, h.value, l, symbols, samples, stacks)
    ensures h.None? ==> Cramped(e.ample, |e.strings|, |e.mappings|)
  {
    stacks := [];
    h := Describe(e, l);
    if h.None? { return; }
    ghost var before := e.strings;
    var ok;
    ok, stacks := BuildMemorySamples(e, symbols, samples);
    if ok {
      HeaderStays(h.value, l, before, e.strings);
      MemoryWidths(symbols, samples, stacks, e.samples);
    } else {
      h := None;
    }
  }
}
