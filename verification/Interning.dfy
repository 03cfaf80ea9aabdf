/** The interning tables of src/pprof_exporter.c: strings, mappings, functions and
    locations get dense ids from 1, and equal keys share one. */
module Interning {
  import opened Common
  import opened Probing
  import opened Pprof

  const FUNCTION_CAPACITY := 16384
  const LOCATION_CAPACITY := 262144
  const STRING_LIMIT := 0x1000_0000_0000_0000

  /** lp_frame_desc; a null pointer is 0 and a missing text is empty. */
  datatype FrameDesc = FrameDesc(kind: int, function_: nat, cfunction: nat, source: seq<byte>, name: seq<byte>,
                                 linedefined: int, currentline: int, synthetic: Option<seq<byte>>)

  /** What function_matches compares: a synthetic name, or else the source text. */
  datatype Origin = Synthetic(name: seq<byte>) | Source(text: seq<byte>)

  datatype FunctionKey = FunctionKey(kind: int, function_: nat, cfunction: nat, linedefined: int, origin: Origin)

  datatype LocationKey = LocationKey(functionIndex: nat, line: int)

  datatype MappingKey = MappingKey(start: nat, limit: nat, offset: nat, filename: seq<byte>)

  function KeyOf(f: FrameDesc): FunctionKey {
    FunctionKey(f.kind, f.function_, f.cfunction, f.linedefined,
                if f.synthetic.Some? then Synthetic(f.synthetic.value) else Source(f.source))
  }

  /** The address of a location: that of a C function. */
  function AddressOf(k: FunctionKey): nat { if k.kind == FRAME_C then k.cfunction else 0 }

  function LineOf(f: FrameDesc): int { if f.currentline > 0 then f.currentline else 0 }

  function Ascii(s: string): (r: seq<byte>)
    requires forall i: nat :: i < |s| ==> s[i] as int < 256
    ensures |r| == |s|
  {
    seq(|s|, i requires 0 <= i < |s| => s[i] as int)
  }

  /** The mapping of the profiler itself, which is always the first. */
  const OWN := MappingKey(0, 0, 0, Ascii("luaprof"))

  /** What format_function finds out about a frame; symbol lookup is opaque here. */
  datatype Formatted = Formatted(name: seq<byte>, filename: seq<byte>, mapping: Option<MappingKey>, named: bool)

  datatype Failure = OutOfMemory | FunctionsFull | LocationsFull

  /** What excuses running out of memory: an allocation may fail, or a list has
      become absurdly long. */
  predicate Cramped(ample: bool, strings: nat, mappings: nat) {
    !ample || strings >= STRING_LIMIT || mappings >= STRING_LIMIT
  }

  /** A function says what format_function made of the frame it was made for. */
  ghost predicate Describes(fn: ExportFunction, strings: seq<seq<byte>>, mappings: seq<ExportMapping>, f: FrameDesc,
                            d: Formatted) {
    && fn.name < |strings| && strings[fn.name] == d.name
    && fn.filename < |strings| && strings[fn.filename] == d.filename
    && fn.linedefined == f.linedefined
    && fn.mappingIndex < |mappings|
    && (d.mapping.None? ==> fn.mappingIndex == 0)
    && (d.mapping.Some? ==> HasKey(mappings, strings, fn.mappingIndex, d.mapping.value))
  }

  /** Functions were made one by one, each for the first frame with its key; a location
      has the mapping of its function and the address of its key. */
  ghost predicate MadeFor(functions: seq<ExportFunction>, locations: seq<ExportLocation>, strings: seq<seq<byte>>,
                          mappings: seq<ExportMapping>, firsts: seq<FrameDesc>, keys: seq<FunctionKey>,
                          format: FrameDesc -> Formatted) {
    && |firsts| == |functions| == |keys|
    && (forall n: nat :: n < |firsts| ==>
         KeyOf(firsts[n]) == keys[n] && Describes(functions[n], strings, mappings, firsts[n], format(firsts[n])))
    && (forall i: nat :: i < |locations| ==> Inherits(locations[i], functions, keys))
    && OwnFirst(mappings, strings)
  }

  predicate Inherits(l: ExportLocation, functions: seq<ExportFunction>, keys: seq<FunctionKey>) {
    && l.functionIndex < |functions| && l.functionIndex < |keys|
    && l.mappingIndex == functions[l.functionIndex].mappingIndex && l.address == AddressOf(keys[l.functionIndex])
  }

  predicate OwnFirst(mappings: seq<ExportMapping>, strings: seq<seq<byte>>) {
    mappings != [] ==> mappings[0].filename < |strings| && KeyOfMapping(mappings[0], strings) == OWN
  }

  /** More strings and mappings, and flags on old ones, do not matter to that. */
  ghost predicate KeepsMappings(strings: seq<seq<byte>>, mappings: seq<ExportMapping>,
                                strings': seq<seq<byte>>, mappings': seq<ExportMapping>) {
    && strings <= strings' && |mappings| <= |mappings'|
    && forall i: nat :: i < |mappings| && mappings[i].filename < |strings| ==>
         mappings'[i].filename < |strings'|
             && KeyOfMapping(mappings'[i], strings') == KeyOfMapping(mappings[i], strings)
  }

  ghost predicate Made(functions: seq<ExportFunction>, locations: seq<ExportLocation>, strings: seq<seq<byte>>,
                       mappings: seq<ExportMapping>, firsts: seq<FrameDesc>, keys: seq<FunctionKey>,
                       format: FrameDesc -> Formatted) {
    forall key: nat :: Opened(ExportLock, key) ==>
      MadeFor(functions, locations, strings, mappings, firsts, keys, format)
  }

  lemma OneMoreMade(functions: seq<ExportFunction>, locations: seq<ExportLocation>, strings: seq<seq<byte>>,
                    mappings: seq<ExportMapping>, firsts: seq<FrameDesc>, keys: seq<FunctionKey>,
                    format: FrameDesc -> Formatted, fn: ExportFunction, f: FrameDesc)
    requires Made(functions, locations, strings, mappings, firsts, keys, format)
    requires Describes(fn, strings, mappings, f, format(f))
    ensures Made(functions + [fn], locations, strings, mappings, firsts + [f], keys + [KeyOf(f)], format)
  {
    assert Opened(ExportLock, 0);
    forall i: nat | i < |locations| ensures Inherits(locations[i], functions + [fn], keys + [KeyOf(f)]) {
      assert Inherits(locations[i], functions, keys);
    }
  }

  lemma OneMorePlaced(functions: seq<ExportFunction>, locations: seq<ExportLocation>, strings: seq<seq<byte>>,
                      mappings: seq<ExportMapping>, firsts: seq<FrameDesc>, keys: seq<FunctionKey>,
                      format: FrameDesc -> Formatted, l: ExportLocation)
    requires Made(functions, locations, strings, mappings, firsts, keys, format) && Inherits(l, functions, keys)
    ensures Made(functions, locations + [l], strings, mappings, firsts, keys, format)
  {
    assert Opened(ExportLock, 0);
  }

  lemma StillMadeFor(functions: seq<ExportFunction>, locations: seq<ExportLocation>, strings: seq<seq<byte>>,
                     mappings: seq<ExportMapping>, firsts: seq<FrameDesc>, keys: seq<FunctionKey>,
                     format: FrameDesc -> Formatted, strings': seq<seq<byte>>, mappings': seq<ExportMapping>)
    requires Made(functions, locations, strings, mappings, firsts, keys, format)
    requires KeepsMappings(strings, mappings, strings', mappings')
    requires mappings == [] ==> OwnFirst(mappings', strings')
    ensures Made(functions, locations, strings', mappings', firsts, keys, format)
  {
    assert Opened(ExportLock, 0);
    forall n: nat | n < |firsts|
      ensures Describes(functions[n], strings', mappings', firsts[n], format(firsts[n]))
    {
      assert Describes(functions[n], strings, mappings, firsts[n], format(firsts[n]));
    }
  }

  // ---------- a table that gives its keys numbers ----------

  ghost predicate Unique<K(!new)>(keys: seq<K>) {
    forall a: nat, b: nat :: a < b < |keys| ==> keys[a] != keys[b]
  }

  /** The table holds exactly the numbered keys. */
  ghost predicate Numbered<K(!new)>(slots: Slots<K, nat>, keys: seq<K>) {
    && Used(slots) == |keys| && Unique(keys)
    && (forall i: nat :: i < |slots| && slots[i].Some? ==>
          slots[i].value.value < |keys| && keys[slots[i].value.value] == slots[i].value.key)
    && (forall n: nat :: n < |keys| ==> Maps(slots, keys[n], n))
  }

  lemma NumberNext<K(!new)>(slots: Slots<K, nat>, keys: seq<K>, i: nat, k: K)
    requires Numbered(slots, keys) && i < |slots| && slots[i].None? && Absent(slots, k)
    ensures Numbered(slots[i := Some(Entry(k, |keys|))], keys + [k])
  {
    var e: Entry<K, nat> := Entry(k, |keys|);
    var t := slots[i := Some(e)];
    UsedInsert(slots, i, e);
    forall n: nat | n < |keys| ensures keys[n] != k && Maps(t, keys[n], n) {
      var j: nat :| j < |slots| && slots[j] == Some(Entry(keys[n], n));
      assert t[j] == Some(Entry(keys[n], n));
    }
    assert t[i] == Some(e);
  }

  lemma FullMeansCapacity<K(!new)>(slots: Slots<K, nat>, keys: seq<K>)
    requires Numbered(slots, keys)
    ensures |keys| <= |slots|
    ensures |keys| == |slots| <==> forall i: nat :: i < |slots| ==> slots[i].Some?
  {
    UsedBounds(slots);
  }

  // ---------- references between the lists ----------

  ghost predicate StringRefs(functions: seq<ExportFunction>, mappings: seq<ExportMapping>, strings: nat) {
    && (forall i: nat :: i < |functions| ==> functions[i].name < strings && functions[i].filename < strings)
    && (forall i: nat :: i < |mappings| ==> mappings[i].filename < strings)
  }

  ghost predicate DenseMappings(mappings: seq<ExportMapping>) {
    forall i: nat :: i < |mappings| ==> mappings[i].id == i + 1 && MappingOk(mappings[i])
  }

  ghost predicate DenseFunctions(functions: seq<ExportFunction>, mappings: nat) {
    forall i: nat :: i < |functions| ==>
      functions[i].id == i + 1 && functions[i].mappingIndex < mappings && FunctionOk(functions[i])
  }

  ghost predicate DenseLocations(locations: seq<ExportLocation>, functions: nat, mappings: nat) {
    forall i: nat :: i < |locations| ==>
      && locations[i].id == i + 1 && locations[i].functionIndex < functions && locations[i].mappingIndex < mappings
      && locations[i].address < WORD && Int64(locations[i].line)
  }

  ghost predicate SampleRefs(samples: seq<ExportSample>, locations: nat) {
    forall i: nat, j: nat :: i < |samples| && j < |samples[i].locations| ==> 0 < samples[i].locations[j] <= locations
  }

  function KeyOfMapping(m: ExportMapping, strings: seq<seq<byte>>): MappingKey
    requires m.filename < |strings|
  {
    MappingKey(m.start, m.limit, m.offset, strings[m.filename])
  }

  predicate HasKey(mappings: seq<ExportMapping>, strings: seq<seq<byte>>, i: nat, k: MappingKey) {
    i < |mappings| && mappings[i].filename < |strings| && KeyOfMapping(mappings[i], strings) == k
  }

  ghost predicate DistinctMappings(mappings: seq<ExportMapping>, strings: seq<seq<byte>>)
    requires forall i: nat :: i < |mappings| ==> mappings[i].filename < |strings|
  {
    forall a: nat, b: nat :: a < b < |mappings| ==>
      KeyOfMapping(mappings[a], strings) != KeyOfMapping(mappings[b], strings)
  }

  predicate FrameOk(f: FrameDesc) { f.cfunction < WORD && Int64(f.linedefined) && Int64(f.currentline) }

  predicate KeyOk(k: MappingKey) { k.start < WORD && k.limit < WORD && k.offset < WORD && |k.filename| < WORD }

  /** Lengths and addresses are 64-bit numbers. */
  predicate FormattedOk(d: Formatted) {
    |d.name| < WORD && |d.filename| < WORD && (d.mapping.Some? ==> KeyOk(d.mapping.value))
  }

  ghost predicate ShortStrings(strings: seq<seq<byte>>) { forall i: nat :: i < |strings| ==> |strings[i]| < WORD }

  function Flagged(m: ExportMapping, hasFunctions: bool, hasFilenames: bool, hasLineNumbers: bool): ExportMapping {
    m.(hasFunctions := m.hasFunctions || hasFunctions, hasFilenames := m.hasFilenames || hasFilenames,
       hasLineNumbers := m.hasLineNumbers || hasLineNumbers)
  }

  /** The mapping at `i` was there and gained flags, or is new and has just those. */
  predicate Mapped(before: seq<ExportMapping>, after: seq<ExportMapping>, i: nat,
                   hasFunctions: bool, hasFilenames: bool, hasLineNumbers: bool) {
    if i < |before| then after == before[i := Flagged(before[i], hasFunctions, hasFilenames, hasLineNumbers)]
    else
      && i == |before| && |after| == |before| + 1 && after[..|before|] == before
      && after[i].hasFunctions == hasFunctions && after[i].hasFilenames == hasFilenames
      && after[i].hasLineNumbers == hasLineNumbers
  }

  /** Everything refers to something that is there. */
  ghost predicate Linked(strings: seq<seq<byte>>, mappings: seq<ExportMapping>, functions: seq<ExportFunction>,
                         locations: seq<ExportLocation>, samples: seq<ExportSample>, places: seq<LocationKey>,
                         format: FrameDesc -> Formatted) {
    && |strings| <= STRING_LIMIT && |mappings| <= STRING_LIMIT
    && StringRefs(functions, mappings, |strings|)
    && DenseMappings(mappings) && DistinctMappings(mappings, strings)
    && DenseFunctions(functions, |mappings|)
    && DenseLocations(locations, |functions|, |mappings|)
    && SampleRefs(samples, |locations|)
    && |places| == |locations|
    && (forall i: nat :: i < |locations| ==>
          places[i] == LocationKey(locations[i].functionIndex, locations[i].line))
    && ShortStrings(strings)
    && (forall f: FrameDesc :: FormattedOk(format(f)))
  }

  lemma LinkedString(strings: seq<seq<byte>>, mappings: seq<ExportMapping>, functions: seq<ExportFunction>,
                     locations: seq<ExportLocation>, samples: seq<ExportSample>, places: seq<LocationKey>,
                     format: FrameDesc -> Formatted, value: seq<byte>)
    requires Linked(strings, mappings, functions, locations, samples, places, format)
    requires |strings| < STRING_LIMIT && |value| < WORD
    ensures Linked(strings + [value], mappings, functions, locations, samples, places, format)
    ensures KeepsMappings(strings, mappings, strings + [value], mappings)
  {
    var more := strings + [value];
    assert forall i: nat :: i < |mappings| ==> more[mappings[i].filename] == strings[mappings[i].filename];
    assert forall i: nat :: i < |mappings| ==> KeyOfMapping(mappings[i], more) == KeyOfMapping(mappings[i], strings);
  }

  lemma LinkedMapping(strings: seq<seq<byte>>, mappings: seq<ExportMapping>, functions: seq<ExportFunction>,
                      locations: seq<ExportLocation>, samples: seq<ExportSample>, places: seq<LocationKey>,
                      format: FrameDesc -> Formatted, m: ExportMapping)
    requires Linked(strings, mappings, functions, locations, samples, places, format)
    requires |mappings| < STRING_LIMIT && m.id == |mappings| + 1 && MappingOk(m) && m.filename < |strings|
    requires forall i: nat :: i < |mappings| ==> KeyOfMapping(mappings[i], strings) != KeyOfMapping(m, strings)
    ensures Linked(strings, mappings + [m], functions, locations, samples, places, format)
    ensures KeepsMappings(strings, mappings, strings, mappings + [m])
  {
  }

  lemma LinkedFlags(strings: seq<seq<byte>>, mappings: seq<ExportMapping>, functions: seq<ExportFunction>,
                    locations: seq<ExportLocation>, samples: seq<ExportSample>, places: seq<LocationKey>,
                    format: FrameDesc -> Formatted, i: nat, m: ExportMapping)
    requires Linked(strings, mappings, functions, locations, samples, places, format) && i < |mappings|
    requires m.id == mappings[i].id && m.start == mappings[i].start && m.limit == mappings[i].limit
             && m.offset == mappings[i].offset && m.filename == mappings[i].filename
    ensures Linked(strings, mappings[i := m], functions, locations, samples, places, format)
    ensures KeepsMappings(strings, mappings, strings, mappings[i := m])
  {
    FlagsKeepMappings(mappings, strings, i, m);
  }

  lemma LinkedFunction(strings: seq<seq<byte>>, mappings: seq<ExportMapping>, functions: seq<ExportFunction>,
                       locations: seq<ExportLocation>, samples: seq<ExportSample>, places: seq<LocationKey>,
                       format: FrameDesc -> Formatted, fn: ExportFunction)
    requires Linked(strings, mappings, functions, locations, samples, places, format)
    requires fn.id == |functions| + 1 && fn.name < |strings| && fn.filename < |strings|
    requires fn.mappingIndex < |mappings| && FunctionOk(fn)
    ensures Linked(strings, mappings, functions + [fn], locations, samples, places, format)
  {
  }

  lemma LinkedLocation(strings: seq<seq<byte>>, mappings: seq<ExportMapping>, functions: seq<ExportFunction>,
                       locations: seq<ExportLocation>, samples: seq<ExportSample>, places: seq<LocationKey>,
                       format: FrameDesc -> Formatted, l: ExportLocation)
    requires Linked(strings, mappings, functions, locations, samples, places, format)
    requires l.id == |locations| + 1 && l.functionIndex < |functions| && l.mappingIndex < |mappings|
    requires l.address < WORD && Int64(l.line)
    ensures Linked(strings, mappings, functions, locations + [l], samples,
                   places + [LocationKey(l.functionIndex, l.line)], format)
  {
  }

  lemma LinkedSample(strings: seq<seq<byte>>, mappings: seq<ExportMapping>, functions: seq<ExportFunction>,
                     locations: seq<ExportLocation>, samples: seq<ExportSample>, places: seq<LocationKey>,
                     format: FrameDesc -> Formatted, sample: ExportSample)
    requires Linked(strings, mappings, functions, locations, samples, places, format)
    requires forall j: nat :: j < |sample.locations| ==> 0 < sample.locations[j] <= |locations|
    ensures Linked(strings, mappings, functions, locations, samples + [sample], places, format)
  {
  }

  /** lp_export_model while it is being built. `keys` and `places` list what the
      functions and locations were made for. */
  class Exporter {
    const functionTable: Table<FunctionKey, nat>
    const locationTable: Table<LocationKey, nat>
    const format: FrameDesc -> Formatted
    /** Whether every allocation succeeds. */
    const ample: bool
    var strings: seq<seq<byte>>
    var mappings: seq<ExportMapping>
    var functions: seq<ExportFunction>
    var locations: seq<ExportLocation>
    var samples: seq<ExportSample>
    var failure: Option<Failure>
    ghost var keys: seq<FunctionKey>
    ghost var firsts: seq<FrameDesc>
    ghost var places: seq<LocationKey>

    /** The representation is intact; users of the model need not look inside. */
    ghost predicate Valid()
      reads this, functionTable.slots, locationTable.slots
    {
      forall key: nat :: Opened(ModelLock, key) ==> Intact()
    }

    ghost predicate Intact()
      reads this, functionTable.slots, locationTable.slots
    {
      && functionTable.Valid() && Numbered(functionTable.slots[..], keys) && |keys| == |functions|
      && locationTable.Valid() && Numbered(locationTable.slots[..], places) && |places| == |locations|
      && functionTable.slots.Length == FUNCTION_CAPACITY && locationTable.slots.Length == LOCATION_CAPACITY
      && Linked(strings, mappings, functions, locations, samples, places, format)
      && Made(functions, locations, strings, mappings, firsts, keys, format)
    }

    constructor (functionHash: FunctionKey -> nat, locationHash: LocationKey -> nat, format: FrameDesc -> Formatted,
                 ample: bool)
      requires forall f: FrameDesc :: FormattedOk(format(f))
      ensures Valid() && fresh(functionTable.slots) && fresh(locationTable.slots) && this.format == format
                && this.ample == ample
      ensures failure == None && strings == [] && mappings == [] && functions == [] && locations == [] && samples == []
      ensures keys == []
    {
      var f := new Table<FunctionKey, nat>(FUNCTION_CAPACITY, functionHash);
      var l := new Table<LocationKey, nat>(LOCATION_CAPACITY, locationHash);
      functionTable, locationTable := f, l;
      this.format, this.ample := format, ample;
      strings, mappings, functions, locations, samples := [], [], [], [], [];
      failure, keys, firsts, places := None, [], [], [];
      new;
      NothingNumbered(functionTable.slots[..]);
      NothingNumbered(locationTable.slots[..]);
    }

    /** model_fail: the first failure stays. */
    method Fail(f: Failure)
      modifies this`failure
      ensures failure == if old(failure).Some? then old(failure) else Some(f)
    {
      if failure.None? {
        failure := Some(f);
      }
    }

    /** add_string; memory may run out. */
    method AddString(value: seq<byte>) returns (index: Option<nat>)
      requires Valid() && |value| < WORD
      modifies this`strings, this`failure
      ensures Valid() && (old(failure).Some? ==> index.None?)
      ensures index.Some? ==>
                index.value == |old(strings)| && strings == old(strings) + [value] && failure == old(failure)
      ensures index.None? ==>
                strings == old(strings) && failure == if old(failure).Some? then old(failure) else Some(OutOfMemory)
      ensures index.None? ==> old(failure).Some? || Cramped(ample, |strings|, |mappings|)
    {
      var granted: bool := *;
      if failure.Some? || |strings| >= STRING_LIMIT || (!granted && !ample) {
        Fail(OutOfMemory);
        return None;
      }
      assert Opened(ModelLock, 0);
      LinkedString(strings, mappings, functions, locations, samples, places, format, value);
      StillMadeFor(functions, locations, strings, mappings, firsts, keys, format, strings + [value], mappings);
      strings := strings + [value];
      index := Some(|strings| - 1);
    }

    /** intern_mapping. A mapping found again only gains flags. */
    method InternMapping(k: MappingKey, hasFunctions: bool, hasFilenames: bool, hasLineNumbers: bool)
      returns (index: Option<nat>)
      requires Valid() && KeyOk(k) && (mappings == [] ==> k == OWN)
      modifies this`strings, this`mappings, this`failure
      ensures Valid() && |mappings| >= |old(mappings)| && old(strings) <= strings
      ensures index.Some? ==> failure == old(failure) && HasKey(mappings, strings, index.value, k)
      ensures index.Some? ==> Mapped(old(mappings), mappings, index.value, hasFunctions, hasFilenames, hasLineNumbers)
      ensures strings == old(strings) || strings == old(strings) + [k.filename]
      ensures |strings| <= |old(strings)| + 1 && |mappings| <= |old(mappings)| + 1
      ensures failure != old(failure) ==> Cramped(ample, |strings|, |mappings|)
      ensures index.None? ==> mappings == old(mappings) && failure.Some?
      ensures failure == old(failure) || (old(failure).None? && failure == Some(OutOfMemory))
    {
      assert Opened(ModelLock, 0);
      for i := 0 to |mappings|
        invariant Intact() && mappings == old(mappings) && strings == old(strings) && failure == old(failure)
        invariant forall j: nat :: j < i ==> KeyOfMapping(mappings[j], strings) != k
      {
        if KeyOfMapping(mappings[i], strings) == k {
          AddFlags(i, hasFunctions, hasFilenames, hasLineNumbers);
          return Some(i);
        }
      }
      var granted: bool := *;
      if |mappings| >= STRING_LIMIT || (!granted && !ample) {
        Fail(OutOfMemory);
        return None;
      }
      index := NewMapping(k, hasFunctions, hasFilenames, hasLineNumbers);
    }

    method NewMapping(k: MappingKey, hasFunctions: bool, hasFilenames: bool, hasLineNumbers: bool)
      returns (index: Option<nat>)
      requires Intact() && KeyOk(k) && |mappings| < STRING_LIMIT && (mappings == [] ==> k == OWN)
      requires forall j: nat :: j < |mappings| ==> KeyOfMapping(mappings[j], strings) != k
      modifies this`strings, this`mappings, this`failure
      ensures Valid() && old(strings) <= strings && |strings| <= |old(strings)| + 1
      ensures strings == old(strings) || strings == old(strings) + [k.filename]
      ensures index.Some? ==>
                && failure == old(failure) && index.value == |old(mappings)|
                    && HasKey(mappings, strings, index.value, k)
                && Mapped(old(mappings), mappings, index.value, hasFunctions, hasFilenames, hasLineNumbers)
      ensures index.None? ==> mappings == old(mappings) && failure.Some?
      ensures failure != old(failure) ==>
                old(failure).None? && failure == Some(OutOfMemory) && Cramped(ample, |strings|, |mappings|)
    {
      assert Opened(ModelLock, 0);
      var filename := AddString(k.filename);
      if filename.None? { return None; }
      AddMapping(ExportMapping(|mappings| + 1, k.start, k.limit, k.offset, filename.value,
                               hasFunctions, hasFilenames, hasLineNumbers));
      index := Some(|mappings| - 1);
    }

    method AddFlags(i: nat, hasFunctions: bool, hasFilenames: bool, hasLineNumbers: bool)
      requires Intact() && i < |mappings|
      modifies this`mappings
      ensures Intact()
      ensures mappings == old(mappings)[i := Flagged(old(mappings[i]), hasFunctions, hasFilenames, hasLineNumbers)]
      ensures KeyOfMapping(mappings[i], strings) == KeyOfMapping(old(mappings[i]), strings)
    {
      var flagged := Flagged(mappings[i], hasFunctions, hasFilenames, hasLineNumbers);
      LinkedFlags(strings, mappings, functions, locations, samples, places, format, i, flagged);
      StillMadeFor(functions, locations, strings, mappings, firsts, keys, format, strings, mappings[i := flagged]);
      mappings := mappings[i := flagged];
    }

    method AddMapping(m: ExportMapping)
      requires Intact() && |mappings| < STRING_LIMIT && m.id == |mappings| + 1 && MappingOk(m) && m.filename < |strings|
      requires forall i: nat :: i < |mappings| ==> KeyOfMapping(mappings[i], strings) != KeyOfMapping(m, strings)
      requires mappings == [] ==> KeyOfMapping(m, strings) == OWN
      modifies this`mappings
      ensures Intact() && mappings == old(mappings) + [m]
    {
      LinkedMapping(strings, mappings, functions, locations, samples, places, format, m);
      StillMadeFor(functions, locations, strings, mappings, firsts, keys, format, strings, mappings + [m]);
      mappings := mappings + [m];
    }

    /** The name and the file of a function. */
    method AddNames(d: Formatted) returns (names: Option<(nat, nat)>)
      requires Valid() && FormattedOk(d)
      modifies this`strings, this`failure
      ensures Valid() && old(strings) <= strings && |strings| <= |old(strings)| + 2
      ensures if names.Some? then failure == None && strings == old(strings) + [d.name, d.filename]
                                  && names.value == (|old(strings)|, |old(strings)| + 1)
              else failure.Some?
      ensures failure != old(failure) ==>
                old(failure).None? && failure == Some(OutOfMemory) && Cramped(ample, |strings|, |mappings|)
    {
      var name := AddString(d.name);
      var filename := AddString(d.filename);
      if failure.Some? { return None; }
      names := Some((name.value, filename.value));
    }

    /** format_function: the strings and the mapping of a function's frame. */
    method Describe(f: FrameDesc) returns (d: Option<(nat, nat, nat)>)
      requires Valid() && |mappings| > 0
      modifies this`strings, this`mappings, this`failure
      ensures Valid() && |mappings| >= |old(mappings)| && old(strings) <= strings
      ensures d.Some? ==> d.value.0 < |strings| && d.value.1 < |strings| && d.value.2 < |mappings| && failure == None
                          && Describes(ExportFunction(1, d.value.0, d.value.1, f.linedefined, d.value.2), strings,
                                       mappings, f, format(f))
      ensures |strings| <= |old(strings)| + 3 && |mappings| <= |old(mappings)| + 1
      ensures d.None? ==> failure.Some?
      ensures failure != old(failure) ==>
                old(failure).None? && failure == Some(OutOfMemory) && Cramped(ample, |strings|, |mappings|)
    {
      var formatted := format(f);
      assert FormattedOk(formatted) by {
        assert Opened(ModelLock, 0);
      }
      var mapping := MappingOf(formatted);
      if mapping.None? { return None; }
      var names := AddNames(formatted);
      if names.None? { return None; }
      d := Some((names.value.0, names.value.1, mapping.value));
    }

    /** The mapping of a native function, or that of the profiler itself. */
    method MappingOf(d: Formatted) returns (mapping: Option<nat>)
      requires Valid() && |mappings| > 0 && FormattedOk(d)
      modifies this`strings, this`mappings, this`failure
      ensures Valid() && |mappings| >= |old(mappings)| && old(strings) <= strings
      ensures mapping.Some? ==>
                && mapping.value < |mappings| && failure == old(failure) && (d.mapping.None? ==> mapping.value == 0)
                && (d.mapping.Some? ==> HasKey(mappings, strings, mapping.value, d.mapping.value))
      ensures mapping.None? ==> failure.Some?
      ensures |strings| <= |old(strings)| + 1 && |mappings| <= |old(mappings)| + 1
      ensures failure != old(failure) ==>
                old(failure).None? && failure == Some(OutOfMemory) && Cramped(ample, |strings|, |mappings|)
    {
      if d.mapping.None? { return Some(0); }
      mapping := InternMapping(d.mapping.value, d.named, false, false);
    }

    /** A function with the next id. */
    method AddFunction(f: FrameDesc, cell: nat, d: (nat, nat, nat))
      requires Describes(ExportFunction(|functions| + 1, d.0, d.1, f.linedefined, d.2), strings, mappings, f, format(f))
      requires Valid() && FrameOk(f) && d.0 < |strings| && d.1 < |strings| && d.2 < |mappings|
      requires functionTable.Ends(cell, KeyOf(f)) && Absent(functionTable.slots[..], KeyOf(f))
      modifies this`functions, this`keys, this`firsts, functionTable.slots
      ensures Valid() && keys == old(keys) + [KeyOf(f)] && |functions| == |old(functions)| + 1
      ensures firsts == old(firsts) + [f]
      ensures old(functions) <= functions
    {
      assert Opened(ModelLock, 0);
      FullMeansCapacity(functionTable.slots[..], keys);
      NumberNext(functionTable.slots[..], keys, cell, KeyOf(f));
      functionTable.Fill(cell, KeyOf(f), |functions|);
      var fn := ExportFunction(|functions| + 1, d.0, d.1, f.linedefined, d.2);
      LinkedFunction(strings, mappings, functions, locations, samples, places, format, fn);
      OneMoreMade(functions, locations, strings, mappings, firsts, keys, format, fn, f);
      functions := functions + [fn];
      keys, firsts := keys + [KeyOf(f)], firsts + [f];
    }

    /** intern_function for a key that has no function yet. */
    method NewFunction(f: FrameDesc, cell: nat) returns (index: Option<nat>)
      requires Valid() && |mappings| > 0 && FrameOk(f) && failure == None
      requires functionTable.Ends(cell, KeyOf(f)) && Absent(functionTable.slots[..], KeyOf(f))
      modifies this`strings, this`mappings, this`failure, this`functions, this`keys, this`firsts, functionTable.slots
      ensures Valid() && |mappings| >= |old(mappings)| && old(functions) <= functions && old(strings) <= strings
      ensures index.Some? ==> failure == None && index.value == |old(functions)| && keys == old(keys) + [KeyOf(f)]
      ensures index.None? ==> keys == old(keys) && failure == Some(OutOfMemory) && Cramped(ample, |strings|, |mappings|)
      ensures firsts == old(firsts) + if index.Some? then [f] else []
      ensures |strings| <= |old(strings)| + 3 && |mappings| <= |old(mappings)| + 1
    {
      var d := Describe(f);
      if d.None? { return None; }
      index := Some(|functions|);
      AddFunction(f, cell, d.value);
    }

    /** intern_function: the index of the frame's function; it fails only for lack of
        memory, or for a new key when all the cells are taken. */
    method InternFunction(f: FrameDesc) returns (index: Option<nat>)
      requires Valid() && |mappings| > 0 && FrameOk(f) && failure == None
      modifies this`strings, this`mappings, this`failure, this`functions, this`keys, this`firsts, functionTable.slots
      ensures Valid() && |mappings| >= |old(mappings)| && old(functions) <= functions && old(strings) <= strings
      ensures index.Some? ==>
                failure == None && index.value < |functions| == |keys| && keys[index.value] == KeyOf(f)
      ensures keys == old(keys) || (keys == old(keys) + [KeyOf(f)] && KeyOf(f) !in old(keys))
      ensures firsts == old(firsts) + if keys == old(keys) then [] else [f]
      ensures index.None? ==> keys == old(keys) && (failure == Some(OutOfMemory) || failure == Some(FunctionsFull))
      ensures failure == Some(FunctionsFull) <==> |old(keys)| == FUNCTION_CAPACITY && KeyOf(f) !in old(keys)
      ensures |strings| <= |old(strings)| + 3 && |mappings| <= |old(mappings)| + 1
      ensures failure == Some(OutOfMemory) ==> Cramped(ample, |strings|, |mappings|)
    {
      assert Opened(ModelLock, 0);
      var found := functionTable.Locate(KeyOf(f));
      AbsentIsNew(functionTable.slots[..], keys, KeyOf(f));
      FullMeansCapacity(functionTable.slots[..], keys);
      match found {
        case Hit(i) =>
          index := Some(functionTable.slots[i].value.value);
        case Full =>
          Fail(FunctionsFull);
          index := None;
        case Free(cell) =>
          var granted: bool := *;
          if !granted && !ample {
            Fail(OutOfMemory);
            return None;
          }
          index := NewFunction(f, cell);
      }
    }

    /** A location with the next id. */
    method AddLocation(f: FrameDesc, cell: nat, k: LocationKey)
      requires Valid() && FrameOk(f) && k.functionIndex < |functions| && k.line == LineOf(f)
      requires k.functionIndex < |keys| && keys[k.functionIndex] == KeyOf(f)
      requires locationTable.Ends(cell, k) && Absent(locationTable.slots[..], k)
      modifies this`locations, this`places, locationTable.slots
      ensures Valid() && |locations| == |old(locations)| + 1 && old(locations) <= locations
      ensures locations[|old(locations)|].functionIndex == k.functionIndex && locations[|old(locations)|].line == k.line
    {
      assert Opened(ModelLock, 0);
      NumberNext(locationTable.slots[..], places, cell, k);
      locationTable.Fill(cell, k, |locations|);
      var l := ExportLocation(|locations| + 1, k.functionIndex, functions[k.functionIndex].mappingIndex, k.line,
                              if f.kind == FRAME_C then f.cfunction else 0);
      LinkedLocation(strings, mappings, functions, locations, samples, places, format, l);
      OneMorePlaced(functions, locations, strings, mappings, firsts, keys, format, l);
      locations := locations + [l];
      places := places + [k];
    }

    /** A location for a frame that has none. */
    method NewLocation(f: FrameDesc, cell: nat, k: LocationKey) returns (id: nat)
      requires Valid() && FrameOk(f) && k.functionIndex < |functions| && k.line == LineOf(f) && failure == None
      requires k.functionIndex < |keys| && keys[k.functionIndex] == KeyOf(f)
      requires locationTable.Ends(cell, k) && Absent(locationTable.slots[..], k)
      modifies this`locations, this`places, this`failure, locationTable.slots
      ensures Valid() && old(locations) <= locations && |locations| <= |old(locations)| + 1
      ensures if id > 0 then failure == None && id == |locations| && LiesAt(locations[id - 1], k)
              else locations == old(locations) && failure == Some(OutOfMemory) && !ample
    {
      var granted: bool := *;
      if !granted && !ample {
        Fail(OutOfMemory);
        return 0;
      }
      AddLocation(f, cell, k);
      id := |locations|;
    }

    /** The part of the representation that matters when looking for a location. */
    ghost predicate Placing()
      reads this, locationTable.slots
    {
      && locationTable.Valid() && Numbered(locationTable.slots[..], places) && |places| == |locations|
      && locationTable.slots.Length == LOCATION_CAPACITY
      && (forall i: nat :: i < |locations| ==>
            locations[i].id == i + 1 && places[i] == LocationKey(locations[i].functionIndex, locations[i].line))
    }

    /** The probe of intern_location. */
    method SeekLocation(f: FrameDesc, k: LocationKey) returns (id: nat)
      requires Valid() && FrameOk(f) && k.functionIndex < |functions| && k.line == LineOf(f) && failure == None
      requires k.functionIndex < |keys| && keys[k.functionIndex] == KeyOf(f)
      modifies this`locations, this`places, this`failure, locationTable.slots
      ensures Valid() && old(locations) <= locations && |locations| <= |old(locations)| + 1
      ensures id > 0 ==> failure == None && id <= |locations| && LiesAt(locations[id - 1], k)
      ensures id == 0 ==> locations == old(locations) && failure.Some? && failure != Some(FunctionsFull)
      ensures failure == Some(LocationsFull) <==>
                |old(locations)| == LOCATION_CAPACITY && !HasPlace(old(locations), k)
      ensures failure == Some(OutOfMemory) ==> !ample
    {
      assert Placing() by {
        assert Opened(ModelLock, 0);
      }
      var found := locationTable.Locate(k);
      PlacedExactly(locationTable.slots[..], locations, places, k);
      match found {
        case Hit(i) => id := locations[locationTable.slots[i].value.value].id;
        case Full =>
          Fail(LocationsFull);
          id := 0;
        case Free(cell) => id := NewLocation(f, cell, k);
      }
    }

    /** The second half of intern_location, for a frame with the function at `index`. */
    method FindLocation(f: FrameDesc, index: nat) returns (id: nat)
      requires Valid() && FrameOk(f) && index < |functions| == |keys| && keys[index] == KeyOf(f)
      requires failure == None
      modifies this`locations, this`places, this`failure, locationTable.slots
      ensures Valid() && old(locations) <= locations && |locations| <= |old(locations)| + 1
      ensures id > 0 ==> failure == None && id <= |locations| && Names(locations[id - 1], keys, f)
      ensures id == 0 ==> failure.Some? && failure != Some(FunctionsFull)
      ensures failure == Some(LocationsFull) <==>
                |old(locations)| == LOCATION_CAPACITY && !Located(old(locations), keys, f)
      ensures failure == Some(OutOfMemory) ==> !ample
    {
      assert Opened(ModelLock, 0);
      LocatedByKey(locations, keys, f, index);
      id := SeekLocation(f, LocationKey(index, LineOf(f)));
    }

    /** intern_location: the id of a frame's location, or 0. */
    method InternLocation(f: FrameDesc) returns (id: nat)
      requires Valid() && |mappings| > 0 && FrameOk(f) && failure == None
      modifies this`strings, this`mappings, this`failure, this`functions, this`keys, this`firsts, this`locations,
               this`places, functionTable.slots, locationTable.slots
      ensures Valid() && |mappings| > 0 && old(functions) <= functions && old(locations) <= locations
              && old(strings) <= strings
      ensures |locations| <= |old(locations)| + 1
      ensures keys == old(keys) || (keys == old(keys) + [KeyOf(f)] && KeyOf(f) !in old(keys))
      ensures firsts == old(firsts) + if keys == old(keys) then [] else [f]
      ensures id > 0 ==> failure == None && id <= |locations| && Names(locations[id - 1], keys, f)
      ensures id == 0 ==> failure.Some?
      ensures failure == Some(FunctionsFull) <==> |old(keys)| == FUNCTION_CAPACITY && KeyOf(f) !in old(keys)
      ensures failure == Some(LocationsFull) <==>
                && |old(locations)| == LOCATION_CAPACITY && !Located(old(locations), keys, f)
                && failure != Some(FunctionsFull) && failure != Some(OutOfMemory)
      ensures |strings| <= |old(strings)| + 3 && |mappings| <= |old(mappings)| + 1
      ensures failure == Some(OutOfMemory) ==> Cramped(ample, |strings|, |mappings|)
    {
      var index := InternFunction(f);
      id := 0;
      if index.Some? {
        assert failure == None;
        id := FindLocation(f, index.value);
      } else {
        assert failure != Some(LocationsFull);
      }
    }

    /** One turn of the loop of append_export_sample, after the frames `done`. */
    method InternNext(f: FrameDesc, ids: seq<nat>, ghost done: seq<FrameDesc>, ghost universe: set<FunctionKey>,
                      ghost history: seq<FrameDesc>)
      returns (id: nat)
      requires Valid() && |mappings| > 0 && failure == None && |universe| <= FUNCTION_CAPACITY
      requires FrameOk(f) && KeyOf(f) in universe && KeysIn(keys, universe) && |locations| < LOCATION_CAPACITY
      requires |ids| == |done| && AllNamed(ids, locations, keys, done) && Sourced(firsts, keys, history)
      modifies this`strings, this`mappings, this`failure, this`functions, this`keys, this`firsts, this`locations,
               this`places, functionTable.slots, locationTable.slots
      ensures Valid() && |mappings| > 0 && old(locations) <= locations && old(functions) <= functions
              && old(keys) <= keys && old(strings) <= strings
      ensures |locations| <= |old(locations)| + 1 && KeysIn(keys, universe)
      ensures |strings| <= |old(strings)| + 3 && |mappings| <= |old(mappings)| + 1
      ensures id == 0 ==> failure == Some(OutOfMemory) && Cramped(ample, |strings|, |mappings|)
      ensures id > 0 ==> failure == None && AllNamed(ids + [id], locations, keys, done + [f])
                         && Sourced(firsts, keys, history + [f])
    {
      ghost var ls, ks, gs := locations, keys, firsts;
      assert Opened(ModelLock, 0);
      RoomForKey(keys, universe, KeyOf(f));
      id := InternLocation(f);
      if id > 0 {
        NamedStay(ids, ls, ks, locations, keys, done);
        NamedMore(ids, locations, keys, done, f, id);
        SourcedMore(gs, ks, history, f, firsts, keys);
      } else {
        assert failure.value == OutOfMemory;
      }
    }

    /** The loop of append_export_sample. `universe` holds every key a frame may have:
        while it is no larger than the function table, that table cannot fill. `history`
        lists the frames interned before. */
    method InternStack(frames: seq<FrameDesc>, ghost universe: set<FunctionKey>, ghost history: seq<FrameDesc>)
      returns (ids: seq<nat>)
      requires Valid() && |mappings| > 0 && failure == None && |universe| <= FUNCTION_CAPACITY
      requires forall i: nat :: i < |frames| ==> FrameOk(frames[i]) && KeyOf(frames[i]) in universe
      requires KeysIn(keys, universe)
      requires |locations| + |frames| <= LOCATION_CAPACITY && Sourced(firsts, keys, history)
      modifies this`strings, this`mappings, this`failure, this`functions, this`keys, this`firsts, this`locations,
               this`places, functionTable.slots, locationTable.slots
      ensures Valid() && |mappings| > 0 && old(locations) <= locations && old(functions) <= functions
              && old(keys) <= keys && old(strings) <= strings
      ensures |locations| <= |old(locations)| + |frames| && KeysIn(keys, universe)
      ensures |strings| <= |old(strings)| + 3 * |frames| && |mappings| <= |old(mappings)| + |frames|
      ensures failure == None || (failure == Some(OutOfMemory) && Cramped(ample, |strings|, |mappings|))
      ensures failure == None ==> |ids| == |frames| && AllNamed(ids, locations, keys, frames)
                                  && Sourced(firsts, keys, history + frames)
    {
      ids := [];
      assert history + frames[..0] == history;
      for i := 0 to |frames|
        invariant Valid() && |mappings| > 0 && failure == None
        invariant old(locations) <= locations && old(functions) <= functions && old(keys) <= keys
                  && old(strings) <= strings
        invariant |locations| <= |old(locations)| + i && KeysIn(keys, universe)
        invariant |strings| <= |old(strings)| + 3 * i && |mappings| <= |old(mappings)| + i
        invariant |ids| == i && AllNamed(ids, locations, keys, frames[..i])
        invariant Sourced(firsts, keys, history + frames[..i])
      {
        assert frames[..i + 1] == frames[..i] + [frames[i]];
        assert history + frames[..i + 1] == history + frames[..i] + [frames[i]];
        var id := InternNext(frames[i], ids, frames[..i], universe, history + frames[..i]);
        if id == 0 {
          return;
        }
        ids := ids + [id];
      }
      assert frames[..|frames|] == frames;
    }

    /** append_export_sample, for stacks its callers build. */
    method AppendSample(frames: seq<FrameDesc>, values: seq<int>, ghost universe: set<FunctionKey>,
                        ghost history: seq<FrameDesc>)
      returns (ok: bool)
      requires Valid() && |mappings| > 0 && failure == None && |universe| <= FUNCTION_CAPACITY
      requires forall i: nat :: i < |frames| ==> FrameOk(frames[i]) && KeyOf(frames[i]) in universe
      requires KeysIn(keys, universe)
      requires |locations| + |frames| <= LOCATION_CAPACITY && Sourced(firsts, keys, history)
      modifies this, functionTable.slots, locationTable.slots
      ensures Valid() && |mappings| > 0 && old(locations) <= locations && old(functions) <= functions
                && old(keys) <= keys
      ensures old(strings) <= strings
      ensures |locations| <= |old(locations)| + |frames|
      ensures KeysIn(keys, universe)
      ensures ok ==> failure == None && |samples| == |old(samples)| + 1 && old(samples) <= samples
                     && samples[|old(samples)|].values == values
                     && AllNamed(samples[|old(samples)|].locations, locations, keys, frames)
                     && |samples[|old(samples)|].locations| == |frames|
                     && Sourced(firsts, keys, history + frames)
      ensures !ok ==> failure == Some(OutOfMemory) && Cramped(ample, |strings|, |mappings|)
      ensures |strings| <= |old(strings)| + 3 * |frames| && |mappings| <= |old(mappings)| + |frames|
    {
      var granted: bool := *;
      if !granted && !ample {
        Fail(OutOfMemory);
        return false;
      }
      ghost var before := samples;
      var ids := InternStack(frames, universe, history);
      if failure.Some? {
        return false;
      }
      NamedInRange(ids, locations, keys, frames);
      assert Opened(ModelLock, 0);
      LinkedSample(strings, mappings, functions, locations, samples, places, format, ExportSample(ids, values));
      samples := samples + [ExportSample(ids, values)];
      ok := true;
    }
  }

  // ---------- which frame a function was made for ----------

  /** The first of some frames with the key of `f`. */
  function FirstLike(frames: seq<FrameDesc>, f: FrameDesc): FrameDesc {
    if frames == [] then f
    else if KeyOf(frames[0]) == KeyOf(f) then frames[0]
    else FirstLike(frames[1..], f)
  }

  predicate Occurs(frames: seq<FrameDesc>, k: FunctionKey) { exists i: nat :: i < |frames| && KeyOf(frames[i]) == k }

  lemma {:induction false} FirstStays(frames: seq<FrameDesc>, more: seq<FrameDesc>, f: FrameDesc)
    ensures Occurs(frames, KeyOf(f)) ==> FirstLike(frames + more, f) == FirstLike(frames, f)
    ensures !Occurs(frames, KeyOf(f)) ==> FirstLike(frames + more, f) == FirstLike(more, f)
  {
    if frames == [] {
      assert frames + more == more;
    } else {
      assert (frames + more)[1..] == frames[1..] + more;
      FirstStays(frames[1..], more, f);
      if Occurs(frames, KeyOf(f)) && KeyOf(frames[0]) != KeyOf(f) {
        var i: nat :| i < |frames| && KeyOf(frames[i]) == KeyOf(f);
        assert frames[1..][i - 1] == frames[i];
      } else if Occurs(frames[1..], KeyOf(f)) {
        var i: nat :| i < |frames[1..]| && KeyOf(frames[1..][i]) == KeyOf(f);
        assert frames[i + 1] == frames[1..][i];
      }
    }
  }

  lemma {:induction false} FirstByKey(frames: seq<FrameDesc>, f: FrameDesc, g: FrameDesc)
    requires KeyOf(f) == KeyOf(g) && Occurs(frames, KeyOf(f))
    ensures FirstLike(frames, f) == FirstLike(frames, g)
  {
    if KeyOf(frames[0]) != KeyOf(f) {
      var i: nat :| i < |frames| && KeyOf(frames[i]) == KeyOf(f);
      assert frames[1..][i - 1] == frames[i];
      FirstByKey(frames[1..], f, g);
    }
  }

  /** The functions were made for the first frames with their keys, and every frame's
      key has one. */
  ghost predicate Sourced(firsts: seq<FrameDesc>, keys: seq<FunctionKey>, frames: seq<FrameDesc>) {
    && |firsts| == |keys|
    && (forall n: nat :: n < |firsts| ==> SourcedAt(firsts[n], keys[n], frames))
    && (forall i: nat :: i < |frames| ==> KeyOf(frames[i]) in keys)
  }

  predicate SourcedAt(first: FrameDesc, k: FunctionKey, frames: seq<FrameDesc>) {
    KeyOf(first) == k && Occurs(frames, k) && FirstLike(frames, first) == first
  }

  lemma SourcedMore(firsts: seq<FrameDesc>, keys: seq<FunctionKey>, frames: seq<FrameDesc>, f: FrameDesc,
                    firsts': seq<FrameDesc>, keys': seq<FunctionKey>)
    requires Sourced(firsts, keys, frames) && KeyOf(f) in keys'
    requires keys' == keys || (keys' == keys + [KeyOf(f)] && KeyOf(f) !in keys)
    requires firsts' == firsts + if keys' == keys then [] else [f]
    ensures Sourced(firsts', keys', frames + [f])
  {
    forall n: nat | n < |firsts'| ensures SourcedAt(firsts'[n], keys'[n], frames + [f]) {
      FirstStays(frames, [f], firsts'[n]);
      if n < |firsts| {
        assert SourcedAt(firsts[n], keys[n], frames);
        var i: nat :| i < |frames| && KeyOf(frames[i]) == keys[n];
        assert (frames + [f])[i] == frames[i];
      } else {
        assert (frames + [f])[|frames|] == f;
        assert !Occurs(frames, KeyOf(f));
      }
    }
  }

  lemma NothingSourced(firsts: seq<FrameDesc>, keys: seq<FunctionKey>)
    requires firsts == [] && keys == []
    ensures Sourced(firsts, keys, [])
  {
  }

  ghost predicate KeysIn(keys: seq<FunctionKey>, universe: set<FunctionKey>) {
    forall k: nat :: k < |keys| ==> keys[k] in universe
  }

  /** Each id is the location of its frame. */
  ghost predicate AllNamed(ids: seq<nat>, locations: seq<ExportLocation>, keys: seq<FunctionKey>,
                           frames: seq<FrameDesc>) {
    forall j: nat :: j < |ids| && j < |frames| ==>
      0 < ids[j] <= |locations| && Names(locations[ids[j] - 1], keys, frames[j])
  }

  lemma NamedStay(ids: seq<nat>, ls: seq<ExportLocation>, ks: seq<FunctionKey>, ls': seq<ExportLocation>,
                  ks': seq<FunctionKey>, frames: seq<FrameDesc>)
    requires AllNamed(ids, ls, ks, frames) && ls <= ls' && ks <= ks'
    ensures AllNamed(ids, ls', ks', frames)
  {
  }

  lemma NamedMore(ids: seq<nat>, ls: seq<ExportLocation>, ks: seq<FunctionKey>, frames: seq<FrameDesc>, f: FrameDesc,
                  id: nat)
    requires |ids| == |frames| && AllNamed(ids, ls, ks, frames) && 0 < id <= |ls| && Names(ls[id - 1], ks, f)
    ensures AllNamed(ids + [id], ls, ks, frames + [f])
  {
  }

  lemma NamedInRange(ids: seq<nat>, ls: seq<ExportLocation>, ks: seq<FunctionKey>, frames: seq<FrameDesc>)
    requires |ids| == |frames| && AllNamed(ids, ls, ks, frames)
    ensures forall j: nat :: j < |ids| ==> 0 < ids[j] <= |ls|
  {
  }

  /** Distinct keys within a set, and one more of it, are no more than the set. */
  lemma RoomForKey(keys: seq<FunctionKey>, universe: set<FunctionKey>, k: FunctionKey)
    requires Unique(keys) && (forall i: nat :: i < |keys| ==> keys[i] in universe) && k in universe
    ensures |keys| <= |universe|
    ensures k !in keys ==> |keys| < |universe|
  {
    SetOfUnique(keys);
    var s := set i: nat | i < |keys| :: keys[i];
    SubsetSize(s, universe);
    if k !in keys {
      SubsetSize(s + {k}, universe);
    }
  }

  lemma {:induction false} SetOfUnique(keys: seq<FunctionKey>)
    requires Unique(keys)
    ensures |set i: nat | i < |keys| :: keys[i]| == |keys|
  {
    if |keys| > 0 {
      var n := |keys| - 1;
      SetOfUnique(keys[..n]);
      assert (set i: nat | i < |keys| :: keys[i]) == (set i: nat | i < n :: keys[..n][i]) + {keys[n]};
    }
  }

  lemma {:induction false} SubsetSize<T>(a: set<T>, b: set<T>)
    requires a <= b
    ensures |a| <= |b|
    decreases |a|
  {
    if a != {} {
      var x :| x in a;
      SubsetSize(a - {x}, b - {x});
    }
  }

  const FRAME_LUA := 0
  const FRAME_C := 1

  /** A location is that of the frame: its function's key and its line. */
  ghost predicate Names(l: ExportLocation, keys: seq<FunctionKey>, f: FrameDesc) {
    l.functionIndex < |keys| && keys[l.functionIndex] == KeyOf(f) && l.line == LineOf(f)
  }

  /** Two frames have the same location exactly if they are at the same line of the same
      function: nothing is exported twice, and nothing is merged. */
  lemma LocationsAreFrames(e: Exporter, a: nat, b: nat, f: FrameDesc, g: FrameDesc)
    requires e.Valid() && 0 < a <= |e.locations| && 0 < b <= |e.locations|
    requires Names(e.locations[a - 1], e.keys, f) && Names(e.locations[b - 1], e.keys, g)
    ensures a == b <==> KeyOf(f) == KeyOf(g) && LineOf(f) == LineOf(g)
  {
    assert Opened(ModelLock, 0);
    assert e.places[a - 1] == LocationKey(e.locations[a - 1].functionIndex, e.locations[a - 1].line);
    assert e.places[b - 1] == LocationKey(e.locations[b - 1].functionIndex, e.locations[b - 1].line);
  }

  ghost predicate Located(locations: seq<ExportLocation>, keys: seq<FunctionKey>, f: FrameDesc) {
    exists i: nat :: i < |locations| && Names(locations[i], keys, f)
  }

  predicate LiesAt(l: ExportLocation, k: LocationKey) { l.functionIndex == k.functionIndex && l.line == k.line }

  ghost predicate HasPlace(locations: seq<ExportLocation>, k: LocationKey) {
    exists i: nat :: i < |locations| && LocationKey(locations[i].functionIndex, locations[i].line) == k
  }

  lemma PlacedExactly(slots: Slots<LocationKey, nat>, locations: seq<ExportLocation>, places: seq<LocationKey>,
                      k: LocationKey)
    requires Numbered(slots, places) && |places| == |locations|
    requires forall i: nat :: i < |locations| ==>
              places[i] == LocationKey(locations[i].functionIndex, locations[i].line)
    ensures Absent(slots, k) <==> !HasPlace(locations, k)
    ensures |locations| == |slots| <==> forall i: nat :: i < |slots| ==> slots[i].Some?
  {
    AbsentIsNew(slots, places, k);
    PlacesAreLocations(locations, places, k);
    FullMeansCapacity(slots, places);
  }

  lemma PlacesAreLocations(locations: seq<ExportLocation>, places: seq<LocationKey>, k: LocationKey)
    requires |places| == |locations|
    requires forall i: nat :: i < |locations| ==>
              places[i] == LocationKey(locations[i].functionIndex, locations[i].line)
    ensures HasPlace(locations, k) <==> k in places
  {
    if k in places {
      var i: nat :| i < |places| && places[i] == k;
      assert LocationKey(locations[i].functionIndex, locations[i].line) == k;
    }
  }

  /** A location is the frame's exactly if it has the key of its function and line. */
  lemma LocatedByKey(locations: seq<ExportLocation>, keys: seq<FunctionKey>, f: FrameDesc, index: nat)
    requires Unique(keys) && index < |keys| && keys[index] == KeyOf(f)
    requires forall i: nat :: i < |locations| ==> locations[i].functionIndex < |keys|
    ensures Located(locations, keys, f) <==> HasPlace(locations, LocationKey(index, LineOf(f)))
  {
    if Located(locations, keys, f) {
      var i: nat :| i < |locations| && Names(locations[i], keys, f);
      assert LocationKey(locations[i].functionIndex, locations[i].line) == LocationKey(index, LineOf(f));
    }
    if HasPlace(locations, LocationKey(index, LineOf(f))) {
      var i: nat :| i < |locations|
          && LocationKey(locations[i].functionIndex, locations[i].line) == LocationKey(index, LineOf(f));
      assert Names(locations[i], keys, f);
    }
  }

  /** The keys in the table are the numbered ones. */
  lemma AbsentIsNew<K(!new)>(slots: Slots<K, nat>, keys: seq<K>, k: K)
    requires Numbered(slots, keys)
    ensures Absent(slots, k) <==> k !in keys
  {
    if k in keys {
      var n: nat :| n < |keys| && keys[n] == k;
      assert Maps(slots, keys[n], n);
    } else {
      forall i: nat | i < |slots| && slots[i].Some? ensures slots[i].value.key != k {
        assert keys[slots[i].value.value] == slots[i].value.key;
      }
    }
  }

  lemma FlagsKeepMappings(mappings: seq<ExportMapping>, strings: seq<seq<byte>>, i: nat, m: ExportMapping)
    requires i < |mappings| && DenseMappings(mappings)
    requires forall j: nat :: j < |mappings| ==> mappings[j].filename < |strings|
    requires DistinctMappings(mappings, strings)
    requires m.id == mappings[i].id && m.start == mappings[i].start && m.limit == mappings[i].limit
             && m.offset == mappings[i].offset && m.filename == mappings[i].filename
    ensures DenseMappings(mappings[i := m]) && DistinctMappings(mappings[i := m], strings)
  {
    var t := mappings[i := m];
    forall a: nat, b: nat | a < b < |t|
      ensures KeyOfMapping(t[a], strings) != KeyOfMapping(t[b], strings)
    {
      assert KeyOfMapping(mappings[a], strings) != KeyOfMapping(mappings[b], strings);
    }
  }

  lemma NothingNumbered<K(!new)>(slots: Slots<K, nat>)
    requires forall i: nat :: i < |slots| ==> slots[i].None?
    ensures Numbered(slots, [])
  {
    NothingUsed(slots);
  }

  lemma {:induction false} NothingUsed<K(!new)>(slots: Slots<K, nat>)
    requires forall i: nat :: i < |slots| ==> slots[i].None?
    ensures Used(slots) == 0
  {
    if |slots| > 0 {
      NothingUsed(slots[..|slots| - 1]);
    }
  }
}
