/** A whole pprof profile: the order its fields are written in, and the proof that
    a reader gets the export model back. */
module PprofProfile {
  import opened Common
  import opened Wire
  import opened Pprof

  function Records(id: nat, blobs: seq<seq<byte>>): seq<Field> {
    seq(|blobs|, i requires 0 <= i < |blobs| => Bytes(id, blobs[i]))
  }

  function Counts(id: nat, xs: seq<nat>): seq<Field> {
    seq(|xs|, i requires 0 <= i < |xs| => Number(id, xs[i]))
  }

  ghost predicate Short(blobs: seq<seq<byte>>) { forall i: nat :: i < |blobs| ==> |blobs[i]| < WORD }

  /** What looking a field up in `t` gives, compared to `s`. */
  ghost predicate SameNumbers(s: seq<Field>, t: seq<Field>) {
    && (forall id: nat :: Scalar(t, id) == Scalar(s, id))
    && (forall id: nat :: Numbers(t, id) == Numbers(s, id))
  }

  ghost predicate MoreBlobs(s: seq<Field>, t: seq<Field>, id: nat, blobs: seq<seq<byte>>) {
    forall i: nat :: Blobs(t, i) == if i == id then Blobs(s, i) + blobs else Blobs(s, i)
  }

  lemma {:induction false} WithRecords(fs: seq<Field>, id: nat, blobs: seq<seq<byte>>)
    requires AllWritable(fs) && Short(blobs) && 0 < id < 0x2000_0000
    ensures var t := fs + Records(id, blobs);
      AllWritable(t) && SameNumbers(fs, t) && MoreBlobs(fs, t, id, blobs)
    decreases |blobs|
  {
    var t := fs + Records(id, blobs);
    if |blobs| == 0 {
      assert t == fs;
      forall i: nat ensures Blobs(fs, i) + blobs == Blobs(fs, i) { }
    } else {
      var n := |blobs| - 1;
      var s := fs + Records(id, blobs[..n]);
      WithRecords(fs, id, blobs[..n]);
      assert t == s + [Bytes(id, blobs[n])];
      Appended(s, Bytes(id, blobs[n]));
      forall i: nat ensures Blobs(t, i) == if i == id then Blobs(fs, i) + blobs else Blobs(fs, i) {
        if i == id {
          assert Blobs(fs, i) + blobs == (Blobs(fs, i) + blobs[..n]) + [blobs[n]];
        }
      }
    }
  }

  lemma Appended(fs: seq<Field>, f: Field)
    requires AllWritable(fs) && Writable(f)
    ensures AllWritable(fs + [f])
    ensures forall i: nat ::
              Blobs(fs + [f], i) == if f.Bytes? && f.id == i then Blobs(fs, i) + [f.data] else Blobs(fs, i)
    ensures forall i: nat ::
              Numbers(fs + [f], i) == if f.Number? && f.id == i then Numbers(fs, i) + [f.value] else Numbers(fs, i)
    ensures forall i: nat :: Scalar(fs + [f], i) == if f.Number? && f.id == i then f.value else Scalar(fs, i)
  {
    assert (fs + [f])[..|fs|] == fs;
  }

  /** `t` is `s` with more numbers under `id`. */
  ghost predicate MoreNumbers(s: seq<Field>, t: seq<Field>, id: nat, xs: seq<nat>) {
    && (forall i: nat :: Numbers(t, i) == if i == id then Numbers(s, i) + xs else Numbers(s, i))
    && (forall i: nat :: Blobs(t, i) == Blobs(s, i))
    && (forall i: nat :: i != id ==> Scalar(t, i) == Scalar(s, i))
  }

  lemma OneMoreNumber(fs: seq<Field>, s: seq<Field>, id: nat, xs: seq<nat>, x: nat)
    requires MoreNumbers(fs, s, id, xs) && AllWritable(s) && Writable(Number(id, x))
    ensures AllWritable(s + [Number(id, x)]) && MoreNumbers(fs, s + [Number(id, x)], id, xs + [x])
  {
    Appended(s, Number(id, x));
    assert (Numbers(fs, id) + xs) + [x] == Numbers(fs, id) + (xs + [x]);
  }

  lemma {:induction false} WithCounts(fs: seq<Field>, id: nat, xs: seq<nat>)
    requires AllWritable(fs) && Words(xs) && 0 < id < 0x2000_0000
    ensures AllWritable(fs + Counts(id, xs)) && MoreNumbers(fs, fs + Counts(id, xs), id, xs)
    decreases |xs|
  {
    if |xs| == 0 {
      assert fs + Counts(id, xs) == fs;
      assert forall i: nat :: Numbers(fs, i) + xs == Numbers(fs, i);
    } else {
      var n := |xs| - 1;
      WithCounts(fs, id, xs[..n]);
      OneMoreNumber(fs, fs + Counts(id, xs[..n]), id, xs[..n], xs[n]);
      assert xs == xs[..n] + [xs[n]];
      assert fs + Counts(id, xs) == (fs + Counts(id, xs[..n])) + [Number(id, xs[n])];
    }
  }

  // ---------- the profile message ----------

  predicate LocationOk(m: Model, l: ExportLocation) {
    && l.id < WORD && l.address < WORD && Int64(l.line)
    && l.functionIndex < |m.functions| && l.mappingIndex < |m.mappings|
    && m.functions[l.functionIndex].id < WORD && m.mappings[l.mappingIndex].id < WORD
  }

  /** What the builder of the model establishes. */
  ghost predicate Built(m: Model) {
    && |m.sampleNames| == |m.sampleUnits| && m.defaultValue < |m.sampleNames|
    && Words(m.sampleNames) && Words(m.comments)
    && m.periodType < WORD && m.periodUnit < WORD && Int64(m.period)
    && (forall i: nat :: i < |m.samples| ==> SampleOk(m.samples[i]))
    && (forall i: nat :: i < |m.mappings| ==> MappingOk(m.mappings[i]))
    && (forall i: nat :: i < |m.locations| ==> LocationOk(m, m.locations[i]))
    && (forall i: nat :: i < |m.functions| ==> FunctionOk(m.functions[i]))
    && Short(m.strings) && |m.strings| < WORD
  }

  /** `units` are indices for the units of the value types. */
  ghost predicate ModelOk(m: Model, units: seq<nat>) {
    Built(m) && |units| == |m.sampleUnits| && Words(units)
  }

  function LocationBytes(m: Model, l: ExportLocation): seq<byte>
    requires LocationOk(m, l)
  {
    Encode(LocationFields(l, m.mappings[l.mappingIndex].id, m.functions[l.functionIndex].id))
  }

  ghost function ValueTypeBlobs(m: Model, units: seq<nat>): (r: seq<seq<byte>>)
    requires ModelOk(m, units)
    ensures |r| == |units|
  {
    seq(|units|, i requires 0 <= i < |units| => Encode(ValueTypeFields(m.sampleNames[i], units[i])))
  }

  ghost function SampleBlobs(m: Model, units: seq<nat>): (r: seq<seq<byte>>)
    requires ModelOk(m, units)
    ensures |r| == |m.samples|
  {
    seq(|m.samples|, i requires 0 <= i < |m.samples| => Encode(SampleFields(m.samples[i])))
  }

  ghost function MappingBlobs(m: Model): (r: seq<seq<byte>>)
    ensures |r| == |m.mappings|
  {
    seq(|m.mappings|, i requires 0 <= i < |m.mappings| => Encode(MappingFields(m.mappings[i])))
  }

  ghost function LocationBlobs(m: Model, units: seq<nat>): (r: seq<seq<byte>>)
    requires ModelOk(m, units)
    ensures |r| == |m.locations|
  {
    seq(|m.locations|, i requires 0 <= i < |m.locations| => LocationBytes(m, m.locations[i]))
  }

  ghost function FunctionBlobs(m: Model, units: seq<nat>): (r: seq<seq<byte>>)
    requires ModelOk(m, units)
    ensures |r| == |m.functions|
  {
    seq(|m.functions|, i requires 0 <= i < |m.functions| => Encode(FunctionFields(m.functions[i])))
  }

  ghost function PeriodBlob(m: Model): seq<byte> { Encode(ValueTypeFields(m.periodType, m.periodUnit)) }

  /** The six kinds of records, in the order they are written. */
  ghost function RecordFields(m: Model, units: seq<nat>): seq<Field>
    requires ModelOk(m, units)
  {
    Records6(ValueTypeBlobs(m, units), SampleBlobs(m, units), MappingBlobs(m), LocationBlobs(m, units),
             FunctionBlobs(m, units), m.strings)
  }

  ghost function ProfileFields(m: Model, units: seq<nat>): seq<Field>
    requires ModelOk(m, units)
  {
    WithTail(RecordFields(m, units), PeriodBlob(m), Unsigned(m.period), m.comments, m.sampleNames[m.defaultValue])
  }

  /** The scalars behind the records. */
  function WithTail(fs: seq<Field>, periodType: seq<byte>, period: nat, comments: seq<nat>,
                    defaultType: nat): seq<Field> {
    fs + [Bytes(11, periodType)] + [Number(12, period)] + Counts(13, comments) + [Number(14, defaultType)]
  }

  /** What a reader is meant to see. */
  ghost function View(m: Model, units: seq<nat>): Profile
    requires ModelOk(m, units)
  {
    Profile(seq(|units|, i requires 0 <= i < |units| => ValueType(m.sampleNames[i], units[i])),
            seq(|m.samples|, i requires 0 <= i < |m.samples| => Sample(m.samples[i].locations, m.samples[i].values)),
            seq(|m.mappings|, i requires 0 <= i < |m.mappings| => SeenMapping(m.mappings[i])),
            seq(|m.locations|, i requires 0 <= i < |m.locations| => SeenLocation(m, m.locations[i])),
            seq(|m.functions|, i requires 0 <= i < |m.functions| => SeenFunction(m.functions[i])),
            m.strings, [ValueType(m.periodType, m.periodUnit)], m.period, m.comments, m.sampleNames[m.defaultValue])
  }

  function SeenMapping(m: ExportMapping): Mapping {
    Mapping(m.id, m.start, m.limit, m.offset, m.filename, m.hasFunctions, m.hasFilenames, m.hasLineNumbers)
  }

  function SeenLocation(m: Model, l: ExportLocation): Location
    requires LocationOk(m, l)
  {
    Location(l.id, m.mappings[l.mappingIndex].id, l.address, [Line(m.functions[l.functionIndex].id, l.line)])
  }

  function SeenFunction(f: ExportFunction): Function {
    Function(f.id, f.name, f.name, f.filename, if f.linedefined > 0 then f.linedefined else 0)
  }

  /** A reader of profile.proto. */
  function ReadProfile(data: seq<byte>): Option<Profile> {
    match Decode(data)
    case None => None
    case Some(fs) =>
      var types, samples := ReadAll(Blobs(fs, 1), ReadValueType), ReadAll(Blobs(fs, 2), ReadSample);
      var mappings, locations := ReadAll(Blobs(fs, 3), ReadMapping), ReadAll(Blobs(fs, 4), ReadLocation);
      var functions, periods := ReadAll(Blobs(fs, 5), ReadFunction), ReadAll(Blobs(fs, 11), ReadValueType);
      if types.None? || samples.None? || mappings.None? || locations.None? || functions.None? || periods.None? then None
      else Some(Profile(types.value, samples.value, mappings.value, locations.value, functions.value, Blobs(fs, 6),
                        periods.value, Signed(Scalar(fs, 12)), Numbers(fs, 13), Scalar(fs, 14)))
  }

  /** Every length a record is written with fits its 64 bits. */
  ghost predicate Fits(m: Model, units: seq<nat>)
    requires ModelOk(m, units)
  {
    && Short(ValueTypeBlobs(m, units)) && Short(SampleBlobs(m, units)) && Short(MappingBlobs(m))
    && Short(LocationBlobs(m, units)) && Short(FunctionBlobs(m, units)) && Short(m.strings) && |PeriodBlob(m)| < WORD
    && (forall i: nat :: i < |m.samples| ==> SampleFits(m.samples[i]))
    && (forall i: nat :: i < |m.locations| ==> LocationFits(m, m.locations[i]))
  }

  predicate SampleFits(s: ExportSample)
    requires SampleOk(s)
  {
    |Packed(s.locations)| < WORD && |Packed(UnsignedAll(s.values))| < WORD
  }

  predicate LocationFits(m: Model, l: ExportLocation)
    requires LocationOk(m, l)
  {
    |Encode(LineFields(m.functions[l.functionIndex].id, l.line))| < WORD
  }

  /** Where the records are found again. */
  lemma RecordLookups(m: Model, units: seq<nat>)
    requires ModelOk(m, units) && Fits(m, units)
    ensures var fs := RecordFields(m, units);
      && AllWritable(fs) && (forall id: nat :: Numbers(fs, id) == [])
      && Blobs(fs, 1) == ValueTypeBlobs(m, units) && Blobs(fs, 2) == SampleBlobs(m, units)
      && Blobs(fs, 3) == MappingBlobs(m) && Blobs(fs, 4) == LocationBlobs(m, units)
      && Blobs(fs, 5) == FunctionBlobs(m, units) && Blobs(fs, 6) == m.strings && Blobs(fs, 11) == []
  {
    SixRecords(ValueTypeBlobs(m, units), SampleBlobs(m, units), MappingBlobs(m), LocationBlobs(m, units),
               FunctionBlobs(m, units), m.strings);
  }

  function Records6(b1: seq<seq<byte>>, b2: seq<seq<byte>>, b3: seq<seq<byte>>, b4: seq<seq<byte>>,
                    b5: seq<seq<byte>>, b6: seq<seq<byte>>): seq<Field> {
    [] + Records(1, b1) + Records(2, b2) + Records(3, b3) + Records(4, b4) + Records(5, b5) + Records(6, b6)
  }

  lemma SixRecords(b1: seq<seq<byte>>, b2: seq<seq<byte>>, b3: seq<seq<byte>>, b4: seq<seq<byte>>,
                   b5: seq<seq<byte>>, b6: seq<seq<byte>>)
    requires Short(b1) && Short(b2) && Short(b3) && Short(b4) && Short(b5) && Short(b6)
    ensures var fs := Records6(b1, b2, b3, b4, b5, b6);
      && AllWritable(fs) && (forall id: nat :: Numbers(fs, id) == [])
      && Blobs(fs, 1) == b1 && Blobs(fs, 2) == b2 && Blobs(fs, 3) == b3 && Blobs(fs, 4) == b4
      && Blobs(fs, 5) == b5 && Blobs(fs, 6) == b6 && Blobs(fs, 11) == []
  {
    var a: seq<Field> := [];
    NoFields();
    assert forall id: nat :: Numbers(a, id) == [];
    ThreeRecords(a, 1, b1, 2, b2, 3, b3);
    ThreeRecords(a + Records(1, b1) + Records(2, b2) + Records(3, b3), 4, b4, 5, b5, 6, b6);
  }

  lemma ThreeRecords(fs: seq<Field>, i: nat, bi: seq<seq<byte>>, j: nat, bj: seq<seq<byte>>, k: nat, bk: seq<seq<byte>>)
    requires AllWritable(fs) && Short(bi) && Short(bj) && Short(bk) && 0 < i < j < k < 0x2000_0000
    ensures var t := fs + Records(i, bi) + Records(j, bj) + Records(k, bk);
      && AllWritable(t) && SameNumbers(fs, t)
      && Blobs(t, i) == Blobs(fs, i) + bi && Blobs(t, j) == Blobs(fs, j) + bj && Blobs(t, k) == Blobs(fs, k) + bk
      && forall id: nat :: id != i && id != j && id != k ==> Blobs(t, id) == Blobs(fs, id)
  {
    WithRecords(fs, i, bi);
    WithRecords(fs + Records(i, bi), j, bj);
    WithRecords(fs + Records(i, bi) + Records(j, bj), k, bk);
  }

  lemma ProfileLookups(m: Model, units: seq<nat>)
    requires ModelOk(m, units) && Fits(m, units)
    ensures var fs := ProfileFields(m, units);
      && AllWritable(fs)
      && Blobs(fs, 1) == ValueTypeBlobs(m, units) && Blobs(fs, 2) == SampleBlobs(m, units)
      && Blobs(fs, 3) == MappingBlobs(m) && Blobs(fs, 4) == LocationBlobs(m, units)
      && Blobs(fs, 5) == FunctionBlobs(m, units) && Blobs(fs, 6) == m.strings && Blobs(fs, 11) == [PeriodBlob(m)]
      && Scalar(fs, 12) == Unsigned(m.period) && Numbers(fs, 13) == m.comments
      && Scalar(fs, 14) == m.sampleNames[m.defaultValue]
  {
    RecordLookups(m, units);
    TailLookups(RecordFields(m, units), PeriodBlob(m), Unsigned(m.period), m.comments, m.sampleNames[m.defaultValue]);
  }

  lemma TailLookups(a: seq<Field>, periodType: seq<byte>, period: nat, comments: seq<nat>, defaultType: nat)
    requires AllWritable(a) && |periodType| < WORD && period < WORD && Words(comments) && defaultType < WORD
    requires Numbers(a, 13) == []
    ensures var fs := WithTail(a, periodType, period, comments, defaultType);
      && AllWritable(fs)
      && (forall i: nat :: i != 11 ==> Blobs(fs, i) == Blobs(a, i)) && Blobs(fs, 11) == Blobs(a, 11) + [periodType]
      && Scalar(fs, 12) == period && Numbers(fs, 13) == comments && Scalar(fs, 14) == defaultType
  {
    Appended(a, Bytes(11, periodType));
    var b := a + [Bytes(11, periodType)];
    Appended(b, Number(12, period));
    var c := b + [Number(12, period)];
    WithCounts(c, 13, comments);
    var d := c + Counts(13, comments);
    Appended(d, Number(14, defaultType));
  }

  lemma RecordsReadBack(m: Model, units: seq<nat>)
    requires ModelOk(m, units) && Fits(m, units)
    ensures var v := View(m, units);
      && ReadAll(ValueTypeBlobs(m, units), ReadValueType) == Some(v.sampleTypes)
      && ReadAll(SampleBlobs(m, units), ReadSample) == Some(v.samples)
      && ReadAll(MappingBlobs(m), ReadMapping) == Some(v.mappings)
      && ReadAll(LocationBlobs(m, units), ReadLocation) == Some(v.locations)
      && ReadAll(FunctionBlobs(m, units), ReadFunction) == Some(v.functions)
      && ReadAll([PeriodBlob(m)], ReadValueType) == Some(v.periodTypes)
  {
    ValueTypesReadBack(m, units);
    SamplesReadBack(m, units);
    MappingsReadBack(m, units);
    LocationsReadBack(m, units);
    FunctionsReadBack(m, units);
    PeriodReadsBack(m, units);
  }

  lemma MappingsReadBack(m: Model, units: seq<nat>)
    requires ModelOk(m, units)
    ensures ReadAll(MappingBlobs(m), ReadMapping) == Some(View(m, units).mappings)
  {
    var v := View(m, units);
    forall i: nat | i < |m.mappings| ensures ReadMapping(MappingBlobs(m)[i]) == Some(v.mappings[i]) {
      MappingRoundTrip(m.mappings[i]);
    }
    ReadAllOf(MappingBlobs(m), ReadMapping, v.mappings);
  }

  lemma FunctionsReadBack(m: Model, units: seq<nat>)
    requires ModelOk(m, units)
    ensures ReadAll(FunctionBlobs(m, units), ReadFunction) == Some(View(m, units).functions)
  {
    var v := View(m, units);
    forall i: nat | i < |m.functions| ensures ReadFunction(FunctionBlobs(m, units)[i]) == Some(v.functions[i]) {
      FunctionRoundTrip(m.functions[i]);
    }
    ReadAllOf(FunctionBlobs(m, units), ReadFunction, v.functions);
  }

  lemma PeriodReadsBack(m: Model, units: seq<nat>)
    requires ModelOk(m, units)
    ensures ReadAll([PeriodBlob(m)], ReadValueType) == Some(View(m, units).periodTypes)
  {
    ValueTypeRoundTrip(m.periodType, m.periodUnit);
    ReadAllOf([PeriodBlob(m)], ReadValueType, View(m, units).periodTypes);
  }

  lemma ValueTypesReadBack(m: Model, units: seq<nat>)
    requires ModelOk(m, units)
    ensures ReadAll(ValueTypeBlobs(m, units), ReadValueType) == Some(View(m, units).sampleTypes)
  {
    var v := View(m, units);
    forall i: nat | i < |units| ensures ReadValueType(ValueTypeBlobs(m, units)[i]) == Some(v.sampleTypes[i]) {
      ValueTypeRoundTrip(m.sampleNames[i], units[i]);
    }
    ReadAllOf(ValueTypeBlobs(m, units), ReadValueType, v.sampleTypes);
  }

  lemma SamplesReadBack(m: Model, units: seq<nat>)
    requires ModelOk(m, units) && Fits(m, units)
    ensures ReadAll(SampleBlobs(m, units), ReadSample) == Some(View(m, units).samples)
  {
    var v := View(m, units);
    forall i: nat | i < |m.samples| ensures ReadSample(SampleBlobs(m, units)[i]) == Some(v.samples[i]) {
      SampleRoundTrip(m.samples[i]);
    }
    ReadAllOf(SampleBlobs(m, units), ReadSample, v.samples);
  }

  lemma LocationsReadBack(m: Model, units: seq<nat>)
    requires ModelOk(m, units) && Fits(m, units)
    ensures ReadAll(LocationBlobs(m, units), ReadLocation) == Some(View(m, units).locations)
  {
    var v := View(m, units);
    forall i: nat | i < |m.locations| ensures ReadLocation(LocationBlobs(m, units)[i]) == Some(v.locations[i]) {
      var l := m.locations[i];
      LocationRoundTrip(l, m.mappings[l.mappingIndex].id, m.functions[l.functionIndex].id);
    }
    ReadAllOf(LocationBlobs(m, units), ReadLocation, v.locations);
  }

  /** A reader of the encoded profile gets back exactly the model's samples,
      locations, mappings, functions, strings, period, comments and default type. */
  lemma ProfileRoundTrip(m: Model, units: seq<nat>)
    requires ModelOk(m, units) && Fits(m, units)
    ensures ReadProfile(Encode(ProfileFields(m, units))) == Some(View(m, units))
  {
    ProfileLookups(m, units);
    MessageRoundTrip(ProfileFields(m, units));
    RecordsReadBack(m, units);
    SignedRoundTrip(m.period);
  }
}
