/** The pprof messages src/pprof_exporter.c writes, and what a protobuf reader of
    profile.proto makes of them. */
module Pprof {
  import opened Common
  import opened Wire

  // ---------- the export model ----------

  datatype ExportMapping = ExportMapping(id: nat, start: nat, limit: nat, offset: nat, filename: nat,
                                         hasFunctions: bool, hasFilenames: bool, hasLineNumbers: bool)

  datatype ExportFunction = ExportFunction(id: nat, name: nat, filename: nat, linedefined: int, mappingIndex: nat)

  datatype ExportLocation = ExportLocation(id: nat, functionIndex: nat, mappingIndex: nat, line: int, address: nat)

  datatype ExportSample = ExportSample(locations: seq<nat>, values: seq<int>)

  datatype Model = Model(strings: seq<seq<byte>>, functions: seq<ExportFunction>, locations: seq<ExportLocation>,
                         samples: seq<ExportSample>, mappings: seq<ExportMapping>,
                         sampleNames: seq<nat>, sampleUnits: seq<seq<byte>>, defaultValue: nat,
                         periodType: nat, periodUnit: nat, period: int, comments: seq<nat>)

  // ---------- what profile.proto describes ----------

  datatype ValueType = ValueType(kind: nat, unit: nat)

  datatype Sample = Sample(locations: seq<nat>, values: seq<int>)

  datatype Mapping = Mapping(id: nat, start: nat, limit: nat, offset: nat, filename: nat,
                             hasFunctions: bool, hasFilenames: bool, hasLineNumbers: bool)

  datatype Line = Line(function_: nat, line: int)

  datatype Location = Location(id: nat, mapping: nat, address: nat, lines: seq<Line>)

  datatype Function = Function(id: nat, name: nat, systemName: nat, filename: nat, startLine: int)

  datatype Profile = Profile(sampleTypes: seq<ValueType>, samples: seq<Sample>, mappings: seq<Mapping>,
                             locations: seq<Location>, functions: seq<Function>, strings: seq<seq<byte>>,
                             periodTypes: seq<ValueType>, period: int, comments: seq<nat>, defaultType: nat)

  // ---------- 64-bit integers ----------

  const HALF := 0x8000_0000_0000_0000

  predicate Int64(v: int) { -HALF <= v < HALF }

  /** The cast from int64_t to uint64_t. */
  function Unsigned(v: int): (u: nat)
    requires Int64(v)
    ensures u < WORD
  {
    if v < 0 then v + WORD else v
  }

  function Signed(u: nat): int { if u >= HALF then u - WORD else u }

  lemma SignedRoundTrip(v: int)
    requires Int64(v)
    ensures Signed(Unsigned(v)) == v
  {
  }

  // ---------- packed numbers ----------

  function Packed(xs: seq<nat>): seq<byte> {
    if xs == [] then [] else Packed(xs[..|xs| - 1]) + Varint(xs[|xs| - 1])
  }

  function Unpack(data: seq<byte>): Option<seq<nat>>
    decreases |data|
  {
    if data == [] then Some([])
    else
      match ReadVarint(data, 0)
      case None => None
      case Some(r) =>
        match Unpack(r.rest)
        case None => None
        case Some(xs) => Some([r.value] + xs)
  }

  ghost predicate Words(xs: seq<nat>) { forall i: nat :: i < |xs| ==> xs[i] < WORD }

  lemma {:induction false} PackedConcat(a: seq<nat>, b: seq<nat>)
    ensures Packed(a + b) == Packed(a) + Packed(b)
  {
    if b == [] {
      assert a + b == a;
    } else {
      assert (a + b)[..|a + b| - 1] == a + b[..|b| - 1];
      PackedConcat(a, b[..|b| - 1]);
    }
  }

  lemma {:induction false} PackedRoundTrip(xs: seq<nat>)
    requires Words(xs)
    ensures Unpack(Packed(xs)) == Some(xs)
    decreases |xs|
  {
    if xs != [] {
      assert xs == [xs[0]] + xs[1..];
      PackedConcat([xs[0]], xs[1..]);
      assert [xs[0]][..0] == [] && Packed([xs[0]]) == Varint(xs[0]);
      VarintRoundTrip(xs[0], Packed(xs[1..]), 0);
      PackedRoundTrip(xs[1..]);
      UnpackFirst(Packed(xs), xs[0], Packed(xs[1..]), xs[1..]);
    }
  }

  lemma UnpackFirst(data: seq<byte>, x: nat, rest: seq<byte>, xs: seq<nat>)
    requires ReadVarint(data, 0) == Some(Reading(x, rest)) && Unpack(rest) == Some(xs)
    ensures Unpack(data) == Some([x] + xs)
  {
  }

  // ---------- looking fields up ----------

  /** A singular number: the last one wins, and 0 stands for none. */
  function Scalar(fs: seq<Field>, id: nat): nat {
    if fs == [] then 0
    else
      var f := fs[|fs| - 1];
      if f.Number? && f.id == id then f.value else Scalar(fs[..|fs| - 1], id)
  }

  /** Repeated length-delimited fields, in order. */
  function Blobs(fs: seq<Field>, id: nat): seq<seq<byte>> {
    if fs == [] then []
    else
      var f, rest := fs[|fs| - 1], Blobs(fs[..|fs| - 1], id);
      if f.Bytes? && f.id == id then rest + [f.data] else rest
  }

  /** Repeated numbers, in order. */
  function Numbers(fs: seq<Field>, id: nat): seq<nat> {
    if fs == [] then []
    else
      var f, rest := fs[|fs| - 1], Numbers(fs[..|fs| - 1], id);
      if f.Number? && f.id == id then rest + [f.value] else rest
  }

  /** A field that is written only on a condition. */
  function Push(fs: seq<Field>, c: bool, f: Field): (r: seq<Field>) { if c then fs + [f] else fs }

  lemma Pushed(fs: seq<Field>, c: bool, f: Field)
    ensures forall id: nat ::
              Scalar(Push(fs, c, f), id) == if c && f.Number? && f.id == id then f.value else Scalar(fs, id)
    ensures forall id: nat :: Blobs(Push(fs, c, f), id) == if c && f.Bytes? && f.id == id then Blobs(fs, id) + [f.data]
                                                            else Blobs(fs, id)
    ensures AllWritable(fs) && (c ==> Writable(f)) ==> AllWritable(Push(fs, c, f))
  {
    if c {
      assert (fs + [f])[..|fs|] == fs;
    }
  }

  lemma NoFields()
    ensures forall id: nat :: Scalar([], id) == 0
    ensures forall id: nat :: Blobs([], id) == []
  {
  }

  /** Read each of a list of records, or fail. */
  function ReadAll<T>(blobs: seq<seq<byte>>, read: seq<byte> -> Option<T>): Option<seq<T>> {
    if blobs == [] then Some([])
    else
      match ReadAll(blobs[..|blobs| - 1], read)
      case None => None
      case Some(xs) =>
        match read(blobs[|blobs| - 1])
        case None => None
        case Some(x) => Some(xs + [x])
  }

  lemma {:induction false} ReadAllOf<T>(blobs: seq<seq<byte>>, read: seq<byte> -> Option<T>, xs: seq<T>)
    requires |blobs| == |xs| && forall i: nat :: i < |xs| ==> read(blobs[i]) == Some(xs[i])
    ensures ReadAll(blobs, read) == Some(xs)
  {
    if blobs != [] {
      var n := |xs| - 1;
      ReadAllOf(blobs[..n], read, xs[..n]);
      assert xs == xs[..n] + [xs[n]];
    }
  }

  // ---------- messages ----------

  function ValueTypeFields(kind: nat, unit: nat): seq<Field> {
    Push(Push([], true, Number(1, kind)), true, Number(2, unit))
  }

  function ReadValueType(data: seq<byte>): Option<ValueType> {
    match Decode(data)
    case None => None
    case Some(fs) => Some(ValueType(Scalar(fs, 1), Scalar(fs, 2)))
  }

  lemma ValueTypeRoundTrip(kind: nat, unit: nat)
    requires kind < WORD && unit < WORD
    ensures ReadValueType(Encode(ValueTypeFields(kind, unit))) == Some(ValueType(kind, unit))
  {
    NoFields();
    Pushed([], true, Number(1, kind));
    Pushed(Push([], true, Number(1, kind)), true, Number(2, unit));
    MessageRoundTrip(ValueTypeFields(kind, unit));
  }

  function UnsignedAll(vs: seq<int>): (r: seq<nat>)
    requires forall i: nat :: i < |vs| ==> Int64(vs[i])
    ensures |r| == |vs|
  {
    seq(|vs|, i requires 0 <= i < |vs| => Unsigned(vs[i]))
  }

  function SignedAll(us: seq<nat>): seq<int> { seq(|us|, i requires 0 <= i < |us| => Signed(us[i])) }

  predicate SampleOk(s: ExportSample) {
    && (forall i: nat :: i < |s.locations| ==> s.locations[i] < WORD)
    && (forall i: nat :: i < |s.values| ==> Int64(s.values[i]))
  }

  function SampleFields(s: ExportSample): seq<Field>
    requires SampleOk(s)
  {
    Push(Push([], true, Bytes(1, Packed(s.locations))), true, Bytes(2, Packed(UnsignedAll(s.values))))
  }

  /** Packed numbers may come in several pieces; together they are the list. */
  function UnpackAll(blobs: seq<seq<byte>>): Option<seq<nat>> {
    if blobs == [] then Some([])
    else
      match UnpackAll(blobs[..|blobs| - 1])
      case None => None
      case Some(xs) =>
        match Unpack(blobs[|blobs| - 1])
        case None => None
        case Some(ys) => Some(xs + ys)
  }

  function ReadSample(data: seq<byte>): Option<Sample> {
    match Decode(data)
    case None => None
    case Some(fs) =>
      var locations, values := UnpackAll(Blobs(fs, 1)), UnpackAll(Blobs(fs, 2));
      if locations.None? || values.None? then None else Some(Sample(locations.value, SignedAll(values.value)))
  }

  lemma UnpackOne(xs: seq<nat>)
    requires Words(xs)
    ensures UnpackAll([Packed(xs)]) == Some(xs)
  {
    PackedRoundTrip(xs);
    assert [Packed(xs)][..0] == [];
    assert UnpackAll([]) == Some([]);
    assert [] + xs == xs;
  }

  lemma SampleLookups(s: ExportSample)
    requires SampleOk(s) && |Packed(s.locations)| < WORD && |Packed(UnsignedAll(s.values))| < WORD
    ensures var fs := SampleFields(s);
      AllWritable(fs) && Blobs(fs, 1) == [Packed(s.locations)] && Blobs(fs, 2) == [Packed(UnsignedAll(s.values))]
  {
    NoFields();
    Pushed([], true, Bytes(1, Packed(s.locations)));
    Pushed(Push([], true, Bytes(1, Packed(s.locations))), true, Bytes(2, Packed(UnsignedAll(s.values))));
  }

  lemma SampleRead(data: seq<byte>, fs: seq<Field>, locations: seq<nat>, values: seq<nat>)
    requires Decode(data) == Some(fs) && Words(locations) && Words(values)
    requires Blobs(fs, 1) == [Packed(locations)] && Blobs(fs, 2) == [Packed(values)]
    ensures ReadSample(data) == Some(Sample(locations, SignedAll(values)))
  {
    UnpackOne(locations);
    UnpackOne(values);
  }

  lemma SampleRoundTrip(s: ExportSample)
    requires SampleOk(s) && |Packed(s.locations)| < WORD && |Packed(UnsignedAll(s.values))| < WORD
    ensures ReadSample(Encode(SampleFields(s))) == Some(Sample(s.locations, s.values))
  {
    SampleLookups(s);
    MessageRoundTrip(SampleFields(s));
    SampleRead(Encode(SampleFields(s)), SampleFields(s), s.locations, UnsignedAll(s.values));
    SignedAllRoundTrip(s.values);
  }

  lemma SignedAllRoundTrip(vs: seq<int>)
    requires forall i: nat :: i < |vs| ==> Int64(vs[i])
    ensures SignedAll(UnsignedAll(vs)) == vs
  {
  }

  predicate MappingOk(m: ExportMapping) {
    m.id < WORD && m.start < WORD && m.limit < WORD && m.offset < WORD && m.filename < WORD
  }

  function MappingRange(m: ExportMapping): seq<Field> {
    var a := Push([], true, Number(1, m.id));
    var b := Push(a, m.start != 0, Number(2, m.start));
    var c := Push(b, m.limit != 0, Number(3, m.limit));
    Push(c, m.offset != 0, Number(4, m.offset))
  }

  function MappingFields(m: ExportMapping): seq<Field> {
    var e := Push(MappingRange(m), true, Number(5, m.filename));
    var f := Push(e, m.hasFunctions, Number(7, 1));
    var g := Push(f, m.hasFilenames, Number(8, 1));
    Push(g, m.hasLineNumbers, Number(9, 1))
  }

  function ReadMapping(data: seq<byte>): Option<Mapping> {
    match Decode(data)
    case None => None
    case Some(fs) =>
      Some(Mapping(Scalar(fs, 1), Scalar(fs, 2), Scalar(fs, 3), Scalar(fs, 4), Scalar(fs, 5),
                   Scalar(fs, 7) != 0, Scalar(fs, 8) != 0, Scalar(fs, 9) != 0))
  }

  lemma MappingRangeLookups(m: ExportMapping)
    requires MappingOk(m)
    ensures var fs := MappingRange(m);
      && AllWritable(fs) && Scalar(fs, 1) == m.id && Scalar(fs, 2) == m.start && Scalar(fs, 3) == m.limit
      && Scalar(fs, 4) == m.offset && Scalar(fs, 7) == 0 && Scalar(fs, 8) == 0 && Scalar(fs, 9) == 0
  {
    NoFields();
    var a := Push([], true, Number(1, m.id));
    Pushed([], true, Number(1, m.id));
    var b := Push(a, m.start != 0, Number(2, m.start));
    Pushed(a, m.start != 0, Number(2, m.start));
    var c := Push(b, m.limit != 0, Number(3, m.limit));
    Pushed(b, m.limit != 0, Number(3, m.limit));
    Pushed(c, m.offset != 0, Number(4, m.offset));
  }

  lemma MappingLookups(m: ExportMapping)
    requires MappingOk(m)
    ensures var fs := MappingFields(m);
      && AllWritable(fs) && Scalar(fs, 1) == m.id && Scalar(fs, 2) == m.start && Scalar(fs, 3) == m.limit
      && Scalar(fs, 4) == m.offset && Scalar(fs, 5) == m.filename
      && (Scalar(fs, 7) != 0 <==> m.hasFunctions) && (Scalar(fs, 8) != 0 <==> m.hasFilenames)
      && (Scalar(fs, 9) != 0 <==> m.hasLineNumbers)
  {
    MappingRangeLookups(m);
    var d := MappingRange(m);
    var e := Push(d, true, Number(5, m.filename));
    Pushed(d, true, Number(5, m.filename));
    var f := Push(e, m.hasFunctions, Number(7, 1));
    Pushed(e, m.hasFunctions, Number(7, 1));
    var g := Push(f, m.hasFilenames, Number(8, 1));
    Pushed(f, m.hasFilenames, Number(8, 1));
    Pushed(g, m.hasLineNumbers, Number(9, 1));
  }

  lemma MappingRoundTrip(m: ExportMapping)
    requires MappingOk(m)
    ensures ReadMapping(Encode(MappingFields(m))) ==
            Some(Mapping(m.id, m.start, m.limit, m.offset, m.filename, m.hasFunctions, m.hasFilenames,
                         m.hasLineNumbers))
  {
    MappingLookups(m);
    MessageRoundTrip(MappingFields(m));
  }

  function LineFields(function_: nat, line: int): seq<Field>
    requires Int64(line)
  {
    Push(Push([], true, Number(1, function_)), line != 0, Number(2, Unsigned(line)))
  }

  function ReadLine(data: seq<byte>): Option<Line> {
    match Decode(data)
    case None => None
    case Some(fs) => Some(Line(Scalar(fs, 1), Signed(Scalar(fs, 2))))
  }

  lemma LineRoundTrip(function_: nat, line: int)
    requires function_ < WORD && Int64(line)
    ensures ReadLine(Encode(LineFields(function_, line))) == Some(Line(function_, line))
  {
    NoFields();
    Pushed([], true, Number(1, function_));
    Pushed(Push([], true, Number(1, function_)), line != 0, Number(2, Unsigned(line)));
    MessageRoundTrip(LineFields(function_, line));
    SignedRoundTrip(line);
  }

  /** A location with the ids its indices stand for. */
  function LocationFields(l: ExportLocation, mapping: nat, function_: nat): seq<Field>
    requires Int64(l.line)
  {
    var a := Push([], true, Number(1, l.id));
    var b := Push(a, true, Number(2, mapping));
    var c := Push(b, l.address != 0, Number(3, l.address));
    Push(c, true, Bytes(4, Encode(LineFields(function_, l.line))))
  }

  function ReadLocation(data: seq<byte>): Option<Location> {
    match Decode(data)
    case None => None
    case Some(fs) =>
      match ReadAll(Blobs(fs, 4), ReadLine)
      case None => None
      case Some(lines) => Some(Location(Scalar(fs, 1), Scalar(fs, 2), Scalar(fs, 3), lines))
  }

  lemma LocationRoundTrip(l: ExportLocation, mapping: nat, function_: nat)
    requires l.id < WORD && l.address < WORD && Int64(l.line) && mapping < WORD && function_ < WORD
    requires |Encode(LineFields(function_, l.line))| < WORD
    ensures ReadLocation(Encode(LocationFields(l, mapping, function_))) ==
            Some(Location(l.id, mapping, l.address, [Line(function_, l.line)]))
  {
    LocationLookups(l, mapping, function_);
    MessageRoundTrip(LocationFields(l, mapping, function_));
    OneLine(function_, l.line);
  }

  lemma LocationLookups(l: ExportLocation, mapping: nat, function_: nat)
    requires l.id < WORD && l.address < WORD && Int64(l.line) && mapping < WORD && function_ < WORD
    requires |Encode(LineFields(function_, l.line))| < WORD
    ensures var fs := LocationFields(l, mapping, function_);
      && AllWritable(fs) && Scalar(fs, 1) == l.id && Scalar(fs, 2) == mapping && Scalar(fs, 3) == l.address
      && Blobs(fs, 4) == [Encode(LineFields(function_, l.line))]
  {
    var line := Encode(LineFields(function_, l.line));
    NoFields();
    var a := Push([], true, Number(1, l.id));
    Pushed([], true, Number(1, l.id));
    var b := Push(a, true, Number(2, mapping));
    Pushed(a, true, Number(2, mapping));
    var c := Push(b, l.address != 0, Number(3, l.address));
    Pushed(b, l.address != 0, Number(3, l.address));
    Pushed(c, true, Bytes(4, line));
  }

  lemma OneLine(function_: nat, line: int)
    requires function_ < WORD && Int64(line)
    ensures ReadAll([Encode(LineFields(function_, line))], ReadLine) == Some([Line(function_, line)])
  {
    LineRoundTrip(function_, line);
    ReadAllOf([Encode(LineFields(function_, line))], ReadLine, [Line(function_, line)]);
  }

  predicate FunctionOk(f: ExportFunction) {
    f.id < WORD && f.name < WORD && f.filename < WORD && Int64(f.linedefined)
  }

  function FunctionFields(f: ExportFunction): seq<Field>
    requires Int64(f.linedefined)
  {
    var a := Push([], true, Number(1, f.id));
    var b := Push(a, true, Number(2, f.name));
    var c := Push(b, true, Number(3, f.name));
    var d := Push(c, true, Number(4, f.filename));
    Push(d, f.linedefined > 0, Number(5, Unsigned(f.linedefined)))
  }

  function ReadFunction(data: seq<byte>): Option<Function> {
    match Decode(data)
    case None => None
    case Some(fs) =>
      Some(Function(Scalar(fs, 1), Scalar(fs, 2), Scalar(fs, 3), Scalar(fs, 4), Signed(Scalar(fs, 5))))
  }

  /** The system name is the name again, and a start line is kept only if positive. */
  lemma FunctionRoundTrip(f: ExportFunction)
    requires FunctionOk(f)
    ensures ReadFunction(Encode(FunctionFields(f))) ==
            Some(Function(f.id, f.name, f.name, f.filename, if f.linedefined > 0 then f.linedefined else 0))
  {
    NoFields();
    var a := Push([], true, Number(1, f.id));
    Pushed([], true, Number(1, f.id));
    var b := Push(a, true, Number(2, f.name));
    Pushed(a, true, Number(2, f.name));
    var c := Push(b, true, Number(3, f.name));
    Pushed(b, true, Number(3, f.name));
    var d := Push(c, true, Number(4, f.filename));
    Pushed(c, true, Number(4, f.filename));
    Pushed(d, f.linedefined > 0, Number(5, Unsigned(f.linedefined)));
    MessageRoundTrip(FunctionFields(f));
  }
}
