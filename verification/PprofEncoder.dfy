/** encode_profile of src/pprof_exporter.c and the emit functions under it: out of
    memory anywhere gives false; otherwise the bytes read back as the model. */
module PprofEncoder {
  import opened Common
  import opened Wire
  import opened Buffers
  import opened Pprof
  import opened PprofProfile

  /** The buffer holds these fields, unless memory ran out on the way to them. */
  ghost predicate Holds(b: Buffer, fs: seq<Field>)
    reads b, b.data
  {
    b.Valid() && if b.failed then Starved(b.ample, |Encode(fs)|) else b.Content() == Encode(fs)
  }

  lemma EncodePush(fs: seq<Field>, c: bool, f: Field)
    ensures Encode(Push(fs, c, f)) == if c then Encode(fs) + EncodeField(f) else Encode(fs)
  {
    if c {
      assert (fs + [f])[..|fs|] == fs;
    }
  }

  lemma FieldLength(f: Field)
    requires f.Bytes?
    ensures |EncodeField(f)| >= |f.data|
  {
  }

  method Start(ample: bool) returns (b: Buffer)
    ensures fresh(b) && fresh(b.data) && Holds(b, []) && b.size == 0 && b.ample == ample && !b.failed
  {
    b := new Buffer(ample);
  }

  /** A number field, where the program writes it. */
  method PutNumber(b: Buffer, ghost fs: seq<Field>, c: bool, id: nat, value: nat)
    requires Holds(b, fs) && 0 < id < 0x2000_0000 && value < WORD
    modifies b, b.data
    ensures Holds(b, Push(fs, c, Number(id, value))) && (b.data == old(b.data) || fresh(b.data))
    ensures old(b.failed) ==> b.failed
  {
    EncodePush(fs, c, Number(id, value));
    if c {
      b.FieldVarint(id, value);
    }
  }

  /** A record: the nested buffer goes in, and so does its failure. */
  method PutMessage(b: Buffer, ghost fs: seq<Field>, id: nat, message: Buffer, ghost inner: seq<Field>)
    requires Holds(b, fs) && Holds(message, inner) && 0 < id < 0x2000_0000
    requires message != b && message.data != b.data && message.ample == b.ample
    modifies b, b.data
    ensures Holds(b, fs + [Bytes(id, Encode(inner))]) && (b.data == old(b.data) || fresh(b.data))
    ensures old(b.failed) || message.failed ==> b.failed
    ensures !b.failed ==> |Encode(inner)| < WORD
  {
    EncodePush(fs, true, Bytes(id, Encode(inner)));
    FieldLength(Bytes(id, Encode(inner)));
    b.FieldMessage(id, message);
    if message.failed {
      b.failed := true;
    }
  }

  /** emit_value_type. */
  method EmitValueType(profile: Buffer, ghost fs: seq<Field>, id: nat, kind: nat, unit: nat)
    requires Holds(profile, fs) && 0 < id < 0x2000_0000 && kind < WORD && unit < WORD
    modifies profile, profile.data
    ensures Holds(profile, fs + [Bytes(id, Encode(ValueTypeFields(kind, unit)))])
    ensures profile.data == old(profile.data) || fresh(profile.data)
    ensures old(profile.failed) ==> profile.failed
    ensures !profile.failed ==> |Encode(ValueTypeFields(kind, unit))| < WORD
  {
    var value := Start(profile.ample);
    PutNumber(value, [], true, 1, kind);
    PutNumber(value, Push([], true, Number(1, kind)), true, 2, unit);
    PutMessage(profile, fs, id, value, ValueTypeFields(kind, unit));
  }

  /** The two loops of emit_sample. */
  method AppendPacked(packed: Buffer, xs: seq<nat>)
    requires packed.Valid() && packed.size == 0 && Words(xs)
    modifies packed, packed.data
    ensures packed.Valid() && (packed.data == old(packed.data) || fresh(packed.data))
    ensures old(packed.failed) ==> packed.failed
    ensures !packed.failed ==> packed.Content() == Packed(xs) && |Packed(xs)| < WORD
    ensures packed.failed ==> old(packed.failed) || Starved(packed.ample, |Packed(xs)|)
  {
    for i := 0 to |xs|
      invariant packed.Valid() && (packed.data == old(packed.data) || fresh(packed.data))
      invariant old(packed.failed) ==> packed.failed
      invariant !packed.failed ==> packed.Content() == Packed(xs[..i])
      invariant packed.failed ==> old(packed.failed) || Starved(packed.ample, |Packed(xs[..i])|)
    {
      packed.AppendVarint(xs[i]);
      assert xs[..i + 1][..i] == xs[..i];
    }
    assert xs[..|xs|] == xs;
  }

  /** Numbers packed into a field; a failure of the scratch buffer is noted later. */
  method PutPacked(b: Buffer, ghost fs: seq<Field>, id: nat, packed: Buffer, xs: seq<nat>)
    requires b.Valid() && (!b.failed && !packed.failed ==> b.Content() == Encode(fs))
    requires packed.Valid() && packed.size == 0 && Words(xs) && 0 < id < 0x2000_0000
    requires packed != b && packed.data != b.data && packed.ample == b.ample
    modifies b, b.data, packed, packed.data
    ensures b.Valid() && packed.Valid() && packed.data != b.data
    ensures (b.data == old(b.data) || fresh(b.data)) && (packed.data == old(packed.data) || fresh(packed.data))
    ensures (old(b.failed) ==> b.failed) && (old(packed.failed) ==> packed.failed)
    ensures if b.failed || packed.failed
            then old(b.failed) || old(packed.failed) || Starved(b.ample, |Encode(fs + [Bytes(id, Packed(xs))])|)
            else b.Content() == Encode(fs + [Bytes(id, Packed(xs))]) && |Packed(xs)| < WORD
  {
    AppendPacked(packed, xs);
    EncodePush(fs, true, Bytes(id, Packed(xs)));
    FieldLength(Bytes(id, Packed(xs)));
    b.FieldMessage(id, packed);
  }

  /** emit_sample. */
  method EmitSample(profile: Buffer, ghost fs: seq<Field>, s: ExportSample, ghost blob: seq<byte>)
    requires Holds(profile, fs) && SampleBlob(s, blob)
    modifies profile, profile.data
    ensures Holds(profile, fs + [Bytes(2, blob)])
    ensures profile.data == old(profile.data) || fresh(profile.data)
    ensures old(profile.failed) ==> profile.failed
    ensures !profile.failed ==> SampleFits(s) && |blob| < WORD
  {
    var message := SampleMessage(s, profile.ample);
    PutMessage(profile, fs, 2, message, SampleFields(s));
  }

  method SampleMessage(s: ExportSample, ample: bool) returns (message: Buffer)
    requires SampleOk(s)
    ensures fresh(message) && fresh(message.data) && Holds(message, SampleFields(s)) && message.ample == ample
    ensures !message.failed ==> SampleFits(s)
  {
    message := Start(ample);
    var packed := Start(ample);
    PutPacked(message, [], 1, packed, s.locations);
    PutValues(message, packed, s);
  }

  method PutValues(message: Buffer, packed: Buffer, s: ExportSample)
    requires SampleOk(s) && message.Valid() && packed.Valid() && packed != message && packed.data != message.data
    requires packed.ample == message.ample
    requires if message.failed || packed.failed then Starved(message.ample, |Encode([Bytes(1, Packed(s.locations))])|)
             else message.Content() == Encode([Bytes(1, Packed(s.locations))]) && |Packed(s.locations)| < WORD
    modifies message, message.data, packed, packed.data
    ensures Holds(message, SampleFields(s)) && (message.data == old(message.data) || fresh(message.data))
    ensures !message.failed ==> SampleFits(s)
  {
    packed.size := 0;
    ghost var locations := Bytes(1, Packed(s.locations));
    ghost var fs := [locations];
    EncodePush(fs, true, Bytes(2, Packed(UnsignedAll(s.values))));
    assert Push([], true, locations) == fs;
    PutPacked(message, fs, 2, packed, UnsignedAll(s.values));
    if packed.failed {
      message.failed := true;
    }
  }

  /** emit_mapping. */
  method EmitMapping(profile: Buffer, ghost fs: seq<Field>, m: ExportMapping, ghost blob: seq<byte>)
    requires Holds(profile, fs) && MappingBlob(m, blob)
    modifies profile, profile.data
    ensures Holds(profile, fs + [Bytes(3, blob)])
    ensures profile.data == old(profile.data) || fresh(profile.data)
    ensures old(profile.failed) ==> profile.failed
    ensures !profile.failed ==> |blob| < WORD
  {
    var message := MappingMessage(m, profile.ample);
    PutMessage(profile, fs, 3, message, MappingFields(m));
  }

  method MappingRangeMessage(m: ExportMapping, ample: bool) returns (message: Buffer)
    requires MappingOk(m)
    ensures fresh(message) && fresh(message.data) && Holds(message, MappingRange(m)) && message.ample == ample
  {
    message := Start(ample);
    ghost var a := Push([], true, Number(1, m.id));
    PutNumber(message, [], true, 1, m.id);
    ghost var b := Push(a, m.start != 0, Number(2, m.start));
    PutNumber(message, a, m.start != 0, 2, m.start);
    ghost var c := Push(b, m.limit != 0, Number(3, m.limit));
    PutNumber(message, b, m.limit != 0, 3, m.limit);
    PutNumber(message, c, m.offset != 0, 4, m.offset);
  }

  method MappingMessage(m: ExportMapping, ample: bool) returns (message: Buffer)
    requires MappingOk(m)
    ensures fresh(message) && fresh(message.data) && Holds(message, MappingFields(m)) && message.ample == ample
  {
    message := MappingRangeMessage(m, ample);
    ghost var e := Push(MappingRange(m), true, Number(5, m.filename));
    PutNumber(message, MappingRange(m), true, 5, m.filename);
    ghost var f := Push(e, m.hasFunctions, Number(7, 1));
    PutNumber(message, e, m.hasFunctions, 7, 1);
    ghost var g := Push(f, m.hasFilenames, Number(8, 1));
    PutNumber(message, f, m.hasFilenames, 8, 1);
    PutNumber(message, g, m.hasLineNumbers, 9, 1);
  }

  /** emit_location. */
  method EmitLocation(profile: Buffer, ghost fs: seq<Field>, m: Model, l: ExportLocation, ghost blob: seq<byte>)
    requires Holds(profile, fs) && LocationBlob(m, l, blob)
    modifies profile, profile.data
    ensures Holds(profile, fs + [Bytes(4, blob)])
    ensures profile.data == old(profile.data) || fresh(profile.data)
    ensures old(profile.failed) ==> profile.failed
    ensures !profile.failed ==> LocationFits(m, l) && |blob| < WORD
  {
    var message := LocationMessage(l, m.mappings[l.mappingIndex].id, m.functions[l.functionIndex].id, profile.ample);
    PutMessage(profile, fs, 4, message,
               LocationFields(l, m.mappings[l.mappingIndex].id, m.functions[l.functionIndex].id));
  }

  method LineMessage(function_: nat, line: int, ample: bool) returns (message: Buffer)
    requires function_ < WORD && Int64(line)
    ensures fresh(message) && fresh(message.data) && Holds(message, LineFields(function_, line))
              && message.ample == ample
  {
    message := Start(ample);
    PutNumber(message, [], true, 1, function_);
    PutNumber(message, Push([], true, Number(1, function_)), line != 0, 2, Unsigned(line));
  }

  method LocationMessage(l: ExportLocation, mapping: nat, function_: nat, ample: bool) returns (message: Buffer)
    requires l.id < WORD && l.address < WORD && Int64(l.line) && mapping < WORD && function_ < WORD
    ensures fresh(message) && fresh(message.data) && Holds(message, LocationFields(l, mapping, function_))
              && message.ample == ample
    ensures !message.failed ==> |Encode(LineFields(function_, l.line))| < WORD
  {
    message := Start(ample);
    ghost var a := Push([], true, Number(1, l.id));
    PutNumber(message, [], true, 1, l.id);
    ghost var b := Push(a, true, Number(2, mapping));
    PutNumber(message, a, true, 2, mapping);
    ghost var c := Push(b, l.address != 0, Number(3, l.address));
    PutNumber(message, b, l.address != 0, 3, l.address);
    var line := LineMessage(function_, l.line, ample);
    PutMessage(message, c, 4, line, LineFields(function_, l.line));
  }

  /** emit_function. */
  method EmitFunction(profile: Buffer, ghost fs: seq<Field>, f: ExportFunction, ghost blob: seq<byte>)
    requires Holds(profile, fs) && FunctionBlob(f, blob)
    modifies profile, profile.data
    ensures Holds(profile, fs + [Bytes(5, blob)])
    ensures profile.data == old(profile.data) || fresh(profile.data)
    ensures old(profile.failed) ==> profile.failed
    ensures !profile.failed ==> |blob| < WORD
  {
    var message := FunctionMessage(f, profile.ample);
    PutMessage(profile, fs, 5, message, FunctionFields(f));
  }

  method FunctionMessage(f: ExportFunction, ample: bool) returns (message: Buffer)
    requires FunctionOk(f)
    ensures fresh(message) && fresh(message.data) && Holds(message, FunctionFields(f)) && message.ample == ample
  {
    message := Start(ample);
    ghost var a := Push([], true, Number(1, f.id));
    PutNumber(message, [], true, 1, f.id);
    ghost var b := Push(a, true, Number(2, f.name));
    PutNumber(message, a, true, 2, f.name);
    ghost var c := Push(b, true, Number(3, f.name));
    PutNumber(message, b, true, 3, f.name);
    ghost var d := Push(c, true, Number(4, f.filename));
    PutNumber(message, c, true, 4, f.filename);
    PutNumber(message, d, f.linedefined > 0, 5, Unsigned(f.linedefined));
  }

  lemma NoneMore(fs: seq<Field>, id: nat, blobs: seq<seq<byte>>)
    ensures fs + Records(id, blobs[..0]) == fs
  {
  }

  lemma OneMore(fs: seq<Field>, id: nat, blobs: seq<seq<byte>>, i: nat)
    requires i < |blobs|
    ensures fs + Records(id, blobs[..i]) + [Bytes(id, blobs[i])] == fs + Records(id, blobs[..i + 1])
  {
  }

  ghost predicate SampleBlob(s: ExportSample, blob: seq<byte>) { SampleOk(s) && blob == Encode(SampleFields(s)) }

  ghost predicate MappingBlob(m: ExportMapping, blob: seq<byte>) { MappingOk(m) && blob == Encode(MappingFields(m)) }
  ghost predicate FunctionBlob(f: ExportFunction, blob: seq<byte>) {
    FunctionOk(f) && blob == Encode(FunctionFields(f))
  }

  ghost predicate LocationBlob(m: Model, l: ExportLocation, blob: seq<byte>) {
    LocationOk(m, l) && blob == LocationBytes(m, l)
  }

  ghost predicate SamplesDone(ok: bool, samples: seq<ExportSample>, blobs: seq<seq<byte>>, n: nat) {
    ok ==> n <= |blobs| && n <= |samples| && forall j: nat :: j < n ==>
        |blobs[j]| < WORD && SampleOk(samples[j]) && SampleFits(samples[j])
  }

  lemma SampleDone(ok: bool, samples: seq<ExportSample>, blobs: seq<seq<byte>>, n: nat)
    requires SamplesDone(ok, samples, blobs, n) && n < |blobs| && n < |samples|
    requires ok ==> |blobs[n]| < WORD && SampleOk(samples[n]) && SampleFits(samples[n])
    ensures SamplesDone(ok, samples, blobs, n + 1)
  {
  }

  method EmitSamples(profile: Buffer, ghost fs: seq<Field>, samples: seq<ExportSample>, ghost blobs: seq<seq<byte>>)
    requires Holds(profile, fs) && |blobs| == |samples|
    requires forall i: nat :: i < |samples| ==> SampleBlob(samples[i], blobs[i])
    modifies profile, profile.data
    ensures Holds(profile, fs + Records(2, blobs)) && (profile.data == old(profile.data) || fresh(profile.data))
    ensures old(profile.failed) ==> profile.failed
    ensures SamplesDone(!profile.failed, samples, blobs, |blobs|)
  {
    NoneMore(fs, 2, blobs);
    for i := 0 to |samples|
      invariant profile.data == old(profile.data) || fresh(profile.data)
      invariant Holds(profile, fs + Records(2, blobs[..i])) && (old(profile.failed) ==> profile.failed)
      invariant SamplesDone(!profile.failed, samples, blobs, i)
    {
      OneMore(fs, 2, blobs, i);
      EmitSample(profile, fs + Records(2, blobs[..i]), samples[i], blobs[i]);
      SampleDone(!profile.failed, samples, blobs, i);
    }
    assert blobs[..|blobs|] == blobs;
  }

  ghost predicate MappingsDone(ok: bool, mappings: seq<ExportMapping>, blobs: seq<seq<byte>>, n: nat) {
    ok ==> n <= |blobs| && n <= |mappings| && forall j: nat :: j < n ==> |blobs[j]| < WORD
  }

  lemma MappingDone(ok: bool, mappings: seq<ExportMapping>, blobs: seq<seq<byte>>, n: nat)
    requires MappingsDone(ok, mappings, blobs, n) && n < |blobs| && n < |mappings|
    requires ok ==> |blobs[n]| < WORD
    ensures MappingsDone(ok, mappings, blobs, n + 1)
  {
  }

  method EmitMappings(profile: Buffer, ghost fs: seq<Field>, mappings: seq<ExportMapping>, ghost blobs: seq<seq<byte>>)
    requires Holds(profile, fs) && |blobs| == |mappings|
    requires forall i: nat :: i < |mappings| ==> MappingBlob(mappings[i], blobs[i])
    modifies profile, profile.data
    ensures Holds(profile, fs + Records(3, blobs)) && (profile.data == old(profile.data) || fresh(profile.data))
    ensures old(profile.failed) ==> profile.failed
    ensures MappingsDone(!profile.failed, mappings, blobs, |blobs|)
  {
    NoneMore(fs, 3, blobs);
    for i := 0 to |mappings|
      invariant profile.data == old(profile.data) || fresh(profile.data)
      invariant Holds(profile, fs + Records(3, blobs[..i])) && (old(profile.failed) ==> profile.failed)
      invariant MappingsDone(!profile.failed, mappings, blobs, i)
    {
      OneMore(fs, 3, blobs, i);
      EmitMapping(profile, fs + Records(3, blobs[..i]), mappings[i], blobs[i]);
      MappingDone(!profile.failed, mappings, blobs, i);
    }
    assert blobs[..|blobs|] == blobs;
  }

  ghost predicate LocationsDone(ok: bool, m: Model, blobs: seq<seq<byte>>, n: nat) {
    ok ==> n <= |blobs| && n <= |m.locations| && forall j: nat :: j < n ==>
        |blobs[j]| < WORD && LocationOk(m, m.locations[j]) && LocationFits(m, m.locations[j])
  }

  lemma LocationDone(ok: bool, m: Model, blobs: seq<seq<byte>>, n: nat)
    requires LocationsDone(ok, m, blobs, n) && n < |blobs| && n < |m.locations|
    requires ok ==> |blobs[n]| < WORD && LocationOk(m, m.locations[n]) && LocationFits(m, m.locations[n])
    ensures LocationsDone(ok, m, blobs, n + 1)
  {
  }

  method EmitLocations(profile: Buffer, ghost fs: seq<Field>, m: Model, ghost blobs: seq<seq<byte>>)
    requires Holds(profile, fs) && |blobs| == |m.locations|
    requires forall i: nat :: i < |m.locations| ==> LocationBlob(m, m.locations[i], blobs[i])
    modifies profile, profile.data
    ensures Holds(profile, fs + Records(4, blobs)) && (profile.data == old(profile.data) || fresh(profile.data))
    ensures old(profile.failed) ==> profile.failed
    ensures LocationsDone(!profile.failed, m, blobs, |blobs|)
  {
    NoneMore(fs, 4, blobs);
    for i := 0 to |m.locations|
      invariant profile.data == old(profile.data) || fresh(profile.data)
      invariant Holds(profile, fs + Records(4, blobs[..i])) && (old(profile.failed) ==> profile.failed)
      invariant LocationsDone(!profile.failed, m, blobs, i)
    {
      OneMore(fs, 4, blobs, i);
      EmitLocation(profile, fs + Records(4, blobs[..i]), m, m.locations[i], blobs[i]);
      LocationDone(!profile.failed, m, blobs, i);
    }
    assert blobs[..|blobs|] == blobs;
  }

  ghost predicate FunctionsDone(ok: bool, functions: seq<ExportFunction>, blobs: seq<seq<byte>>, n: nat) {
    ok ==> n <= |blobs| && n <= |functions| && forall j: nat :: j < n ==> |blobs[j]| < WORD
  }

  lemma FunctionDone(ok: bool, functions: seq<ExportFunction>, blobs: seq<seq<byte>>, n: nat)
    requires FunctionsDone(ok, functions, blobs, n) && n < |blobs| && n < |functions|
    requires ok ==> |blobs[n]| < WORD
    ensures FunctionsDone(ok, functions, blobs, n + 1)
  {
  }

  method EmitFunctions(profile: Buffer, ghost fs: seq<Field>, functions: seq<ExportFunction>,
                       ghost blobs: seq<seq<byte>>)
    requires Holds(profile, fs) && |blobs| == |functions|
    requires forall i: nat :: i < |functions| ==> FunctionBlob(functions[i], blobs[i])
    modifies profile, profile.data
    ensures Holds(profile, fs + Records(5, blobs)) && (profile.data == old(profile.data) || fresh(profile.data))
    ensures old(profile.failed) ==> profile.failed
    ensures FunctionsDone(!profile.failed, functions, blobs, |blobs|)
  {
    NoneMore(fs, 5, blobs);
    for i := 0 to |functions|
      invariant profile.data == old(profile.data) || fresh(profile.data)
      invariant Holds(profile, fs + Records(5, blobs[..i])) && (old(profile.failed) ==> profile.failed)
      invariant FunctionsDone(!profile.failed, functions, blobs, i)
    {
      OneMore(fs, 5, blobs, i);
      EmitFunction(profile, fs + Records(5, blobs[..i]), functions[i], blobs[i]);
      FunctionDone(!profile.failed, functions, blobs, i);
    }
    assert blobs[..|blobs|] == blobs;
  }

  method PutString(b: Buffer, ghost fs: seq<Field>, id: nat, text: seq<byte>)
    requires Holds(b, fs) && 0 < id < 0x2000_0000 && |text| < WORD
    modifies b, b.data
    ensures Holds(b, fs + [Bytes(id, text)]) && (b.data == old(b.data) || fresh(b.data))
    ensures old(b.failed) ==> b.failed
  {
    EncodePush(fs, true, Bytes(id, text));
    b.FieldBytes(id, text);
  }

  method EmitStrings(profile: Buffer, ghost fs: seq<Field>, m: Model)
    requires Short(m.strings) && Holds(profile, fs)
    modifies profile, profile.data
    ensures Holds(profile, fs + Records(6, m.strings)) && (profile.data == old(profile.data) || fresh(profile.data))
    ensures old(profile.failed) ==> profile.failed
  {
    NoneMore(fs, 6, m.strings);
    for i := 0 to |m.strings|
      invariant profile.data == old(profile.data) || fresh(profile.data)
      invariant Holds(profile, fs + Records(6, m.strings[..i])) && (old(profile.failed) ==> profile.failed)
    {
      OneMore(fs, 6, m.strings, i);
      PutString(profile, fs + Records(6, m.strings[..i]), 6, m.strings[i]);
    }
    assert m.strings[..|m.strings|] == m.strings;
  }

  lemma OneMoreCount(fs: seq<Field>, id: nat, xs: seq<nat>, i: nat)
    requires i < |xs|
    ensures fs + Counts(id, xs[..i + 1]) == fs + Counts(id, xs[..i]) + [Number(id, xs[i])]
  {
  }

  method EmitComments(profile: Buffer, ghost fs: seq<Field>, comments: seq<nat>)
    requires Words(comments) && Holds(profile, fs)
    modifies profile, profile.data
    ensures Holds(profile, fs + Counts(13, comments)) && (profile.data == old(profile.data) || fresh(profile.data))
    ensures old(profile.failed) ==> profile.failed
  {
    assert fs + Counts(13, comments[..0]) == fs;
    for i := 0 to |comments|
      invariant profile.data == old(profile.data) || fresh(profile.data)
      invariant Holds(profile, fs + Counts(13, comments[..i])) && (old(profile.failed) ==> profile.failed)
    {
      OneMoreCount(fs, 13, comments, i);
      PutNumber(profile, fs + Counts(13, comments[..i]), true, 13, comments[i]);
    }
    assert comments[..|comments|] == comments;
  }

  /** A string as strcmp sees it: up to its first NUL. */
  function CString(s: seq<byte>): seq<byte> {
    if s == [] || s[0] == 0 then [] else [s[0]] + CString(s[1..])
  }

  /** The first string that compares equal to a unit. */
  ghost predicate FirstMatch(strings: seq<seq<byte>>, unit: seq<byte>, j: nat) {
    j < |strings| && CString(strings[j]) == unit && forall i: nat :: i < j ==> CString(strings[i]) != unit
  }

  ghost predicate NoMatch(strings: seq<seq<byte>>, unit: seq<byte>) {
    forall i: nat :: i < |strings| ==> CString(strings[i]) != unit
  }

  method FindUnit(strings: seq<seq<byte>>, unit: seq<byte>) returns (j: Option<nat>)
    ensures j.Some? ==> FirstMatch(strings, unit, j.value)
    ensures j.None? ==> NoMatch(strings, unit)
  {
    for i := 0 to |strings|
      invariant forall k: nat :: k < i ==> CString(strings[k]) != unit
    {
      if CString(strings[i]) == unit { return Some(i); }
    }
    j := None;
  }

  /** The units resolved so far and their value types. */
  ghost function TypeBlobs(m: Model, units: seq<nat>): (r: seq<seq<byte>>)
    requires |units| <= |m.sampleNames|
    ensures |r| == |units|
  {
    seq(|units|, i requires 0 <= i < |units| => Encode(ValueTypeFields(m.sampleNames[i], units[i])))
  }

  /** The state of the first loop of encode_profile. */
  ghost predicate TypesDone(m: Model, units: seq<nat>, ok: bool) {
    && |units| <= |m.sampleNames| == |m.sampleUnits| && Words(units)
    && (forall j: nat :: j < |units| ==> FirstMatch(m.strings, m.sampleUnits[j], units[j]))
    && (ok ==> Short(TypeBlobs(m, units)))
  }

  lemma TypeDone(m: Model, units: seq<nat>, unit: nat, ok: bool, ok': bool, blob: seq<byte>)
    requires TypesDone(m, units, ok) && |units| < |m.sampleNames| && unit < WORD && (ok' ==> ok)
    requires FirstMatch(m.strings, m.sampleUnits[|units|], unit) && (ok' ==> |blob| < WORD)
    requires TypeBlobs(m, units + [unit]) == TypeBlobs(m, units) + [blob]
    ensures TypesDone(m, units + [unit], ok')
  {
    if ok' {
      ShortAppended(TypeBlobs(m, units), blob);
    }
  }

  lemma ShortAppended(blobs: seq<seq<byte>>, blob: seq<byte>)
    requires Short(blobs) && |blob| < WORD
    ensures Short(blobs + [blob])
  {
  }

  method EmitValueTypes(profile: Buffer, m: Model) returns (found: bool, ghost units: seq<nat>)
    requires Built(m) && Holds(profile, [])
    modifies profile, profile.data
    ensures profile.Valid() && (profile.data == old(profile.data) || fresh(profile.data))
    ensures old(profile.failed) ==> profile.failed
    ensures !found ==> exists i: nat :: i < |m.sampleUnits| && NoMatch(m.strings, m.sampleUnits[i])
    ensures found ==>
              && |units| == |m.sampleUnits| && TypesDone(m, units, !profile.failed)
              && Holds(profile, [] + Records(1, TypeBlobs(m, units)))
  {
    units := [];
    for i := 0 to |m.sampleUnits|
      invariant profile.data == old(profile.data) || fresh(profile.data)
      invariant |units| == i && TypesDone(m, units, !profile.failed) && (old(profile.failed) ==> profile.failed)
      invariant Holds(profile, [] + Records(1, TypeBlobs(m, units)))
    {
      var unit := FindUnit(m.strings, m.sampleUnits[i]);
      if unit.None? {
        return false, units;
      }
      ghost var ok := !profile.failed;
      EmitValueType(profile, [] + Records(1, TypeBlobs(m, units)), 1, m.sampleNames[i], unit.value);
      TypeAppended(m, units, unit.value);
      RecordsAppended(1, TypeBlobs(m, units), Encode(ValueTypeFields(m.sampleNames[i], unit.value)));
      TypeDone(m, units, unit.value, ok, !profile.failed, Encode(ValueTypeFields(m.sampleNames[i], unit.value)));
      units := units + [unit.value];
    }
    found := true;
  }

  lemma TypeAppended(m: Model, units: seq<nat>, unit: nat)
    requires |units| < |m.sampleNames|
    ensures TypeBlobs(m, units + [unit]) == TypeBlobs(m,
                                                      units) + [Encode(ValueTypeFields(m.sampleNames[|units|], unit))]
  {
  }

  lemma RecordsAppended(id: nat, blobs: seq<seq<byte>>, blob: seq<byte>)
    ensures [] + Records(id, blobs + [blob]) == [] + Records(id, blobs) + [Bytes(id, blob)]
  {
  }

  /** encode_profile: false only if memory runs out or a unit has no string, and
      otherwise bytes a reader turns back into exactly the model. */
  method EncodeProfile(m: Model, profile: Buffer) returns (ok: bool, ghost units: seq<nat>)
    requires Built(m) && profile.Valid() && profile.size == 0 && !profile.failed
    modifies profile, profile.data
    ensures profile.Valid()
    ensures ok ==>
              && ModelOk(m, units)
                  && (forall i: nat :: i < |units| ==> FirstMatch(m.strings, m.sampleUnits[i], units[i]))
              && !profile.failed && ReadProfile(profile.Content()) == Some(View(m, units))
    ensures !ok ==>
              || (exists i: nat :: i < |m.sampleUnits| && NoMatch(m.strings, m.sampleUnits[i]))
              || (ModelOk(m, units) && Starved(profile.ample, |Encode(ProfileFields(m, units))|))
  {
    assert profile.Content() == [];
    var found;
    found, units := EmitValueTypes(profile, m);
    if !found {
      return false, units;
    }
    assert ValueTypeBlobs(m, units) == TypeBlobs(m, units);
    EmitRecords(profile, m, units);
    EmitTail(profile, m, units);
    ok := !profile.failed;
    if ok {
      ProfileRoundTrip(m, units);
    }
  }

  method EmitRecords(profile: Buffer, m: Model, ghost units: seq<nat>)
    requires ModelOk(m, units) && Holds(profile, [] + Records(1, ValueTypeBlobs(m, units)))
    requires !profile.failed ==> Short(ValueTypeBlobs(m, units))
    modifies profile, profile.data
    ensures Holds(profile, RecordFields(m, units)) && (profile.data == old(profile.data) || fresh(profile.data))
    ensures !profile.failed ==>
              && Short(ValueTypeBlobs(m, units)) && Short(SampleBlobs(m, units)) && Short(MappingBlobs(m))
              && Short(LocationBlobs(m, units)) && Short(FunctionBlobs(m, units))
              && (forall i: nat :: i < |m.samples| ==> SampleFits(m.samples[i]))
              && (forall i: nat :: i < |m.locations| ==> LocationFits(m, m.locations[i]))
  {
    ghost var a := [] + Records(1, ValueTypeBlobs(m, units));
    EmitSamples(profile, a, m.samples, SampleBlobs(m, units));
    ghost var b := a + Records(2, SampleBlobs(m, units));
    EmitMappings(profile, b, m.mappings, MappingBlobs(m));
    EmitPlaces(profile, b + Records(3, MappingBlobs(m)), m, units);
  }

  method EmitPlaces(profile: Buffer, ghost c: seq<Field>, m: Model, ghost units: seq<nat>)
    requires ModelOk(m, units) && Holds(profile, c)
    modifies profile, profile.data
    ensures Holds(profile,
                  c + Records(4, LocationBlobs(m, units)) + Records(5, FunctionBlobs(m, units)) + Records(6, m.strings))
    ensures profile.data == old(profile.data) || fresh(profile.data)
    ensures old(profile.failed) ==> profile.failed
    ensures !profile.failed ==>
              && Short(LocationBlobs(m, units)) && Short(FunctionBlobs(m, units))
              && (forall i: nat :: i < |m.locations| ==> LocationFits(m, m.locations[i]))
  {
    EmitLocations(profile, c, m, LocationBlobs(m, units));
    ghost var d := c + Records(4, LocationBlobs(m, units));
    EmitFunctions(profile, d, m.functions, FunctionBlobs(m, units));
    EmitStrings(profile, d + Records(5, FunctionBlobs(m, units)), m);
  }

  method EmitTail(profile: Buffer, m: Model, ghost units: seq<nat>)
    requires ModelOk(m, units) && Holds(profile, RecordFields(m, units))
    modifies profile, profile.data
    ensures Holds(profile, ProfileFields(m, units))
    ensures old(profile.failed) ==> profile.failed
    ensures !profile.failed ==> |PeriodBlob(m)| < WORD
  {
    ghost var a := RecordFields(m, units);
    EmitValueType(profile, a, 11, m.periodType, m.periodUnit);
    ghost var b := a + [Bytes(11, PeriodBlob(m))];
    PutNumber(profile, b, true, 12, Unsigned(m.period));
    ghost var c := b + [Number(12, Unsigned(m.period))];
    EmitComments(profile, c, m.comments);
    PutNumber(profile, c + Counts(13, m.comments), true, 14, m.sampleNames[m.defaultValue]);
  }
}
