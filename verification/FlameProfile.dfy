/** From a decoded profile to the picture, as run of tools/pprof-flamegraph/main.go
    does it: the sample type is selected, each sample's locations are turned into
    names, and the tree is built and drawn. For an exported profile the picture shows
    the frames that were sampled, and its root is worth all of them. */
module FlameProfile {
  import opened Common
  import Pprof
  import I = Interning
  import E = ExportProfile
  import S = ExportSamples
  import B = ExportBytes
  import R = ExportResult
  import N = FlameStack
  import T = FlameTree
  import D = FlameDraw

  // ---------- references ----------

  /** What an id stands for in a parsed profile. */
  function LocationWith(locations: seq<Pprof.Location>, id: nat): Option<Pprof.Location> {
    if locations == [] then None
    else if locations[0].id == id then Some(locations[0])
    else LocationWith(locations[1..], id)
  }

  function FunctionWith(functions: seq<Pprof.Function>, id: nat): Option<Pprof.Function> {
    if functions == [] then None
    else if functions[0].id == id then Some(functions[0])
    else FunctionWith(functions[1..], id)
  }

  /** Dense ids, as the exporter gives them, find their own places. */
  lemma {:induction false} DenseLocation(locations: seq<Pprof.Location>, from: nat, i: nat)
    requires i < |locations| && forall k: nat :: k < |locations| ==> locations[k].id == from + k + 1
    ensures LocationWith(locations, from + i + 1) == Some(locations[i])
  {
    if i > 0 {
      DenseLocation(locations[1..], from + 1, i - 1);
    }
  }

  lemma {:induction false} DenseFunction(functions: seq<Pprof.Function>, from: nat, i: nat)
    requires i < |functions| && forall k: nat :: k < |functions| ==> functions[k].id == from + k + 1
    ensures FunctionWith(functions, from + i + 1) == Some(functions[i])
  {
    if i > 0 {
      DenseFunction(functions[1..], from + 1, i - 1);
    }
  }

  // ---------- samples with names ----------

  function LineName(p: Pprof.Profile, line: Pprof.Line): string {
    match FunctionWith(p.functions, line.function_)
    case None => ""
    case Some(fn) => R.StringOf(p, fn.name)
  }

  function LinesOf(p: Pprof.Profile, lines: seq<Pprof.Line>): (names: seq<string>)
    ensures |names| == |lines|
  {
    seq(|lines|, i requires 0 <= i < |lines| => LineName(p, lines[i]))
  }

  function PlaceOf(p: Pprof.Profile, id: nat): Option<N.Location> {
    match LocationWith(p.locations, id)
    case None => None
    case Some(l) => Some(N.Location(l.address, LinesOf(p, l.lines)))
  }

  function PlacesOf(p: Pprof.Profile, ids: seq<nat>): (places: seq<Option<N.Location>>)
    ensures |places| == |ids|
  {
    seq(|ids|, i requires 0 <= i < |ids| => PlaceOf(p, ids[i]))
  }

  function Backwards(names: seq<string>): (r: seq<string>)
    ensures |r| == |names|
  {
    seq(|names|, i requires 0 <= i < |names| => names[|names| - 1 - i])
  }

  /** A sample as the tree builder sees it. */
  function Named(p: Pprof.Profile, s: Pprof.Sample, hex: nat -> string): T.Sample {
    T.Sample(s.values, Backwards(N.LeafFirst(PlacesOf(p, s.locations), hex)))
  }

  function AllNamed(p: Pprof.Profile, hex: nat -> string): (r: seq<T.Sample>)
    ensures |r| == |p.samples|
  {
    seq(|p.samples|, i requires 0 <= i < |p.samples| => Named(p, p.samples[i], hex))
  }

  lemma ReversedIsBackwards(a: seq<string>, b: seq<string>)
    requires N.Reverses(a, b)
    ensures b == Backwards(a)
  {
  }

  method NameSamples(p: Pprof.Profile, hex: nat -> string) returns (samples: seq<T.Sample>)
    ensures samples == AllNamed(p, hex)
  {
    samples := [];
    for i := 0 to |p.samples|
      invariant samples == AllNamed(p, hex)[..i]
    {
      var places := PlacesOf(p, p.samples[i].locations);
      var names := N.StackNames(places, hex);
      ReversedIsBackwards(N.LeafFirst(places, hex), names);
      samples := samples + [T.Sample(p.samples[i].values, names)];
    }
  }

  // ---------- the sample type ----------

  /** The name selectMetric looks for. */
  function Wanted(types: seq<(string, string)>, requested: string, byDefault: string): string {
    if requested != "" then requested
    else if byDefault != "" then byDefault
    else if |types| == 1 then types[0].0
    else ""
  }

  predicate FirstOfType(types: seq<(string, string)>, name: string, i: nat) {
    i < |types| && types[i].0 == name && forall j: nat :: j < i ==> types[j].0 != name
  }

  method SelectMetric(types: seq<(string, string)>, requested: string, byDefault: string) returns (r: Option<nat>)
    ensures r.Some? ==> FirstOfType(types, Wanted(types, requested, byDefault), r.value)
    ensures r.None? ==> forall i: nat :: i < |types| ==> types[i].0 != Wanted(types, requested, byDefault)
  {
    var name := requested;
    if name == "" {
      name := byDefault;
    }
    if name == "" && |types| == 1 {
      name := types[0].0;
    }
    for i := 0 to |types|
      invariant forall j: nat :: j < i ==> types[j].0 != name
    {
      if types[i].0 == name { return Some(i); }
    }
    r := None;
  }

  /** The selected value of an exported profile is the one read by default, as long as
      the names of its values differ. */
  lemma DefaultIsSelected(p: Pprof.Profile, l: B.Label, i: nat)
    requires B.Labelled(p, l) && R.Chars(l.names[l.selected]) != ""
    requires forall j: nat, k: nat :: j < k < |l.names| ==> l.names[j] != l.names[k]
    requires FirstOfType(R.TypesRead(p), Wanted(R.TypesRead(p), "", R.StringOf(p, p.defaultType)), i)
    ensures i == l.selected
  {
    var types := R.TypesRead(p);
    assert B.Spells(p.strings, p.sampleTypes[i].kind, l.names[i]);
    assert B.Spells(p.strings, p.sampleTypes[l.selected].kind, l.names[l.selected]);
    assert types[i].0 == R.Chars(l.names[i]) && types[l.selected].0 == R.Chars(l.names[l.selected]);
    CharsDiffer(l.names[i], l.names[l.selected]);
  }

  lemma CharsDiffer(a: seq<byte>, b: seq<byte>)
    requires R.Chars(a) == R.Chars(b)
    ensures a == b
  {
    assert |R.Chars(a)| == |a| && |R.Chars(b)| == |b|;
    forall i: nat | i < |a| ensures a[i] == b[i] {
      assert R.Chars(a)[i] == R.Chars(b)[i];
    }
  }

  // ---------- the picture ----------

  function RowsOf(samples: seq<T.Sample>): (rows: seq<seq<int>>)
    ensures |rows| == |samples|
  {
    seq(|samples|, i requires 0 <= i < |samples| => samples[i].values)
  }

  /** The root of the tree is worth the whole column. */
  lemma {:induction false} RootIsColumn(samples: seq<T.Sample>, index: nat)
    requires T.NoneBad(samples, index, |samples|)
    ensures forall i: nat :: i < |samples| ==> index < |RowsOf(samples)[i]|
    ensures T.Weight(T.TicksOf(samples, index), []) == E.Column(RowsOf(samples), index)
  {
    assert forall i: nat :: i < |samples| ==> !T.Bad(samples[i], index);
    if samples != [] {
      var n := |samples| - 1;
      RootIsColumn(samples[..n], index);
      assert RowsOf(samples)[..n] == RowsOf(samples[..n]);
      T.TickAdded(samples, index, n, []);
      assert samples[..n + 1] == samples;
    }
  }

  /** Selecting, naming, building and drawing. The picture is a function of the decoded
      profile, and its root is worth the selected column. */
  method DrawDecoded(p: Pprof.Profile, requested: string, hex: nat -> string, chartTop: nat, width: nat)
    returns (metric: Option<nat>, built: T.Built, depth: nat, frames: seq<D.Frame>)
    ensures metric.Some? ==>
              FirstOfType(R.TypesRead(p), Wanted(R.TypesRead(p), requested, R.StringOf(p, p.defaultType)), metric.value)
    ensures metric.Some? && built.Tree? ==>
              && D.Picture(frames, T.TicksOf(AllNamed(p, hex), metric.value), chartTop as real, width as real, depth)
              && T.NoneBad(AllNamed(p, hex), metric.value, |p.samples|)
              && built.total == T.Weight(T.TicksOf(AllNamed(p, hex), metric.value), []) > 0
    ensures metric.Some? ==> (built.MissingValue? || built.NegativeValue? <==>
                                !T.NoneBad(AllNamed(p, hex), metric.value, |p.samples|))
  {
    metric := SelectMetric(R.TypesRead(p), requested, R.StringOf(p, p.defaultType));
    if metric.None? {
      return None, T.NoSamples, 0, [];
    }
    var samples := NameSamples(p, hex);
    built, depth, frames := D.DrawProfile(samples, metric.value, chartTop, width);
  }

  // ---------- exported profiles ----------

  /** The name a frame has in the picture. */
  function FrameName(all: seq<I.FrameDesc>, f: I.FrameDesc, format: I.FrameDesc -> I.Formatted,
                     hex: nat -> string): string
  {
    var name, address := R.Chars(B.FormattedFor(all, f, format).name), I.AddressOf(I.KeyOf(f));
    if name != "" then name else if address != 0 then hex(address) else T.UNKNOWN
  }

  function FrameNames(all: seq<I.FrameDesc>, stack: seq<I.FrameDesc>, format: I.FrameDesc -> I.Formatted,
                      hex: nat -> string): (r: seq<string>)
    ensures |r| == |stack|
  {
    seq(|stack|, j requires 0 <= j < |stack| => FrameName(all, stack[j], format, hex))
  }

  lemma ShownFrameIsNamed(p: Pprof.Profile, id: nat, all: seq<I.FrameDesc>, f: I.FrameDesc,
                          format: I.FrameDesc -> I.Formatted, hex: nat -> string)
    requires B.Intact(p) && B.ShowsFrame(p, id, f, B.FormattedFor(all, f, format))
    ensures N.Inner(PlaceOf(p, id), hex) == [FrameName(all, f, format, hex)]
  {
    var l := p.locations[id - 1];
    DenseLocation(p.locations, 0, id - 1);
    DenseFunction(p.functions, 0, l.lines[0].function_ - 1);
    assert LinesOf(p, l.lines) == [R.Chars(B.FormattedFor(all, f, format).name)];
  }

  lemma ShownRest(p: Pprof.Profile, ids: seq<nat>, stack: seq<I.FrameDesc>, all: seq<I.FrameDesc>,
                  format: I.FrameDesc -> I.Formatted)
    requires B.ShowsStack(p, ids, stack, all, format) && ids != []
    ensures B.ShowsFrame(p, ids[0], stack[0], B.FormattedFor(all, stack[0], format))
    ensures B.ShowsStack(p, ids[1..], stack[1..], all, format)
  {
    forall j: nat | j < |stack[1..]|
      ensures B.ShowsFrame(p, ids[1..][j], stack[1..][j], B.FormattedFor(all, stack[1..][j], format))
    {
      assert ids[1..][j] == ids[j + 1] && stack[1..][j] == stack[j + 1];
    }
  }

  lemma FirstNamed(p: Pprof.Profile, ids: seq<nat>, hex: nat -> string)
    requires ids != []
    ensures N.LeafFirst(PlacesOf(p, ids), hex)
         == N.Inner(PlaceOf(p, ids[0]), hex) + N.LeafFirst(PlacesOf(p, ids[1..]), hex)
  {
    assert PlacesOf(p, ids)[1..] == PlacesOf(p, ids[1..]);
  }

  lemma FirstFrameName(all: seq<I.FrameDesc>, stack: seq<I.FrameDesc>, format: I.FrameDesc -> I.Formatted,
                       hex: nat -> string)
    requires stack != []
    ensures FrameNames(all, stack, format, hex)
         == [FrameName(all, stack[0], format, hex)] + FrameNames(all, stack[1..], format, hex)
  {
  }

  lemma {:induction false} ShownStackIsNamed(p: Pprof.Profile, ids: seq<nat>, stack: seq<I.FrameDesc>,
                                             all: seq<I.FrameDesc>, format: I.FrameDesc -> I.Formatted,
                                             hex: nat -> string)
    requires B.Intact(p) && B.ShowsStack(p, ids, stack, all, format)
    ensures N.LeafFirst(PlacesOf(p, ids), hex) == FrameNames(all, stack, format, hex)
    decreases |ids|
  {
    if ids != [] {
      ShownRest(p, ids, stack, all, format);
      ShownFrameIsNamed(p, ids[0], all, stack[0], format, hex);
      ShownStackIsNamed(p, ids[1..], stack[1..], all, format, hex);
      FirstNamed(p, ids, hex);
      FirstFrameName(all, stack, format, hex);
    }
  }

  /** In the picture of an exported profile each sample is the stack it was built for,
      from the root down, under the names format_function gives its frames. */
  lemma ExportedStacksAreNamed(p: Pprof.Profile, stacks: seq<seq<I.FrameDesc>>, format: I.FrameDesc -> I.Formatted,
                               hex: nat -> string, i: nat)
    requires B.Intact(p) && B.ShowsAll(p, stacks, format) && i < |stacks|
    ensures AllNamed(p, hex)[i].names == Backwards(FrameNames(E.Flat(stacks), stacks[i], format, hex))
    ensures AllNamed(p, hex)[i].values == p.samples[i].values
  {
    ShownStackIsNamed(p, p.samples[i].locations, stacks[i], E.Flat(stacks), format, hex);
  }

  lemma ValuesAreGood(t: T.Sample, s: S.CpuSample, period: nat, index: nat)
    requires t.values == E.CpuValues(s, period) && index < 2
    ensures !T.Bad(t, index)
  {
    S.MultiplySaturatesExactly(s.weight, period);
  }

  lemma CpuValuesAreGood(p: Pprof.Profile, symbols: seq<S.SymbolView>, samples: seq<S.CpuSample>, l: B.Label,
                         stacks: seq<seq<I.FrameDesc>>, format: I.FrameDesc -> I.Formatted, hex: nat -> string,
                         index: nat)
    requires B.CpuProfileRead(Some(p), symbols, samples, l, stacks, format) && index < 2
    ensures T.NoneBad(AllNamed(p, hex), index, |p.samples|)
  {
    forall i: nat | i < |p.samples| ensures !T.Bad(AllNamed(p, hex)[i], index) {
      assert AllNamed(p, hex)[i].values == E.CpuValues(samples[i], l.period);
      ValuesAreGood(AllNamed(p, hex)[i], samples[i], l.period, index);
    }
  }

  /** And no sample of an exported CPU result is unusable, and the root of its picture is
      worth the sample counter of the result, or the time it stands for. */
  lemma CpuRootIsWhole(p: Pprof.Profile, symbols: seq<S.SymbolView>, samples: seq<S.CpuSample>, counters: seq<nat>,
                       l: B.Label, stacks: seq<seq<I.FrameDesc>>, format: I.FrameDesc -> I.Formatted,
                       hex: nat -> string)
    requires R.CpuResultRead(Some(p), symbols, samples, counters, l, stacks, format)
    ensures T.NoneBad(AllNamed(p, hex), 0, |p.samples|) && T.NoneBad(AllNamed(p, hex), 1, |p.samples|)
    ensures R.Time(counters[1], counters[0]) <= S.INT64_MAX ==>
              && T.Weight(T.TicksOf(AllNamed(p, hex), 0), []) == counters[1]
              && T.Weight(T.TicksOf(AllNamed(p, hex), 1), []) == R.Time(counters[1], counters[0])
  {
    CpuValuesAreGood(p, symbols, samples, l, stacks, format, hex, 0);
    CpuValuesAreGood(p, symbols, samples, l, stacks, format, hex, 1);
    ColumnsAreDrawn(p, hex);
  }

  lemma ColumnsAreDrawn(p: Pprof.Profile, hex: nat -> string)
    requires T.NoneBad(AllNamed(p, hex), 0, |p.samples|) && T.NoneBad(AllNamed(p, hex), 1, |p.samples|)
    ensures forall i: nat :: i < |p.samples| ==> |B.Rows(p)[i]| >= 2
    ensures T.Weight(T.TicksOf(AllNamed(p, hex), 0), []) == E.Column(B.Rows(p), 0)
    ensures T.Weight(T.TicksOf(AllNamed(p, hex), 1), []) == E.Column(B.Rows(p), 1)
  {
    assert RowsOf(AllNamed(p, hex)) == B.Rows(p);
    RootIsColumn(AllNamed(p, hex), 0);
    RootIsColumn(AllNamed(p, hex), 1);
    forall i: nat | i < |p.samples| ensures |B.Rows(p)[i]| >= 2 {
      assert !T.Bad(AllNamed(p, hex)[i], 1);
    }
  }
}
