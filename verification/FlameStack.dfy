/** stackNames of tools/pprof-flamegraph/main.go: the names of a sample from the root
    to the leaf. A profile lists locations leaf first, and the lines of an inlined
    location innermost first, so both are walked backwards. */
module FlameStack {
  import opened Common
  import opened FlameTree

  /** A line carries the name of its function, empty if it has none. */
  datatype Location = Location(address: nat, lines: seq<string>)

  function LocationName(location: Location, hex: nat -> string): string {
    if location.address != 0 then hex(location.address) else UNKNOWN
  }

  function LineName(location: Location, line: string, hex: nat -> string): string {
    if line != "" then line else LocationName(location, hex)
  }

  /** The names of one location, innermost first. */
  function Inner(location: Option<Location>, hex: nat -> string): (names: Path)
    ensures |names| > 0
  {
    match location
    case None => [UNKNOWN]
    case Some(l) =>
      if |l.lines| == 0 then [LocationName(l, hex)]
      else seq(|l.lines|, i requires 0 <= i < |l.lines| => LineName(l, l.lines[i], hex))
  }

  /** The names of a stack in the order of the profile, leaf first. */
  function LeafFirst(locations: seq<Option<Location>>, hex: nat -> string): Path {
    if |locations| == 0 then [] else Inner(locations[0], hex) + LeafFirst(locations[1..], hex)
  }

  /** `b` is `a` read backwards. */
  ghost predicate Reverses(a: Path, b: Path) {
    |a| == |b| && forall i: nat :: i < |a| ==> b[i] == a[|a| - 1 - i]
  }

  lemma ReversesConcat(a: Path, a': Path, b: Path, b': Path)
    requires Reverses(a, a') && Reverses(b, b')
    ensures Reverses(a + b, b' + a')
  {
  }

  /** The names are those of the profile's own order, read backwards. */
  method StackNames(locations: seq<Option<Location>>, hex: nat -> string) returns (names: Path)
    ensures Reverses(LeafFirst(locations, hex), names)
    ensures names == [] <==> locations == []
  {
    names := [];
    for k := |locations| downto 0
      invariant Reverses(LeafFirst(locations[k..], hex), names)
      invariant names == [] <==> k == |locations|
    {
      assert locations[k..][1..] == locations[k + 1..];
      var before := names;
      var added := [UNKNOWN];
      if locations[k].Some? {
        var location := locations[k].value;
        if |location.lines| == 0 {
          added := [LocationName(location, hex)];
        } else {
          added := LineNames(location, hex);
        }
      }
      names := names + added;
      ReversesConcat(Inner(locations[k], hex), added, LeafFirst(locations[k + 1..], hex), before);
    }
    assert locations[0..] == locations;
  }

  /** The inner loop, over the lines of one location. */
  method LineNames(location: Location, hex: nat -> string) returns (names: Path)
    requires |location.lines| > 0
    ensures Reverses(Inner(Some(location), hex), names)
  {
    names := [];
    for i := |location.lines| downto 0
      invariant Reverses(Inner(Some(location), hex)[i..], names)
    {
      if location.lines[i] != "" {
        names := names + [location.lines[i]];
      } else {
        names := names + [LocationName(location, hex)];
      }
    }
  }
}
