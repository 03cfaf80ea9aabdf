/** CPU quality metadata: printed as comments by add_cpu_quality of
    src/pprof_exporter.c, read back by readCPUQuality of
    tools/pprof-flamegraph/quality.go. */
module Metadata {
  import opened Common

  const VERSION_KEY := "luaprof.metadata.version"
  const PREFIX := "luaprof.cpu."
  const RATE := "sample_hz"

  const FIELDS: seq<string> := [
    "sample_hz", "samples", "overrun_events", "overrun_ticks",
    "dropped_events", "unstable_events", "profiler_overhead_events",
    "stale_events", "timer_failures", "stack_truncations",
    "aggregate_overflows", "symbol_overflows", "scheduler_workers"]

  // ---------- decimal numbers ----------

  function Digit(d: nat): char
    requires d < 10
  {
    '0' + d as char
  }

  /** PRIu64. */
  function Decimal(n: nat): (r: string)
    ensures |r| >= 1
  {
    if n < 10 then [Digit(n)] else Decimal(n / 10) + [Digit(n % 10)]
  }

  predicate IsDigit(c: char) { '0' <= c <= '9' }

  predicate AllDigits(s: string) { forall i: nat :: i < |s| ==> IsDigit(s[i]) }

  function Value(s: string): nat
    requires AllDigits(s)
  {
    if s == [] then 0 else Value(s[..|s| - 1]) * 10 + (s[|s| - 1] as int - '0' as int)
  }

  lemma {:induction false} DecimalRoundTrip(n: nat)
    ensures AllDigits(Decimal(n)) && Value(Decimal(n)) == n
  {
    if n < 10 {
      assert Decimal(n)[..0] == [];
    } else {
      DecimalRoundTrip(n / 10);
      assert Decimal(n)[..|Decimal(n)| - 1] == Decimal(n / 10);
    }
  }

  /** strconv.ParseUint(s, 10, 64): the number, or why there is none. */
  datatype Parsed = Number(value: nat) | Syntax | Range

  function ParseUint(s: string): Parsed {
    if s == [] || !AllDigits(s) then Syntax
    else if Value(s) >= WORD then Range
    else Number(Value(s))
  }

  // ---------- comments ----------

  /** strings.Cut at the first '='. */
  datatype Parts = Parts(key: string, value: string, found: bool)

  function Cut(s: string): Parts {
    if s == [] then Parts("", "", false)
    else if s[0] == '=' then Parts("", s[1..], true)
    else
      var rest := Cut(s[1..]);
      Parts([s[0]] + rest.key, rest.value, rest.found)
  }

  lemma {:induction false} CutFindsKey(key: string, value: string)
    requires '=' !in key
    ensures Cut(key + "=" + value) == Parts(key, value, true)
  {
    if key == [] {
      assert key + "=" + value == "=" + value;
    } else {
      CutFindsKey(key[1..], value);
      assert (key + "=" + value)[1..] == key[1..] + "=" + value;
      assert [key[0]] + key[1..] == key;
    }
  }

  datatype Entry = Entry(hasValue: bool, value: string)

  datatype Item = Version(value: string) | Counter(name: string, entry: Entry) | Unrelated

  /** What one comment is to the reader, for a given list of known fields. */
  function Classify(comment: string, fields: seq<string>): Item {
    var p := Cut(comment);
    if p.key == VERSION_KEY then Version(p.value)
    else if PREFIX <= p.key && p.key[|PREFIX|..] in fields then
      Counter(p.key[|PREFIX|..], Entry(p.found, p.value))
    else Unrelated
  }

  /** The values given for a field, in order. */
  function Entries(comments: seq<string>, fields: seq<string>, name: string): seq<Entry> {
    if comments == [] then []
    else
      var c, rest := Classify(comments[|comments| - 1], fields), Entries(comments[..|comments| - 1], fields, name);
      if c.Counter? && c.name == name then rest + [c.entry] else rest
  }

  function Versions(comments: seq<string>, fields: seq<string>): seq<string> {
    if comments == [] then []
    else
      var c, rest := Classify(comments[|comments| - 1], fields), Versions(comments[..|comments| - 1], fields);
      if c.Version? then rest + [c.value] else rest
  }

  /** A value the reader accepts for a field. */
  predicate Usable(name: string, e: Entry) {
    && e.hasValue && ParseUint(e.value).Number?
    && (name == RATE ==> 1 <= ParseUint(e.value).value <= 10000)
  }

  /** What the reader knows about a field in the end. */
  function Known(entries: seq<Entry>, name: string): Option<nat> {
    if |entries| == 1 && Usable(name, entries[0]) then Some(ParseUint(entries[0].value).value) else None
  }

  datatype Quality = Quality(values: map<string, nat>, unavailable: string, problems: seq<string>)

  /** Why the metadata cannot be used at all; empty if it can. */
  function Unavailable(versions: seq<string>, anySeen: bool): string {
    if |versions| == 0 then (if anySeen then "metadata version missing" else "metadata not provided")
    else if |versions| != 1 then "duplicate metadata versions"
    else if versions[0] != "1" then "unsupported metadata version"
    else ""
  }

  function Problems(comments: seq<string>, fields: seq<string>, names: seq<string>): seq<string> {
    if names == [] then []
    else
      var rest, name := Problems(comments, fields, names[..|names| - 1]), names[|names| - 1];
      if Known(Entries(comments, fields, name), name).None? then rest + [name] else rest
  }

  ghost predicate AnySeen(comments: seq<string>, fields: seq<string>) {
    exists name: string :: name in fields && Entries(comments, fields, name) != []
  }

  /** What a reader makes of a list of comments. */
  ghost predicate Reads(comments: seq<string>, fields: seq<string>, q: Quality) {
    && q.unavailable == Unavailable(Versions(comments, fields), AnySeen(comments, fields))
    && if q.unavailable != "" then q.values == map[] && q.problems == []
       else
         && q.problems == Problems(comments, fields, fields)
         && ValuesOf(comments, fields, q.values)
  }

  /** The values of exactly the fields that are known. */
  ghost predicate ValuesOf(comments: seq<string>, fields: seq<string>, values: map<string, nat>) {
    && (forall name: string :: name in values <==> name in fields && Known(Entries(comments, fields, name), name).Some?)
    && (forall name: string :: name in values ==> Some(values[name]) == Known(Entries(comments, fields, name), name))
  }

  /** The variables of the comment loop of readCPUQuality. */
  datatype Scan = Scan(values: map<string, nat>, seen: set<string>, invalid: set<string>, version: string,
                       versionCount: nat)

  ghost predicate Scanned(comments: seq<string>, fields: seq<string>, s: Scan) {
    && s.versionCount == |Versions(comments, fields)|
    && (s.versionCount > 0 ==> s.version == Versions(comments, fields)[s.versionCount - 1])
    && forall name: string :: NameOk(comments, fields, s, name)
  }

  ghost predicate NameOk(comments: seq<string>, fields: seq<string>, s: Scan, name: string) {
    var entries := Entries(comments, fields, name);
    && ScannedName(entries, name, name in s.seen, name in s.invalid)
    && (name in s.values <==> name in s.seen)
    && (name in s.seen ==> name in fields)
    && (name in s.seen && name !in s.invalid ==> Known(entries, name) == Some(s.values[name]))
  }

  ghost predicate ScannedName(entries: seq<Entry>, name: string, seen: bool, invalid: bool) {
    && (seen <==> entries != [])
    && (invalid <==> |entries| >= 2 || exists i: nat :: i < |entries| && !Usable(name, entries[i]))
  }

  lemma ScanUnrelated(comments: seq<string>, c: string, fields: seq<string>)
    requires Classify(c, fields) == Unrelated
    ensures Versions(comments + [c], fields) == Versions(comments, fields)
    ensures forall name: string :: Entries(comments + [c], fields, name) == Entries(comments, fields, name)
  {
    assert (comments + [c])[..|comments|] == comments;
  }

  lemma ScanVersion(comments: seq<string>, c: string, fields: seq<string>)
    requires Classify(c, fields).Version?
    ensures Versions(comments + [c], fields) == Versions(comments, fields) + [Classify(c, fields).value]
    ensures forall name: string :: Entries(comments + [c], fields, name) == Entries(comments, fields, name)
  {
    assert (comments + [c])[..|comments|] == comments;
  }

  lemma ScanCounter(comments: seq<string>, c: string, fields: seq<string>)
    requires Classify(c, fields).Counter?
    ensures var i := Classify(c, fields);
      && Versions(comments + [c], fields) == Versions(comments, fields)
      && (forall name: string :: Entries(comments + [c], fields, name)
            == if name == i.name then Entries(comments, fields, name) + [i.entry] else Entries(comments, fields, name))
      && i.name in fields
  {
    assert (comments + [c])[..|comments|] == comments;
  }

  lemma NameGrows(entries: seq<Entry>, e: Entry, name: string, seen: bool, invalid: bool)
    requires ScannedName(entries, name, seen, invalid)
    ensures ScannedName(entries + [e], name, true, invalid || seen || !Usable(name, e))
  {
    if exists i: nat :: i < |entries| && !Usable(name, entries[i]) {
      var i: nat :| i < |entries| && !Usable(name, entries[i]);
      assert (entries + [e])[i] == entries[i];
    }
    if !Usable(name, e) {
      assert (entries + [e])[|entries|] == e;
    }
  }

  /** The digits loop of readCPUQuality. */
  method IsDecimal(value: string) returns (decimal: bool)
    ensures decimal <==> AllDigits(value)
  {
    decimal := true;
    for i := 0 to |value|
      invariant decimal <==> forall j: nat :: j < i ==> IsDigit(value[j])
    {
      decimal := decimal && IsDigit(value[i]);
    }
  }

  /** One known counter: what is noted about it. */
  method Note(name: string, e: Entry) returns (bad: bool, number: nat)
    ensures bad <==> !Usable(name, e)
    ensures !bad ==> number == ParseUint(e.value).value
  {
    var decimal := IsDecimal(e.value);
    decimal := e.hasValue && e.value != "" && decimal;
    var parsed := ParseUint(e.value);
    number := match parsed case Number(n) => n case Syntax => 0 case Range => WORD - 1;
    bad := !decimal || !parsed.Number? || (name == RATE && (number == 0 || number > 10000));
  }

  function Counted(s: Scan, i: Item, number: nat): Scan
    requires i.Counter?
  {
    Scan(s.values[i.name := number], s.seen + {i.name},
         if i.name in s.seen || !Usable(i.name, i.entry) then s.invalid + {i.name} else s.invalid,
         s.version, s.versionCount)
  }

  lemma FirstUse(entries: seq<Entry>, e: Entry, name: string)
    requires entries == [] && Usable(name, e)
    ensures Known(entries + [e], name) == Some(ParseUint(e.value).value)
  {
  }

  lemma CounterScanned(comments: seq<string>, c: string, fields: seq<string>, s: Scan, number: nat)
    requires Scanned(comments, fields, s) && Classify(c, fields).Counter?
    requires var i := Classify(c, fields); Usable(i.name, i.entry) ==> number == ParseUint(i.entry.value).value
    ensures Scanned(comments + [c], fields, Counted(s, Classify(c, fields), number))
  {
    var i, t := Classify(c, fields), Counted(s, Classify(c, fields), number);
    ScanCounter(comments, c, fields);
    forall name: string ensures NameOk(comments + [c], fields, t, name) {
      assert NameOk(comments, fields, s, name);
      if name == i.name {
        NameGrows(Entries(comments, fields, name), i.entry, name, name in s.seen, name in s.invalid);
        if name !in t.invalid {
          FirstUse(Entries(comments, fields, name), i.entry, name);
        }
      }
    }
  }

  lemma OtherScanned(comments: seq<string>, c: string, fields: seq<string>, s: Scan)
    requires Scanned(comments, fields, s) && !Classify(c, fields).Counter?
    ensures var i := Classify(c, fields);
      Scanned(comments + [c], fields,
              if i.Version? then s.(version := i.value, versionCount := s.versionCount + 1) else s)
  {
    var i := Classify(c, fields);
    if i.Version? {
      ScanVersion(comments, c, fields);
    } else {
      ScanUnrelated(comments, c, fields);
    }
    var t := if i.Version? then s.(version := i.value, versionCount := s.versionCount + 1) else s;
    forall name: string ensures NameOk(comments + [c], fields, t, name) {
      assert NameOk(comments, fields, s, name);
    }
  }

  /** readCPUQuality. */
  method ReadCpuQuality(sampleTypes: seq<(string, string)>, comments: seq<string>, fields: seq<string>)
    returns (r: Option<Quality>)
    ensures r.None? <==> ("cpu", "nanoseconds") !in sampleTypes
    ensures r.Some? ==> Reads(comments, fields, r.value)
  {
    var isCpu := false;
    for i := 0 to |sampleTypes|
      invariant isCpu <==> ("cpu", "nanoseconds") in sampleTypes[..i]
    {
      isCpu := isCpu || (sampleTypes[i].0 == "cpu" && sampleTypes[i].1 == "nanoseconds");
    }
    assert sampleTypes[..|sampleTypes|] == sampleTypes;
    if !isCpu { return None; }
    var scan := ScanComments(comments, fields);
    var q := Conclude(comments, fields, scan);
    r := Some(q);
  }

  method ScanComments(comments: seq<string>, fields: seq<string>) returns (scan: Scan)
    ensures Scanned(comments, fields, scan)
  {
    var values: map<string, nat>, seen: set<string>, invalid: set<string> := map[], {}, {};
    var version, versionCount := "", 0;
    for i := 0 to |comments|
      invariant versionCount >= 0
      invariant Scanned(comments[..i], fields, Scan(values, seen, invalid, version, versionCount))
    {
      assert comments[..i + 1] == comments[..i] + [comments[i]];
      var p := Cut(comments[i]);
      if p.key == VERSION_KEY {
        OtherScanned(comments[..i], comments[i], fields, Scan(values, seen, invalid, version, versionCount));
        version, versionCount := p.value, versionCount + 1;
        continue;
      }
      if !(PREFIX <= p.key) || p.key[|PREFIX|..] !in fields {
        OtherScanned(comments[..i], comments[i], fields, Scan(values, seen, invalid, version, versionCount));
        continue;
      }
      var name := p.key[|PREFIX|..];
      var bad, number := Note(name, Entry(p.found, p.value));
      CounterScanned(comments[..i], comments[i], fields, Scan(values, seen, invalid, version, versionCount), number);
      if name in seen {
        invalid := invalid + {name};
      }
      seen := seen + {name};
      if bad {
        invalid := invalid + {name};
      }
      values := values[name := number];
    }
    assert comments[..|comments|] == comments;
    scan := Scan(values, seen, invalid, version, versionCount);
  }

  /** The switch of readCPUQuality. */
  method Availability(s: Scan) returns (unavailable: string)
    ensures s.versionCount == 0 ==>
              unavailable == if s.seen != {} then "metadata version missing" else "metadata not provided"
    ensures s.versionCount > 1 ==> unavailable == "duplicate metadata versions"
    ensures s.versionCount == 1 ==> unavailable == if s.version != "1" then "unsupported metadata version" else ""
  {
    unavailable := "";
    if s.versionCount == 0 {
      unavailable := "metadata not provided";
      if |s.seen| != 0 {
        unavailable := "metadata version missing";
      }
    } else if s.versionCount != 1 {
      unavailable := "duplicate metadata versions";
    } else if s.version != "1" {
      unavailable := "unsupported metadata version";
    }
  }

  /** The end of readCPUQuality: availability first, then field by field. */
  method Conclude(comments: seq<string>, fields: seq<string>, s: Scan) returns (q: Quality)
    requires Scanned(comments, fields, s)
    ensures Reads(comments, fields, q)
  {
    var unavailable := Availability(s);
    SeenMeansAny(comments, fields, s);
    if unavailable != "" {
      return Quality(map[], unavailable, []);
    }
    var kept, problems := Filter(comments, fields, s);
    q := Quality(kept, "", problems);
  }
  method Filter(comments: seq<string>, fields: seq<string>, s: Scan)
    returns (kept: map<string, nat>, problems: seq<string>)
    requires Scanned(comments, fields, s)
    ensures problems == Problems(comments, fields, fields)
    ensures forall name: string :: name in kept <==>
              name in fields && Known(Entries(comments, fields, name), name).Some?
    ensures forall name: string :: name in kept ==> Some(kept[name]) == Known(Entries(comments, fields, name), name)
  {
    kept, problems := s.values, [];
    for i := 0 to |fields|
      invariant problems == Problems(comments, fields, fields[..i])
      invariant forall name: string :: name in kept <==>
                  name in s.values && !(name in fields[..i] && (name !in s.seen || name in s.invalid))
      invariant forall name: string :: name in kept ==> kept[name] == s.values[name]
    {
      var name := fields[i];
      assert fields[..i + 1][..i] == fields[..i];
      KnownExactly(comments, fields, s, name);
      if name !in s.seen || name in s.invalid {
        kept := kept - {name};
        problems := problems + [name];
      }
    }
    assert fields[..|fields|] == fields;
    forall name: string
      ensures name in s.values ==> name in fields
      ensures name in s.values && name in s.seen && name !in s.invalid <==>
              name in fields && Known(Entries(comments, fields, name), name).Some?
      ensures name in s.values && name !in s.invalid ==>
                Some(s.values[name]) == Known(Entries(comments, fields, name), name)
    {
      KnownExactly(comments, fields, s, name);
      assert NameOk(comments, fields, s, name);
    }
  }

  lemma SeenMeansAny(comments: seq<string>, fields: seq<string>, s: Scan)
    requires Scanned(comments, fields, s)
    ensures s.seen != {} <==> AnySeen(comments, fields)
  {
    if s.seen != {} {
      var name :| name in s.seen;
      assert NameOk(comments, fields, s, name);
    }
    if AnySeen(comments, fields) {
      var name: string :| name in fields && Entries(comments, fields, name) != [];
      assert NameOk(comments, fields, s, name);
      assert name in s.seen;
    }
  }

  lemma NameExactly(entries: seq<Entry>, name: string, seen: bool, invalid: bool)
    requires ScannedName(entries, name, seen, invalid)
    ensures Known(entries, name).Some? <==> seen && !invalid
  {
    if |entries| == 1 && !invalid {
      assert Usable(name, entries[0]);
    }
  }

  lemma KnownExactly(comments: seq<string>, fields: seq<string>, s: Scan, name: string)
    requires Scanned(comments, fields, s)
    ensures Known(Entries(comments, fields, name), name).Some? <==> name in s.seen && name !in s.invalid
  {
    assert NameOk(comments, fields, s, name);
    NameExactly(Entries(comments, fields, name), name, name in s.seen, name in s.invalid);
  }

  // ---------- order and bystanders do not matter ----------

  lemma {:induction false} EntriesConcat(a: seq<string>, b: seq<string>, fields: seq<string>, name: string)
    ensures Entries(a + b, fields, name) == Entries(a, fields, name) + Entries(b, fields, name)
    ensures Versions(a + b, fields) == Versions(a, fields) + Versions(b, fields)
  {
    if b == [] {
      assert a + b == a;
    } else {
      assert (a + b)[..|a + b| - 1] == a + b[..|b| - 1];
      EntriesConcat(a, b[..|b| - 1], fields, name);
    }
  }

  lemma SplitAt(c: seq<string>, j: nat, fields: seq<string>, name: string)
    requires j < |c|
    ensures Entries(c, fields, name)
         == Entries(c[..j], fields, name) + (Entries([c[j]], fields, name) + Entries(c[j + 1..], fields, name))
    ensures Versions(c, fields) == Versions(c[..j], fields) + (Versions([c[j]], fields) + Versions(c[j + 1..], fields))
  {
    assert c == c[..j] + ([c[j]] + c[j + 1..]);
    EntriesConcat(c[..j], [c[j]] + c[j + 1..], fields, name);
    EntriesConcat([c[j]], c[j + 1..], fields, name);
  }

  lemma WithoutFirst<T>(c: seq<T>, d: seq<T>, j: nat)
    requires multiset(c) == multiset(d) && |c| > 0 && j < |d| && d[j] == c[0]
    ensures multiset(c[1..]) == multiset(d[..j] + d[j + 1..]) && |d[..j] + d[j + 1..]| == |c| - 1
  {
    var x := c[0];
    assert c == [x] + c[1..];
    assert d == (d[..j] + [x]) + d[j + 1..];
    assert multiset(c) == multiset{x} + multiset(c[1..]);
    assert multiset(d) == multiset(d[..j]) + multiset{x} + multiset(d[j + 1..]);
    assert multiset(c[1..]) == multiset(c) - multiset{x};
    assert multiset(d[..j] + d[j + 1..]) == multiset(d) - multiset{x};
    assert |multiset(c[1..])| == |multiset(d[..j] + d[j + 1..])|;
  }

  lemma MovedToFront<T>(x: seq<T>, rest: seq<T>, a: seq<T>, b: seq<T>)
    requires multiset(rest) == multiset(a + b)
    ensures multiset(x + rest) == multiset(a + (x + b))
  {
    assert multiset(x + rest) == multiset(x) + multiset(rest);
    assert multiset(a + b) == multiset(a) + multiset(b);
    assert multiset(a + (x + b)) == multiset(a) + (multiset(x) + multiset(b));
  }

  /** Reordering comments reorders what they say, and no more. */
  lemma {:induction false} Reordered(c: seq<string>, d: seq<string>, fields: seq<string>, name: string)
    requires multiset(c) == multiset(d)
    ensures multiset(Entries(c, fields, name)) == multiset(Entries(d, fields, name))
    ensures multiset(Versions(c, fields)) == multiset(Versions(d, fields))
    decreases |c|
  {
    if |c| == 0 {
      assert |multiset(c)| == 0 && |multiset(d)| == 0;
      assert c == d;
    } else {
      var j := FindFirst(c, d);
      Reordered(c[1..], d[..j] + d[j + 1..], fields, name);
      ReorderedStep(c, d, j, fields, name);
    }
  }

  lemma FindFirst(c: seq<string>, d: seq<string>) returns (j: nat)
    requires multiset(c) == multiset(d) && |c| > 0
    ensures j < |d| && d[j] == c[0]
    ensures multiset(c[1..]) == multiset(d[..j] + d[j + 1..])
  {
    assert c[0] in multiset(d);
    j :| j < |d| && d[j] == c[0];
    WithoutFirst(c, d, j);
  }

  lemma ReorderedStep(c: seq<string>, d: seq<string>, j: nat, fields: seq<string>, name: string)
    requires |c| > 0 && j < |d| && d[j] == c[0]
    requires multiset(Entries(c[1..], fields, name)) == multiset(Entries(d[..j] + d[j + 1..], fields, name))
    requires multiset(Versions(c[1..], fields)) == multiset(Versions(d[..j] + d[j + 1..], fields))
    ensures multiset(Entries(c, fields, name)) == multiset(Entries(d, fields, name))
    ensures multiset(Versions(c, fields)) == multiset(Versions(d, fields))
  {
    var x: seq<string> := [c[0]];
    assert c == x + c[1..];
    EntriesConcat(x, c[1..], fields, name);
    SplitAt(d, j, fields, name);
    EntriesConcat(d[..j], d[j + 1..], fields, name);
    MovedToFront(Entries(x, fields, name), Entries(c[1..], fields, name),
                 Entries(d[..j], fields, name), Entries(d[j + 1..], fields, name));
    MovedToFront(Versions(x, fields), Versions(c[1..], fields), Versions(d[..j], fields), Versions(d[j + 1..], fields));
  }

  lemma SingleFromBag<T>(a: seq<T>, b: seq<T>)
    requires multiset(a) == multiset(b)
    ensures |a| == |b| && (|a| == 1 ==> a == b)
  {
    assert |multiset(a)| == |a| && |multiset(b)| == |b|;
    if |a| == 1 {
      assert a[0] in multiset(b);
    }
  }

  lemma SameKnown(c: seq<string>, d: seq<string>, fields: seq<string>, name: string)
    requires multiset(Entries(c, fields, name)) == multiset(Entries(d, fields, name))
    ensures Known(Entries(c, fields, name), name) == Known(Entries(d, fields, name), name)
    ensures Entries(c, fields, name) == [] <==> Entries(d, fields, name) == []
  {
    SingleFromBag(Entries(c, fields, name), Entries(d, fields, name));
  }

  /** Two lists of comments that say the same, up to order. */
  ghost predicate SayTheSame(c: seq<string>, d: seq<string>, fields: seq<string>) {
    && multiset(Versions(c, fields)) == multiset(Versions(d, fields))
    && forall name: string :: multiset(Entries(c, fields, name)) == multiset(Entries(d, fields, name))
  }

  lemma {:induction false} SameProblems(c: seq<string>, d: seq<string>, fields: seq<string>, names: seq<string>)
    requires SayTheSame(c, d, fields)
    ensures Problems(c, fields, names) == Problems(d, fields, names)
  {
    if names != [] {
      SameProblems(c, d, fields, names[..|names| - 1]);
      SameKnown(c, d, fields, names[|names| - 1]);
    }
  }

  /** Readers of such lists cannot tell them apart. */
  lemma SameReading(c: seq<string>, d: seq<string>, fields: seq<string>, q: Quality, r: Quality)
    requires SayTheSame(c, d, fields) && Reads(c, fields, q) && Reads(d, fields, r)
    ensures q == r
  {
    SingleFromBag(Versions(c, fields), Versions(d, fields));
    SameSeen(c, d, fields);
    SameProblems(c, d, fields, fields);
    if q.unavailable == "" {
      SameValues(c, d, fields, q.values, r.values);
    }
  }

  lemma SameValues(c: seq<string>, d: seq<string>, fields: seq<string>, v: map<string, nat>, w: map<string, nat>)
    requires SayTheSame(c, d, fields) && ValuesOf(c, fields, v) && ValuesOf(d, fields, w)
    ensures v == w
  {
    forall name: string ensures Known(Entries(c, fields, name), name) == Known(Entries(d, fields, name), name) {
      SameKnown(c, d, fields, name);
    }
  }

  lemma SameSeen(c: seq<string>, d: seq<string>, fields: seq<string>)
    requires SayTheSame(c, d, fields)
    ensures AnySeen(c, fields) <==> AnySeen(d, fields)
  {
    forall name: string ensures Entries(c, fields, name) == [] <==> Entries(d, fields, name) == [] {
      SameKnown(c, d, fields, name);
    }
  }

  lemma {:induction false} UnrelatedSaysNothing(extra: seq<string>, fields: seq<string>, name: string)
    requires forall i: nat :: i < |extra| ==> Classify(extra[i], fields) == Unrelated
    ensures Entries(extra, fields, name) == [] && Versions(extra, fields) == []
  {
    if extra != [] {
      UnrelatedSaysNothing(extra[..|extra| - 1], fields, name);
    }
  }

  /** Any permutation of the comments, mixed with any unrelated ones, reads the same. */
  lemma OrderAndBystandersDoNotMatter(c: seq<string>, extra: seq<string>, d: seq<string>, fields: seq<string>,
                                      q: Quality, r: Quality)
    requires forall i: nat :: i < |extra| ==> Classify(extra[i], fields) == Unrelated
    requires multiset(d) == multiset(c + extra)
    requires Reads(c, fields, q) && Reads(d, fields, r)
    ensures q == r
  {
    forall name: string
      ensures multiset(Entries(c, fields, name)) == multiset(Entries(d, fields, name))
      ensures multiset(Versions(c, fields)) == multiset(Versions(d, fields))
    {
      EntriesConcat(c, extra, fields, name);
      UnrelatedSaysNothing(extra, fields, name);
      Reordered(c + extra, d, fields, name);
      assert Entries(c, fields, name) + [] == Entries(c, fields, name);
      assert Versions(c, fields) + [] == Versions(c, fields);
    }
    assert multiset(Entries(c, fields, "")) == multiset(Entries(d, fields, ""));
    SameReading(c, d, fields, q, r);
  }

  lemma {:induction false} ProblemsListed(comments: seq<string>, fields: seq<string>, names: seq<string>, name: string)
    ensures name in Problems(comments, fields, names) <==>
            name in names && Known(Entries(comments, fields, name), name).None?
  {
    if names != [] {
      var rest := names[..|names| - 1];
      ProblemsListed(comments, fields, rest, name);
      assert name in names <==> name in rest || name == names[|names| - 1];
    }
  }

  /** A field that is given twice never gets a value; and it is reported as a problem
      exactly if there is one version comment and it says 1. */
  lemma DuplicatesNeverCount(comments: seq<string>, fields: seq<string>, q: Quality, name: string)
    requires Reads(comments, fields, q) && name in fields && |Entries(comments, fields, name)| >= 2
    ensures name !in q.values
    ensures name in q.problems <==> Versions(comments, fields) == ["1"]
  {
    ProblemsListed(comments, fields, fields, name);
  }

  lemma NobodyIsTold(comments: seq<string>, fields: seq<string>, q: Quality, name: string)
    requires Reads(comments, fields, q) && Versions(comments, fields) == []
    requires name in fields && Entries(comments, fields, name) != []
    ensures q == Quality(map[], "metadata version missing", [])
  {
  }

  /** Without a version comment the duplicate of this list is not reported. */
  lemma DuplicateGoesUnreported(q: Quality)
    requires Reads([PREFIX + FIELDS[1] + "=" + "1", PREFIX + FIELDS[1] + "=" + "2"], FIELDS, q)
    ensures FIELDS[1] !in q.values && FIELDS[1] !in q.problems
    ensures |Entries([PREFIX + FIELDS[1] + "=" + "1", PREFIX + FIELDS[1] + "=" + "2"], FIELDS, FIELDS[1])| == 2
  {
    var one, two := PREFIX + FIELDS[1] + "=" + "1", PREFIX + FIELDS[1] + "=" + "2";
    ProgramFields();
    CounterIsRead(FIELDS, 1, "1");
    CounterIsRead(FIELDS, 1, "2");
    LastCounter([], one, FIELDS, FIELDS[1], FIELDS[1], Entry(true, "1"));
    LastCounter([one], two, FIELDS, FIELDS[1], FIELDS[1], Entry(true, "2"));
    assert [] + [one] == [one] && [one] + [two] == [one, two];
    NobodyIsTold([one, two], FIELDS, q, FIELDS[1]);
  }

  // ---------- printing and reading back ----------

  const HEADER := "luaprof CPU sampling profile"
  const TEXT_CAPACITY := 96
  const COMMENT_CAPACITY := 15

  function CounterText(name: string, n: nat): string { PREFIX + name + "=" + Decimal(n) }

  /** The comments of a CPU profile: its title, the version, and one per counter. */
  function Printed(fields: seq<string>, values: seq<nat>): (r: seq<string>)
    requires |values| == |fields|
    ensures |r| == |fields| + 2
  {
    [HEADER, VERSION_KEY + "=1"] + CounterLines(fields, values, |fields|)
  }

  ghost predicate FieldNames(fields: seq<string>) {
    && (forall i: nat, j: nat :: i < j < |fields| ==> fields[i] != fields[j])
    && (forall i: nat :: i < |fields| ==> '=' !in fields[i] && |fields[i]| <= 24)
  }

  /** A 64-bit number has at most twenty digits. */
  lemma {:induction false} DecimalLength(n: nat, digits: nat, bound: nat)
    requires n < bound && bound == Tens(digits) && digits >= 1
    ensures |Decimal(n)| <= digits
    decreases digits
  {
    if digits > 1 && n >= 10 {
      DecimalLength(n / 10, digits - 1, Tens(digits - 1));
    }
  }

  function Tens(n: nat): nat { if n == 0 then 1 else 10 * Tens(n - 1) }

  lemma TwentyDigits()
    ensures WORD <= Tens(20)
  {
    assert Tens(5) == 100000;
    assert Tens(10) == 10000000000 by { assert Tens(8) == 100000000; }
    assert Tens(15) == 1000000000000000 by { assert Tens(13) == 10000000000000; }
    assert Tens(18) == 1000000000000000000;
  }

  /** add_cpu_quality behind the title: no text is cut off, and no comment is one too many. */
  method AddCpuQuality(fields: seq<string>, values: seq<nat>) returns (comments: seq<string>)
    requires FieldNames(fields) && |values| == |fields| <= COMMENT_CAPACITY - 2
    requires forall i: nat :: i < |values| ==> values[i] < WORD
    ensures comments == Printed(fields, values) && |comments| <= COMMENT_CAPACITY
    ensures forall i: nat :: i < |comments| ==> |comments[i]| < TEXT_CAPACITY
  {
    comments := [HEADER, VERSION_KEY + "=1"];
    for i := 0 to |fields|
      invariant comments == [HEADER, VERSION_KEY + "=1"] + CounterLines(fields, values, i)
      invariant forall j: nat :: j < |comments| ==> |comments[j]| < TEXT_CAPACITY
    {
      TwentyDigits();
      DecimalLength(values[i], 20, Tens(20));
      comments := comments + [CounterText(fields[i], values[i])];
    }
  }

  lemma NoEquals(a: string, b: string)
    requires '=' !in a && '=' !in b
    ensures '=' !in a + b
  {
  }

  lemma CounterIsRead(fields: seq<string>, i: nat, text: string)
    requires FieldNames(fields) && i < |fields|
    ensures Classify(PREFIX + fields[i] + "=" + text, fields) == Counter(fields[i], Entry(true, text))
  {
    var key := PREFIX + fields[i];
    NoEquals(PREFIX, fields[i]);
    CutFindsKey(key, text);
    assert key[8] == 'c' && VERSION_KEY[8] == 'm';
    assert key[|PREFIX|..] == fields[i];
  }

  lemma VersionIsRead(fields: seq<string>)
    ensures Classify(VERSION_KEY + "=1", fields) == Version("1")
  {
    CutFindsKey(VERSION_KEY, "1");
    assert VERSION_KEY + "=1" == VERSION_KEY + "=" + "1";
  }

  lemma {:induction false} NoCut(s: string)
    requires '=' !in s
    ensures Cut(s).key == s
  {
    if s != [] {
      NoCut(s[1..]);
      assert [s[0]] + s[1..] == s;
    }
  }

  lemma HeaderIsUnrelated(fields: seq<string>)
    ensures Classify(HEADER, fields) == Unrelated
  {
    NoCut(HEADER);
    HeaderIsOther();
  }

  lemma HeaderIsOther()
    ensures HEADER != VERSION_KEY && !(PREFIX <= HEADER)
  {
    assert |HEADER| == 28 && |VERSION_KEY| == 24;
    assert PREFIX[7] == '.' && HEADER[7] == ' ';
  }

  /** The comments of the first `k` counters. */
  function CounterLines(fields: seq<string>, values: seq<nat>, k: nat): (r: seq<string>)
    requires |values| == |fields| && k <= |fields|
    ensures |r| == k
  {
    if k == 0 then [] else CounterLines(fields, values, k - 1) + [CounterText(fields[k - 1], values[k - 1])]
  }

  lemma LastCounter(c: seq<string>, line: string, fields: seq<string>, name: string, key: string, e: Entry)
    requires Classify(line, fields) == Counter(key, e)
    ensures Versions(c + [line], fields) == Versions(c, fields)
    ensures Entries(c + [line], fields, name)
         == if key == name then Entries(c, fields, name) + [e] else Entries(c, fields, name)
  {
    assert (c + [line])[..|c + [line]| - 1] == c;
  }

  lemma CounterSays(c: seq<string>, fields: seq<string>, k: nat, n: nat, name: string)
    requires FieldNames(fields) && k < |fields|
    ensures Versions(c + [CounterText(fields[k], n)], fields) == Versions(c, fields)
    ensures Entries(c + [CounterText(fields[k], n)], fields, name)
         == if fields[k] == name then Entries(c, fields, name) + [Entry(true, Decimal(n))] else Entries(c, fields, name)
  {
    CounterIsRead(fields, k, Decimal(n));
    LastCounter(c, CounterText(fields[k], n), fields, name, fields[k], Entry(true, Decimal(n)));
  }

  lemma {:induction false} CountersAreRead(fields: seq<string>, values: seq<nat>, k: nat, i: nat)
    requires FieldNames(fields) && |values| == |fields| && k <= |fields| && i < |fields|
    ensures Versions(CounterLines(fields, values, k), fields) == []
    ensures Entries(CounterLines(fields, values, k), fields, fields[i])
         == if i < k then [Entry(true, Decimal(values[i]))] else []
  {
    if k > 0 {
      var c := CounterLines(fields, values, k - 1);
      CountersAreRead(fields, values, k - 1, i);
      CounterSays(c, fields, k - 1, values[k - 1], fields[i]);
      assert CounterLines(fields, values, k) == c + [CounterText(fields[k - 1], values[k - 1])];
      assert fields[k - 1] == fields[i] <==> k - 1 == i;
    }
  }

  lemma PrintedSays(fields: seq<string>, values: seq<nat>, i: nat)
    requires FieldNames(fields) && |values| == |fields| && i < |fields|
    ensures Versions(Printed(fields, values), fields) == ["1"]
    ensures Entries(Printed(fields, values), fields, fields[i]) == [Entry(true, Decimal(values[i]))]
  {
    var title, version := [HEADER], [VERSION_KEY + "=1"];
    var c := CounterLines(fields, values, |fields|);
    var name := fields[i];
    assert Printed(fields, values) == title + (version + c);
    HeaderIsUnrelated(fields);
    VersionIsRead(fields);
    One(title, fields, name);
    One(version, fields, name);
    CountersAreRead(fields, values, |fields|, i);
    EntriesConcat(version, c, fields, name);
    EntriesConcat(title, version + c, fields, name);
  }

  lemma One(c: seq<string>, fields: seq<string>, name: string)
    requires |c| == 1
    ensures Classify(c[0], fields) == Unrelated ==> Entries(c, fields, name) == [] && Versions(c, fields) == []
    ensures Classify(c[0], fields).Version? ==>
              Entries(c, fields, name) == [] && Versions(c, fields) == [Classify(c[0], fields).value]
  {
    assert c[..0] == [];
  }

  predicate Printable(fields: seq<string>, values: seq<nat>) {
    |values| == |fields| && forall i: nat :: i < |fields| ==>
      values[i] < WORD && (fields[i] == RATE ==> 1 <= values[i] <= 10000)
  }

  lemma PrintedIsKnown(fields: seq<string>, values: seq<nat>, i: nat)
    requires FieldNames(fields) && Printable(fields, values) && i < |fields|
    ensures Known(Entries(Printed(fields, values), fields, fields[i]), fields[i]) == Some(values[i])
  {
    PrintedSays(fields, values, i);
    DecimalRoundTrip(values[i]);
  }

  lemma {:induction false} NoProblems(comments: seq<string>, fields: seq<string>, names: seq<string>)
    requires forall i: nat :: i < |names| ==> Known(Entries(comments, fields, names[i]), names[i]).Some?
    ensures Problems(comments, fields, names) == []
  {
    if names != [] {
      NoProblems(comments, fields, names[..|names| - 1]);
    }
  }

  lemma SaysTheSame(c: seq<string>, extra: seq<string>, d: seq<string>, fields: seq<string>, name: string)
    requires forall i: nat :: i < |extra| ==> Classify(extra[i], fields) == Unrelated
    requires multiset(d) == multiset(c + extra)
    ensures Known(Entries(d, fields, name), name) == Known(Entries(c, fields, name), name)
    ensures |Versions(c, fields)| == 1 ==> Versions(d, fields) == Versions(c, fields)
  {
    EntriesConcat(c, extra, fields, name);
    UnrelatedSaysNothing(extra, fields, name);
    Reordered(c + extra, d, fields, name);
    assert Entries(c, fields, name) + [] == Entries(c, fields, name);
    assert Versions(c, fields) + [] == Versions(c, fields);
    SameKnown(c, d, fields, name);
    SingleFromBag(Versions(c, fields), Versions(d, fields));
  }

  lemma CounterIsKnown(fields: seq<string>, values: seq<nat>, extra: seq<string>, d: seq<string>, i: nat)
    requires FieldNames(fields) && Printable(fields, values) && i < |fields|
    requires forall j: nat :: j < |extra| ==> Classify(extra[j], fields) == Unrelated
    requires multiset(d) == multiset(Printed(fields, values) + extra)
    ensures Known(Entries(d, fields, fields[i]), fields[i]) == Some(values[i]) && Versions(d, fields) == ["1"]
  {
    PrintedSays(fields, values, i);
    PrintedIsKnown(fields, values, i);
    SaysTheSame(Printed(fields, values), extra, d, fields, fields[i]);
  }

  /** Whatever the counters are, the printed comments, in any order and among any
      unrelated ones, read back as exactly those counters, without a problem. */
  lemma MetadataRoundTrip(fields: seq<string>, values: seq<nat>, extra: seq<string>, d: seq<string>, q: Quality)
    requires FieldNames(fields) && Printable(fields, values) && |fields| > 0
    requires forall i: nat :: i < |extra| ==> Classify(extra[i], fields) == Unrelated
    requires multiset(d) == multiset(Printed(fields, values) + extra) && Reads(d, fields, q)
    ensures q.unavailable == "" && q.problems == []
    ensures forall name: string :: name in q.values <==> name in fields
    ensures forall i: nat :: i < |fields| ==> fields[i] in q.values && q.values[fields[i]] == values[i]
  {
    forall i: nat | i < |fields|
      ensures Known(Entries(d, fields, fields[i]), fields[i]) == Some(values[i]) && Versions(d, fields) == ["1"]
    {
      CounterIsKnown(fields, values, extra, d, i);
    }
    assert Versions(d, fields) == ["1"] by {
      CounterIsKnown(fields, values, extra, d, 0);
    }
    NoProblems(d, fields, fields);
    forall name: string | name in fields ensures Known(Entries(d, fields, name), name).Some? {
      var i: nat :| i < |fields| && fields[i] == name;
    }
  }

  /** The thirteen counters of the program, for every 64-bit value of each and every
      sampling rate up to 10000. */
  lemma ThirteenCountersRoundTrip(values: seq<nat>, extra: seq<string>, d: seq<string>, q: Quality)
    requires |values| == 13 && 1 <= values[0] <= 10000 && forall i: nat :: i < 13 ==> values[i] < WORD
    requires forall i: nat :: i < |extra| ==> Classify(extra[i], FIELDS) == Unrelated
    requires multiset(d) == multiset(Printed(FIELDS, values) + extra) && Reads(d, FIELDS, q)
    ensures q.unavailable == "" && q.problems == []
    ensures forall name: string :: name in q.values <==> name in FIELDS
    ensures forall i: nat :: i < 13 ==> FIELDS[i] in q.values && q.values[FIELDS[i]] == values[i]
  {
    ProgramFields();
    MetadataRoundTrip(FIELDS, values, extra, d, q);
  }

  /** Length and second letter tell the names apart. */
  function Mark(s: string): (nat, char) { if |s| < 2 then (0, ' ') else (|s|, s[1]) }

  const MARKS: seq<(nat, char)> := [
    (9, 'a'), (7, 'a'), (14, 'v'), (13, 'v'), (14, 'r'), (15, 'n'), (24, 'r'), (12, 't'), (14, 'i'), (17, 't'),
    (19, 'g'), (16, 'y'), (17, 'c')]

  lemma ProgramMarks()
    ensures |FIELDS| == |MARKS| == 13 && forall i: nat :: i < 13 ==> Mark(FIELDS[i]) == MARKS[i]
  {
  }

  lemma MarksDiffer()
    ensures |MARKS| == 13 && forall i: nat, j: nat :: i < j < 13 ==> MARKS[i] != MARKS[j]
  {
  }

  lemma NoEqualsInFields()
    ensures |FIELDS| == 13 && forall i: nat :: i < 13 ==> '=' !in FIELDS[i]
  {
  }

  lemma ProgramFields()
    ensures FieldNames(FIELDS) && |FIELDS| == 13 && forall i: nat :: i < 13 ==> (FIELDS[i] == RATE <==> i == 0)
  {
    ProgramMarks();
    MarksDiffer();
    NoEqualsInFields();
  }
}
