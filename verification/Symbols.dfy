/** Symbol interning: intern_symbol of src/memory_core.c and src/cpu_core.c, which
    are the same code. Symbols live in a probed table whose indices are the ids;
    their texts are slices of one byte arena that only grows. */
module Symbols {
  import opened Common
  import opened Probing

  const SYMBOL_CAPACITY := 4096
  const SOURCE_CAPACITY := 262144
  const MAX_SOURCE_LENGTH := 1024
  const MAX_NAME_LENGTH := 255

  /** A C text argument: a pointer and a length; a null pointer may still carry one. */
  datatype Text = Null(size: nat) | Bytes(data: seq<byte>) {
    function Size(): nat { if Null? then size else |data| }

    function Present(): bool { Bytes? && data != [] }
  }

  datatype Frame = Frame(kind: int, function_: nat, cfunction: word, source: Text, name: Text,
                         linedefined: cint, currentline: cint)

  /** The fields symbol_matches compares. */
  datatype Key = Key(kind: int, function_: nat, cfunction: word, linedefined: cint,
                     sourceLength: nat, sourceHash: nat)

  /** Where a text was kept; LP_NO_SOURCE is Nowhere. */
  datatype Span = Nowhere | Span(offset: nat, length: nat)

  datatype Symbol = Symbol(source: Span, name: Span)

  /** The symbol, and which of its two texts, an arena byte was given to. */
  datatype Owner = Owner(slot: nat, isName: bool)

  function Min(a: nat, b: nat): nat { if a < b then a else b }

  function KeyOf(f: Frame, digest: seq<byte> -> nat): Key {
    var text := if f.source.Present() then f.source.data[..Min(|f.source.data|, MAX_SOURCE_LENGTH)] else [];
    Key(f.kind, f.function_, f.cfunction, f.linedefined, f.source.Size(), digest(text))
  }

  /** A span lies inside the used part, is its owner's alone, and ends in NUL. */
  ghost predicate Kept(arena: seq<byte>, owner: seq<Owner>, span: Span, who: Owner) {
    span.Span? ==>
      && span.offset + span.length < |owner| <= |arena|
      && (forall b: nat :: span.offset <= b <= span.offset + span.length ==> owner[b] == who)
      && arena[span.offset + span.length] == 0
  }

  ghost predicate AllKept(slots: Slots<Key, Symbol>, arena: seq<byte>, owner: seq<Owner>) {
    forall i: nat :: i < |slots| && slots[i].Some? ==>
      && Kept(arena, owner, slots[i].value.value.source, Owner(i, false))
      && Kept(arena, owner, slots[i].value.value.name, Owner(i, true))
  }

  function TextOf(arena: seq<byte>, span: Span): Option<seq<byte>> {
    if span.Span? && span.offset + span.length <= |arena|
    then Some(arena[span.offset..span.offset + span.length]) else None
  }

  /** Two texts never share an arena byte, terminators included. */
  lemma SlicesAreDisjoint(slots: Slots<Key, Symbol>, arena: seq<byte>, owner: seq<Owner>,
                          a: Owner, b: Owner, s: Span, t: Span)
    requires AllKept(slots, arena, owner) && a != b
    requires Kept(arena, owner, s, a) && Kept(arena, owner, t, b) && s.Span? && t.Span?
    ensures s.offset + s.length < t.offset || t.offset + t.length < s.offset
  {
    assert owner[s.offset] == a && owner[t.offset] == b;
  }

  lemma GrowthKeeps(slots: Slots<Key, Symbol>, arena: seq<byte>, owner: seq<Owner>,
                    arena': seq<byte>, owner': seq<Owner>)
    requires AllKept(slots, arena, owner) && |arena| == |arena'| && |owner| <= |owner'| <= |arena|
    requires owner'[..|owner|] == owner && arena'[..|owner|] == arena[..|owner|]
    ensures AllKept(slots, arena', owner')
  {
    forall i: nat, b: nat | i < |slots| && slots[i].Some? && b < |owner|
      ensures owner'[b] == owner[b] && arena'[b] == arena[b]
    {
      assert owner'[..|owner|][b] == owner[b] && arena'[..|owner|][b] == arena[..|owner|][b];
    }
  }

  lemma KeptStays(arena: seq<byte>, owner: seq<Owner>, arena': seq<byte>, owner': seq<Owner>, span: Span, who: Owner)
    requires Kept(arena, owner, span, who)
    requires |arena| == |arena'| && |owner| <= |owner'| <= |arena|
    requires owner'[..|owner|] == owner && arena'[..|owner|] == arena[..|owner|]
    ensures Kept(arena', owner', span, who) && TextOf(arena', span) == TextOf(arena, span)
  {
    forall b: nat | b < |owner| ensures owner'[b] == owner[b] && arena'[b] == arena[b] {
      assert owner'[..|owner|][b] == owner[b] && arena'[..|owner|][b] == arena[..|owner|][b];
    }
    if span.Span? {
      assert TextOf(arena', span).value == TextOf(arena, span).value;
    }
  }

  lemma FilledKept(slots: Slots<Key, Symbol>, arena: seq<byte>, owner: seq<Owner>, i: nat, k: Key, y: Symbol)
    requires AllKept(slots, arena, owner) && i < |slots|
    requires Kept(arena, owner, y.source, Owner(i, false)) && Kept(arena, owner, y.name, Owner(i, true))
    ensures AllKept(slots[i := Some(Entry(k, y))], arena, owner)
  {
  }

  ghost predicate AllUsed(slots: Slots<Key, Symbol>) {
    forall i: nat :: i < |slots| ==> slots[i].Some?
  }

  /** What a new symbol keeps of the frame that introduced it: each text truncated
      to its limit, the source first, as long as the arena has never been full. */
  ghost predicate IntroducedBy(f: Frame, y: Symbol, arena: seq<byte>, used: nat, full: bool) {
    var sourceLength, nameLength := Min(f.source.Size(), MAX_SOURCE_LENGTH), Min(f.name.Size(), MAX_NAME_LENGTH);
    var used' := if y.source.Span? then used + sourceLength + 1 else used;
    var full' := full || (f.source.Present() && y.source.Nowhere?);
    && (y.source.Span? <==> f.source.Present() && !full && used + sourceLength < |arena|)
    && (y.source.Span? ==> TextOf(arena, y.source) == Some(f.source.data[..sourceLength]))
    && (y.name.Span? <==> f.name.Present() && !full' && used' + nameLength < |arena|)
    && (y.name.Span? ==> TextOf(arena, y.name) == Some(f.name.data[..nameLength]))
  }

  /** lp_compact_frame. */
  datatype Compact = Compact(symbol: nat, line: cint)

  /** Symbols, once there, stay where they are and as they are. */
  ghost predicate Extends(s: Slots<Key, Symbol>, t: Slots<Key, Symbol>) {
    |t| == |s| && forall i: nat :: i < |s| && s[i].Some? ==> t[i] == s[i]
  }

  /** Each id names its frame's key; id 0 only when the table has no room for the key. */
  ghost predicate Resolved(slots: Slots<Key, Symbol>, digest: seq<byte> -> nat, frames: seq<Frame>,
                           stack: seq<Compact>) {
    |stack| == |frames| && forall i: nat :: i < |stack| ==>
      && stack[i].line == frames[i].currentline
      && if stack[i].symbol == 0 then AllUsed(slots) && Absent(slots, KeyOf(frames[i], digest))
         else Holds(slots, stack[i].symbol - 1, KeyOf(frames[i], digest))
  }

  lemma ExtendedBy(s: Slots<Key, Symbol>, t: Slots<Key, Symbol>, id: nat)
    requires |s| == |t| && forall i: nat :: i < |s| && i + 1 != id ==> t[i] == s[i]
    requires 0 < id <= |s| && s[id - 1].Some? ==> s == t
    ensures Extends(s, t)
  {
  }

  lemma ResolvedGrows(s: Slots<Key, Symbol>, t: Slots<Key, Symbol>, digest: seq<byte> -> nat,
                      frames: seq<Frame>, stack: seq<Compact>)
    requires Extends(s, t) && Resolved(s, digest, frames, stack)
    ensures Resolved(t, digest, frames, stack)
  {
    forall i: nat | i < |stack| && stack[i].symbol == 0
      ensures AllUsed(t) && Absent(t, KeyOf(frames[i], digest))
    {
      assert s == t;
    }
  }

  /** Ids and texts, once given, never change. */
  ghost predicate SymbolsStay(s: Slots<Key, Symbol>, arena: seq<byte>, t: Slots<Key, Symbol>, arena': seq<byte>) {
    |t| == |s| && forall i: nat :: i < |s| && s[i].Some? ==>
      && t[i] == s[i]
      && TextOf(arena', s[i].value.value.source) == TextOf(arena, s[i].value.value.source)
      && TextOf(arena', s[i].value.value.name) == TextOf(arena, s[i].value.value.name)
  }

  lemma SymbolsNeverChange(s: Slots<Key, Symbol>, arena: seq<byte>, owner: seq<Owner>,
                           t: Slots<Key, Symbol>, arena': seq<byte>)
    requires AllKept(s, arena, owner) && Extends(s, t) && |arena'| == |arena|
    requires |owner| <= |arena| && arena'[..|owner|] == arena[..|owner|]
    ensures SymbolsStay(s, arena, t, arena')
  {
    forall i: nat | i < |s| && s[i].Some?
      ensures TextOf(arena', s[i].value.value.source) == TextOf(arena, s[i].value.value.source)
      ensures TextOf(arena', s[i].value.value.name) == TextOf(arena, s[i].value.value.name)
    {
      KeptStays(arena, owner, arena', owner, s[i].value.value.source, Owner(i, false));
      KeptStays(arena, owner, arena', owner, s[i].value.value.name, Owner(i, true));
    }
  }

  predicate SameFrame(f: Frame, g: Frame, digest: seq<byte> -> nat) {
    KeyOf(f, digest) == KeyOf(g, digest) && f.currentline == g.currentline
  }

  /** Compact stacks are equal exactly when their frames agree, as long as every
      frame got a symbol: equal keys share an id and different keys do not. */
  lemma CompactStacksAreFaithful(slots: Slots<Key, Symbol>, h: Key -> nat, digest: seq<byte> -> nat,
                                 fs: seq<Frame>, gs: seq<Frame>, a: seq<Compact>, b: seq<Compact>)
    requires Probed(slots, h) && Resolved(slots, digest, fs, a) && Resolved(slots, digest, gs, b)
    requires forall i: nat :: i < |a| ==> a[i].symbol != 0
    requires forall i: nat :: i < |b| ==> b[i].symbol != 0
    ensures a == b <==> |fs| == |gs| && forall i: nat :: i < |fs| ==> SameFrame(fs[i], gs[i], digest)
  {
    if a == b {
      forall i: nat | i < |fs| ensures SameFrame(fs[i], gs[i], digest) {
        assert a[i] == b[i];
      }
    }
    if |fs| == |gs| && forall i: nat :: i < |fs| ==> SameFrame(fs[i], gs[i], digest) {
      forall i: nat | i < |a| ensures a[i] == b[i] {
        assert SameFrame(fs[i], gs[i], digest);
        assert slots[a[i].symbol - 1].value.key == slots[b[i].symbol - 1].value.key;
      }
    }
  }

  class SymbolTable {
    const table: Table<Key, Symbol>
    const sources: array<byte>
    const digest: seq<byte> -> nat
    var sourceUsed: nat
    var sourcesFull: bool
    var overflows: nat
    ghost var owner: seq<Owner>

    ghost predicate Intact()
      reads this, table.slots, sources
    {
      && table.Valid()
      && sourceUsed == |owner| <= sources.Length
      && AllKept(table.slots[..], sources[..], owner)
    }

    /** The representation is intact; users of the table need not look inside. */
    ghost predicate Valid()
      reads this, table.slots, sources
    {
      forall key: nat :: Opened(SymbolLock, key) ==> Intact()
    }

    constructor (hash: Key -> nat, digest: seq<byte> -> nat)
      ensures Valid() && fresh(table.slots) && fresh(sources)
      ensures table.slots.Length == SYMBOL_CAPACITY && sources.Length == SOURCE_CAPACITY
      ensures forall i: nat :: i < SYMBOL_CAPACITY ==> table.slots[i].None?
      ensures overflows == 0 && sourceUsed == 0 && !sourcesFull && this.digest == digest
    {
      var t := new Table<Key, Symbol>(SYMBOL_CAPACITY, hash);
      table := t;
      sources := new byte[SOURCE_CAPACITY];
      this.digest := digest;
      sourceUsed, sourcesFull, overflows, owner := 0, false, 0, [];
    }

    /** Copy a text, truncated to `limit`, behind the used part of the arena. */
    method Keep(text: Text, limit: nat, ghost who: Owner) returns (span: Span)
      requires Intact() && limit > 0
      modifies this, sources
      ensures Intact() && sources[..old(sourceUsed)] == old(sources[..sourceUsed])
      ensures old(sourceUsed) <= sourceUsed && owner[..old(sourceUsed)] == old(owner)
      ensures Kept(sources[..], owner, span, who)
      ensures span.Span? <==>
                text.Present() && !old(sourcesFull) && old(sourceUsed) + Min(text.Size(), limit) < sources.Length
      ensures span.Span? ==> span.offset == old(sourceUsed)
                             && sourceUsed == old(sourceUsed) + span.length + 1
                             && span.length == Min(text.Size(), limit)
                             && TextOf(sources[..], span) == Some(text.data[..Min(text.Size(), limit)])
      ensures span.Nowhere? ==> sourceUsed == old(sourceUsed)
      ensures sourcesFull == (old(sourcesFull) || (text.Present() && span.Nowhere?))
      ensures overflows == old(overflows) + if !text.Present() || old(sourcesFull) then 0
                             else (if text.Size() > limit then 1 else 0) + (if span.Nowhere? then 1 else 0)
    {
      span := Nowhere;
      if text.Present() && !sourcesFull {
        var copy := |text.data|;
        if copy > limit {
          copy := limit;
          overflows := overflows + 1;
        }
        if copy + 1 <= sources.Length - sourceUsed {
          span := Store(text.data[..copy], who);
        } else {
          sourcesFull := true;
          overflows := overflows + 1;
        }
      }
    }

    /** Copy a text, with its terminator, behind the used part of the arena. */
    method Store(data: seq<byte>, ghost who: Owner) returns (span: Span)
      requires Intact() && |data| + 1 <= sources.Length - sourceUsed
      modifies this`sourceUsed, this`owner, sources
      ensures Intact() && sources[..old(sourceUsed)] == old(sources[..sourceUsed])
      ensures span == Span(old(sourceUsed), |data|) && sourceUsed == old(sourceUsed) + |data| + 1
      ensures owner[..old(sourceUsed)] == old(owner) && Kept(sources[..], owner, span, who)
      ensures TextOf(sources[..], span) == Some(data)
    {
      span := Span(sourceUsed, |data|);
      forall b | 0 <= b < |data| { sources[sourceUsed + b] := data[b]; }
      sources[sourceUsed + |data|] := 0;
      owner := owner + seq(|data| + 1, _ => who);
      sourceUsed := sourceUsed + |data| + 1;
      GrowthKeeps(table.slots[..], old(sources[..]), old(owner), sources[..], owner);
      assert TextOf(sources[..], span).value == data;
    }

    /** Keep the texts of the symbol that is about to fill cell `index`. */
    method Introduce(f: Frame, ghost index: nat) returns (y: Symbol)
      requires Intact()
      modifies this, sources
      ensures Intact() && IntroducedBy(f, y, sources[..], old(sourceUsed), old(sourcesFull))
      ensures Kept(sources[..], owner, y.source, Owner(index, false))
                && Kept(sources[..], owner, y.name, Owner(index, true))
      ensures sources[..old(sourceUsed)] == old(sources[..sourceUsed])
      ensures old(sourceUsed) <= sourceUsed && owner[..old(sourceUsed)] == old(owner)
    {
      var source := Keep(f.source, MAX_SOURCE_LENGTH, Owner(index, false));
      ghost var arena, held := sources[..], owner;
      var name := Keep(f.name, MAX_NAME_LENGTH, Owner(index, true));
      KeptStays(arena, held, sources[..], owner, source, Owner(index, false));
      assert arena[..old(sourceUsed)] == arena[..|held|][..old(sourceUsed)];
      assert sources[..][..old(sourceUsed)] == sources[..][..|held|][..old(sourceUsed)];
      y := Symbol(source, name);
    }

    /** The id of a frame's symbol: its table index plus one, or 0 when the table
        is full. A new symbol keeps the texts of the frame that introduced it. */
    method Intern(f: Frame) returns (id: nat)
      requires Intact()
      modifies this, table.slots, sources
      ensures Intact()
      ensures id <= table.slots.Length
      ensures id == 0 ==> table.slots[..] == old(table.slots[..]) && AllUsed(table.slots[..])
                          && Absent(table.slots[..], KeyOf(f, digest)) && overflows == old(overflows) + 1
      ensures id > 0 ==> Holds(table.slots[..], id - 1, KeyOf(f, digest))
      ensures id > 0 && old(table.slots[id - 1]).Some? ==>
                table.slots[..] == old(table.slots[..]) && overflows == old(overflows)
      ensures id == 0 || old(table.slots[id - 1]).Some? ==>
                sourceUsed == old(sourceUsed) && sourcesFull == old(sourcesFull)
      ensures id > 0 && old(table.slots[id - 1]).None? ==>
                && Absent(old(table.slots[..]), KeyOf(f, digest))
                && IntroducedBy(f, table.slots[id - 1].value.value, sources[..], old(sourceUsed), old(sourcesFull))
      ensures forall i: nat :: i < table.slots.Length && i + 1 != id ==> table.slots[i] == old(table.slots[i])
      ensures sources[..old(sourceUsed)] == old(sources[..sourceUsed])
      ensures old(sourceUsed) <= sourceUsed && owner[..old(sourceUsed)] == old(owner)
    {
      var key := KeyOf(f, digest);
      var found := table.Locate(key);
      match found
      case Hit(index) => id := index + 1;
      case Full =>
        overflows := overflows + 1;
        id := 0;
      case Free(index) =>
        var symbol := Introduce(f, index);
        ghost var before := table.slots[..];
        table.Fill(index, key, symbol);
        FilledKept(before, sources[..], owner, index, key, symbol);
        id := index + 1;
    }

    /** The symbol loop of lp_memory_profile_record and lp_cpu_profile_record. */
    method Compress(frames: seq<Frame>) returns (stack: seq<Compact>)
      requires Valid()
      modifies this, table.slots, sources
      ensures Valid() && Probed(table.slots[..], table.hash)
      ensures Resolved(table.slots[..], digest, frames, stack)
      ensures Extends(old(table.slots[..]), table.slots[..])
      ensures old(sourceUsed) <= sourceUsed <= sources.Length
      ensures sources[..old(sourceUsed)] == old(sources[..sourceUsed])
      ensures SymbolsStay(old(table.slots[..]), old(sources[..]), table.slots[..], sources[..])
    {
      assert Opened(SymbolLock, 0);
      stack := [];
      for i := 0 to |frames|
        invariant Intact() && |stack| == i
        invariant Resolved(table.slots[..], digest, frames[..i], stack)
        invariant Extends(old(table.slots[..]), table.slots[..])
        invariant old(sourceUsed) <= sourceUsed && sources[..old(sourceUsed)] == old(sources[..sourceUsed])
      {
        ghost var before, arena, used := table.slots[..], sources[..], sourceUsed;
        var id := Intern(frames[i]);
        ExtendedBy(before, table.slots[..], id);
        ResolvedGrows(before, table.slots[..], digest, frames[..i], stack);
        assert sources[..old(sourceUsed)] == sources[..used][..old(sourceUsed)];
        assert arena[..old(sourceUsed)] == arena[..used][..old(sourceUsed)];
        stack := stack + [Compact(id, frames[i].currentline)];
        assert frames[..i + 1] == frames[..i] + [frames[i]];
      }
      assert frames[..|frames|] == frames;
      SymbolsNeverChange(old(table.slots[..]), old(sources[..]), old(owner), table.slots[..], sources[..]);
    }
  }
}
