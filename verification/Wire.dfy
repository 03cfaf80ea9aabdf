/** The protobuf wire format, as far as pprof profiles need it: base-128 varints
    and length-delimited records, written and read back. */
module Wire {
  import opened Common

  /** Seven bits a byte, lowest first; all bytes but the last have the high bit. */
  function Varint(v: nat): (r: seq<byte>)
    ensures |r| >= 1
  {
    if v < 128 then [v] else [v % 128 + 128] + Varint(v / 128)
  }

  /** How large the rest of a 64-bit value can be before its `k`-th byte. */
  function Limit(k: nat): nat
    requires k <= 10
  {
    if k == 0 then WORD else Limit(k - 1) / 128
  }

  lemma Limits()
    ensures Limit(1) == 0x200_0000_0000_0000 && Limit(2) == 0x4_0000_0000_0000 && Limit(3) == 0x800_0000_0000
    ensures Limit(4) == 0x10_0000_0000 && Limit(5) == 0x2000_0000 && Limit(6) == 0x40_0000
    ensures Limit(7) == 0x8000 && Limit(8) == 0x100 && Limit(9) == 2 && Limit(10) == 0
  {
  }

  lemma LimitStep(k: nat, v: nat)
    requires k < 10 && v < Limit(k)
    ensures k < 9 ==> v / 128 < Limit(k + 1)
    ensures k == 9 ==> v < 2
  {
    Limits();
  }

  /** A 64-bit value takes at most ten bytes. */
  lemma {:induction false} VarintLength(v: nat, k: nat)
    requires k < 10 && v < Limit(k)
    ensures |Varint(v)| <= 10 - k
    decreases v
  {
    LimitStep(k, v);
    if v >= 128 {
      VarintLength(v / 128, k + 1);
    }
  }

  /** A value read, and what is left. */
  datatype Reading<T> = Reading(value: T, rest: seq<byte>)

  /** read_varint from its `k`-th byte on: no more than ten bytes, and the tenth
      may only hold the one bit that is left of 64. */
  function ReadVarint(data: seq<byte>, k: nat): (r: Option<Reading<nat>>)
    ensures r.Some? ==> |r.value.rest| < |data|
    decreases |data|
  {
    if k >= 10 || data == [] then None
    else if k == 9 && data[0] >= 2 then None
    else if data[0] < 128 then Some(Reading(data[0], data[1..]))
    else
      match ReadVarint(data[1..], k + 1)
      case None => None
      case Some(r) => Some(Reading(data[0] - 128 + 128 * r.value, r.rest))
  }

  /** Reading undoes writing, for every 64-bit value, in front of anything. */
  lemma {:induction false} VarintRoundTrip(v: nat, rest: seq<byte>, k: nat)
    requires k < 10 && v < Limit(k)
    ensures ReadVarint(Varint(v) + rest, k) == Some(Reading(v, rest))
    decreases v
  {
    LimitStep(k, v);
    if v < 128 {
      assert (Varint(v) + rest)[1..] == rest;
    } else {
      VarintRoundTrip(v / 128, rest, k + 1);
      assert (Varint(v) + rest)[1..] == Varint(v / 128) + rest;
    }
  }

  /** One field of a message: a number with a varint or with bytes. */
  datatype Field = Number(id: nat, value: nat) | Bytes(id: nat, data: seq<byte>)

  predicate Writable(f: Field) {
    && 0 < f.id < 0x2000_0000
    && match f case Number(_, v) => v < WORD case Bytes(_, d) => |d| < WORD
  }

  function EncodeField(f: Field): (r: seq<byte>)
    ensures |r| >= 2
  {
    match f
    case Number(id, v) => Varint(id * 8) + Varint(v)
    case Bytes(id, d) => Varint(id * 8 + 2) + Varint(|d|) + d
  }

  function Encode(fs: seq<Field>): seq<byte> {
    if fs == [] then [] else Encode(fs[..|fs| - 1]) + EncodeField(fs[|fs| - 1])
  }

  lemma Regroup(a: seq<byte>, b: seq<byte>, c: seq<byte>)
    ensures (a + b) + c == a + (b + c)
  {
  }

  lemma EncodeLast(fs: seq<Field>, f: Field)
    ensures Encode(fs + [f]) == Encode(fs) + EncodeField(f)
  {
    assert (fs + [f])[..|fs + [f]| - 1] == fs;
  }

  lemma {:induction false} EncodeConcat(a: seq<Field>, b: seq<Field>)
    ensures Encode(a + b) == Encode(a) + Encode(b)
  {
    if |b| == 0 {
      assert a + b == a;
    } else {
      var front, last := b[..|b| - 1], b[|b| - 1];
      assert b == front + [last] && a + b == (a + front) + [last];
      EncodeLast(front, last);
      EncodeLast(a + front, last);
      EncodeConcat(a, front);
      Regroup(Encode(a), Encode(front), EncodeField(last));
    }
  }

  /** What follows a field's key. Fixed-width fields are skipped, and come as None. */
  function ReadBody(id: nat, wire: nat, data: seq<byte>): (r: Option<Reading<Option<Field>>>)
    ensures r.Some? ==> |r.value.rest| <= |data|
  {
    if wire == 0 then
      match ReadVarint(data, 0)
      case None => None
      case Some(v) => Some(Reading(Some(Number(id, v.value)), v.rest))
    else if wire == 2 then
      match ReadVarint(data, 0)
      case None => None
      case Some(n) =>
        if n.value > |n.rest| then None
        else Some(Reading(Some(Bytes(id, n.rest[..n.value])), n.rest[n.value..]))
    else if wire == 1 then
      if |data| < 8 then None else Some(Reading(None, data[8..]))
    else if wire == 5 then
      if |data| < 4 then None else Some(Reading(None, data[4..]))
    else None
  }

  /** One field off the front. */
  function ReadField(data: seq<byte>): (r: Option<Reading<Option<Field>>>)
    ensures r.Some? ==> |r.value.rest| < |data|
  {
    match ReadVarint(data, 0)
    case None => None
    case Some(key) => ReadBody(key.value / 8, key.value % 8, key.rest)
  }

  /** A whole message, field by field. */
  function Decode(data: seq<byte>): Option<seq<Field>>
    decreases |data|
  {
    if data == [] then Some([])
    else
      match ReadField(data)
      case None => None
      case Some(f) =>
        match Decode(f.rest)
        case None => None
        case Some(fs) => Some((if f.value.Some? then [f.value.value] else []) + fs)
  }

  lemma KeyParts(id: nat, wire: nat)
    requires wire < 8
    ensures (id * 8 + wire) / 8 == id && (id * 8 + wire) % 8 == wire
  {
  }

  lemma KeyRoundTrip(id: nat, wire: nat, body: seq<byte>)
    requires 0 < id < 0x2000_0000 && wire < 8
    ensures ReadField(Varint(id * 8 + wire) + body) == ReadBody(id, wire, body)
  {
    KeyParts(id, wire);
    VarintRoundTrip(id * 8 + wire, body, 0);
  }

  function WireType(f: Field): nat { if f.Number? then 0 else 2 }

  function Body(f: Field): seq<byte> {
    match f
    case Number(_, v) => Varint(v)
    case Bytes(_, d) => Varint(|d|) + d
  }

  lemma FieldParts(f: Field)
    ensures EncodeField(f) == Varint(f.id * 8 + WireType(f)) + Body(f)
  {
    if f.Bytes? {
      Regroup(Varint(f.id * 8 + 2), Varint(|f.data|), f.data);
    }
  }

  lemma TakePrefix(d: seq<byte>, rest: seq<byte>)
    ensures (d + rest)[..|d|] == d && (d + rest)[|d|..] == rest
  {
  }

  lemma BodyRoundTrip(f: Field, rest: seq<byte>)
    requires Writable(f)
    ensures ReadBody(f.id, WireType(f), Body(f) + rest) == Some(Reading(Some(f), rest))
  {
    match f
    case Number(id, v) => VarintRoundTrip(v, rest, 0);
    case Bytes(id, d) =>
      Regroup(Varint(|d|), d, rest);
      VarintRoundTrip(|d|, d + rest, 0);
      TakePrefix(d, rest);
  }

  lemma KeyThen(id: nat, wire: nat, body: seq<byte>, rest: seq<byte>)
    requires 0 < id < 0x2000_0000 && wire < 8
    ensures ReadField((Varint(id * 8 + wire) + body) + rest) == ReadBody(id, wire, body + rest)
  {
    Regroup(Varint(id * 8 + wire), body, rest);
    KeyRoundTrip(id, wire, body + rest);
  }

  lemma FieldRoundTrip(f: Field, rest: seq<byte>)
    requires Writable(f)
    ensures ReadField(EncodeField(f) + rest) == Some(Reading(Some(f), rest))
  {
    FieldParts(f);
    KeyThen(f.id, WireType(f), Body(f), rest);
    BodyRoundTrip(f, rest);
  }

  ghost predicate AllWritable(fs: seq<Field>) { forall i: nat :: i < |fs| ==> Writable(fs[i]) }

  lemma EncodeFirst(fs: seq<Field>)
    requires fs != []
    ensures Encode(fs) == EncodeField(fs[0]) + Encode(fs[1..])
  {
    assert fs == [fs[0]] + fs[1..];
    EncodeConcat([fs[0]], fs[1..]);
    assert [fs[0]][..0] == [];
    assert Encode([fs[0]]) == EncodeField(fs[0]);
  }

  lemma DecodeFirst(data: seq<byte>, f: Field, rest: seq<byte>, fs: seq<Field>)
    requires ReadField(data) == Some(Reading(Some(f), rest)) && Decode(rest) == Some(fs)
    ensures Decode(data) == Some([f] + fs)
  {
  }

  /** Decoding undoes encoding, whatever the fields and their order. */
  lemma {:induction false} MessageRoundTrip(fs: seq<Field>)
    requires AllWritable(fs)
    ensures Decode(Encode(fs)) == Some(fs)
    decreases |fs|
  {
    if fs != [] {
      EncodeFirst(fs);
      FieldRoundTrip(fs[0], Encode(fs[1..]));
      MessageRoundTrip(fs[1..]);
      DecodeFirst(Encode(fs), fs[0], Encode(fs[1..]), fs[1..]);
      assert fs == [fs[0]] + fs[1..];
    }
  }
}
