/** lp_buffer of src/pprof_exporter.c: a byte buffer that doubles when it grows and
    may run out of memory at any growth. A failure sticks, and callers find out
    at the end. */
module Buffers {
  import opened Common
  import opened Wire

  const SIZE_MAX := WORD - 1

  /** Buffers up to this size never fail unless memory runs out. */
  const PLENTY := 0x4000_0000_0000_0000

  /** What excuses a failure: memory may run out, or more than PLENTY was asked for. */
  predicate Starved(ample: bool, needed: nat) { !ample || needed > PLENTY }

  class Buffer {
    var data: array<byte>
    var size: nat
    var failed: bool
    /** Whether every reallocation succeeds. */
    const ample: bool

    ghost predicate Valid()
      reads this
    {
      size <= data.Length && size <= SIZE_MAX
    }

    ghost function Content(): seq<byte>
      requires Valid()
      reads this, data
    {
      data[..size]
    }

    constructor (ample: bool)
      ensures Valid() && Content() == [] && !failed && fresh(data) && this.ample == ample
    {
      this.ample := ample;
      data := new byte[0];
      size, failed := 0, false;
    }

    /** grow_array; unless memory is ample the reallocation may fail, whatever it is asked for. */
    method Grow(wanted: nat) returns (ok: bool)
      requires Valid()
      modifies this`data
      ensures Valid() && Content() == old(Content())
      ensures data == old(data) || fresh(data)
      ensures ok ==> wanted <= data.Length
      ensures !ok ==> Starved(ample, wanted)
    {
      if wanted <= data.Length { return true; }
      var next := if data.Length == 0 then 16 else data.Length;
      while next < wanted
        invariant next >= data.Length && next > 0 && (next < 2 * wanted || next == 16)
      {
        if next > SIZE_MAX / 2 { return false; }
        next := next * 2;
      }
      if next > SIZE_MAX { return false; }
      var granted: bool := *;
      if !granted && !ample { return false; }
      var replacement := new byte[next](_ => 0);
      forall i | 0 <= i < size { replacement[i] := data[i]; }
      data := replacement;
      ok := true;
    }

    /** buffer_reserve. */
    method Reserve(additional: nat) returns (ok: bool)
      requires Valid()
      modifies this
      ensures Valid() && Content() == old(Content())
      ensures data == old(data) || fresh(data)
      ensures ok ==> !old(failed) && size + additional <= data.Length && size + additional <= SIZE_MAX
      ensures failed == !ok
      ensures failed ==> old(failed) || Starved(ample, size + additional)
    {
      if failed { return false; }
      if additional > SIZE_MAX - size {
        failed := true;
        return false;
      }
      ok := Grow(size + additional);
      if !ok {
        failed := true;
      }
    }

    /** buffer_append. */
    method Append(bytes: seq<byte>)
      requires Valid()
      modifies this, data
      ensures Valid() && (data == old(data) || fresh(data))
      ensures old(failed) ==> failed
      ensures Content() == if failed then old(Content()) else old(Content()) + bytes
      ensures failed ==> old(failed) || Starved(ample, old(size) + |bytes|)
    {
      if |bytes| == 0 { return; }
      var ok := Reserve(|bytes|);
      if !ok { return; }
      ghost var before := Content();
      forall i | 0 <= i < |bytes| { data[size + i] := bytes[i]; }
      size := size + |bytes|;
      assert Content()[..|before|] == before;
    }

    /** buffer_varint. */
    method AppendVarint(value: nat)
      requires Valid() && value < WORD
      modifies this, data
      ensures Valid() && (data == old(data) || fresh(data))
      ensures old(failed) ==> failed
      ensures !failed ==> Content() == old(Content()) + Varint(value)
      ensures failed ==> old(failed) || Starved(ample, old(size) + |Varint(value)|)
    {
      var encoded := EncodeVarint(value);
      Append(encoded);
    }

    /** buffer_key. */
    method AppendKey(id: nat, wire: nat)
      requires Valid() && 0 < id < 0x2000_0000 && wire < 8
      modifies this, data
      ensures Valid() && (data == old(data) || fresh(data))
      ensures old(failed) ==> failed
      ensures !failed ==> Content() == old(Content()) + Varint(id * 8 + wire)
      ensures failed ==> old(failed) || Starved(ample, old(size) + |Varint(id * 8 + wire)|)
    {
      AppendVarint(id * 8 + wire);
    }

    /** buffer_field_varint. */
    method FieldVarint(id: nat, value: nat)
      requires Valid() && 0 < id < 0x2000_0000 && value < WORD
      modifies this, data
      ensures Valid() && (data == old(data) || fresh(data))
      ensures old(failed) ==> failed
      ensures !failed ==> Content() == old(Content()) + EncodeField(Number(id, value))
      ensures failed ==> old(failed) || Starved(ample, old(size) + |EncodeField(Number(id, value))|)
    {
      ghost var before := Content();
      AppendKey(id, 0);
      AppendVarint(value);
      NumberJoins(before, id, value);
    }

    /** buffer_field_bytes. */
    method FieldBytes(id: nat, bytes: seq<byte>)
      requires Valid() && 0 < id < 0x2000_0000 && |bytes| < WORD
      modifies this, data
      ensures Valid() && (data == old(data) || fresh(data))
      ensures old(failed) ==> failed
      ensures !failed ==> Content() == old(Content()) + EncodeField(Bytes(id, bytes))
      ensures failed ==> old(failed) || Starved(ample, old(size) + |EncodeField(Bytes(id, bytes))|)
    {
      ghost var before := Content();
      AppendKey(id, 2);
      AppendVarint(|bytes|);
      Append(bytes);
      BytesJoin(before, id, bytes);
    }

    /** buffer_field_message; the message is taken as it is, even if it failed. */
    method FieldMessage(id: nat, message: Buffer)
      requires Valid() && message.Valid() && message != this && message.data != data && 0 < id < 0x2000_0000
      modifies this, data
      ensures Valid() && (data == old(data) || fresh(data))
      ensures old(failed) ==> failed
      ensures !failed ==> Content() == old(Content()) + EncodeField(Bytes(id, message.Content()))
      ensures failed ==> old(failed) || Starved(ample, old(size) + |EncodeField(Bytes(id, message.Content()))|)
    {
      FieldBytes(id, message.data[..message.size]);
    }
  }

  lemma NumberJoins(before: seq<byte>, id: nat, value: nat)
    ensures (before + Varint(id * 8)) + Varint(value) == before + EncodeField(Number(id, value))
    ensures |EncodeField(Number(id, value))| == |Varint(id * 8)| + |Varint(value)|
  {
    Regroup(before, Varint(id * 8), Varint(value));
  }

  lemma BytesJoin(before: seq<byte>, id: nat, bytes: seq<byte>)
    ensures ((before + Varint(id * 8 + 2)) + Varint(|bytes|)) + bytes == before + EncodeField(Bytes(id, bytes))
    ensures |EncodeField(Bytes(id, bytes))| == |Varint(id * 8 + 2)| + |Varint(|bytes|)| + |bytes|
  {
    Regroup(before, Varint(id * 8 + 2), Varint(|bytes|));
    Regroup(before, Varint(id * 8 + 2) + Varint(|bytes|), bytes);
  }

  /** The loop of buffer_varint. */
  method EncodeVarint(value: nat) returns (r: seq<byte>)
    requires value < WORD
    ensures r == Varint(value) && |r| <= 10
  {
    var encoded := new byte[10](_ => 0);
    var count, rest: nat, more := 0, value, true;
    while more
      invariant count <= 10 && (more ==> count < 10 && rest < Limit(count))
      invariant Varint(value) == if more then encoded[..count] + Varint(rest) else encoded[..count]
      decreases 10 - count, more
    {
      ghost var done := encoded[..count];
      var low, high := rest % 128, rest / 128;
      LimitStep(count, rest);
      VarintSplits(done, rest, low, high);
      var b: byte := if high != 0 then low + 128 else low;
      encoded[count] := b;
      more, rest, count := high != 0, high, count + 1;
      assert encoded[..count] == done + [b];
    }
    r := encoded[..count];
  }

  lemma VarintSplits(done: seq<byte>, rest: nat, low: nat, high: nat)
    requires low == rest % 128 && high == rest / 128
    ensures low < 128
    ensures high != 0 ==> done + Varint(rest) == (done + [low + 128]) + Varint(high)
    ensures high == 0 ==> done + Varint(rest) == done + [low]
  {
  }
}
