/** lp_cpu_profile of src/cpu_core.c: samples are interned, aggregated by VM
    state, C function and stack, and counted once each. */
module CpuProfile {
  import opened Common
  import opened Probing
  import Symbols
  import opened ThreadModel

  const AGGREGATE_CAPACITY := 2048
  const MAX_STACK_DEPTH := 64

  type Stack = s: seq<Symbols.Compact> | |s| <= MAX_STACK_DEPTH

  /** What aggregate_matches compares. */
  datatype CpuKey = CpuKey(vmState: nat, cfunction: word, stack: Stack)

  type Weighted = Slots<CpuKey, nat>

  function WeightIn(c: Option<Entry<CpuKey, nat>>): nat {
    match c case None => 0 case Some(e) => e.value
  }

  function SumOf(slots: Weighted, state: Option<nat>): nat {
    if |slots| == 0 then 0
    else SumOf(slots[..|slots| - 1], state) + Share(slots[|slots| - 1], state)
  }

  /** A cell's weight, if it is of the asked VM state. */
  function Share(c: Option<Entry<CpuKey, nat>>, state: Option<nat>): nat {
    if c.Some? && (state.None? || c.value.key.vmState == state.value) then c.value.value else 0
  }

  lemma {:induction false} SumOfChange(slots: Weighted, i: nat, c: Option<Entry<CpuKey, nat>>, state: Option<nat>)
    requires i < |slots|
    ensures SumOf(slots[i := c], state) + Share(slots[i], state) == SumOf(slots, state) + Share(c, state)
  {
    var n, t := |slots| - 1, slots[i := c];
    if i == n {
      assert t[..n] == slots[..n];
    } else {
      assert t[..n] == slots[..n][i := c];
      SumOfChange(slots[..n], i, c, state);
    }
  }

  lemma {:induction false} SumOfNothing(slots: Weighted, state: Option<nat>)
    requires forall i: nat :: i < |slots| ==> slots[i].None?
    ensures SumOf(slots, state) == 0 && Used(slots) == 0
  {
    if |slots| > 0 {
      SumOfNothing(slots[..|slots| - 1], state);
    }
  }

  /** Adding one to the cell of a key, which may be new. */
  function Bumped(slots: Weighted, i: nat, k: CpuKey): Weighted
    requires i < |slots|
  {
    slots[i := Some(Entry(k, WeightIn(slots[i]) + 1))]
  }

  /** The counters agree with the table. */
  ghost predicate Balanced(slots: Weighted, samples: nat, byState: seq<nat>) {
    && |byState| == 4 && samples == SumOf(slots, None)
    && (forall v: nat :: v < 4 ==> byState[v] == SumOf(slots, Some(v)))
    && (forall i: nat :: i < |slots| && slots[i].Some? ==> slots[i].value.key.vmState < 4)
  }

  lemma BumpKeepsBalance(slots: Weighted, i: nat, k: CpuKey, samples: nat, byState: seq<nat>)
    requires i < |slots| && Balanced(slots, samples, byState) && k.vmState < 4
    requires slots[i].Some? ==> slots[i].value.key == k
    ensures Balanced(Bumped(slots, i, k), samples + 1, byState[k.vmState := byState[k.vmState] + 1])
    ensures Used(Bumped(slots, i, k)) == Used(slots) + if slots[i].Some? then 0 else 1
  {
    var c: Option<Entry<CpuKey, nat>> := Some(Entry(k, WeightIn(slots[i]) + 1));
    SumOfChange(slots, i, c, None);
    forall v: nat | v < 4
      ensures SumOf(Bumped(slots, i, k), Some(v)) == SumOf(slots, Some(v)) + if v == k.vmState then 1 else 0
    {
      SumOfChange(slots, i, c, Some(v));
    }
    UsedInsert(slots, i, c.value);
  }

  /** A sample found room: its key's cell, old or new, counts one more. */
  ghost predicate Counted(s: Weighted, t: Weighted, k: CpuKey) {
    exists i: nat :: i < |s| && t == Bumped(s, i, k) && if s[i].Some? then s[i].value.key == k else Absent(s, k)
  }

  class Profile {
    const symbols: Symbols.SymbolTable
    const aggregates: Table<CpuKey, nat>
    var samples: nat
    var byState: seq<nat>
    var aggregateCount: nat
    var stackTruncations: nat
    var aggregateOverflows: nat
    var quality: Quality

    ghost predicate Valid()
      reads this, symbols, symbols.table.slots, symbols.sources, aggregates.slots
    {
      && symbols.Valid() && aggregates.Valid()
      && Balanced(aggregates.slots[..], samples, byState)
      && aggregateCount == Used(aggregates.slots[..])
      && aggregates.slots.Length == AGGREGATE_CAPACITY && symbols.table.slots.Length == Symbols.SYMBOL_CAPACITY
    }

    /** The counters lp_cpu_profile_merge_stats hands over. */
    function View(): Stats
      reads this
    {
      Stats(samples, byState, aggregateOverflows, quality)
    }

    constructor (symbolHash: Symbols.Key -> nat, digest: seq<byte> -> nat, hash: CpuKey -> nat)
      ensures Valid() && View() == NO_STATS
      ensures fresh(symbols) && fresh(symbols.table.slots) && fresh(symbols.sources) && fresh(aggregates.slots)
    {
      var s := new Symbols.SymbolTable(symbolHash, digest);
      symbols := s;
      var t := new Table<CpuKey, nat>(AGGREGATE_CAPACITY, hash);
      aggregates := t;
      samples, byState, aggregateCount, stackTruncations, aggregateOverflows := 0, [0, 0, 0, 0], 0, 0, 0;
      quality := NO_LOSS;
      new;
      SumOfNothing(aggregates.slots[..], None);
      forall v: nat | v < 4 ensures SumOf(aggregates.slots[..], Some(v)) == 0 {
        SumOfNothing(aggregates.slots[..], Some(v));
      }
    }

    /** lp_cpu_profile_record. `k` is the sample's key. */
    method Record(ev: Event, frames: seq<Symbols.Frame>, truncated: bool) returns (stored: bool, ghost k: CpuKey)
      requires Valid()
      modifies this, symbols, symbols.table.slots, symbols.sources, aggregates.slots
      ensures Valid() && View() == Recorded(old(View()), ev, stored)
      ensures 0 <= ev.vmState <= 3 ==>
                && k.vmState == ev.vmState && k.cfunction == ev.cfunction
                && Symbols.Resolved(symbols.table.slots[..], symbols.digest, Captured(frames), k.stack)
                && (stored ==> Counted(old(aggregates.slots[..]), aggregates.slots[..], k))
                && (!stored ==> aggregates.slots[..] == old(aggregates.slots[..]) && Absent(aggregates.slots[..], k)
                                && Used(aggregates.slots[..]) == aggregates.slots.Length)
    {
      stored, k := false, CpuKey(0, 0, []);
      if ev.vmState < 0 || ev.vmState > 3 { return; }
      var compact := symbols.Compress(Captured(frames));
      assert View() == old(View()) && aggregates.slots[..] == old(aggregates.slots[..]);
      var key := CpuKey(ev.vmState, ev.cfunction, compact);
      k := key;
      stored := Count(key);
      if stored && (truncated || |frames| > MAX_STACK_DEPTH) {
        stackTruncations := stackTruncations + 1;
      }
    }

    /** The aggregate loop and the counters behind it. */
    method Count(k: CpuKey) returns (stored: bool)
      requires aggregates.Valid() && Balanced(aggregates.slots[..], samples, byState) && k.vmState < 4
      requires aggregateCount == Used(aggregates.slots[..])
      modifies this, aggregates.slots
      ensures aggregates.Valid() && Balanced(aggregates.slots[..], samples, byState)
      ensures aggregateCount == Used(aggregates.slots[..])
      ensures View() == Recorded(old(View()), Event(0, k.vmState, k.cfunction), stored)
      ensures stored ==> Counted(old(aggregates.slots[..]), aggregates.slots[..], k)
      ensures !stored ==> aggregates.slots[..] == old(aggregates.slots[..]) && Absent(aggregates.slots[..], k)
                          && Used(aggregates.slots[..]) == aggregates.slots.Length
    {
      ghost var slots := aggregates.slots[..];
      ghost var i;
      stored, i := Bump(k);
      if !stored {
        aggregateOverflows := aggregateOverflows + 1;
        return;
      }
      BumpKeepsBalance(slots, i, k, samples, byState);
      samples := samples + 1;
      byState := byState[k.vmState := byState[k.vmState] + 1];
    }

    /** The probe loop: add one to the key's aggregate, or start it, if there is room. */
    method Bump(k: CpuKey) returns (stored: bool, ghost i: nat)
      requires aggregates.Valid() && aggregateCount == Used(aggregates.slots[..])
      modifies this`aggregateCount, aggregates.slots
      ensures aggregates.Valid() && aggregateCount == Used(aggregates.slots[..])
      ensures stored ==> i < aggregates.slots.Length && aggregates.slots[..] == Bumped(old(aggregates.slots[..]), i, k)
                         && if old(aggregates.slots[i]).Some? then old(aggregates.slots[i]).value.key == k
                            else Absent(old(aggregates.slots[..]), k)
      ensures !stored ==> aggregates.slots[..] == old(aggregates.slots[..]) && Absent(aggregates.slots[..], k)
                          && Used(aggregates.slots[..]) == aggregates.slots.Length
    {
      ghost var slots := aggregates.slots[..];
      var found := aggregates.Locate(k);
      match found {
        case Full =>
          UsedBounds(slots);
          stored, i := false, 0;
        case Hit(at) =>
          UsedInsert(slots, at, Entry(k, WeightIn(slots[at]) + 1));
          aggregates.Amend(at, aggregates.slots[at].value.value + 1);
          stored, i := true, at;
        case Free(at) =>
          UsedInsert(slots, at, Entry(k, 1));
          aggregates.Fill(at, k, 1);
          aggregateCount := aggregateCount + 1;
          stored, i := true, at;
      }
    }

    /** lp_cpu_profile_quality. */
    method AddQuality(q: Quality)
      requires Valid()
      modifies this`quality
      ensures Valid() && View() == old(View()).(quality := Add(old(View().quality), q))
    {
      quality := Add(quality, q);
    }

    /** aggregate_at and lp_cpu_profile_sample. */
    method SampleAt(index: nat) returns (r: Option<Entry<CpuKey, nat>>)
      requires Valid()
      ensures r == if index < Used(aggregates.slots[..]) then Some(Listing(aggregates.slots[..])[index]) else None
    {
      r := aggregates.Nth(index, aggregateCount);
    }
  }

  function Captured(frames: seq<Symbols.Frame>): seq<Symbols.Frame> {
    frames[..Symbols.Min(|frames|, MAX_STACK_DEPTH)]
  }

  function SumListed(es: seq<Entry<CpuKey, nat>>): nat {
    if |es| == 0 then 0 else SumListed(es[..|es| - 1]) + es[|es| - 1].value
  }

  lemma {:induction false} ListingSums(slots: Weighted)
    ensures SumListed(Listing(slots)) == SumOf(slots, None)
  {
    if |slots| > 0 {
      var n := |slots| - 1;
      ListingSums(slots[..n]);
      if slots[n].Some? {
        assert Listing(slots)[..|Listing(slots)| - 1] == Listing(slots[..n]);
      } else {
        assert Listing(slots) == Listing(slots[..n]);
      }
    }
  }

  /** In every state a profile can be in: the sample count is the sum of the
      aggregates as they are read out, and the sum of the four state counters. */
  lemma SamplesAreConserved(p: Profile)
    requires p.Valid()
    ensures p.samples == SumListed(Listing(p.aggregates.slots[..]))
    ensures p.samples == p.byState[0] + p.byState[1] + p.byState[2] + p.byState[3]
  {
    ListingSums(p.aggregates.slots[..]);
    StatesSplit(p.aggregates.slots[..]);
  }

  lemma {:induction false} StatesSplit(slots: Weighted)
    requires forall i: nat :: i < |slots| && slots[i].Some? ==> slots[i].value.key.vmState < 4
    ensures SumOf(slots, None)
         == SumOf(slots, Some(0)) + SumOf(slots, Some(1)) + SumOf(slots, Some(2)) + SumOf(slots, Some(3))
  {
    if |slots| > 0 {
      StatesSplit(slots[..|slots| - 1]);
    }
  }
}
