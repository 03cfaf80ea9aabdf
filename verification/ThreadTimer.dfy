/** struct lp_thread_timer and its drain by the bridge, as they act when no signal
    falls between their statements. The step machine of ThreadModel allows one
    between any two; the lemmas here connect both. */
module ThreadTimer {
  import opened Common
  import opened ThreadModel
  import opened ThreadRing
  import Symbols
  import CpuProfile

  /** What the ring holds, oldest first, by its wrapped sequence numbers. */
  function Held(t: Timer): (q: seq<Event>)
    requires |t.cells| == CAPACITY && t.read < WRAP && t.write < WRAP
    ensures |q| == Pending(t)
  {
    seq(Pending(t), i requires 0 <= i < Pending(t) => t.cells[(t.read + i) % CAPACITY])
  }

  ghost predicate RingOk(t: Timer) {
    |t.cells| == CAPACITY && t.read < WRAP && t.write < WRAP && Pending(t) <= CAPACITY
  }

  lemma DistanceIs(w: nat, r: nat)
    requires w < WRAP && r < WRAP
    ensures (w - r) % WRAP == if w >= r then w - r else w - r + WRAP
  {
  }

  lemma SuccessorIs(n: nat)
    requires n < WRAP
    ensures (n + 1) % WRAP == if n + 1 == WRAP then 0 else n + 1
  {
  }

  /** Wrapped distances, one step further. */
  lemma PendingSteps(t: Timer)
    requires t.read < WRAP && t.write < WRAP
    ensures Pending(t) < WRAP
    ensures (t.write + 1) % WRAP < WRAP && (t.read + 1) % WRAP < WRAP
    ensures Pending(t) < CAPACITY ==> ((t.write + 1) % WRAP - t.read) % WRAP == Pending(t) + 1
    ensures t.read != t.write ==> Pending(t) > 0 && (t.write - (t.read + 1) % WRAP) % WRAP == Pending(t) - 1
    ensures t.read == t.write <==> Pending(t) == 0
  {
    SuccessorIs(t.write);
    SuccessorIs(t.read);
    DistanceIs(t.write, t.read);
    DistanceIs((t.write + 1) % WRAP, t.read);
    DistanceIs(t.write, (t.read + 1) % WRAP);
  }

  /** The write position is the cell behind the newest event. */
  lemma WritePosition(t: Timer)
    requires t.read < WRAP && t.write < WRAP
    ensures t.write % CAPACITY == (t.read + Pending(t)) % CAPACITY
  {
    if t.write >= t.read {
      assert Pending(t) == t.write - t.read;
    } else {
      assert Pending(t) == t.write - t.read + WRAP;
      WrapIndex(t.write + WRAP);
      assert (t.write + WRAP) % WRAP == t.write;
    }
  }

  /** A queued delivery goes to the end of the held events, and only there. */
  lemma DeliverEnqueues(t: Timer, info: int)
    requires RingOk(t)
    ensures RingOk(Deliver(t, info))
    ensures Held(Deliver(t, info)) == if Judge(t).Queued? then Held(t) + [t.slot] else Held(t)
  {
    PendingSteps(t);
    if Judge(t).Queued? {
      var t' := Deliver(t, info);
      WritePosition(t);
      forall i: nat | i < Pending(t')
        ensures Held(t')[i] == (Held(t) + [t.slot])[i]
      {
        EnqueuedAt(t, i);
      }
      assert Held(t') == Held(t) + [t.slot];
    }
  }

  lemma EnqueuedAt(t: Timer, i: nat)
    requires RingOk(t) && i <= Pending(t) < CAPACITY && t.write % CAPACITY == (t.read + Pending(t)) % CAPACITY
    ensures t.cells[t.write % CAPACITY := t.slot][(t.read + i) % CAPACITY]
         == if i < Pending(t) then t.cells[(t.read + i) % CAPACITY] else t.slot
  {
    if i < Pending(t) {
      DistinctCells(t.read + Pending(t), t.read + i);
    }
  }

  function Popped(t: Timer): Timer { t.(read := (t.read + 1) % WRAP) }

  lemma PopDequeues(t: Timer)
    requires RingOk(t) && t.read != t.write
    ensures RingOk(Popped(t)) && Held(t) != [] && t.cells[t.read % CAPACITY] == Held(t)[0]
    ensures Held(Popped(t)) == Held(t)[1..]
  {
    PendingSteps(t);
    forall i: nat | i < Pending(Popped(t))
      ensures Held(Popped(t))[i] == Held(t)[1..][i]
    {
      NextIndex(t.read, i);
    }
    assert Held(Popped(t)) == Held(t)[1..];
  }

  lemma NextIndex(read: nat, i: nat)
    requires read < WRAP
    ensures ((read + 1) % WRAP + i) % CAPACITY == (read + 1 + i) % CAPACITY
  {
    if read + 1 == WRAP {
      SameResidue(i, QUOTIENT);
      assert CAPACITY * QUOTIENT == WRAP;
    }
  }

  /** The five stores of a publication, without a signal between them. */
  function AfterPublishing(t: Timer, ev: Event): Timer {
    t.(slot := ev, version := t.version + 2)
  }

  lemma PublicationIsFiveStores(t: Timer, ev: Event)
    ensures PublishAt(PublishAt(PublishAt(PublishAt(PublishAt(t, 0, ev), 1, ev), 2, ev), 3, ev), 4, ev)
         == AfterPublishing(t, ev)
  {
  }

  function TakenUpTo(q: Quality, k: nat): (Quality, Quality)
  {
    if k == 0 then (q, NO_LOSS)
    else var (left, taken) := TakenUpTo(q, k - 1); (Zeroed(left, k - 1), Gained(left, taken, k - 1))
  }

  lemma FiveExchangesTakeAll(q: Quality)
    ensures TakenUpTo(q, 5) == (NO_LOSS, q)
  {
    assert TakenUpTo(q, 1) == (q.(dropped := 0), NO_LOSS.(dropped := q.dropped));
    assert TakenUpTo(q, 2) == (Quality(0, 0, q.overhead, q.overrunEvents, q.overrunTicks),
                               Quality(q.dropped, q.unstable, 0, 0, 0));
    assert TakenUpTo(q, 3) == (Quality(0, 0, 0, q.overrunEvents, q.overrunTicks),
                               Quality(q.dropped, q.unstable, q.overhead, 0, 0));
    assert TakenUpTo(q, 4) == (Quality(0, 0, 0, 0, q.overrunTicks),
                               Quality(q.dropped, q.unstable, q.overhead, q.overrunEvents, 0));
  }

  class TickTimer {
    const events: array<Event>
    var writeSequence: nat
    var readSequence: nat
    var slotVersion: nat
    var slotState: nat
    var slotVmState: int
    var slotCfunction: word
    var active: bool
    var draining: bool
    var dropped: nat
    var unstable: nat
    var overhead: nat
    var overrunEvents: nat
    var overrunTicks: nat

    ghost predicate Valid()
      reads this, events
    {
      events.Length == CAPACITY && RingOk(Value())
    }

    ghost function Value(): Timer
      reads this, events
    {
      Timer(events[..], writeSequence, readSequence,
            Quality(dropped, unstable, overhead, overrunEvents, overrunTicks),
            slotVersion, Event(slotState, slotVmState, slotCfunction), active, draining)
    }

    /** lp_thread_timer_new. */
    constructor ()
      ensures Valid() && fresh(events) && Held(Value()) == [] && !active && draining
      ensures Value().quality == NO_LOSS && Value().slot == IDLE_EVENT
    {
      events := new Event[CAPACITY](_ => IDLE_EVENT);
      writeSequence, readSequence, slotVersion := 0, 0, 0;
      slotState, slotVmState, slotCfunction := 0, HOST, 0;
      active, draining := false, true;
      dropped, unstable, overhead, overrunEvents, overrunTicks := 0, 0, 0, 0, 0;
    }

    /** record_overrun. */
    method RecordOverrun(info: int)
      requires Valid()
      modifies this`overrunEvents, this`overrunTicks
      ensures Valid() && Value() == old(Value()).(quality := Overran(old(Value()).quality, info))
    {
      if Overrun(info) != 0 {
        overrunEvents := overrunEvents + 1;
        overrunTicks := overrunTicks + Overrun(info);
      }
    }

    /** A pending delivery that is discarded. */
    method DropOne(info: int)
      requires Valid()
      modifies this`overrunEvents, this`overrunTicks, this`dropped
      ensures Valid() && Value() == Discarded(old(Value()), info) && Held(Value()) == old(Held(Value()))
    {
      RecordOverrun(info);
      dropped := dropped + 1;
    }

    /** The handler's look at the published slot. */
    method ReadSlot() returns (ev: Option<Event>)
      requires Valid()
      ensures ev == if Value().version % 2 != 0 || Unusable(Value().slot) then None else Some(Value().slot)
    {
      var version := slotVersion;
      if version % 2 != 0 { return None; }
      var copy := Event(slotState, slotVmState, slotCfunction);
      if version != slotVersion || copy.state == 0 || copy.vmState < 0 || copy.vmState > 3
         || (copy.vmState == 2 && copy.cfunction == 0) {
        return None;
      }
      ev := Some(copy);
    }

    /** timer_signal_handler, for a signal of this timer. */
    method SignalHandler(info: int)
      requires Valid()
      modifies this, events
      ensures Valid()
      ensures Value() == if old(active) then Deliver(old(Value()), info) else old(Value())
      ensures Held(Value())
           == if old(active) && Judge(old(Value())).Queued? then old(Held(Value())) + [old(Value()).slot]
                               else old(Held(Value()))
    {
      if !active { return; }
      DeliverEnqueues(Value(), info);
      RecordOverrun(info);
      if draining {
        overhead := overhead + 1;
        return;
      }
      var ev := ReadSlot();
      if ev.None? {
        unstable := unstable + 1;
        return;
      }
      Enqueue(ev.value);
    }

    /** The last part of the handler: the event goes into the ring, if there is room. */
    method Enqueue(ev: Event)
      requires events.Length == CAPACITY && RingOk(Value())
      modifies this`writeSequence, this`dropped, events
      ensures var t := old(Value());
        Value() == if Pending(t) >= CAPACITY then t.(quality := t.quality.(dropped := t.quality.dropped + 1))
                   else t.(cells := t.cells[t.write % CAPACITY := ev], write := (t.write + 1) % WRAP)
    {
      var write, read := writeSequence, readSequence;
      if (write - read) % WRAP >= CAPACITY {
        dropped := dropped + 1;
      } else {
        events[write % CAPACITY] := ev;
        writeSequence := (write + 1) % WRAP;
      }
    }

    /** lp_thread_timer_publish_state. */
    method PublishState(ev: Event)
      requires Valid()
      modifies this
      ensures Valid() && Value() == AfterPublishing(old(Value()), ev) && Held(Value()) == old(Held(Value()))
    {
      slotVersion := slotVersion + 1;
      slotState := ev.state;
      slotCfunction := ev.cfunction;
      slotVmState := ev.vmState;
      slotVersion := slotVersion + 1;
    }

    /** lp_thread_timer_next. */
    method Next() returns (r: Option<Event>)
      requires Valid()
      modifies this`readSequence
      ensures Valid()
      ensures old(Held(Value())) == [] ==> r == None && Value() == old(Value())
      ensures old(Held(Value())) != [] ==> r == Some(old(Held(Value()))[0]) && Value() == Popped(old(Value()))
                                           && Held(Value()) == old(Held(Value()))[1..]
    {
      PendingSteps(Value());
      if readSequence == writeSequence { return None; }
      PopDequeues(Value());
      r := Some(events[readSequence % CAPACITY]);
      readSequence := (readSequence + 1) % WRAP;
    }

    /** lp_thread_timer_take_quality. */
    method TakeQuality() returns (q: Quality)
      requires Valid()
      modifies this
      ensures Valid() && q == old(Value()).quality && Value() == old(Value()).(quality := NO_LOSS)
      ensures Held(Value()) == old(Held(Value()))
    {
      q := Quality(dropped, unstable, overhead, overrunEvents, overrunTicks);
      dropped, unstable, overhead, overrunEvents, overrunTicks := 0, 0, 0, 0, 0;
    }

    /** lp_thread_timer_disarm, as far as accounting goes: the deliveries found
        pending are counted as dropped, with their overruns. */
    method Disarm(pending: seq<int>)
      requires Valid()
      modifies this
      ensures Valid() && Held(Value()) == old(Held(Value()))
      ensures Value() == DiscardAll(old(Value()).(active := false), pending)
    {
      active := false;
      for i := 0 to |pending|
        invariant Valid() && Held(Value()) == old(Held(Value()))
        invariant Value() == DiscardAll(old(Value()).(active := false), pending[..i])
      {
        DropOne(pending[i]);
        assert pending[..i + 1][..i] == pending[..i];
      }
      assert pending[..|pending|] == pending;
    }
  }

  function DiscardAll(t: Timer, pending: seq<int>): Timer {
    if pending == [] then t else Discarded(DiscardAll(t, pending[..|pending| - 1]), pending[|pending| - 1])
  }

  /** A series of samples; `stored` says for each whether its aggregate found room. */
  function RecordAll(p: Stats, evs: seq<Event>, stored: seq<bool>): (r: Stats)
    requires |stored| == |evs| && |p.byState| == 4
    ensures |r.byState| == 4
  {
    if evs == [] then p
    else Recorded(RecordAll(p, evs[..|evs| - 1], stored[..|evs| - 1]), evs[|evs| - 1], stored[|evs| - 1])
  }

  /** Every drained event with a valid VM state is counted exactly once. */
  lemma {:induction false} EachEventCountsOnce(p: Stats, evs: seq<Event>, stored: seq<bool>)
    requires |stored| == |evs| && |p.byState| == 4
    requires forall i: nat :: i < |evs| ==> 0 <= evs[i].vmState <= 3
    ensures var r := RecordAll(p, evs, stored);
      && r.samples + r.aggregateOverflows == p.samples + p.aggregateOverflows + |evs|
      && r.byState[0] + r.byState[1] + r.byState[2] + r.byState[3] + p.samples
         == p.byState[0] + p.byState[1] + p.byState[2] + p.byState[3] + r.samples
  {
    if evs != [] {
      EachEventCountsOnce(p, evs[..|evs| - 1], stored[..|evs| - 1]);
    }
  }

  lemma RecordOneMore(p: Stats, evs: seq<Event>, n: nat, stored: seq<bool>, kept: bool)
    requires n < |evs| && |stored| == n && |p.byState| == 4
    ensures RecordAll(p, evs[..n + 1], stored + [kept]) == Recorded(RecordAll(p, evs[..n], stored), evs[n], kept)
  {
    assert evs[..n + 1][..n] == evs[..n] && (stored + [kept])[..n] == stored;
  }

  /** record_cpu_event: host events carry no stack. */
  method RecordCpuEvent(profile: CpuProfile.Profile, ev: Event, capture: nat -> seq<Symbols.Frame>,
                        truncated: nat -> bool)
    returns (kept: bool)
    requires profile.Valid()
    modifies profile, profile.symbols, profile.symbols.table.slots, profile.symbols.sources, profile.aggregates.slots
    ensures profile.Valid() && |old(profile.View()).byState| == 4
    ensures profile.View() == Recorded(old(profile.View()), ev, kept)
  {
    var frames, cut := [], false;
    if ev.vmState != HOST {
      frames, cut := capture(ev.state), truncated(ev.state);
    }
    ghost var key;
    kept, key := profile.Record(ev, frames, cut);
  }

  /** `event` is the `n`-th of the events, or none is left, and `held` is what follows. */
  ghost predicate Fetched(evs: seq<Event>, n: nat, event: Option<Event>, held: seq<Event>) {
    if event.Some? then n < |evs| && event.value == evs[n] && held == evs[n + 1..] else n == |evs| && held == []
  }

  method Fetch(timer: TickTimer, ghost evs: seq<Event>, ghost n: nat) returns (event: Option<Event>)
    requires timer.Valid() && n <= |evs| && Held(timer.Value()) == evs[n..]
    modifies timer`readSequence
    ensures timer.Valid() && timer.Value().quality == old(timer.Value()).quality
    ensures Fetched(evs, n, event, Held(timer.Value()))
  {
    assert evs[n..] != [] ==> evs[n..][1..] == evs[n + 1..];
    event := timer.Next();
  }

  /** Recording the event after those recorded since `p`. */
  method RecordNext(profile: CpuProfile.Profile, ev: Event, capture: nat -> seq<Symbols.Frame>,
                    truncated: nat -> bool, ghost p: Stats, ghost evs: seq<Event>, ghost stored: seq<bool>)
    returns (ghost stored': seq<bool>)
    requires profile.Valid() && |stored| < |evs| && ev == evs[|stored|] && |p.byState| == 4
    requires profile.View() == RecordAll(p, evs[..|stored|], stored)
    modifies profile, profile.symbols, profile.symbols.table.slots, profile.symbols.sources, profile.aggregates.slots
    ensures profile.Valid() && |stored'| == |stored| + 1
    ensures profile.View() == RecordAll(p, evs[..|stored'|], stored')
  {
    var kept := RecordCpuEvent(profile, ev, capture, truncated);
    RecordOneMore(p, evs, |stored|, stored, kept);
    stored' := stored + [kept];
  }

  /** One turn of the loop: record an event, fetch the next. */
  method DrainOne(timer: TickTimer, profile: CpuProfile.Profile, ev: Event, capture: nat -> seq<Symbols.Frame>,
                  truncated: nat -> bool, ghost p: Stats, ghost evs: seq<Event>, ghost stored: seq<bool>)
    returns (event: Option<Event>, ghost stored': seq<bool>)
    requires timer.Valid() && profile.Valid() && |stored| < |evs| && ev == evs[|stored|] && |p.byState| == 4
    requires Held(timer.Value()) == evs[|stored| + 1..] && profile.View() == RecordAll(p, evs[..|stored|], stored)
    modifies timer`readSequence, profile, profile.symbols, profile.symbols.table.slots, profile.symbols.sources,
             profile.aggregates.slots
    ensures timer.Valid() && profile.Valid() && timer.Value().quality == old(timer.Value()).quality
    ensures |stored'| == |stored| + 1 && Fetched(evs, |stored'|, event, Held(timer.Value()))
    ensures profile.View() == RecordAll(p, evs[..|stored'|], stored')
  {
    stored' := RecordNext(profile, ev, capture, truncated, p, evs, stored);
    event := Fetch(timer, evs, |stored'|);
  }

  /** The loop of drain_thread_timer: everything held goes into the profile, in order. */
  method DrainEvents(timer: TickTimer, profile: CpuProfile.Profile, capture: nat -> seq<Symbols.Frame>,
                     truncated: nat -> bool)
    returns (ghost stored: seq<bool>)
    requires timer.Valid() && profile.Valid()
    modifies timer`readSequence, profile, profile.symbols, profile.symbols.table.slots, profile.symbols.sources,
             profile.aggregates.slots
    ensures timer.Valid() && profile.Valid() && Held(timer.Value()) == []
    ensures timer.Value().quality == old(timer.Value()).quality
    ensures |stored| == |old(Held(timer.Value()))| && |old(profile.View()).byState| == 4
    ensures profile.View() == RecordAll(old(profile.View()), old(Held(timer.Value())), stored)
  {
    ghost var evs, p := Held(timer.Value()), profile.View();
    stored := [];
    var event := Fetch(timer, evs, 0);
    while event.Some?
      invariant timer.Valid() && profile.Valid() && |stored| <= |evs|
      invariant timer.Value().quality == old(timer.Value()).quality
      invariant Fetched(evs, |stored|, event, Held(timer.Value()))
      invariant profile.View() == RecordAll(p, evs[..|stored|], stored)
      decreases |evs| - |stored|
    {
      event, stored := DrainOne(timer, profile, event.value, capture, truncated, p, evs, stored);
    }
    assert evs[..|evs|] == evs;
  }

  /** drain_thread_timer: empty the ring into the profile, then hand the quality
      counters over. `capture` is the stack each coroutine would show. */
  method Drain(timer: TickTimer, profile: CpuProfile.Profile, capture: nat -> seq<Symbols.Frame>,
               truncated: nat -> bool)
    returns (ghost stored: seq<bool>)
    requires timer.Valid() && profile.Valid()
    modifies timer, profile, profile.symbols, profile.symbols.table.slots, profile.symbols.sources,
             profile.aggregates.slots
    ensures timer.Valid() && profile.Valid() && Held(timer.Value()) == [] && timer.Value().quality == NO_LOSS
    ensures |stored| == |old(Held(timer.Value()))| && |old(profile.View()).byState| == 4
    ensures var drained := RecordAll(old(profile.View()), old(Held(timer.Value())), stored);
      profile.View() == drained.(quality := Add(drained.quality, old(timer.Value()).quality))
  {
    stored := DrainEvents(timer, profile, capture, truncated);
    var q := timer.TakeQuality();
    profile.AddQuality(q);
  }
}
