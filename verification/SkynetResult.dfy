/** From deliveries to the result: what drain_scheduler of src/lua_bridge.c makes of the
    events it is handed. Every delivery ever settled for a session is in the result's
    counters once the session is drained, whatever the threads and handlers did. */
module SkynetResult {
  import opened Common
  import opened SkynetModel
  import opened SkynetPins
  import opened SkynetSessions
  import opened SkynetQuiesce
  import opened SkynetLedger
  import ThreadModel
  import ThreadTimer

  /** The event a step hands to the owner of session `k`, if it does. */
  function EventNow(s: Host, step: Step, k: nat): seq<Event> {
    if Charges(s, step) && PcOf(s, step.a).token == k && PcOf(s, step.a).task.NextEvent? && Recorded(s, k).ring != []
    then [Recorded(s, k).ring[0]] else []
  }

  /** What a step takes out of the four loss counters of session `k`. */
  function LossNow(s: Host, step: Step, k: nat): nat {
    if Charges(s, step) && PcOf(s, step.a).token == k && PcOf(s, step.a).task.TakeQuality?
    then HandsOver(Recorded(s, k), PcOf(s, step.a).task) else 0
  }

  /** The events the owner was handed during a run, in order. */
  function Events(s: Host, steps: seq<Step>, k: nat): seq<Event>
    requires Legal(s, steps)
    decreases |steps|
  {
    if steps == [] then [] else EventNow(s, steps[0], k) + Events(Next(s, steps[0]), steps[1..], k)
  }

  /** The losses the owner was told of during a run. */
  function Losses(s: Host, steps: seq<Step>, k: nat): nat
    requires Legal(s, steps)
    decreases |steps|
  {
    if steps == [] then 0 else LossNow(s, steps[0], k) + Losses(Next(s, steps[0]), steps[1..], k)
  }

  lemma HandedIsEventsAndLosses(s: Host, steps: seq<Step>, k: nat)
    requires Legal(s, steps)
    ensures HandedOver(s, steps, k) == |Events(s, steps, k)| + Losses(s, steps, k)
    decreases |steps|
  {
    if steps != [] {
      HandedIsEventsAndLosses(Next(s, steps[0]), steps[1..], k);
    }
  }

  // ---------- queued events are well formed ----------

  ghost predicate WellFormed(events: seq<Event>) { forall i: nat :: i < |events| ==> 0 <= events[i].vmState <= 3 }

  ghost predicate RingsOk(s: Host) { forall k: nat :: WellFormed(Recorded(s, k).ring) }

  lemma EffectKeepsForm(d: Data, phase: Phase, job: Job, more: Option<nat>)
    requires WellFormed(d.ring)
    ensures WellFormed(Effect(d, phase, job, more).data.ring)
  {
  }

  lemma StepKeepsForm(s: Host, step: Step)
    requires PinInv(s) && BlankInv(s) && RingsOk(s) && Enabled(s, step)
    ensures RingsOk(Next(s, step))
  {
    if Charges(s, step) {
      ChargeKeepsForm(s, step.a, step.more);
    } else {
      StepBlank(s, step);
      forall k: nat ensures WellFormed(Recorded(Next(s, step), k).ring) {
        assert WellFormed(Recorded(s, k).ring);
      }
    }
  }

  lemma ChargeKeepsForm(s: Host, a: Agent, more: Option<nat>)
    requires RingsOk(s) && PcOf(s, a).Working? && !Publishes(PcOf(s, a).task)
    ensures RingsOk(ChargeNext(s, a, more))
  {
    forall k: nat ensures WellFormed(Recorded(ChargeNext(s, a, more), k).ring) {
      ChargeRecords(s, a, more, k);
      assert WellFormed(Recorded(s, k).ring);
      EffectKeepsForm(Recorded(s, k), PcOf(s, a).phase, PcOf(s, a).task, more);
    }
  }

  lemma EventsAreWellFormed(s: Host, steps: seq<Step>, k: nat)
    requires PinInv(s) && BlankInv(s) && RingsOk(s) && Legal(s, steps)
    ensures WellFormed(Events(s, steps, k))
    decreases |steps|
  {
    if steps != [] {
      StepPins(s, steps[0]);
      StepBlank(s, steps[0]);
      StepKeepsForm(s, steps[0]);
      EventsAreWellFormed(Next(s, steps[0]), steps[1..], k);
      assert WellFormed(Recorded(s, k).ring);
    }
  }

  // ---------- the result ----------

  /** The arguments of record_cpu_event. */
  function Given(events: seq<Event>): (r: seq<ThreadModel.Event>)
    ensures |r| == |events|
  {
    seq(|events|, i requires 0 <= i < |events| =>
      ThreadModel.Event(events[i].state, events[i].vmState, events[i].cfunction))
  }

  /** Over every run and for every token: the deliveries settled are the samples and the
      aggregate overflows of the profile that records the events handed over, the
      losses handed over, and what is still in the session. */
  lemma ResultAccountsForAll(steps: seq<Step>, k: nat, p: ThreadModel.Stats, stored: seq<bool>)
    requires Legal(BOOT, steps) && |stored| == |Events(BOOT, steps, k)| && |p.byState| == 4
    ensures var r := ThreadTimer.RecordAll(p, Given(Events(BOOT, steps, k)), stored);
      Settled(BOOT, steps, OfSession(k)) + p.samples + p.aggregateOverflows
        == r.samples + r.aggregateOverflows + Losses(BOOT, steps, k) + Counted(Recorded(Run(BOOT, steps), k))
  {
    BootPins();
    DeliveriesAreConserved(steps, k);
    HandedIsEventsAndLosses(BOOT, steps, k);
    EventsAreWellFormed(BOOT, steps, k);
    ThreadTimer.EachEventCountsOnce(p, Given(Events(BOOT, steps, k)), stored);
  }

  /** A session whose drain has found its ring empty and taken its counters. */
  predicate Drained(d: Data) { d.ring == [] && d.dropped == d.unstable == d.overhead == d.stale == 0 }

  /** So in a drained session nothing is missing from the result. */
  lemma DrainedSessionsAreInTheResult(steps: seq<Step>, k: nat, stored: seq<bool>)
    requires Legal(BOOT, steps) && |stored| == |Events(BOOT, steps, k)| && Drained(Recorded(Run(BOOT, steps), k))
    ensures var r := ThreadTimer.RecordAll(ThreadModel.NO_STATS, Given(Events(BOOT, steps, k)), stored);
      Settled(BOOT, steps, OfSession(k)) == r.samples + r.aggregateOverflows + Losses(BOOT, steps, k)
  {
    ResultAccountsForAll(steps, k, ThreadModel.NO_STATS, stored);
  }

  /** After the quiesce of a session whose ring was found empty, no event is handed over
      any more, so the samples of the result are final; only losses can still come. */
  lemma QuietSessionsGiveNoEvents(s: Host, steps: seq<Step>, k: nat)
    requires Reachable(s) && k in s.quiet && Recorded(s, k).ring == [] && Legal(s, steps)
    ensures Events(s, steps, k) == []
    decreases |steps|
  {
    ReachableQuiet(s);
    NothingComes(s, steps, k);
  }

  lemma NothingComes(s: Host, steps: seq<Step>, k: nat)
    requires PinInv(s) && QuietInv(s) && k in s.quiet && Recorded(s, k).ring == [] && Legal(s, steps)
    ensures Events(s, steps, k) == []
    decreases |steps|
  {
    if steps != [] {
      StepHolds(s, steps[0], k);
      NothingComes(Next(s, steps[0]), steps[1..], k);
    }
  }
}
