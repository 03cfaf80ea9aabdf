/** Every tick is accounted for once: whatever the interleaving of interrupts,
    guards, hand-backs and drains, each delivery ends in exactly one counter. */
module ThreadConservation {
  import opened ThreadModel
  import opened ThreadRing

  function Lost(q: Quality): nat { q.dropped + q.unstable + q.overhead }

  /** Counters already exchanged out of the timer but not yet reported. */
  function LostInHand(s: Bridge): nat {
    match s.stage
    case Take(_, taken) => Lost(taken)
    case Report(taken) => Lost(taken)
    case _ => 0
  }

  function OverrunsInHand(s: Bridge): nat {
    match s.stage
    case Take(_, taken) => taken.overrunTicks
    case Report(taken) => taken.overrunTicks
    case _ => 0
  }

  function InFlight(s: Bridge): nat { if s.stage.Record? then 1 else 0 }

  function SumOfStates(p: Stats): nat
    requires |p.byState| == 4
  {
    p.byState[0] + p.byState[1] + p.byState[2] + p.byState[3]
  }

  /** The ledger: deliveries on the left, where each one is now on the right. */
  ghost predicate Balanced(s: Bridge)
    requires s.consumed <= |s.produced|
  {
    DeliveriesBalance(s) && OverrunsBalance(s)
  }

  ghost predicate DeliveriesBalance(s: Bridge)
    requires s.consumed <= |s.produced|
  {
    s.accepted + s.discarded == Settled(s) + Losses(s)
  }

  /** Deliveries that are samples, or on their way to become one. */
  function Settled(s: Bridge): int {
    s.stats.samples + s.stats.aggregateOverflows + (|s.produced| - s.consumed) + InFlight(s)
  }

  /** Deliveries that were dropped, unstable, or profiler work: reported, in hand, or not yet taken. */
  function Losses(s: Bridge): nat {
    Lost(s.stats.quality) + LostInHand(s) + Lost(s.timer.quality)
  }

  ghost predicate OverrunsBalance(s: Bridge) {
    s.overrun == s.stats.quality.overrunTicks + OverrunsInHand(s) + s.timer.quality.overrunTicks
  }

  /** Counters `k` and later have not been exchanged yet. */
  predicate Untaken(taken: Quality, k: nat) {
    && (k <= 0 ==> taken.dropped == 0)
    && (k <= 1 ==> taken.unstable == 0)
    && (k <= 2 ==> taken.overhead == 0)
    && (k <= 3 ==> taken.overrunEvents == 0)
    && (k <= 4 ==> taken.overrunTicks == 0)
  }

  predicate Emptied(q: Quality, k: nat) {
    && (k > 0 ==> q.dropped == 0)
    && (k > 1 ==> q.unstable == 0)
    && (k > 2 ==> q.overhead == 0)
    && (k > 3 ==> q.overrunEvents == 0)
    && (k > 4 ==> q.overrunTicks == 0)
  }

  /** After the disarm of a stop nothing is delivered, so what it drains stays drained. */
  ghost predicate Stopping(s: Bridge)
    requires s.consumed <= |s.produced|
  {
    match s.stage
    case Disarm => true
    case Take(k, _) => !s.timer.active && Queue(s) == [] && Emptied(s.timer.quality, k)
    case Report(_) => !s.timer.active && Queue(s) == [] && s.timer.quality == NO_LOSS
    case Return => !s.timer.active && Queue(s) == [] && s.timer.quality == NO_LOSS
    case _ => !s.timer.active
  }

  predicate Sized(s: Bridge) {
    s.consumed <= |s.produced| && |s.stats.byState| == 4 && |s.timer.cells| == CAPACITY
  }

  /** What the ledger needs to know about control and about the events. */
  ghost predicate Orderly(s: Bridge)
    requires Sized(s)
  {
    && Fits(s.op, s.stage)
    && s.stats.samples == SumOfStates(s.stats)
    && (forall j: nat :: j < |s.produced| ==> 0 <= s.produced[j].vmState <= 3)
    && (s.stage.Take? ==> s.stage.k <= 4 && Untaken(s.stage.taken, s.stage.k))
    && (s.mode == Off ==>
        s.produced == [] && s.timer.quality == NO_LOSS && (s.op == GuardBegin || s.op == GuardEnd || s.op == Start)
                          && !s.stage.Arm? && !s.stage.BeginStore? && !s.stage.EndStore?)
    && (s.stage.Arm? ==> s.produced == [] && s.timer.quality == NO_LOSS && !s.timer.active)
    && (s.op.Stop? && s.stage != Ready ==> Stopping(s))
    && (s.mode == Done ==> s.stage == Ready && Queue(s) == [] && s.timer.quality == NO_LOSS)
  }

  ghost predicate Books(s: Bridge) { Sized(s) && Balanced(s) && Orderly(s) }

  ghost predicate LedgerInv(s: Bridge) { RingInv(s) && Books(s) }

  lemma BootLedger(mainState: nat)
    ensures LedgerInv(Boot(mainState))
  {
  }

  lemma InterruptLedger(s: Bridge, info: int)
    requires Books(s) && Enabled(s, Interrupt(info))
    ensures Books(Next(s, Interrupt(info)))
  {
    if Judge(s.timer).Queued? {
      QueuedLedger(s, info);
    }
  }

  lemma QueuedLedger(s: Bridge, info: int)
    requires Books(s) && Enabled(s, Interrupt(info)) && Judge(s.timer).Queued?
    ensures Books(Next(s, Interrupt(info)))
  {
    assert Queue(Next(s, Interrupt(info))) == Queue(s) + [s.timer.slot];
  }

  lemma DrainLedger(s: Bridge, info: int, flag: bool)
    requires LedgerInv(s) && (s.stage.LoadRead? || s.stage.LoadWrite? || s.stage.Copy?)
    ensures Books(MainNext(s, info, flag))
  {
    WrapDistance(|s.produced|, s.consumed);
  }

  lemma AdvanceLedger(s: Bridge, info: int, flag: bool)
    requires LedgerInv(s) && s.stage.Advance?
    ensures Books(MainNext(s, info, flag))
  {
    assert Queue(MainNext(s, info, flag)) == Queue(s)[1..];
  }

  lemma RecordLedger(s: Bridge, info: int, flag: bool)
    requires Books(s) && s.stage.Record? && 0 <= s.stage.ev.vmState <= 3
    ensures Books(MainNext(s, info, flag))
  {
  }

  lemma ExchangeKeepsLosses(q: Quality, taken: Quality, k: nat)
    requires k <= 4 && Untaken(taken, k)
    ensures var q', taken' := Zeroed(q, k), Gained(q, taken, k);
      && Lost(q') + Lost(taken') == Lost(q) + Lost(taken)
      && q'.overrunTicks + taken'.overrunTicks == q.overrunTicks + taken.overrunTicks
      && Untaken(taken', k + 1)
      && (Emptied(q, k) ==> Emptied(q', k + 1))
  {
  }

  /** The parts of the invariant that an exchange or a report leaves alone. */
  ghost predicate SameTraffic(s: Bridge, s': Bridge) {
    && s'.mode == s.mode && s'.op == s.op && s'.produced == s.produced && s'.consumed == s.consumed
    && s'.accepted == s.accepted && s'.discarded == s.discarded && s'.overrun == s.overrun
    && s'.timer.active == s.timer.active
    && s'.stats.samples == s.stats.samples && s'.stats.byState == s.stats.byState
    && s'.stats.aggregateOverflows == s.stats.aggregateOverflows
  }

  lemma SettledSame(s: Bridge, s': Bridge)
    requires Sized(s) && Sized(s') && SameTraffic(s, s') && InFlight(s) == InFlight(s')
    ensures Settled(s') == Settled(s) && s'.accepted + s'.discarded == s.accepted + s.discarded
  {
  }

  /** An exchange moves losses from the timer into the hand of the drain. */
  lemma BalancedExchange(s: Bridge, s': Bridge, taken: Quality, taken': Quality)
    requires s.stage.Take? && s.stage.taken == taken
    requires (s'.stage.Take? || s'.stage.Report?) && s'.stage.taken == taken' && s'.stats.quality == s.stats.quality
    requires Lost(s'.timer.quality) + Lost(taken') == Lost(s.timer.quality) + Lost(taken)
    requires s'.timer.quality.overrunTicks + taken'.overrunTicks == s.timer.quality.overrunTicks + taken.overrunTicks
    requires s'.overrun == s.overrun
    ensures Losses(s') == Losses(s)
    ensures OverrunsBalance(s) ==> OverrunsBalance(s')
  {
    var lost := Lost(s.stats.quality);
    assert Losses(s') == lost + (Lost(s'.timer.quality) + Lost(taken'));
  }

  lemma ExchangeStops(s: Bridge, s': Bridge, k: nat, taken': Quality)
    requires Sized(s) && Sized(s') && s.stage.Take? && s.stage.k == k <= 4 && SameTraffic(s, s')
    requires s'.stage == if k < 4 then Take(k + 1, taken') else Report(taken')
    requires Emptied(s.timer.quality, k) ==> Emptied(s'.timer.quality, k + 1)
    requires Stopping(s)
    ensures Stopping(s')
  {
    assert Queue(s') == Queue(s);
  }

  lemma TakeShape(s: Bridge, info: int, flag: bool)
    requires Sized(s) && s.stage.Take?
    ensures var k, q, s' := s.stage.k, s.timer.quality, MainNext(s, info, flag);
      && Sized(s') && SameTraffic(s, s') && s'.timer.quality == Zeroed(q, k)
      && s'.stage == (if k < 4 then Take(k + 1, Gained(q, s.stage.taken, k)) else Report(Gained(q, s.stage.taken, k)))
      && s'.stats == s.stats
  {
  }

  lemma TakeBalanced(s: Bridge, info: int, flag: bool)
    requires Sized(s) && Balanced(s) && s.stage.Take? && s.stage.k <= 4 && Untaken(s.stage.taken, s.stage.k)
    ensures Balanced(MainNext(s, info, flag))
  {
    var k, taken, s' := s.stage.k, s.stage.taken, MainNext(s, info, flag);
    TakeShape(s, info, flag);
    ExchangeKeepsLosses(s.timer.quality, taken, k);
    SettledSame(s, s');
    BalancedExchange(s, s', taken, Gained(s.timer.quality, taken, k));
  }

  /** What is left of order while the counters move. */
  lemma OrderStays(s: Bridge, s': Bridge)
    requires Sized(s) && Sized(s') && Orderly(s) && SameTraffic(s, s') && (s.stage.Take? || s.stage.Report?)
    requires s'.stage.Take? || s'.stage.Report?
    requires s'.stage.Take? ==> s'.stage.k <= 4 && Untaken(s'.stage.taken, s'.stage.k)
    requires s.op.Stop? ==> Stopping(s')
    ensures Orderly(s')
  {
  }

  lemma TakeOrderly(s: Bridge, info: int, flag: bool)
    requires Sized(s) && Orderly(s) && s.stage.Take?
    ensures Orderly(MainNext(s, info, flag))
  {
    var k, taken, s' := s.stage.k, s.stage.taken, MainNext(s, info, flag);
    TakeShape(s, info, flag);
    ExchangeKeepsLosses(s.timer.quality, taken, k);
    if s.op.Stop? {
      ExchangeStops(s, s', k, Gained(s.timer.quality, taken, k));
    }
    OrderStays(s, s');
  }

  lemma TakeLedger(s: Bridge, info: int, flag: bool)
    requires Books(s) && s.stage.Take?
    ensures Books(MainNext(s, info, flag))
  {
    TakeBalanced(s, info, flag);
    TakeOrderly(s, info, flag);
  }

  lemma ReportShape(s: Bridge, info: int, flag: bool)
    requires Sized(s) && s.stage.Report?
    ensures var s' := MainNext(s, info, flag);
      && Sized(s') && SameTraffic(s, s') && s'.timer.quality == s.timer.quality && s'.stage == AfterReport(s.op)
      && s'.stats.quality == Add(s.stats.quality, s.stage.taken)
  {
  }

  lemma NothingInHand(s: Bridge)
    requires s.stage.Return? || s.stage.EndDepth?
    ensures InFlight(s) == 0 && LostInHand(s) == 0 && OverrunsInHand(s) == 0
  {
  }

  lemma AddLosses(q: Quality, taken: Quality)
    ensures Lost(Add(q, taken)) == Lost(q) + Lost(taken)
    ensures Add(q, taken).overrunTicks == q.overrunTicks + taken.overrunTicks
  {
  }

  lemma ReportBalanced(s: Bridge, s': Bridge, taken: Quality)
    requires s.stage.Report? && s.stage.taken == taken && LostInHand(s') == 0 && OverrunsInHand(s') == 0
    requires s'.timer.quality == s.timer.quality && s'.overrun == s.overrun
    requires s'.stats.quality == Add(s.stats.quality, taken)
    ensures Losses(s') == Losses(s)
    ensures OverrunsBalance(s) ==> OverrunsBalance(s')
  {
    AddLosses(s.stats.quality, taken);
  }

  lemma ReportOrderly(s: Bridge, s': Bridge)
    requires Sized(s) && Sized(s') && Orderly(s) && s.stage.Report? && SameTraffic(s, s')
    requires s'.timer.quality == s.timer.quality && s'.stage == AfterReport(s.op)
    ensures Orderly(s')
  {
    assert Queue(s') == Queue(s);
  }

  lemma ReportLedger(s: Bridge, info: int, flag: bool)
    requires Books(s) && s.stage.Report?
    ensures Books(MainNext(s, info, flag))
  {
    ReportShape(s, info, flag);
    NothingInHand(MainNext(s, info, flag));
    SettledSame(s, MainNext(s, info, flag));
    ReportBalanced(s, MainNext(s, info, flag), s.stage.taken);
    ReportOrderly(s, MainNext(s, info, flag));
  }

  /** A step that moves no tick leaves the ledger as it was. */
  ghost predicate Quiet(s: Bridge, s': Bridge) {
    SameTraffic(s, s') && s'.timer.quality == s.timer.quality && s'.stats == s.stats
  }

  predicate EmptyHanded(stage: Stage) { !stage.Record? && !stage.Take? && !stage.Report? }

  lemma QuietBalance(s: Bridge, s': Bridge)
    requires Sized(s) && Sized(s') && Balanced(s) && Quiet(s, s') && EmptyHanded(s.stage) && EmptyHanded(s'.stage)
    ensures Balanced(s')
  {
    SettledSame(s, s');
  }

  lemma GuardShape(s: Bridge, info: int, flag: bool)
    requires Sized(s) && Guards(s.stage)
    ensures var s' := MainNext(s, info, flag);
      && Sized(s') && Quiet(s, s') && EmptyHanded(s'.stage)
      && (s'.stage.BeginStore? ==> s.mode == On) && (s'.stage.EndStore? ==> s.mode == On)
  {
  }

  lemma GuardFits(s: Bridge, info: int, flag: bool)
    requires Sized(s) && Guards(s.stage) && Fits(s.op, s.stage)
    ensures var stage' := MainNext(s, info, flag).stage;
      && Fits(s.op, stage') && stage' != Ready && !stage'.Arm? && !s.op.Stop?
  {
  }

  lemma GuardOrderly(s: Bridge, s': Bridge)
    requires Sized(s) && Sized(s') && Orderly(s) && Guards(s.stage) && Quiet(s, s') && EmptyHanded(s'.stage)
    requires s'.stage.BeginStore? || s'.stage.EndStore? ==> s.mode == On
    requires Fits(s.op, s'.stage) && s'.stage != Ready && !s'.stage.Arm? && !s.op.Stop?
    ensures Orderly(s')
  {
  }

  lemma GuardLedger(s: Bridge, info: int, flag: bool)
    requires Books(s) && Guards(s.stage)
    ensures Books(MainNext(s, info, flag))
  {
    GuardShape(s, info, flag);
    GuardFits(s, info, flag);
    QuietBalance(s, MainNext(s, info, flag));
    GuardOrderly(s, MainNext(s, info, flag));
  }

  lemma PublishShape(s: Bridge, info: int, flag: bool)
    requires Sized(s) && s.stage.Publish?
    ensures var s' := MainNext(s, info, flag);
      && Sized(s') && Quiet(s, s')
      && (s'.stage.Publish? || (s'.stage == AfterPublish(s.op) && (s.op.Change? || s.op.HandBack?)))
  {
  }

  lemma PublishOrderly(s: Bridge, s': Bridge)
    requires Sized(s) && Sized(s') && Orderly(s) && s.stage.Publish? && Quiet(s, s')
    requires s'.stage.Publish? || (s'.stage == AfterPublish(s.op) && (s.op.Change? || s.op.HandBack?))
    ensures Orderly(s')
  {
  }

  lemma PublishLedger(s: Bridge, info: int, flag: bool)
    requires Books(s) && s.stage.Publish?
    ensures Books(MainNext(s, info, flag))
  {
    PublishShape(s, info, flag);
    QuietBalance(s, MainNext(s, info, flag));
    PublishOrderly(s, MainNext(s, info, flag));
  }

  lemma EdgeLedger(s: Bridge, info: int, flag: bool)
    requires Books(s) && (s.stage.Return? || s.stage.Arm?)
    ensures Books(MainNext(s, info, flag))
  {
  }

  lemma DisarmLedger(s: Bridge, info: int, flag: bool)
    requires Books(s) && (s.stage.Disarm? || s.stage.Discarding?)
    ensures Books(MainNext(s, info, flag))
  {
  }

  lemma CallLedger(s: Bridge, op: Op)
    requires Books(s) && Enabled(s, Call(op))
    ensures Books(Next(s, Call(op)))
  {
  }

  lemma MainLedger(s: Bridge, info: int, flag: bool)
    requires LedgerInv(s) && s.stage != Ready
    ensures Books(MainNext(s, info, flag))
  {
    match s.stage
    case Record(ev) =>
      assert s.produced[s.consumed - 1] == ev;
      RecordLedger(s, info, flag);
    case Take(_, _) => TakeLedger(s, info, flag);
    case LoadRead => DrainLedger(s, info, flag);
    case LoadWrite(_) => DrainLedger(s, info, flag);
    case Copy(_) => DrainLedger(s, info, flag);
    case Advance(_, _) => AdvanceLedger(s, info, flag);
    case BeginDepth => GuardLedger(s, info, flag);
    case BeginStore => GuardLedger(s, info, flag);
    case EndDepth => GuardLedger(s, info, flag);
    case EndStore => GuardLedger(s, info, flag);
    case Report(_) => ReportLedger(s, info, flag);
    case Publish(_) => PublishLedger(s, info, flag);
    case Return => EdgeLedger(s, info, flag);
    case Arm => EdgeLedger(s, info, flag);
    case Disarm => DisarmLedger(s, info, flag);
    case Discarding => DisarmLedger(s, info, flag);
  }

  lemma StepLedger(s: Bridge, step: Step)
    requires LedgerInv(s) && Enabled(s, step)
    ensures LedgerInv(Next(s, step))
  {
    StepRing(s, step);
    match step
    case Interrupt(info) => InterruptLedger(s, info);
    case Call(op) => CallLedger(s, op);
    case Main(info, flag) => MainLedger(s, info, flag);
  }

  lemma RunLedger(s: Bridge, steps: seq<Step>)
    requires LedgerInv(s) && Legal(s, steps)
    ensures LedgerInv(Run(s, steps))
    decreases |steps|
  {
    if steps != [] {
      StepLedger(s, steps[0]);
      RunLedger(Next(s, steps[0]), steps[1..]);
    }
  }

  /** From boot to the end of a stop, for every interleaving: deliveries accepted
      by the handler and those discarded while disarming are exactly the samples,
      the aggregate overflows and the three loss counters of the result. */
  lemma TicksAreAccountedOnce(mainState: nat, steps: seq<Step>)
    requires Legal(Boot(mainState), steps) && Run(Boot(mainState), steps).mode == Done
    ensures var s := Run(Boot(mainState), steps); var p := s.stats;
      && |p.byState| == 4
      && s.accepted + s.discarded ==
           p.samples + p.aggregateOverflows + p.quality.dropped + p.quality.unstable + p.quality.overhead
      && s.overrun == p.quality.overrunTicks
      && p.samples == SumOfStates(p)
  {
    BootLedger(mainState);
    RunLedger(Boot(mainState), steps);
  }

  /** The same ledger holds at every step in between. */
  lemma LedgerAlwaysBalances(mainState: nat, steps: seq<Step>)
    requires Legal(Boot(mainState), steps)
    ensures var s := Run(Boot(mainState), steps); s.consumed <= |s.produced| && Balanced(s)
  {
    BootLedger(mainState);
    RunLedger(Boot(mainState), steps);
  }
}
