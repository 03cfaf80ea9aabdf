/** The coroutine lifetime rule: whatever the interrupts and however deep the
    guards nest, no queued event, no event being recorded and no published slot
    refers to a coroutine whose HOST hand-back has returned. The same induction
    shows that a queued event is always one completed publication. */
module ThreadLifetime {
  import opened ThreadModel
  import opened ThreadRing
  import opened ThreadConservation

  /** The main state, or a coroutine that has not been handed back. */
  predicate Alive(s: Bridge, state: nat) { state == s.mainState || state in s.running }

  ghost predicate QueueAlive(s: Bridge) {
    forall j: nat :: s.consumed <= j < |s.produced| ==> Alive(s, s.produced[j].state)
  }

  ghost predicate QueueOnlyMain(s: Bridge) {
    forall j: nat :: s.consumed <= j < |s.produced| ==> s.produced[j].state == s.mainState
  }

  /** A safe point or a hand-back between entering and leaving its guard. */
  predicate InsideGuard(s: Bridge) {
    (s.op.SafePoint? || s.op.HandBack?)
    && !(s.stage.Ready? || s.stage.BeginDepth? || s.stage.EndStore? || s.stage.Return?)
  }

  predicate SlotMoved(s: Bridge) {
    s.stage.LoadRead? || s.stage.LoadWrite? || s.stage.Copy? || s.stage.Advance? || s.stage.Record?
    || (s.stage.Publish? && s.stage.k >= 2) || Emptied(s)
  }

  predicate Emptied(s: Bridge) {
    s.stage.Take? || s.stage.Report? || s.stage.EndDepth? || s.stage.EndStore? || s.stage.Return?
  }

  /** While a guard is held the handler only counts profiler overhead. */
  predicate GuardInv(s: Bridge) {
    && Fits(s.op, s.stage)
    && (s.stage != Ready && (s.op.SafePoint? || s.op.HandBack? || s.op.Change?) ==> s.mode == On)
    && (InsideGuard(s) ==> s.depth > 0)
    && (s.mode == On && !s.stage.BeginStore? && (s.depth > 0 || s.stage.EndStore? || s.stage.Arm?) ==> s.timer.draining)
    && (s.stage.EndStore? ==> s.depth == 0)
    && (s.stage.Publish? ==> s.stage.k <= 4)
  }

  /** Between publications the slot is the last one, and inside one the version is odd. */
  predicate SlotInv(s: Bridge) {
    if s.stage.Publish? && s.stage.k > 0 then
      && (s.op.Change? || s.op.HandBack?)
      && s.timer.version % 2 == 1
      && (s.stage.k >= 2 ==> s.timer.slot.state == Published(s).state)
      && (s.stage.k >= 3 ==> s.timer.slot.cfunction == Published(s).cfunction)
      && (s.stage.k >= 4 ==> s.timer.slot.vmState == Published(s).vmState)
    else s.timer.version % 2 == 0 && s.timer.slot == s.published
  }

  ghost predicate AliveInv(s: Bridge) {
    && (s.timer.slot.state == 0 || Alive(s, s.timer.slot.state))
    && QueueAlive(s)
    && (s.stage.Record? ==> Alive(s, s.stage.ev.state))
    && (s.stage != Ready && s.op.Change? ==> Alive(s, s.op.ev.state))
    && (s.stage != Ready && s.op.HandBack? ==> s.op.state != s.mainState)
    && (s.op.HandBack? && SlotMoved(s) ==> s.timer.slot.state == s.mainState)
    && (s.op.HandBack? && Emptied(s) ==> QueueOnlyMain(s))
  }

  ghost predicate LifeInv(s: Bridge) { RingInv(s) && GuardInv(s) && SlotInv(s) && AliveInv(s) }

  lemma BootLife(mainState: nat)
    ensures LifeInv(Boot(mainState))
  {
  }

  lemma MainGuard(s: Bridge, info: int, flag: bool)
    requires GuardInv(s) && Enabled(s, Main(info, flag))
    ensures GuardInv(MainNext(s, info, flag))
  {
  }

  lemma StepGuard(s: Bridge, step: Step)
    requires GuardInv(s) && Enabled(s, step)
    ensures GuardInv(Next(s, step))
  {
    if step.Main? {
      MainGuard(s, step.info, step.flag);
    }
  }

  lemma PublishSlot(s: Bridge, info: int, flag: bool)
    requires GuardInv(s) && SlotInv(s) && Enabled(s, Main(info, flag)) && s.stage.Publish?
    ensures SlotInv(MainNext(s, info, flag))
  {
  }

  lemma OtherSlot(s: Bridge, info: int, flag: bool)
    requires GuardInv(s) && SlotInv(s) && Enabled(s, Main(info, flag)) && !s.stage.Publish?
    ensures SlotInv(MainNext(s, info, flag))
  {
    var s' := MainNext(s, info, flag);
    assert s'.timer.version == s.timer.version && s'.timer.slot == s.timer.slot && s'.published == s.published;
  }

  lemma StepSlot(s: Bridge, step: Step)
    requires GuardInv(s) && SlotInv(s) && Enabled(s, step)
    ensures SlotInv(Next(s, step))
  {
    if step.Main? {
      if s.stage.Publish? {
        PublishSlot(s, step.info, step.flag);
      } else {
        OtherSlot(s, step.info, step.flag);
      }
    }
  }

  lemma InterruptAlive(s: Bridge, info: int)
    requires GuardInv(s) && AliveInv(s) && Enabled(s, Interrupt(info))
    ensures AliveInv(Next(s, Interrupt(info)))
  {
  }

  lemma CallAlive(s: Bridge, op: Op)
    requires AliveInv(s) && Enabled(s, Call(op))
    requires op.Start? ==> s.produced == []
    ensures AliveInv(Next(s, Call(op)))
  {
  }

  lemma DrainAlive(s: Bridge, info: int, flag: bool)
    requires RingInv(s) && AliveInv(s) && Drains(s.stage)
    ensures AliveInv(MainNext(s, info, flag))
  {
    if s.stage.LoadWrite? {
      LoadWriteAlive(s, info, flag);
    }
  }

  lemma LoadWriteAlive(s: Bridge, info: int, flag: bool)
    requires RingInv(s) && AliveInv(s) && s.stage.LoadWrite?
    ensures AliveInv(MainNext(s, info, flag))
  {
    WrapDistance(|s.produced|, s.consumed);
  }

  lemma PublishAlive(s: Bridge, info: int, flag: bool)
    requires GuardInv(s) && SlotInv(s) && AliveInv(s) && s.stage.Publish? && Enabled(s, Main(info, flag))
    ensures AliveInv(MainNext(s, info, flag))
  {
  }

  lemma ReturnAlive(s: Bridge, info: int, flag: bool)
    requires AliveInv(s) && s.stage.Return? && Enabled(s, Main(info, flag))
    ensures AliveInv(MainNext(s, info, flag))
  {
  }

  lemma OtherAlive(s: Bridge, info: int, flag: bool)
    requires GuardInv(s) && AliveInv(s) && Enabled(s, Main(info, flag))
    requires !Drains(s.stage) && !s.stage.Publish? && !s.stage.Return?
    ensures AliveInv(MainNext(s, info, flag))
  {
  }

  lemma StepLife(s: Bridge, step: Step)
    requires LifeInv(s) && Enabled(s, step)
    requires step.Call? && step.op.Start? ==> s.produced == [] && s.consumed == 0
    ensures LifeInv(Next(s, step))
  {
    StepRing(s, step);
    StepGuard(s, step);
    StepSlot(s, step);
    match step
    case Interrupt(info) => InterruptAlive(s, info);
    case Call(op) => CallAlive(s, op);
    case Main(info, flag) =>
      if Drains(s.stage) {
        DrainAlive(s, info, flag);
      } else if s.stage.Publish? {
        PublishAlive(s, info, flag);
      } else if s.stage.Return? {
        ReturnAlive(s, info, flag);
      } else {
        OtherAlive(s, info, flag);
      }
  }

  lemma RunLife(s: Bridge, steps: seq<Step>)
    requires LifeInv(s) && LedgerInv(s) && Legal(s, steps)
    ensures LifeInv(Run(s, steps))
    decreases |steps|
  {
    if steps != [] {
      StepLedger(s, steps[0]);
      StepLife(s, steps[0]);
      RunLife(Next(s, steps[0]), steps[1..]);
    }
  }

  /** After any run: every queued event, the event being recorded and the slot
      a handler would sample name the main state or a live coroutine. */
  lemma NothingOutlivesItsCoroutine(mainState: nat, steps: seq<Step>)
    requires Legal(Boot(mainState), steps)
    ensures var s := Run(Boot(mainState), steps);
      && s.consumed <= |s.produced|
      && (forall j: nat :: s.consumed <= j < |s.produced| ==> Alive(s, s.produced[j].state))
      && (s.stage.Advance? || s.stage.Record? ==> Alive(s, s.stage.ev.state))
      && (s.timer.slot.state == 0 || Alive(s, s.timer.slot.state))
  {
    BootLedger(mainState);
    BootLife(mainState);
    RunLife(Boot(mainState), steps);
  }

  /** A delivery during a run is queued only as the last completed publication,
      and only outside every guard. */
  lemma QueuedTicksAreFaithful(mainState: nat, steps: seq<Step>, info: int)
    requires Legal(Boot(mainState), steps)
    requires Enabled(Run(Boot(mainState), steps), Interrupt(info))
    ensures var s := Run(Boot(mainState), steps); var s' := Next(s, Interrupt(info));
      && (s'.produced != s.produced ==> s'.produced == s.produced + [s.published] && !s.timer.draining)
      && (s.depth > 0 && !s.stage.BeginStore? ==>
           s'.produced == s.produced && s'.timer.quality.overhead == s.timer.quality.overhead + 1)
  {
    BootLedger(mainState);
    BootLife(mainState);
    RunLife(Boot(mainState), steps);
  }
}
