/** Sessions: the fixed array of reused slots refines a store with one entry per
    token, and quiescing a session is a barrier for its event ring. */
module SkynetSessions {
  import opened Common
  import opened SkynetModel
  import opened SkynetPins

  /** A slot someone may still charge. */
  predicate InUse(x: Target) { Open(x.word) || x.pinners != {} }

  /** Every such slot holds exactly what its session has recorded. */
  ghost predicate SessionInv(s: Host) {
    && (forall i: nat :: InUse(TargetAt(s, i)) ==> TargetAt(s, i).data == Recorded(s, TargetAt(s, i).token))
    && (forall t: nat :: PcOf(s, MainOf(t)).Locked? && PcOf(s, MainOf(t)).stage.CasActive? ==>
          TargetAt(s, PcOf(s, MainOf(t)).stage.slot).data == Recorded(s, PcOf(s, MainOf(t)).stage.token))
  }

  /** A new session's slot is being cleared or opened. */
  predicate Preparing(pc: Pc) { pc.Locked? && (pc.stage.ResetData? || pc.stage.CasActive?) }

  predicate AtCasActive(pc: Pc) { pc.Locked? && pc.stage.CasActive? }

  /** Steps that leave data, tokens and phases alone. */
  lemma FrameSessions(s: Host, a: Agent, s': Host)
    requires SessionInv(s) && s'.sessions == s.sessions
    requires s'.pcs == s.pcs || (s'.pcs == s.pcs[a := PcOf(s', a)] && !AtCasActive(PcOf(s', a)))
    requires forall i: nat :: TargetAt(s', i).data == TargetAt(s, i).data
    requires forall i: nat :: InUse(TargetAt(s', i)) ==>
              InUse(TargetAt(s, i)) && TargetAt(s', i).token == TargetAt(s, i).token
    ensures SessionInv(s')
  {
    assert forall k: nat :: Recorded(s', k) == Recorded(s, k);
    forall t: nat | AtCasActive(PcOf(s', MainOf(t)))
      ensures TargetAt(s', PcOf(s', MainOf(t)).stage.slot).data == Recorded(s', PcOf(s', MainOf(t)).stage.token)
    {
      assert PcOf(s', MainOf(t)) == PcOf(s, MainOf(t));
    }
  }

  lemma CasKeeps(s: Host, a: Agent, spurious: bool, i: nat)
    requires PcOf(s, a).Trying?
    ensures var x, x' := TargetAt(s, i), TargetAt(CasNext(s, a, spurious), i);
      && x'.data == x.data && x'.token == x.token && x'.handle == x.handle && x'.word.phase == x.word.phase
      && (x' == x || (Open(x.word) && Allowed(PcOf(s, a).job, x.word.phase)))
  {
  }

  lemma CasSessions(s: Host, a: Agent, spurious: bool)
    requires SessionInv(s) && PcOf(s, a).Trying?
    ensures SessionInv(CasNext(s, a, spurious))
  {
    forall i: nat
      ensures TargetAt(CasNext(s, a, spurious), i).data == TargetAt(s, i).data
      ensures InUse(TargetAt(CasNext(s, a, spurious), i)) ==>
                InUse(TargetAt(s, i)) && TargetAt(CasNext(s, a, spurious), i).token == TargetAt(s, i).token
    {
      CasKeeps(s, a, spurious, i);
    }
    FrameSessions(s, a, CasNext(s, a, spurious));
  }

  lemma UnpinSessions(s: Host, a: Agent)
    requires PinInv(s) && SessionInv(s) && Enabled(s, Unpin(a))
    ensures SessionInv(Next(s, Unpin(a)))
  {
    FrameSessions(s, a, Next(s, Unpin(a)));
  }

  lemma ChargeSessions(s: Host, a: Agent, more: Option<nat>)
    requires PinInv(s) && SessionInv(s) && Enabled(s, Work(a, more)) && !Publishes(PcOf(s, a).task)
    ensures SessionInv(ChargeNext(s, a, more))
  {
    var s', pc := ChargeNext(s, a, more), PcOf(s, a);
    var i, k := pc.slot, pc.token;
    assert a in TargetAt(s, i).pinners;
    assert SlotOk(TargetAt(s, i)) && TargetAt(s, i).token == k;
    assert TargetAt(s, i).data == Recorded(s, k);
    forall j: nat | InUse(TargetAt(s', j))
      ensures TargetAt(s', j).data == Recorded(s', TargetAt(s', j).token)
    {
      if j != i {
        assert TargetAt(s', j) == TargetAt(s, j) && SlotOk(TargetAt(s, j));
        assert TargetAt(s, j).token != k;
      }
    }
    forall t: nat | AtCasActive(PcOf(s', MainOf(t)))
      ensures TargetAt(s', PcOf(s', MainOf(t)).stage.slot).data == Recorded(s', PcOf(s', MainOf(t)).stage.token)
    {
      assert PcOf(s', MainOf(t)) == PcOf(s, MainOf(t));
      var stage := PcOf(s, MainOf(t)).stage;
      assert StageOk(s, stage) && SlotOk(TargetAt(s, stage.slot));
      assert stage.slot != i && stage.token != k;
    }
  }

  lemma CriticalKeeps(s: Host, t: nat, stage: Stage, granted: bool)
    requires !stage.Unlocking? && !stage.StoreToken? && !stage.ResetData?
    ensures CriticalNext(s, t, stage, granted).sessions == s.sessions
    ensures forall k: nat :: Recorded(CriticalNext(s, t, stage, granted), k) == Recorded(s, k)
  {
  }

  /** Statements under the lock other than ResetData. */
  lemma CriticalSessions(s: Host, t: nat, granted: bool)
    requires PinInv(s) && SessionInv(s) && PcOf(s, MainOf(t)).Locked?
    requires var g := PcOf(s, MainOf(t)).stage; !g.Unlocking? && !g.StoreToken? && !g.ResetData?
    ensures SessionInv(CriticalNext(s, t, PcOf(s, MainOf(t)).stage, granted))
  {
    var stage := PcOf(s, MainOf(t)).stage;
    SlotFacts(s, t);
    CriticalChanges(s, t, granted);
    CriticalKeeps(s, t, stage, granted);
    RewriteSessions(s, CriticalNext(s, t, stage, granted), t, stage, Found(s, stage), granted);
  }

  lemma RewriteSessions(s: Host, s': Host, t: nat, stage: Stage, found: Option<nat>, granted: bool)
    requires SessionInv(s) && PcOf(s, MainOf(t)) == Locked(stage) && !stage.StoreToken? && !stage.ResetData?
    requires forall u: nat :: u != t ==> !PcOf(s, MainOf(u)).Locked?
    requires var x := TargetAt(s, StageSlot(stage, found));
      && Knows(x, stage) && SlotOk(x)
      && Changes(s, s', StageSlot(stage, found), Rewrite(x, stage, found, s.nextToken + 1, granted), MainOf(t),
                 Locked(Successor(x, stage, found, s.nextToken + 1, granted)))
    requires forall k: nat :: Recorded(s', k) == Recorded(s, k)
    ensures SessionInv(s')
  {
    RewriteData(TargetAt(s, StageSlot(stage, found)), stage, found, s.nextToken + 1, granted);
    forall u: nat | AtCasActive(PcOf(s', MainOf(u)))
      ensures TargetAt(s', PcOf(s', MainOf(u)).stage.slot).data == Recorded(s', PcOf(s', MainOf(u)).stage.token)
    {
      assert u == t;
    }
  }

  lemma RewriteData(x: Target, stage: Stage, found: Option<nat>, newToken: nat, granted: bool)
    requires Knows(x, stage) && SlotOk(x) && !stage.StoreToken? && !stage.ResetData?
    ensures var x' := Rewrite(x, stage, found, newToken, granted);
      && x'.data == x.data
      && (InUse(x') ==> x'.token == x.token && (InUse(x) || (stage.CasActive? && x.token == stage.token)))
      && (Successor(x, stage, found, newToken, granted).CasActive? ==>
            Successor(x, stage, found, newToken, granted) == stage)
  {
  }

  lemma StoreTokenSessions(s: Host, t: nat, granted: bool)
    requires PinInv(s) && SessionInv(s) && PcOf(s, MainOf(t)).Locked? && PcOf(s, MainOf(t)).stage.StoreToken?
    ensures SessionInv(CriticalNext(s, t, PcOf(s, MainOf(t)).stage, granted))
  {
    SlotFacts(s, t);
    FrameSessions(s, MainOf(t), CriticalNext(s, t, PcOf(s, MainOf(t)).stage, granted));
  }

  /** The new session and its slot start from the same cleared data. */
  lemma ResetDataSessions(s: Host, t: nat, granted: bool)
    requires PinInv(s) && SessionInv(s) && PcOf(s, MainOf(t)).Locked? && PcOf(s, MainOf(t)).stage.ResetData?
    ensures SessionInv(CriticalNext(s, t, PcOf(s, MainOf(t)).stage, granted))
  {
    var ResetData(i, k, state) := PcOf(s, MainOf(t)).stage;
    var s' := CriticalNext(s, t, PcOf(s, MainOf(t)).stage, granted);
    SlotFacts(s, t);
    assert forall j: nat :: j != i ==> TargetAt(s', j) == TargetAt(s, j);
    forall j: nat | InUse(TargetAt(s', j))
      ensures TargetAt(s', j).data == Recorded(s', TargetAt(s', j).token)
    {
      assert SlotOk(TargetAt(s, j));
      assert j != i && TargetAt(s, j).token != k;
    }
    forall u: nat | AtCasActive(PcOf(s', MainOf(u)))
      ensures TargetAt(s', PcOf(s', MainOf(u)).stage.slot).data == Recorded(s', PcOf(s', MainOf(u)).stage.token)
    {
      assert u == t;
    }
  }

  lemma LockSessions(s: Host, t: nat, granted: bool)
    requires PinInv(s) && SessionInv(s) && PcOf(s, MainOf(t)).Locked?
    ensures SessionInv(CriticalNext(s, t, PcOf(s, MainOf(t)).stage, granted))
  {
    match PcOf(s, MainOf(t)).stage
    case Unlocking => FrameSessions(s, MainOf(t), CriticalNext(s, t, PcOf(s, MainOf(t)).stage, granted));
    case StoreToken(_, _, _) => StoreTokenSessions(s, t, granted);
    case ResetData(_, _, _) => ResetDataSessions(s, t, granted);
    case _ => CriticalSessions(s, t, granted);
  }

  predicate Plain(step: Step) { !step.Cas? && !step.Work? && !step.Unpin? && !step.Critical? }

  /** What a plain step leaves alone. */
  ghost predicate PlainKeeps(s: Host, a: Agent, s': Host) {
    && s'.targets == s.targets && s'.sessions == s.sessions && s'.homes == s.homes && s'.handles == s.handles
    && s'.nextToken == s.nextToken
    && (s'.pcs == s.pcs || s'.pcs == s.pcs[a := PcOf(s', a)])
    && !Preparing(PcOf(s', a))
  }

  lemma HandlerPlain(s: Host, step: Step)
    requires Enabled(s, step) && (step.Interrupt? || step.Sample? || step.Probe? || step.Load? || step.Check?)
    ensures PlainKeeps(s, Mover(step), Next(s, step))
  {
  }

  lemma LockPlain(s: Host, step: Step)
    requires Enabled(s, step) && (step.Store? || step.Acquire? || step.Wait?)
    ensures PlainKeeps(s, Mover(step), Next(s, step))
  {
    match step
    case Store(t) => StorePlain(s, t);
    case Acquire(t) => AcquirePlain(s, t);
    case Wait(t) => WaitPlain(s, t);
  }

  lemma StorePlain(s: Host, t: nat)
    requires Enabled(s, Store(t))
    ensures PlainKeeps(s, Mover(Store(t)), Next(s, Store(t)))
  {
  }

  lemma AcquirePlain(s: Host, t: nat)
    requires Enabled(s, Acquire(t))
    ensures PlainKeeps(s, Mover(Acquire(t)), Next(s, Acquire(t)))
  {
  }

  lemma WaitPlain(s: Host, t: nat)
    requires Enabled(s, Wait(t))
    ensures PlainKeeps(s, Mover(Wait(t)), Next(s, Wait(t)))
  {
  }

  lemma BeginPlain(s: Host, t: nat, call: Call)
    requires Enabled(s, Begin(t, call))
    ensures PlainKeeps(s, MainOf(t), BeginNext(s, t, call))
  {
  }

  lemma CommandPlain(s: Host, t: nat, armed: bool)
    requires Enabled(s, Command(t, armed))
    ensures PlainKeeps(s, MainOf(t), CommandNext(s, t, armed))
  {
  }

  /** Every step outside a pin, an unpin, a charge or the lock. */
  lemma PlainShape(s: Host, step: Step)
    requires Enabled(s, step) && Plain(step)
    ensures PlainKeeps(s, Mover(step), Next(s, step))
  {
    match step
    case Begin(t, call) => BeginPlain(s, t, call);
    case Command(t, armed) => CommandPlain(s, t, armed);
    case Store(_) => LockPlain(s, step);
    case Acquire(_) => LockPlain(s, step);
    case Wait(_) => LockPlain(s, step);
    case _ => HandlerPlain(s, step);
  }

  lemma PlainSessions(s: Host, step: Step)
    requires SessionInv(s) && Enabled(s, step) && Plain(step)
    ensures SessionInv(Next(s, step))
  {
    PlainShape(s, step);
    var s' := Next(s, step);
    assert forall i: nat :: TargetAt(s', i) == TargetAt(s, i);
    FrameSessions(s, Mover(step), s');
  }

  lemma PublishSessions(s: Host, a: Agent, more: Option<nat>)
    requires SessionInv(s) && Enabled(s, Work(a, more)) && Publishes(PcOf(s, a).task)
    ensures SessionInv(WorkNext(s, a, more))
  {
    var s' := WorkNext(s, a, more);
    assert forall i: nat :: TargetAt(s', i) == TargetAt(s, i);
    FrameSessions(s, a, s');
  }

  lemma StepSessions(s: Host, step: Step)
    requires PinInv(s) && SessionInv(s) && Enabled(s, step)
    ensures SessionInv(Next(s, step))
  {
    match step
    case Cas(a, spurious) => CasSessions(s, a, spurious);
    case Work(a, more) =>
      if Publishes(PcOf(s, a).task) {
        PublishSessions(s, a, more);
      } else {
        ChargeSessions(s, a, more);
      }
    case Unpin(a) => UnpinSessions(s, a);
    case Critical(t, granted) => LockSessions(s, t, granted);
    case _ => PlainSessions(s, step);
  }

  lemma RunSessions(s: Host, steps: seq<Step>)
    requires PinInv(s) && SessionInv(s) && Legal(s, steps)
    ensures SessionInv(Run(s, steps))
    decreases |steps|
  {
    if steps != [] {
      StepPins(s, steps[0]);
      StepSessions(s, steps[0]);
      RunSessions(Next(s, steps[0]), steps[1..]);
    }
  }

  lemma ReachableSessions(s: Host)
    requires Reachable(s)
    ensures SessionInv(s)
  {
    var steps :| Legal(BOOT, steps) && Run(BOOT, steps) == s;
    BootPins();
    RunSessions(BOOT, steps);
  }

  /** Refinement: in every reachable state, what an open or pinned slot stores
      is what its current session has recorded, however often the slot was
      reused. Every charge names the session by the token it was made with. */
  lemma SlotsRefineSessions(s: Host, i: nat)
    requires Reachable(s) && (Open(TargetAt(s, i).word) || TargetAt(s, i).word.readers > 0)
    ensures TargetAt(s, i).data == Recorded(s, TargetAt(s, i).token)
  {
    ReachableSessions(s);
    ReachablePins(s);
  }

  lemma ChargeIsLocal(s: Host, a: Agent, more: Option<nat>, k: nat)
    requires PcOf(s, a).Working? && !Publishes(PcOf(s, a).task)
    ensures k != PcOf(s, a).token ==> Recorded(ChargeNext(s, a, more), k) == Recorded(s, k)
    ensures forall i: nat :: i != PcOf(s, a).slot ==> TargetAt(ChargeNext(s, a, more), i) == TargetAt(s, i)
  {
  }

  /** A charge changes the session its agent's token names, and no other. */
  lemma ChargesStayInSession(s: Host, a: Agent, more: Option<nat>, k: nat)
    requires Reachable(s) && Enabled(s, Work(a, more)) && !Publishes(PcOf(s, a).task)
    ensures TargetAt(s, PcOf(s, a).slot).token == PcOf(s, a).token
    ensures k != PcOf(s, a).token ==> Recorded(WorkNext(s, a, more), k) == Recorded(s, k)
    ensures forall i: nat :: i != PcOf(s, a).slot ==> TargetAt(WorkNext(s, a, more), i) == TargetAt(s, i)
  {
    ReachablePins(s);
    ChargeIsLocal(s, a, more, k);
    assert WorkNext(s, a, more) == ChargeNext(s, a, more);
  }

  // ---------- where deliveries go ----------

  /** Deliveries a session accounts for: queued, or in one of its four loss counters. */
  function Counted(d: Data): nat { |d.ring| + d.dropped + d.unstable + d.overhead + d.stale }

  /** Deliveries an access settles. */
  function Settles(d: Data, phase: Phase, job: Job): nat {
    match job
    case Tick(_, _, at) => if at > 2 || (at == 2 && phase != ACTIVE) then 1 else 0
    case Unsettled(_, at) => if at > 1 then 1 else 0
    case Discard(_, at) => if at > 2 then 1 else 0
    case _ => 0
  }

  /** Deliveries an access hands to the owner: the oldest event, or a counter it takes. */
  function HandsOver(d: Data, job: Job): nat {
    match job
    case NextEvent => if d.ring == [] then 0 else 1
    case TakeQuality(at) =>
      if at == 0 then d.dropped else if at == 1 then d.unstable else if at == 2 then d.overhead
      else if at == 3 then d.stale else 0
    case _ => 0
  }

  /** No access loses or invents a delivery: what a session accounts for grows by what
      is settled and shrinks by what its owner takes. */
  lemma ChargesBalance(s: Host, a: Agent, more: Option<nat>)
    requires Reachable(s) && Enabled(s, Work(a, more)) && !Publishes(PcOf(s, a).task)
    ensures var k := PcOf(s, a).token; var d := Recorded(s, k);
      Counted(Recorded(WorkNext(s, a, more), k)) + HandsOver(d, PcOf(s, a).task)
        == Counted(d) + Settles(d, PcOf(s, a).phase, PcOf(s, a).task)
  {
    EffectBalances(Recorded(s, PcOf(s, a).token), PcOf(s, a).phase, PcOf(s, a).task, more);
  }

  lemma EffectBalances(d: Data, phase: Phase, job: Job, more: Option<nat>)
    ensures Counted(Effect(d, phase, job, more).data) + HandsOver(d, job) == Counted(d) + Settles(d, phase, job)
  {
  }

  /** All accesses of a handler's tick, when nobody else charges the session meanwhile. */
  function Settle(d: Data, phase: Phase, ev: Event, overrun: nat, at: nat): Data
    decreases 4 - at
  {
    var o := Effect(d, phase, Tick(ev, overrun, at), None);
    if o.next.Some? && o.next.value.Tick? && at < o.next.value.at <= 4 then Settle(o.data, phase, ev, overrun,
              o.next.value.at) else o.data
  }

  /** A tick counts its overruns and then exactly one outcome: stale once the session is
      stopping, profiler work while it is drained, unstable if malformed, dropped if the
      ring is full, and queued otherwise. */
  lemma TickIsJudgedOnce(d: Data, phase: Phase, ev: Event, overrun: nat)
    ensures var r := Settle(d, phase, ev, overrun, 0);
      && r.overrunEvents == d.overrunEvents + (if overrun > 0 then 1 else 0)
      && r.overrunTicks == d.overrunTicks + overrun
      && Counted(r) == Counted(d) + 1 && r.draining == d.draining
      && (r.stale == d.stale + 1 <==> phase != ACTIVE)
      && (r.overhead == d.overhead + 1 <==> phase == ACTIVE && d.draining)
      && (r.unstable == d.unstable + 1 <==> phase == ACTIVE && !d.draining && Malformed(ev))
      && (r.dropped == d.dropped + 1 <==> phase == ACTIVE && !d.draining && !Malformed(ev) && |d.ring| >= RING)
      && (r.ring == d.ring + [ev] <==> phase == ACTIVE && !d.draining && !Malformed(ev) && |d.ring| < RING)
  {
    CountsOverruns(d, phase, ev, overrun);
    LastAccesses(AfterOverruns(d, overrun), phase, ev, overrun);
  }

  function AfterOverruns(d: Data, overrun: nat): Data {
    d.(overrunEvents := d.overrunEvents + (if overrun > 0 then 1 else 0), overrunTicks := d.overrunTicks + overrun)
  }

  lemma CountsOverruns(d: Data, phase: Phase, ev: Event, overrun: nat)
    ensures Settle(d, phase, ev, overrun, 0) == Settle(AfterOverruns(d, overrun), phase, ev, overrun, 2)
  {
    if overrun > 0 {
      var d1 := d.(overrunEvents := d.overrunEvents + 1);
      assert Settle(d, phase, ev, overrun, 0) == Settle(d1, phase, ev, overrun, 1);
      assert Settle(d1, phase, ev, overrun, 1) == Settle(AfterOverruns(d, overrun), phase, ev, overrun, 2);
    } else {
      assert AfterOverruns(d, overrun) == d;
    }
  }

  lemma LastAccesses(d: Data, phase: Phase, ev: Event, overrun: nat)
    ensures Settle(d, phase, ev, overrun, 2) ==
      if phase != ACTIVE then d.(stale := d.stale + 1)
      else if d.draining then d.(overhead := d.overhead + 1)
      else if Malformed(ev) then d.(unstable := d.unstable + 1)
      else if |d.ring| >= RING then d.(dropped := d.dropped + 1)
      else d.(ring := d.ring + [ev])
  {
    if phase == ACTIVE {
      var at := if d.draining then 3 else 4;
      assert Settle(d, phase, ev, overrun, 2) == Settle(d, phase, ev, overrun, at);
    }
  }
}
