/** The books of the sessions, over whole runs: every delivery that was settled for a
    session is queued, counted as lost, or was handed to its owner, and every tick a
    handler carries into a session is settled there exactly once, whatever the other
    threads do in between. */
module SkynetLedger {
  import opened Common
  import opened SkynetModel
  import opened SkynetPins
  import opened SkynetSessions
  import opened SkynetQuiesce

  /** Charges to one session, or charges by one agent. */
  datatype Account = OfSession(token: nat) | OfAgent(agent: Agent)

  predicate Charges(s: Host, step: Step) {
    step.Work? && PcOf(s, step.a).Working? && !Publishes(PcOf(s, step.a).task)
  }

  predicate Concerns(s: Host, step: Step, account: Account)
    requires Charges(s, step)
  {
    match account
    case OfSession(k) => PcOf(s, step.a).token == k
    case OfAgent(a) => step.a == a
  }

  function SettledNow(s: Host, step: Step, account: Account): nat {
    if Charges(s, step) && Concerns(s, step, account) then
      Settles(Recorded(s, PcOf(s, step.a).token), PcOf(s, step.a).phase, PcOf(s, step.a).task)
    else 0
  }

  function HandedNow(s: Host, step: Step, k: nat): nat {
    if Charges(s, step) && PcOf(s, step.a).token == k then HandsOver(Recorded(s, k), PcOf(s, step.a).task) else 0
  }

  /** Deliveries settled during a run. */
  ghost function Settled(s: Host, steps: seq<Step>, account: Account): nat
    requires Legal(s, steps)
    decreases |steps|
  {
    if steps == [] then 0
    else SettledNow(s, steps[0], account) + Settled(Next(s, steps[0]), steps[1..], account)
  }

  /** Deliveries handed to the owner of session `k` during a run. */
  ghost function HandedOver(s: Host, steps: seq<Step>, k: nat): nat
    requires Legal(s, steps)
    decreases |steps|
  {
    if steps == [] then 0 else HandedNow(s, steps[0], k) + HandedOver(Next(s, steps[0]), steps[1..], k)
  }

  // ---------- new sessions are blank ----------

  predicate AtReset(pc: Pc) { pc.Locked? && pc.stage.ResetData? }

  /** Nothing is recorded for tokens that are not given out or whose slot is still
      being prepared, so preparing it changes no session's record. */
  ghost predicate BlankInv(s: Host) {
    && (forall k: nat :: k > s.nextToken ==> Recorded(s, k) == FRESH)
    && (forall t: nat :: AtReset(PcOf(s, MainOf(t))) ==> Recorded(s, PcOf(s, MainOf(t)).stage.token) == FRESH)
  }

  lemma StaysBlank(s: Host, s': Host)
    requires BlankInv(s) && s'.nextToken >= s.nextToken
    requires forall k: nat :: Recorded(s, k) == FRESH ==> Recorded(s', k) == FRESH
    requires forall t: nat :: AtReset(PcOf(s', MainOf(t))) ==>
      PcOf(s', MainOf(t)) == PcOf(s, MainOf(t)) || PcOf(s', MainOf(t)).stage.token > s.nextToken
    ensures BlankInv(s')
  {
  }

  /** The session of a pinned slot is neither unborn nor being prepared. */
  lemma ChargedIsNotBlank(s: Host, a: Agent, t: nat)
    requires PinInv(s) && PcOf(s, a).Working?
    ensures PcOf(s, a).token <= s.nextToken
    ensures AtReset(PcOf(s, MainOf(t))) ==> PcOf(s, MainOf(t)).stage.token != PcOf(s, a).token
  {
    var i := PcOf(s, a).slot;
    assert a in TargetAt(s, i).pinners && SlotOk(TargetAt(s, i));
    if AtReset(PcOf(s, MainOf(t))) {
      assert StageOk(s, PcOf(s, MainOf(t)).stage);
    }
  }

  lemma ChargeBlank(s: Host, a: Agent, more: Option<nat>)
    requires PinInv(s) && BlankInv(s) && PcOf(s, a).Working? && !Publishes(PcOf(s, a).task)
    ensures BlankInv(ChargeNext(s, a, more))
  {
    var s' := ChargeNext(s, a, more);
    ChargedIsNotBlank(s, a, 0);
    forall k: nat | k > s'.nextToken ensures Recorded(s', k) == FRESH {
      assert Recorded(s, k) == FRESH && k != PcOf(s, a).token;
    }
    forall t: nat | AtReset(PcOf(s', MainOf(t))) ensures Recorded(s', PcOf(s', MainOf(t)).stage.token) == FRESH {
      assert PcOf(s', MainOf(t)) == PcOf(s, MainOf(t));
      ChargedIsNotBlank(s, a, t);
    }
  }

  lemma CriticalBlank(s: Host, t: nat, granted: bool)
    requires PinInv(s) && BlankInv(s) && PcOf(s, MainOf(t)).Locked?
    ensures BlankInv(CriticalNext(s, t, PcOf(s, MainOf(t)).stage, granted))
    ensures forall k: nat :: Recorded(CriticalNext(s, t, PcOf(s, MainOf(t)).stage, granted), k) == Recorded(s, k)
  {
    var stage := PcOf(s, MainOf(t)).stage;
    var s' := CriticalNext(s, t, stage, granted);
    CriticalKeepsSessions(s, t, granted);
    CriticalMoves(s, t, granted);
    StaysBlank(s, s');
  }

  lemma SuccessorReset(x: Target, stage: Stage, found: Option<nat>, newToken: nat, granted: bool)
    requires !stage.Unlocking? && !stage.StoreToken?
    ensures !Successor(x, stage, found, newToken, granted).ResetData?
  {
  }

  lemma StoreTokenMoves(s: Host, t: nat, granted: bool)
    requires PcOf(s, MainOf(t)).Locked? && PcOf(s, MainOf(t)).stage.StoreToken?
    ensures var s' := CriticalNext(s, t, PcOf(s, MainOf(t)).stage, granted);
      && s'.nextToken == s.nextToken + 1 && s'.pcs == s.pcs[MainOf(t) := PcOf(s', MainOf(t))]
      && (AtReset(PcOf(s', MainOf(t))) ==> PcOf(s', MainOf(t)).stage.token > s.nextToken)
  {
  }

  lemma CriticalMoves(s: Host, t: nat, granted: bool)
    requires PcOf(s, MainOf(t)).Locked?
    ensures var s' := CriticalNext(s, t, PcOf(s, MainOf(t)).stage, granted);
      && s'.nextToken >= s.nextToken && s'.pcs == s.pcs[MainOf(t) := PcOf(s', MainOf(t))]
      && (AtReset(PcOf(s', MainOf(t))) ==> PcOf(s', MainOf(t)).stage.token > s.nextToken)
  {
    var stage := PcOf(s, MainOf(t)).stage;
    if stage.StoreToken? {
      StoreTokenMoves(s, t, granted);
    } else if !stage.Unlocking? {
      var found := Found(s, stage);
      CriticalShape(s, t, stage, granted);
      SuccessorReset(TargetAt(s, StageSlot(stage, found)), stage, found, s.nextToken + 1, granted);
    }
  }

  // ---------- one step ----------

  /** Steps of an agent that takes, uses or drops a pin. */
  lemma PinMoves(s: Host, step: Step)
    requires Enabled(s, step) && (step.Cas? || step.Unpin? || step.Work?)
    ensures var s' := Next(s, step);
      s'.nextToken == s.nextToken && s'.pcs == s.pcs[step.a := PcOf(s', step.a)] && !PcOf(s', step.a).Locked?
  {
    match step
    case Cas(a, spurious) => assert CasNext(s, a, spurious).pcs == s.pcs[a := PcOf(CasNext(s, a, spurious), a)];
    case Unpin(a) => assert UnpinNext(s, a).pcs == s.pcs[a := UnpinPc(PcOf(s, a))];
    case Work(a, more) => WorkMoves(s, a, more);
  }

  lemma WorkMoves(s: Host, a: Agent, more: Option<nat>)
    requires PcOf(s, a).Working?
    ensures var s' := WorkNext(s, a, more);
      s'.nextToken == s.nextToken && s'.pcs == s.pcs[a := PcOf(s', a)] && !PcOf(s', a).Locked?
  {
    if Publishes(PcOf(s, a).task) {
      assert WorkNext(s, a, more).pcs == s.pcs[a := PublishPc(s, a)];
    } else {
      assert WorkNext(s, a, more) == ChargeNext(s, a, more);
      ChargeMoves(s, a, more);
    }
  }

  lemma ChargeMoves(s: Host, a: Agent, more: Option<nat>)
    requires PcOf(s, a).Working? && !Publishes(PcOf(s, a).task)
    ensures var s' := ChargeNext(s, a, more);
      s'.nextToken == s.nextToken && s'.pcs == s.pcs[a := PcOf(s', a)] && !PcOf(s', a).Locked?
  {
  }

  lemma PlainReset(s: Host, a: Agent, s': Host, t: nat)
    requires PlainKeeps(s, a, s') && AtReset(PcOf(s', MainOf(t)))
    ensures PcOf(s', MainOf(t)) == PcOf(s, MainOf(t))
  {
  }

  lemma PlainBlank(s: Host, step: Step)
    requires BlankInv(s) && Enabled(s, step) && Plain(step)
    ensures BlankInv(Next(s, step)) && forall k: nat :: Recorded(Next(s, step), k) == Recorded(s, k)
  {
    PlainShape(s, step);
    forall t: nat | AtReset(PcOf(Next(s, step), MainOf(t)))
      ensures PcOf(Next(s, step), MainOf(t)) == PcOf(s, MainOf(t))
    {
      PlainReset(s, Mover(step), Next(s, step), t);
    }
    StaysBlank(s, Next(s, step));
  }

  lemma PinBlank(s: Host, step: Step)
    requires BlankInv(s) && Enabled(s, step)
    requires step.Cas? || step.Unpin? || (step.Work? && Publishes(PcOf(s, step.a).task))
    ensures BlankInv(Next(s, step)) && forall k: nat :: Recorded(Next(s, step), k) == Recorded(s, k)
  {
    PinsKeepSessions(s, step);
    PinMoves(s, step);
    StaysBlank(s, Next(s, step));
  }

  /** No step but a charge changes what a session has recorded. */
  lemma StepBlank(s: Host, step: Step)
    requires PinInv(s) && BlankInv(s) && Enabled(s, step)
    ensures BlankInv(Next(s, step))
    ensures !Charges(s, step) ==> forall k: nat :: Recorded(Next(s, step), k) == Recorded(s, k)
  {
    if step.Critical? {
      CriticalBlank(s, step.t, step.granted);
    } else if Charges(s, step) {
      ChargeBlank(s, step.a, step.more);
    } else if Plain(step) {
      PlainBlank(s, step);
    } else {
      PinBlank(s, step);
    }
  }

  lemma StepBalances(s: Host, step: Step, k: nat)
    requires PinInv(s) && BlankInv(s) && Enabled(s, step)
    ensures Counted(Recorded(Next(s, step), k)) + HandedNow(s, step, k)
         == Counted(Recorded(s, k)) + SettledNow(s, step, OfSession(k))
  {
    if Charges(s, step) {
      EffectBalances(Recorded(s, PcOf(s, step.a).token), PcOf(s, step.a).phase, PcOf(s, step.a).task, step.more);
    } else {
      StepBlank(s, step);
    }
  }

  lemma RunBalances(s: Host, steps: seq<Step>, k: nat)
    requires PinInv(s) && BlankInv(s) && Legal(s, steps)
    ensures Counted(Recorded(Run(s, steps), k)) + HandedOver(s, steps, k)
         == Counted(Recorded(s, k)) + Settled(s, steps, OfSession(k))
    decreases |steps|
  {
    if steps != [] {
      StepPins(s, steps[0]);
      StepBlank(s, steps[0]);
      StepBalances(s, steps[0], k);
      RunBalances(Next(s, steps[0]), steps[1..], k);
    }
  }

  /** Conservation over every run: each delivery ever settled for a session is still
      queued, is in one of its four loss counters, or was handed to its owner. */
  lemma DeliveriesAreConserved(steps: seq<Step>, k: nat)
    requires Legal(BOOT, steps)
    ensures Settled(BOOT, steps, OfSession(k)) == Counted(Recorded(Run(BOOT, steps), k)) + HandedOver(BOOT, steps, k)
  {
    BootPins();
    RunBalances(BOOT, steps, k);
  }

  // ---------- one handler ----------

  /** What a handler's delivery still has to settle. */
  function Owed(pc: Pc): nat { if pc.Working? && (pc.task.Tick? || pc.task.Unsettled?) then 1 else 0 }

  predicate Carrying(pc: Pc) { (pc.Working? && (pc.task.Tick? || pc.task.Unsettled?)) || pc.Unpinning? }

  lemma PlainOthers(s: Host, b: Agent, s': Host, a: Agent)
    requires PlainKeeps(s, b, s') && a != b
    ensures PcOf(s', a) == PcOf(s, a)
  {
  }

  lemma OtherStays(s: Host, step: Step, a: Agent)
    requires Enabled(s, step) && Mover(step) != a
    ensures PcOf(Next(s, step), a) == PcOf(s, a)
  {
    if step.Critical? {
      CriticalMoves(s, step.t, step.granted);
    } else if Plain(step) {
      PlainShape(s, step);
      PlainOthers(s, Mover(step), Next(s, step), a);
    } else {
      PinMoves(s, step);
    }
  }

  lemma CarrierSettles(s: Host, step: Step, t: nat)
    requires Enabled(s, step) && Carrying(PcOf(s, HandlerOf(t))) && step != Unpin(HandlerOf(t))
    ensures Carrying(PcOf(Next(s, step), HandlerOf(t)))
    ensures SettledNow(s, step, OfAgent(HandlerOf(t)))
          + Owed(PcOf(Next(s, step), HandlerOf(t))) == Owed(PcOf(s, HandlerOf(t)))
  {
    if Mover(step) == HandlerOf(t) {
      assert step.Work? && PcOf(s, HandlerOf(t)).Working?;
    } else {
      OtherStays(s, step, HandlerOf(t));
    }
  }

  lemma CarrierRun(s: Host, steps: seq<Step>, t: nat)
    requires Legal(s, steps) && Carrying(PcOf(s, HandlerOf(t))) && Unpin(HandlerOf(t)) !in steps
    ensures Carrying(PcOf(Run(s, steps), HandlerOf(t)))
    ensures Settled(s, steps, OfAgent(HandlerOf(t)))
          + Owed(PcOf(Run(s, steps), HandlerOf(t))) == Owed(PcOf(s, HandlerOf(t)))
    decreases |steps|
  {
    if steps != [] {
      CarrierSettles(s, steps[0], t);
      CarrierRun(Next(s, steps[0]), steps[1..], t);
    }
  }

  /** From the moment a handler has pinned the session its delivery belongs to until it
      lets go of it, in any run, it settles exactly one delivery there; before that last
      access it has settled none. */
  lemma EachTickSettlesOnce(s: Host, steps: seq<Step>, t: nat)
    requires Legal(s, steps) && Unpin(HandlerOf(t)) !in steps
    requires var pc := PcOf(s, HandlerOf(t)); pc.Working? && (pc.task.Tick? || pc.task.Unsettled?) && pc.task.at == 0
    ensures var pc := PcOf(Run(s, steps), HandlerOf(t));
      && (Settled(s, steps, OfAgent(HandlerOf(t))) == 1 <==> pc.Unpinning?)
      && (Settled(s, steps, OfAgent(HandlerOf(t))) == 0 <==> pc.Working?)
  {
    CarrierRun(s, steps, t);
  }
}
