/** Quiesce is a barrier: once its final wait is over, the session's ring is
    only ever consumed, on every later step of every thread. */
module SkynetQuiesce {
  import opened Common
  import opened SkynetModel
  import opened SkynetPins
  import opened SkynetSessions

  /** The session has left ACTIVE for good. */
  ghost predicate Stopped(s: Host, k: nat) {
    && k in s.homes
    && (TargetAt(s, s.homes[k]).token == k ==>
          PhaseOf(s, s.homes[k]) == STOPPING || PhaseOf(s, s.homes[k]) == RECLAIMING)
  }

  predicate HeldActive(pc: Pc, i: nat) {
    (pc.Checking? || pc.Tagging? || pc.Working?) && pc.slot == i && pc.phase == ACTIVE
  }

  /** No agent still holds a pin that it took while the session was ACTIVE. */
  ghost predicate Silent(s: Host, k: nat) {
    Stopped(s, k) &&
    (TargetAt(s, s.homes[k]).token == k ==> forall a :: !HeldActive(PcOf(s, a), s.homes[k]))
  }

  /** `cmd` or `pc` is the wait of a quiesce call, and that session has stopped. */
  ghost predicate WaitOk(s: Host, i: nat, k: nat) { Stopped(s, k) && s.homes[k] == i }

  /** A tick gets past its phase test only when its pin was taken in ACTIVE. */
  predicate TickOk(pc: Pc) { pc.Working? && pc.task.Tick? && pc.task.at > 2 ==> pc.phase == ACTIVE }

  ghost predicate QuietInv(s: Host) {
    && (forall a :: TickOk(PcOf(s, a)))
    && (forall k: nat :: k in s.quiet ==> Silent(s, k))
    && (forall t: nat :: PcOf(s, MainOf(t)).Waiting? ==> WaitOk(s, PcOf(s, MainOf(t)).slot, PcOf(s, MainOf(t)).token))
    && (forall t: nat, c: Cmd :: c in Todo(s, t) && c.DoWait? ==> WaitOk(s, c.slot, c.token))
  }

  /** Nothing but a statement under the lock changes a phase or a token. */
  lemma StoppedKept(s: Host, s': Host, k: nat)
    requires Stopped(s, k) && s'.homes == s.homes
    requires forall i: nat :: TargetAt(s', i).token == TargetAt(s, i).token && PhaseOf(s', i) == PhaseOf(s, i)
    ensures Stopped(s', k) && s'.homes[k] == s.homes[k]
  {
  }

  lemma RewritePhase(x: Target, stage: Stage, found: Option<nat>, newToken: nat, granted: bool, k: nat)
    requires Knows(x, stage) && SlotOk(x) && 0 < k < newToken
    requires x.token == k ==> x.word.phase == STOPPING || x.word.phase == RECLAIMING
    requires stage.PickSlot? && found.Some? ==> x.word == Word(0, FREE)
    ensures var x' := Rewrite(x, stage, found, newToken, granted);
      x'.token == k ==> x.token == k && (x'.word.phase == STOPPING || x'.word.phase == RECLAIMING)
  {
  }

  /** What a statement under the lock does to the other parts of the state. */
  ghost predicate Rests(s: Host, t: nat, s': Host) {
    && s'.quiet == s.quiet && s'.pcs == s.pcs[MainOf(t) := PcOf(s', MainOf(t))]
    && (PcOf(s', MainOf(t)).Locked? || PcOf(s', MainOf(t)).Idle?)
    && (forall k: nat :: k in s.homes ==> k in s'.homes && s'.homes[k] == s.homes[k])
  }

  lemma UnlockingRest(s: Host, t: nat, granted: bool)
    requires PinInv(s) && PcOf(s, MainOf(t)).Locked? && PcOf(s, MainOf(t)).stage.Unlocking?
    ensures Rests(s, t, CriticalNext(s, t, PcOf(s, MainOf(t)).stage, granted))
  {
  }

  lemma StoreTokenRest(s: Host, t: nat, granted: bool)
    requires PinInv(s) && PcOf(s, MainOf(t)).Locked? && PcOf(s, MainOf(t)).stage.StoreToken?
    ensures Rests(s, t, CriticalNext(s, t, PcOf(s, MainOf(t)).stage, granted))
  {
    assert forall k: nat :: k in s.homes ==> k != s.nextToken + 1;
  }

  lemma OtherRest(s: Host, t: nat, granted: bool)
    requires PinInv(s) && PcOf(s, MainOf(t)).Locked? && !PcOf(s, MainOf(t)).stage.StoreToken?
              && !PcOf(s, MainOf(t)).stage.Unlocking?
    ensures Rests(s, t, CriticalNext(s, t, PcOf(s, MainOf(t)).stage, granted))
  {
    CriticalShape(s, t, PcOf(s, MainOf(t)).stage, granted);
  }

  lemma CriticalRest(s: Host, t: nat, granted: bool)
    requires PinInv(s) && PcOf(s, MainOf(t)).Locked?
    ensures Rests(s, t, CriticalNext(s, t, PcOf(s, MainOf(t)).stage, granted))
  {
    var stage := PcOf(s, MainOf(t)).stage;
    if stage.Unlocking? {
      UnlockingRest(s, t, granted);
    } else if stage.StoreToken? {
      StoreTokenRest(s, t, granted);
    } else {
      OtherRest(s, t, granted);
    }
  }

  lemma CriticalStopped(s: Host, t: nat, granted: bool, k: nat)
    requires PinInv(s) && PcOf(s, MainOf(t)).Locked? && Stopped(s, k)
    ensures var s' := CriticalNext(s, t, PcOf(s, MainOf(t)).stage, granted);
      Stopped(s', k) && s'.homes[k] == s.homes[k]
      && (TargetAt(s', s.homes[k]).token == k ==> TargetAt(s, s.homes[k]).token == k)
  {
    CriticalRest(s, t, granted);
    CriticalAt(s, t, granted, s.homes[k]);
    SlotStopped(s, t, granted, k, TargetAt(CriticalNext(s, t, PcOf(s, MainOf(t)).stage, granted), s.homes[k]));
  }

  lemma SlotStopped(s: Host, t: nat, granted: bool, k: nat, x': Target)
    requires PinInv(s) && PcOf(s, MainOf(t)).Locked? && Stopped(s, k)
    requires var stage := PcOf(s, MainOf(t)).stage; var i, found := s.homes[k], Found(s, stage);
      x' == TargetAt(s, i) ||
      (i == StageSlot(stage, found) && x' == Rewrite(TargetAt(s, i), stage, found, s.nextToken + 1, granted))
    ensures x'.token == k ==>
              TargetAt(s, s.homes[k]).token == k && (x'.word.phase == STOPPING || x'.word.phase == RECLAIMING)
  {
    var i, stage := s.homes[k], PcOf(s, MainOf(t)).stage;
    SlotFacts(s, t);
    if x' != TargetAt(s, i) {
      RewritePhase(TargetAt(s, i), stage, Found(s, stage), s.nextToken + 1, granted, k);
    }
  }

  /** Steps outside the lock: pins may be taken or dropped, calls may advance. */
  lemma MoveQuiet(s: Host, a: Agent, s': Host)
    requires QuietInv(s) && s'.homes == s.homes && s'.quiet == s.quiet
    requires forall i: nat :: TargetAt(s', i).token == TargetAt(s, i).token && PhaseOf(s', i) == PhaseOf(s, i)
    requires s'.pcs == s.pcs || s'.pcs == s.pcs[a := PcOf(s', a)]
    requires forall i: nat :: HeldActive(PcOf(s', a), i) ==> HeldActive(PcOf(s, a), i) || PhaseOf(s, i) == ACTIVE
    requires TickOk(PcOf(s', a))
    requires PcOf(s', a).Waiting? ==> WaitOk(s, PcOf(s', a).slot, PcOf(s', a).token)
    requires forall t: nat, c: Cmd :: c in Todo(s', t) && c.DoWait? ==> WaitOk(s, c.slot, c.token)
    ensures QuietInv(s')
  {
    forall b: Agent
      ensures TickOk(PcOf(s', b))
    {
      assert TickOk(PcOf(s, b));
    }
    forall k: nat | Stopped(s, k)
      ensures Stopped(s', k) && s'.homes[k] == s.homes[k]
    {
      StoppedKept(s, s', k);
    }
    forall k: nat | k in s'.quiet
      ensures Silent(s', k)
    {
      assert Silent(s, k);
      var i := s.homes[k];
      if TargetAt(s', i).token == k {
        forall b: Agent
          ensures !HeldActive(PcOf(s', b), i)
        {
          assert !HeldActive(PcOf(s, b), i);
        }
      }
    }
    forall t: nat | PcOf(s', MainOf(t)).Waiting?
      ensures WaitOk(s', PcOf(s', MainOf(t)).slot, PcOf(s', MainOf(t)).token)
    {
      assert PcOf(s', MainOf(t)) == PcOf(s, MainOf(t)) || MainOf(t) == a;
    }
  }

  lemma CasQuiet(s: Host, a: Agent, spurious: bool)
    requires PinInv(s) && QuietInv(s) && Enabled(s, Cas(a, spurious))
    ensures QuietInv(CasNext(s, a, spurious))
  {
    var s' := CasNext(s, a, spurious);
    assert forall t: nat :: Todo(s', t) == Todo(s, t);
    MoveQuiet(s, a, s');
  }

  lemma UnpinQuiet(s: Host, a: Agent)
    requires QuietInv(s) && Enabled(s, Unpin(a))
    ensures QuietInv(Next(s, Unpin(a)))
  {
    var s' := Next(s, Unpin(a));
    assert forall t: nat :: Todo(s', t) == Todo(s, t);
    MoveQuiet(s, a, s');
  }

  lemma ChargeQuiet(s: Host, a: Agent, more: Option<nat>)
    requires QuietInv(s) && Enabled(s, Work(a, more)) && !Publishes(PcOf(s, a).task)
    ensures QuietInv(ChargeNext(s, a, more))
  {
    var s' := ChargeNext(s, a, more);
    assert forall t: nat :: Todo(s', t) == Todo(s, t);
    MoveQuiet(s, a, s');
  }

  lemma PublishQuiet(s: Host, a: Agent, more: Option<nat>)
    requires QuietInv(s) && Enabled(s, Work(a, more)) && Publishes(PcOf(s, a).task)
    ensures QuietInv(WorkNext(s, a, more))
  {
    var s' := WorkNext(s, a, more);
    assert forall t: nat :: Todo(s', t) == Todo(s, t);
    MoveQuiet(s, a, s');
  }

  /** Steps that end outside every pin and every wait. */
  lemma IdleQuiet(s: Host, a: Agent, pc: Pc, s': Host)
    requires QuietInv(s) && s'.homes == s.homes && s'.quiet == s.quiet && s'.targets == s.targets && s'.todo == s.todo
    requires s'.pcs == s.pcs[a := pc] && !pc.Checking? && !pc.Tagging? && !pc.Working? && !pc.Waiting?
    ensures QuietInv(s')
  {
    assert forall t: nat :: Todo(s', t) == Todo(s, t);
    assert forall i: nat :: TargetAt(s', i) == TargetAt(s, i);
    MoveQuiet(s, a, s');
  }

  lemma HandlerQuiet(s: Host, step: Step)
    requires QuietInv(s) && Enabled(s, step)
    requires step.Interrupt? || step.Sample? || step.Probe? || step.Load?
    ensures QuietInv(Next(s, step))
  {
    match step
    case Interrupt(t, overrun) => IdleQuiet(s, HandlerOf(t), Sampling(0, UNREAD, overrun), Next(s, step));
    case Sample(t) => IdleQuiet(s, HandlerOf(t), SamplePc(s, t), Next(s, step));
    case Probe(a) => IdleQuiet(s, a, ProbePc(s, a), Next(s, step));
    case Load(a) => IdleQuiet(s, a, LoadPc(s, a), Next(s, step));
  }

  lemma CheckQuiet(s: Host, a: Agent)
    requires QuietInv(s) && Enabled(s, Check(a))
    ensures QuietInv(Next(s, Check(a)))
  {
    var s' := Next(s, Check(a));
    assert forall t: nat :: Todo(s', t) == Todo(s, t);
    MoveQuiet(s, a, s');
  }

  lemma BeginQuiet(s: Host, t: nat, call: Call)
    requires QuietInv(s) && Enabled(s, Begin(t, call))
    ensures QuietInv(BeginNext(s, t, call))
  {
    var s' := BeginNext(s, t, call);
    assert forall u: nat :: u != t ==> Todo(s', u) == Todo(s, u);
    assert forall c :: c in CallCommands(WorkerOf(s, t), call) ==> !c.DoWait?;
    MoveQuiet(s, MainOf(t), s');
  }

  lemma CommandWaits(s: Host, t: nat, armed: bool, u: nat, c: Cmd)
    requires QuietInv(s) && Todo(s, t) != [] && c in Todo(CommandNext(s, t, armed), u) && c.DoWait?
    ensures WaitOk(s, c.slot, c.token)
  {
    if u == t {
      assert c in CommandRest(Todo(s, t)[0], Todo(s, t)[1..], armed);
      assert c in Todo(s, t)[1..];
      assert c in Todo(s, t);
    } else {
      assert c in Todo(s, u);
    }
  }

  lemma CommandQuiet(s: Host, t: nat, armed: bool)
    requires QuietInv(s) && Enabled(s, Command(t, armed))
    ensures QuietInv(CommandNext(s, t, armed))
  {
    var s' := CommandNext(s, t, armed);
    assert Todo(s, t)[0] in Todo(s, t);
    forall u: nat, c: Cmd | c in Todo(s', u) && c.DoWait? ensures WaitOk(s, c.slot, c.token) {
      CommandWaits(s, t, armed, u, c);
    }
    MoveQuiet(s, MainOf(t), s');
  }

  lemma AcquireQuiet(s: Host, t: nat)
    requires QuietInv(s) && Enabled(s, Acquire(t))
    ensures QuietInv(Next(s, Acquire(t)))
  {
    var s' := Next(s, Acquire(t));
    assert forall u: nat :: u != t ==> Todo(s', u) == Todo(s, u);
    assert forall c :: c in Todo(s', t) ==> c in Todo(s, t);
    MoveQuiet(s, MainOf(t), s');
  }

  /** No reader is left, so no pin taken in ACTIVE is left either. */
  lemma UnreadIsSilent(s: Host, i: nat, k: nat)
    requires PinInv(s) && WaitOk(s, i, k) && TargetAt(s, i).word.readers == 0
    ensures Silent(s, k)
  {
    assert TargetAt(s, i).pinners == {};
    forall b: Agent
      ensures !HeldActive(PcOf(s, b), i)
    {
      assert b !in TargetAt(s, i).pinners;
    }
  }

  lemma AddQuiet(s: Host, k: nat)
    requires QuietInv(s) && Silent(s, k)
    ensures QuietInv(s.(quiet := s.quiet + {k}))
  {
    var s' := s.(quiet := s.quiet + {k});
    assert forall a :: PcOf(s', a) == PcOf(s, a);
    assert forall t: nat :: Todo(s', t) == Todo(s, t);
    assert forall j: nat :: Stopped(s, j) ==> Stopped(s', j);
    forall j: nat | j in s'.quiet
      ensures Silent(s', j)
    {
      assert Silent(s, j);
      forall b: Agent | TargetAt(s', s'.homes[j]).token == j
        ensures !HeldActive(PcOf(s', b), s'.homes[j])
      {
        assert !HeldActive(PcOf(s, b), s.homes[j]);
      }
    }
  }

  /** The wait that makes a session quiet. */
  lemma WaitQuiet(s: Host, t: nat)
    requires PinInv(s) && QuietInv(s) && PcOf(s, MainOf(t)).Waiting?
    ensures QuietInv(WaitNext(s, t))
  {
    var pc := PcOf(s, MainOf(t));
    if TargetAt(s, pc.slot).word.readers != 0 {
      WaitOn(s, t, pc, WaitNext(s, t));
    } else {
      var s1 := Goto(s, MainOf(t), Idle);
      IdleQuiet(s, MainOf(t), Idle, s1);
      UnreadIsSilent(s, pc.slot, pc.token);
      StaysSilent(s, MainOf(t), pc.token, s1);
      AddQuiet(s1, pc.token);
    }
  }

  lemma WaitOn(s: Host, t: nat, pc: Pc, s': Host)
    requires QuietInv(s) && pc == PcOf(s, MainOf(t)) && s' == Goto(s, MainOf(t), pc)
    ensures QuietInv(s')
  {
    assert forall u: nat :: Todo(s', u) == Todo(s, u);
    MoveQuiet(s, MainOf(t), s');
  }

  lemma StaysSilent(s: Host, a: Agent, k: nat, s': Host)
    requires Silent(s, k) && s' == Goto(s, a, Idle)
    ensures Silent(s', k)
  {
    assert forall i: nat :: TargetAt(s', i) == TargetAt(s, i);
    forall b: Agent | TargetAt(s, s.homes[k]).token == k
      ensures !HeldActive(PcOf(s', b), s.homes[k])
    {
      assert !HeldActive(PcOf(s, b), s.homes[k]);
    }
  }

  lemma CriticalTodo(s: Host, t: nat, granted: bool)
    requires PcOf(s, MainOf(t)).Locked?
    ensures var stage := PcOf(s, MainOf(t)).stage; var s' := CriticalNext(s, t, stage, granted);
      s'.todo == s.todo ||
      s'.todo == s.todo[t := StageTodo(s, t, TargetAt(s, StageSlot(stage, Found(s, stage))), stage, granted)]
  {
    var stage := PcOf(s, MainOf(t)).stage;
    if stage.CasActive? || stage.CasStopping? {
      assert CriticalNext(s, t, stage, granted).todo ==
        s.todo[t := StageTodo(s, t, TargetAt(s, StageSlot(stage, Found(s, stage))), stage, granted)];
    }
  }

  lemma CriticalWaits(s: Host, t: nat, granted: bool, u: nat, c: Cmd)
    requires PinInv(s) && QuietInv(s) && PcOf(s, MainOf(t)).Locked?
    requires c in Todo(CriticalNext(s, t, PcOf(s, MainOf(t)).stage, granted), u) && c.DoWait?
    ensures WaitOk(CriticalNext(s, t, PcOf(s, MainOf(t)).stage, granted), c.slot, c.token)
  {
    var stage := PcOf(s, MainOf(t)).stage;
    var s' := CriticalNext(s, t, stage, granted);
    CriticalTodo(s, t, granted);
    if c in Todo(s, u) {
      CriticalStopped(s, t, granted, c.token);
    } else {
      StopsHere(s, t, granted, c);
    }
  }

  /** A quiesce call that has just changed the phase waits for its own slot. */
  lemma StopsHere(s: Host, t: nat, granted: bool, c: Cmd)
    requires PinInv(s) && PcOf(s, MainOf(t)).Locked? && c.DoWait? && c !in Todo(s, t)
    requires var stage := PcOf(s, MainOf(t)).stage;
      c in StageTodo(s, t, TargetAt(s, StageSlot(stage, Found(s, stage))), stage, granted)
    ensures WaitOk(CriticalNext(s, t, PcOf(s, MainOf(t)).stage, granted), c.slot, c.token)
  {
    var stage := PcOf(s, MainOf(t)).stage;
    assert stage.CasStopping? && c == DoWait(stage.slot, stage.token);
    SlotFacts(s, t);
    CriticalShape(s, t, stage, granted);
    assert SlotOk(TargetAt(s, stage.slot));
  }

  lemma CriticalSilent(s: Host, t: nat, granted: bool, k: nat)
    requires PinInv(s) && PcOf(s, MainOf(t)).Locked? && Silent(s, k)
    ensures Silent(CriticalNext(s, t, PcOf(s, MainOf(t)).stage, granted), k)
  {
    var s' := CriticalNext(s, t, PcOf(s, MainOf(t)).stage, granted);
    CriticalRest(s, t, granted);
    CriticalStopped(s, t, granted, k);
    forall b: Agent | TargetAt(s', s'.homes[k]).token == k
      ensures !HeldActive(PcOf(s', b), s'.homes[k])
    {
      assert !HeldActive(PcOf(s, b), s.homes[k]);
    }
  }

  lemma CriticalQuiet(s: Host, t: nat, granted: bool)
    requires PinInv(s) && QuietInv(s) && PcOf(s, MainOf(t)).Locked?
    ensures QuietInv(CriticalNext(s, t, PcOf(s, MainOf(t)).stage, granted))
  {
    var s' := CriticalNext(s, t, PcOf(s, MainOf(t)).stage, granted);
    CriticalRest(s, t, granted);
    forall b: Agent
      ensures TickOk(PcOf(s', b))
    {
      assert TickOk(PcOf(s, b));
    }
    forall k: nat | k in s'.quiet
      ensures Silent(s', k)
    {
      CriticalSilent(s, t, granted, k);
    }
    forall u: nat | PcOf(s', MainOf(u)).Waiting?
      ensures WaitOk(s', PcOf(s', MainOf(u)).slot, PcOf(s', MainOf(u)).token)
    {
      assert PcOf(s', MainOf(u)) == PcOf(s, MainOf(u));
      CriticalStopped(s, t, granted, PcOf(s, MainOf(u)).token);
    }
    forall u: nat, c: Cmd | c in Todo(s', u) && c.DoWait?
      ensures WaitOk(s', c.slot, c.token)
    {
      CriticalWaits(s, t, granted, u, c);
    }
  }

  lemma AgentQuiet(s: Host, step: Step)
    requires PinInv(s) && QuietInv(s) && Enabled(s, step) && (step.Cas? || step.Check? || step.Work? || step.Unpin?)
    ensures QuietInv(Next(s, step))
  {
    match step
    case Cas(a, spurious) => CasQuiet(s, a, spurious);
    case Check(a) => CheckQuiet(s, a);
    case Work(a, more) =>
      if Publishes(PcOf(s, a).task) {
        PublishQuiet(s, a, more);
      } else {
        ChargeQuiet(s, a, more);
      }
    case Unpin(a) => UnpinQuiet(s, a);
  }

  lemma StepQuiet(s: Host, step: Step)
    requires PinInv(s) && QuietInv(s) && Enabled(s, step)
    ensures QuietInv(Next(s, step))
  {
    match step
    case Cas(_, _) => AgentQuiet(s, step);
    case Check(_) => AgentQuiet(s, step);
    case Work(_, _) => AgentQuiet(s, step);
    case Unpin(_) => AgentQuiet(s, step);
    case Store(t) => IdleQuiet(s, MainOf(t), StorePc(PcOf(s, MainOf(t))), StoreNext(s, t));
    case Begin(t, call) => BeginQuiet(s, t, call);
    case Command(t, armed) => CommandQuiet(s, t, armed);
    case Acquire(t) => AcquireQuiet(s, t);
    case Critical(t, granted) => CriticalQuiet(s, t, granted);
    case Wait(t) => WaitQuiet(s, t);
    case _ => HandlerQuiet(s, step);
  }

  predicate IsSuffix<A(==)>(a: seq<A>, b: seq<A>) { |a| <= |b| && a == b[|b| - |a|..] }

  lemma ChargeConsumes(s: Host, a: Agent, more: Option<nat>, k: nat)
    requires PinInv(s) && QuietInv(s) && PcOf(s, a).Working? && PcOf(s, a).token == k && Silent(s, k)
    ensures IsSuffix(Effect(Recorded(s, k), PcOf(s, a).phase, PcOf(s, a).task, more).data.ring, Recorded(s, k).ring)
  {
    assert a in TargetAt(s, PcOf(s, a).slot).pinners && SlotOk(TargetAt(s, PcOf(s, a).slot));
    assert !HeldActive(PcOf(s, a), s.homes[k]);
    assert TickOk(PcOf(s, a));
    EffectConsumes(Recorded(s, k), PcOf(s, a).phase, PcOf(s, a).task, more);
    SuffixOfSame(Effect(Recorded(s, k), PcOf(s, a).phase, PcOf(s, a).task, more).data.ring, Recorded(s, k).ring);
  }

  lemma CriticalConsumes(s: Host, t: nat, granted: bool, k: nat)
    requires PinInv(s) && PcOf(s, MainOf(t)).Locked? && Stopped(s, k)
    ensures Recorded(CriticalNext(s, t, PcOf(s, MainOf(t)).stage, granted), k) == Recorded(s, k)
  {
    SlotFacts(s, t);
    CriticalKeepsSessions(s, t, granted);
    if PcOf(s, MainOf(t)).stage.ResetData? {
      assert SlotOk(TargetAt(s, PcOf(s, MainOf(t)).stage.slot));
    }
  }

  lemma PinsKeepSessions(s: Host, step: Step)
    requires Enabled(s, step) && (step.Cas? || step.Unpin? || (step.Work? && Publishes(PcOf(s, step.a).task)))
    ensures Next(s, step).sessions == s.sessions && Next(s, step).quiet == s.quiet
  {
    match step
    case Cas(a, spurious) => assert Next(s, step) == CasNext(s, a, spurious);
    case _ =>
  }

  lemma PlainKeepsQuiet(s: Host, step: Step)
    requires Enabled(s, step) && Plain(step)
    ensures s.quiet <= Next(s, step).quiet
  {
    match step
    case Begin(t, call) => assert Next(s, step) == BeginNext(s, t, call);
    case Command(t, armed) => assert Next(s, step) == CommandNext(s, t, armed);
    case _ =>
  }

  lemma ChargeRecords(s: Host, a: Agent, more: Option<nat>, k: nat)
    requires PcOf(s, a).Working? && !Publishes(PcOf(s, a).task)
    ensures var pc, s' := PcOf(s, a), ChargeNext(s, a, more);
      && Recorded(s', k) == (if pc.token == k then Effect(Recorded(s, k), pc.phase, pc.task, more).data else Recorded(s,
                k))
      && s'.quiet == s.quiet
  {
  }

  lemma WorkConsumes(s: Host, a: Agent, more: Option<nat>, k: nat)
    requires PinInv(s) && QuietInv(s) && PcOf(s, a).Working? && !Publishes(PcOf(s, a).task) && Silent(s, k)
    ensures IsSuffix(Recorded(ChargeNext(s, a, more), k).ring, Recorded(s, k).ring)
    ensures ChargeNext(s, a, more).quiet == s.quiet
  {
    ChargeRecords(s, a, more, k);
    SuffixOfSame(Recorded(s, k).ring, Recorded(s, k).ring);
    if PcOf(s, a).token == k {
      ChargeConsumes(s, a, more, k);
    }
  }

  lemma PlainRecords(s: Host, step: Step, k: nat)
    requires Enabled(s, step) && Plain(step)
    ensures Recorded(Next(s, step), k) == Recorded(s, k) && s.quiet <= Next(s, step).quiet
  {
    PlainShape(s, step);
    PlainKeepsQuiet(s, step);
  }

  /** No step appends to a quiet session's ring. */
  lemma StepConsumes(s: Host, step: Step, k: nat)
    requires PinInv(s) && QuietInv(s) && Enabled(s, step) && k in s.quiet
    ensures IsSuffix(Recorded(Next(s, step), k).ring, Recorded(s, k).ring) && k in Next(s, step).quiet
  {
    assert Silent(s, k);
    SuffixOfSame(Recorded(s, k).ring, Recorded(s, k).ring);
    if step.Critical? {
      CriticalRest(s, step.t, step.granted);
      CriticalConsumes(s, step.t, step.granted, k);
    } else if Plain(step) {
      PlainRecords(s, step, k);
    } else if step.Work? && !Publishes(PcOf(s, step.a).task) {
      WorkConsumes(s, step.a, step.more, k);
    } else {
      PinsKeepSessions(s, step);
    }
  }

  lemma CriticalKeepsSessions(s: Host, t: nat, granted: bool)
    requires PcOf(s, MainOf(t)).Locked?
    ensures var stage := PcOf(s, MainOf(t)).stage; var s' := CriticalNext(s, t, stage, granted);
      s'.sessions == s.sessions || (stage.ResetData? && s'.sessions == s.sessions[stage.token := FRESH])
  {
    var stage := PcOf(s, MainOf(t)).stage;
    if stage.Unlocking? {
    } else if stage.StoreToken? {
    } else if stage.ResetData? {
    } else {
      assert CriticalNext(s, t, stage, granted).sessions == s.sessions;
    }
  }

  /** Only a pin taken in ACTIVE can append an event. */
  lemma EffectConsumes(d: Data, phase: Phase, job: Job, more: Option<nat>)
    requires phase != ACTIVE && (job.Tick? ==> job.at <= 2)
    ensures var r := Effect(d, phase, job, more).data.ring; r == d.ring || (d.ring != [] && r == d.ring[1..])
  {
  }

  lemma SuffixOfSame<A>(a: seq<A>, b: seq<A>)
    requires a == b || (b != [] && a == b[1..])
    ensures IsSuffix(a, b)
  {
  }

  lemma RunQuiet(s: Host, steps: seq<Step>)
    requires PinInv(s) && QuietInv(s) && Legal(s, steps)
    ensures PinInv(Run(s, steps)) && QuietInv(Run(s, steps))
    decreases |steps|
  {
    if steps != [] {
      StepPins(s, steps[0]);
      StepQuiet(s, steps[0]);
      RunQuiet(Next(s, steps[0]), steps[1..]);
    }
  }

  lemma RunConsumes(s: Host, steps: seq<Step>, k: nat)
    requires PinInv(s) && QuietInv(s) && Legal(s, steps) && k in s.quiet
    ensures IsSuffix(Recorded(Run(s, steps), k).ring, Recorded(s, k).ring) && k in Run(s, steps).quiet
    decreases |steps|
  {
    if steps != [] {
      StepHolds(s, steps[0], k);
      RunConsumes(Next(s, steps[0]), steps[1..], k);
      SuffixOfSuffix(Recorded(Run(s, steps), k).ring, Recorded(Next(s, steps[0]), k).ring, Recorded(s, k).ring);
    }
  }

  lemma StepHolds(s: Host, step: Step, k: nat)
    requires PinInv(s) && QuietInv(s) && Enabled(s, step) && k in s.quiet
    ensures PinInv(Next(s, step)) && QuietInv(Next(s, step)) && k in Next(s, step).quiet
    ensures IsSuffix(Recorded(Next(s, step), k).ring, Recorded(s, k).ring)
  {
    StepPins(s, step);
    StepQuiet(s, step);
    StepConsumes(s, step, k);
  }

  lemma SuffixOfSuffix<A>(a: seq<A>, b: seq<A>, c: seq<A>)
    requires IsSuffix(a, b) && IsSuffix(b, c)
    ensures IsSuffix(a, c)
  {
  }

  lemma ReachableQuiet(s: Host)
    requires Reachable(s)
    ensures PinInv(s) && QuietInv(s)
  {
    var before :| Legal(BOOT, before) && Run(BOOT, before) == s;
    BootPins();
    RunQuiet(BOOT, before);
  }

  /** The barrier: after quiesce has returned for a token, whatever any thread
      or handler does, its ring only loses events, so one drain that finds it
      empty has emptied it for good. */
  lemma QuiesceIsABarrier(s: Host, steps: seq<Step>, k: nat)
    requires Reachable(s) && k in s.quiet && Legal(s, steps)
    ensures IsSuffix(Recorded(Run(s, steps), k).ring, Recorded(s, k).ring)
    ensures Recorded(s, k).ring == [] ==> Recorded(Run(s, steps), k).ring == []
  {
    ReachableQuiet(s);
    RunConsumes(s, steps, k);
  }
}
