/** Reclamation safety: the shared lifecycle word keeps an exact count of the
    agents that hold a pin, so memory is freed only when no one can touch it. */
module SkynetPins {
  import opened Common
  import opened SkynetModel

  /** The reader count is the number of agents between their pin and unpin. */
  ghost predicate ReadersCounted(s: Host) {
    && (forall i: nat :: TargetAt(s, i).word.readers == |TargetAt(s, i).pinners|)
    && (forall i: nat, a :: a in TargetAt(s, i).pinners <==> Pinned(PcOf(s, a), i))
  }

  ghost predicate TokensPlaced(s: Host) {
    && (forall i: nat :: TargetAt(s, i).token != 0 ==>
        TargetAt(s, i).token in s.homes && s.homes[TargetAt(s, i).token] == i)
    && (forall k :: k in s.homes ==> 0 < k <= s.nextToken)
  }

  predicate Open(word: Word) { word.phase == ACTIVE || word.phase == STOPPING }

  ghost predicate SlotOk(x: Target) {
    && (Open(x.word) || x.pinners != {} ==> x.events && x.token != 0)
    && (x.word.phase == FREE ==> x.pinners == {})
  }

  /** What the holder of host_lock knows about its slot at each statement. */
  predicate Knows(x: Target, stage: Stage) {
    match stage
    case StoreToken(_, _, _) => x.word.phase == FREE && x.events
    case ResetData(_, k, _) => x.word.phase == FREE && x.events && x.token == k != 0
    case CasActive(_, k, _) => x.word.phase == FREE && x.events && x.token == k != 0
    case CasStopping(_, k) => x.word.phase == ACTIVE && x.token == k
    case CasReclaiming(_, k, from) => x.word.phase == from && (from == ACTIVE || from == STOPPING) && x.token == k
    case AwaitReaders(_) => x.word.phase == RECLAIMING
    case FreeEvents(_) => x.word.phase == RECLAIMING && x.pinners == {}
    case ClearHandle(_) => x.word.phase == RECLAIMING && x.pinners == {}
    case ClearToken(_) => x.word.phase == RECLAIMING && x.pinners == {}
    case CasFree(_) => x.word.phase == RECLAIMING && x.pinners == {} && x.token == 0
    case _ => true
  }

  ghost predicate StageOk(s: Host, stage: Stage) {
    Knows(TargetAt(s, StageSlot(stage, None)), stage)
  }

  ghost predicate LockHeld(s: Host) {
    forall t: nat :: PcOf(s, MainOf(t)).Locked? ==> s.lock == Some(t) && StageOk(s, PcOf(s, MainOf(t)).stage)
  }

  ghost predicate HoldsMatch(s: Host) {
    forall a :: PcOf(s, a).Working? ==> TargetAt(s, PcOf(s, a).slot).token == PcOf(s, a).token
  }

  ghost predicate HandlersUnlocked(s: Host) {
    forall t: nat :: !PcOf(s, HandlerOf(t)).Locked?
  }

  ghost predicate PinInv(s: Host) {
    && ReadersCounted(s)
    && TokensPlaced(s)
    && (forall i: nat :: SlotOk(TargetAt(s, i)))
    && LockHeld(s)
    && HoldsMatch(s)
    && HandlersUnlocked(s)
  }

  lemma BootPins()
    ensures PinInv(BOOT)
  {
  }

  /** Steps that move only one agent's program counter, not across a pin. */
  lemma MovePins(s: Host, a: Agent, pc: Pc)
    requires PinInv(s)
    requires forall i: nat :: Pinned(pc, i) == Pinned(PcOf(s, a), i)
    requires pc.Working? ==> TargetAt(s, pc.slot).token == pc.token
    requires pc.Locked? ==> a.level == Main && s.lock == Some(a.tid) && StageOk(s, pc.stage)
    ensures PinInv(Goto(s, a, pc))
  {
    var s' := Goto(s, a, pc);
    assert forall i: nat :: TargetAt(s', i) == TargetAt(s, i);
    assert forall b :: b != a ==> PcOf(s', b) == PcOf(s, b);
  }

  /** Slot `i` is `x` in the new state, and the agent `a` is at `pc`; nothing else of
      interest changed. */
  ghost predicate Changes(s: Host, s': Host, i: nat, x: Target, a: Agent, pc: Pc) {
    && TargetAt(s', i) == x && (forall j: nat :: j != i ==> TargetAt(s', j) == TargetAt(s, j))
    && PcOf(s', a) == pc && (forall b :: b != a ==> PcOf(s', b) == PcOf(s, b))
    && s'.homes == s.homes && s'.nextToken == s.nextToken && s'.lock == s.lock
  }

  lemma Changed(s: Host, i: nat, x: Target, a: Agent, pc: Pc)
    ensures Changes(s, Goto(PutT(s, i, x), a, pc), i, x, a, pc)
  {
  }

  lemma PinTaken(s: Host, a: Agent, i: nat, pc: Pc, s': Host)
    requires PinInv(s) && Open(TargetAt(s, i).word)
    requires PcOf(s, a).Trying? && pc.Checking? && pc.slot == i
    requires Changes(s, s', i, PinnedBy(TargetAt(s, i), a), a, pc)
    ensures PinInv(s')
  {
    PinCounts(s, a, i, pc, s');
    PinLocks(s, a, i, PinnedBy(TargetAt(s, i), a), pc, s');
  }

  lemma PinCounts(s: Host, a: Agent, i: nat, pc: Pc, s': Host)
    requires ReadersCounted(s) && !Pinned(PcOf(s, a), i) && pc.Checking? && pc.slot == i
    requires forall j: nat :: !Pinned(PcOf(s, a), j)
    requires Changes(s, s', i, PinnedBy(TargetAt(s, i), a), a, pc)
    ensures ReadersCounted(s')
  {
    assert a !in TargetAt(s, i).pinners;
  }

  /** A pin comes or goes: tokens, phases and the lock stay. */
  lemma PinLocks(s: Host, a: Agent, i: nat, x: Target, pc: Pc, s': Host)
    requires LockHeld(s) && HandlersUnlocked(s) && TokensPlaced(s) && HoldsMatch(s) && Changes(s, s', i, x, a, pc)
    requires !pc.Locked? && !pc.Working? && x.token == TargetAt(s, i).token
    requires forall stage: Stage :: Knows(TargetAt(s, i), stage) ==> Knows(x, stage)
    ensures LockHeld(s') && HandlersUnlocked(s') && TokensPlaced(s') && HoldsMatch(s')
  {
    forall u: nat | PcOf(s', MainOf(u)).Locked?
      ensures s'.lock == Some(u) && StageOk(s', PcOf(s', MainOf(u)).stage)
    {
      assert StageOk(s, PcOf(s, MainOf(u)).stage);
    }
  }

  lemma CasPins(s: Host, a: Agent, spurious: bool)
    requires PinInv(s) && Enabled(s, Cas(a, spurious))
    ensures PinInv(CasNext(s, a, spurious))
  {
    var pc := PcOf(s, a);
    var i, x := pc.slot, TargetAt(s, pc.slot);
    if CasSucceeds(x, pc, spurious) {
      Changed(s, i, PinnedBy(x, a), a, CasPc(x, pc, spurious));
      PinTaken(s, a, i, CasPc(x, pc, spurious), CasNext(s, a, spurious));
    } else {
      MovePins(s, a, CasPc(x, pc, spurious));
    }
  }

  lemma UnpinPins(s: Host, a: Agent)
    requires PinInv(s) && PcOf(s, a).Unpinning?
    ensures PinInv(UnpinNext(s, a))
  {
    var pc := PcOf(s, a);
    Changed(s, pc.slot, Unpinned(TargetAt(s, pc.slot), a), a, UnpinPc(pc));
    PinReturned(s, a, UnpinNext(s, a));
  }

  lemma PinReturned(s: Host, a: Agent, s': Host)
    requires PinInv(s) && PcOf(s, a).Unpinning?
    requires var pc := PcOf(s, a); Changes(s, s', pc.slot, Unpinned(TargetAt(s, pc.slot), a), a, UnpinPc(pc))
    ensures PinInv(s')
  {
    var pc := PcOf(s, a);
    UnpinCounts(s, a, s');
    PinLocks(s, a, pc.slot, Unpinned(TargetAt(s, pc.slot), a), UnpinPc(pc), s');
  }

  lemma UnpinCounts(s: Host, a: Agent, s': Host)
    requires ReadersCounted(s) && PcOf(s, a).Unpinning?
    requires var pc := PcOf(s, a); Changes(s, s', pc.slot, Unpinned(TargetAt(s, pc.slot), a), a, UnpinPc(pc))
    ensures ReadersCounted(s') && TargetAt(s, PcOf(s, a).slot).pinners != {}
  {
    var pinners := TargetAt(s, PcOf(s, a).slot).pinners;
    assert a in pinners;
    assert |pinners - {a}| == |pinners| - 1;
  }

  /** The parts of the state that the invariant does not mention. */
  lemma FramePins(s: Host, s': Host)
    requires PinInv(s)
    requires s'.targets == s.targets && s'.pcs == s.pcs && s'.lock == s.lock
    requires s'.homes == s.homes && s'.nextToken == s.nextToken
    ensures PinInv(s')
  {
    assert forall i: nat :: TargetAt(s', i) == TargetAt(s, i);
    assert forall a :: PcOf(s', a) == PcOf(s, a);
    assert forall t: nat | PcOf(s', MainOf(t)).Locked? :: StageOk(s', PcOf(s', MainOf(t)).stage) by {
      forall t: nat | PcOf(s', MainOf(t)).Locked?
        ensures StageOk(s', PcOf(s', MainOf(t)).stage)
      {
        assert StageOk(s, PcOf(s, MainOf(t)).stage);
      }
    }
  }

  /** A slot's session data is outside the invariant. */
  lemma DataPins(s: Host, i: nat, d: Data)
    requires PinInv(s)
    ensures PinInv(PutT(s, i, TargetAt(s, i).(data := d)))
  {
    var s' := PutT(s, i, TargetAt(s, i).(data := d));
    assert forall j: nat :: TargetAt(s', j) == TargetAt(s, j) || TargetAt(s', j) == TargetAt(s, j).(data := d);
    assert forall a :: PcOf(s', a) == PcOf(s, a);
    forall t: nat | PcOf(s', MainOf(t)).Locked?
      ensures StageOk(s', PcOf(s', MainOf(t)).stage)
    {
      assert StageOk(s, PcOf(s, MainOf(t)).stage);
    }
  }

  /** `pc` may replace a's program counter without crossing a pin. */
  ghost predicate SameHold(s: Host, a: Agent, pc: Pc) {
    && (forall i: nat :: Pinned(pc, i) == Pinned(PcOf(s, a), i))
    && (pc.Working? ==> TargetAt(s, pc.slot).token == pc.token)
    && !pc.Locked?
  }

  lemma PublishPins(s: Host, a: Agent, more: Option<nat>)
    requires PinInv(s) && Enabled(s, Work(a, more)) && Publishes(PcOf(s, a).task)
    ensures PinInv(WorkNext(s, a, more))
  {
    var pc' := PublishPc(s, a);
    MovePins(s, a, pc');
    FramePins(Goto(s, a, pc'), WorkNext(s, a, more));
  }

  lemma WorkPins(s: Host, a: Agent, more: Option<nat>)
    requires PinInv(s) && Enabled(s, Work(a, more))
    ensures PinInv(WorkNext(s, a, more))
  {
    var pc := PcOf(s, a);
    if Publishes(pc.task) {
      PublishPins(s, a, more);
    } else {
      var i, s' := pc.slot, WorkNext(s, a, more);
      var d := Effect(TargetAt(s, i).data, pc.phase, pc.task, more).data;
      DataPins(s, i, d);
      var s1 := PutT(s, i, TargetAt(s, i).(data := d));
      MovePins(s1, a, PcOf(s', a));
      FramePins(Goto(s1, a, PcOf(s', a)), s');
    }
  }

  /** A statement of the lock holder that rewrites one slot. */
  lemma StagePins(s: Host, t: nat, i: nat, x': Target, stage: Stage)
    requires PinInv(s) && PcOf(s, MainOf(t)).Locked?
    requires x'.pinners == TargetAt(s, i).pinners && x'.word.readers == TargetAt(s, i).word.readers
    requires SlotOk(x')
    requires x'.token == TargetAt(s, i).token ||
             (x'.pinners == {} && (x'.token != 0 ==> x'.token in s.homes && s.homes[x'.token] == i))
    requires StageOk(PutT(s, i, x'), stage)
    ensures PinInv(Goto(PutT(s, i, x'), MainOf(t), Locked(stage)))
  {
    var s' := Goto(PutT(s, i, x'), MainOf(t), Locked(stage));
    Changed(s, i, x', MainOf(t), Locked(stage));
    StageCounts(s, s', t, i, x', stage);
    StageHolds(s, s', t, i, x', stage);
    StageLocks(s, s', t, i, x', stage);
  }

  lemma StageCounts(s: Host, s': Host, t: nat, i: nat, x': Target, stage: Stage)
    requires ReadersCounted(s) && TokensPlaced(s) && PcOf(s, MainOf(t)).Locked?
    requires Changes(s, s', i, x', MainOf(t), Locked(stage))
    requires x'.pinners == TargetAt(s, i).pinners && x'.word.readers == TargetAt(s, i).word.readers
    requires x'.token == TargetAt(s, i).token || x'.token == 0 || (x'.token in s.homes && s.homes[x'.token] == i)
    ensures ReadersCounted(s') && TokensPlaced(s')
  {
  }

  lemma StageHolds(s: Host, s': Host, t: nat, i: nat, x': Target, stage: Stage)
    requires ReadersCounted(s) && HoldsMatch(s) && Changes(s, s', i, x', MainOf(t), Locked(stage))
    requires x'.token == TargetAt(s, i).token || TargetAt(s, i).pinners == {}
    ensures HoldsMatch(s')
  {
    forall b | PcOf(s', b).Working?
      ensures TargetAt(s', PcOf(s', b).slot).token == PcOf(s', b).token
    {
      assert Pinned(PcOf(s, b), PcOf(s, b).slot);
      assert b in TargetAt(s, PcOf(s, b).slot).pinners;
    }
  }

  lemma StageLocks(s: Host, s': Host, t: nat, i: nat, x': Target, stage: Stage)
    requires LockHeld(s) && HandlersUnlocked(s) && PcOf(s, MainOf(t)).Locked?
    requires Changes(s, s', i, x', MainOf(t), Locked(stage)) && StageOk(s', stage)
    ensures LockHeld(s') && HandlersUnlocked(s')
  {
    forall u: nat | PcOf(s', MainOf(u)).Locked?
      ensures s'.lock == Some(u) && StageOk(s', PcOf(s', MainOf(u)).stage)
    {
      assert PcOf(s, MainOf(u)).Locked? && u == t;
    }
  }

  /** What a statement under the lock needs to know, and keeps. */
  lemma StageShape(x: Target, stage: Stage, found: Option<nat>, newToken: nat, granted: bool)
    requires !stage.Unlocking? && !stage.StoreToken? && SlotOk(x) && x.word.readers == |x.pinners|
    requires Knows(x, stage)
    requires stage.PickSlot? && found.Some? ==> x.word == Word(0, FREE)
    requires stage.FindActive? && found.Some? ==> x.word.phase == ACTIVE && x.token == stage.token
    requires stage.FindStopping? && found.Some? ==> x.word.phase == STOPPING && x.token == stage.token
    ensures var x' := Rewrite(x, stage, found, newToken, granted);
      && x'.pinners == x.pinners && x'.word.readers == x.word.readers && SlotOk(x')
      && (x'.token == x.token || (x'.pinners == {} && x'.token == 0))
      && Knows(x', Successor(x, stage, found, newToken, granted))
    ensures StageSlot(Successor(x, stage, found, newToken, granted), None) == StageSlot(stage, found)
      || Successor(x, stage, found, newToken, granted) == Unlocking
  {
  }

  lemma StoreTokenPins(s: Host, t: nat, granted: bool)
    requires PinInv(s) && PcOf(s, MainOf(t)).Locked? && PcOf(s, MainOf(t)).stage.StoreToken?
    ensures PinInv(CriticalNext(s, t, PcOf(s, MainOf(t)).stage, granted))
  {
    var StoreToken(i, h, state) := PcOf(s, MainOf(t)).stage;
    var k := s.nextToken + 1;
    var s1 := s.(nextToken := k, homes := s.homes[k := i], handles := s.handles[k := h]);
    assert PinInv(s1) by {
      assert forall j: nat :: TargetAt(s1, j) == TargetAt(s, j);
      assert forall a :: PcOf(s1, a) == PcOf(s, a);
      assert StageOk(s1, PcOf(s, MainOf(t)).stage);
    }
    StagePins(s1, t, i, TargetAt(s, i).(handle := h, token := k, mainState := state), ResetData(i, k, state));
  }

  /** What a critical section's statement changes, for the invariant's purposes. */
  lemma CriticalShape(s: Host, t: nat, stage: Stage, granted: bool)
    requires !stage.Unlocking? && !stage.StoreToken?
    ensures var i := StageSlot(stage, Found(s, stage));
      var x', next := Rewrite(TargetAt(s, i), stage, Found(s, stage), s.nextToken + 1, granted),
                      Successor(TargetAt(s, i), stage, Found(s, stage), s.nextToken + 1, granted);
      var s1, s' := Goto(PutT(s, i, x'), MainOf(t), Locked(next)), CriticalNext(s, t, stage, granted);
      && s'.targets == s1.targets && s'.pcs == s1.pcs && s'.lock == s1.lock
      && s'.homes == s1.homes && s'.nextToken == s1.nextToken && s'.workers == s1.workers
  {
  }

  /** The same, slot by slot and agent by agent. */
  lemma CriticalChanges(s: Host, t: nat, granted: bool)
    requires PcOf(s, MainOf(t)).Locked?
    requires var g := PcOf(s, MainOf(t)).stage; !g.Unlocking? && !g.StoreToken?
    ensures var stage := PcOf(s, MainOf(t)).stage;
      var found := Found(s, stage);
      var i := StageSlot(stage, found);
      Changes(s, CriticalNext(s, t, stage, granted), i,
              Rewrite(TargetAt(s, i), stage, found, s.nextToken + 1, granted), MainOf(t),
              Locked(Successor(TargetAt(s, i), stage, found, s.nextToken + 1, granted)))
  {
    CriticalShape(s, t, PcOf(s, MainOf(t)).stage, granted);
  }

  lemma SlotFacts(s: Host, t: nat)
    requires PinInv(s) && PcOf(s, MainOf(t)).Locked?
    ensures var stage := PcOf(s, MainOf(t)).stage; var x := TargetAt(s, StageSlot(stage, Found(s, stage)));
      SlotOk(x) && x.word.readers == |x.pinners| && Knows(x, stage)
  {
    assert StageOk(s, PcOf(s, MainOf(t)).stage);
  }

  lemma CriticalPins(s: Host, t: nat, granted: bool)
    requires PinInv(s) && PcOf(s, MainOf(t)).Locked?
    ensures PinInv(CriticalNext(s, t, PcOf(s, MainOf(t)).stage, granted))
  {
    var stage := PcOf(s, MainOf(t)).stage;
    if stage.Unlocking? {
      UnlockPins(s, t);
    } else if stage.StoreToken? {
      StoreTokenPins(s, t, granted);
    } else {
      var found := Found(s, stage);
      var i := StageSlot(stage, found);
      SlotFacts(s, t);
      StageShape(TargetAt(s, i), stage, found, s.nextToken + 1, granted);
      RewritePins(s, t, i, Rewrite(TargetAt(s, i), stage, found, s.nextToken + 1, granted),
                  Successor(TargetAt(s, i), stage, found, s.nextToken + 1, granted));
      CriticalShape(s, t, stage, granted);
      FramePins(Goto(PutT(s, i, Rewrite(TargetAt(s, i), stage, found, s.nextToken + 1, granted)), MainOf(t),
                     Locked(Successor(TargetAt(s, i), stage, found, s.nextToken + 1, granted))),
                CriticalNext(s, t, stage, granted));
    }
  }

  lemma RewritePins(s: Host, t: nat, i: nat, x': Target, next: Stage)
    requires PinInv(s) && PcOf(s, MainOf(t)).Locked?
    requires x'.pinners == TargetAt(s, i).pinners && x'.word.readers == TargetAt(s, i).word.readers && SlotOk(x')
    requires x'.token == TargetAt(s, i).token || (x'.pinners == {} && x'.token == 0)
    requires Knows(x', next) && (StageSlot(next, None) == i || next == Unlocking)
    ensures PinInv(Goto(PutT(s, i, x'), MainOf(t), Locked(next)))
  {
    assert StageOk(PutT(s, i, x'), next);
    StagePins(s, t, i, x', next);
  }

  lemma UnlockPins(s: Host, t: nat)
    requires PinInv(s) && PcOf(s, MainOf(t)) == Locked(Unlocking)
    ensures PinInv(Goto(s, MainOf(t), Idle).(lock := None))
  {
    var s1 := Goto(s, MainOf(t), Idle);
    MovePins(s, MainOf(t), Idle);
    assert forall u: nat :: !PcOf(s1, MainOf(u)).Locked?;
    var s' := s1.(lock := None);
    assert forall i: nat :: TargetAt(s', i) == TargetAt(s1, i);
    assert forall a :: PcOf(s', a) == PcOf(s1, a);
  }

  lemma AcquirePins(s: Host, t: nat)
    requires PinInv(s) && Enabled(s, Acquire(t))
    ensures PinInv(AcquireNext(s, t))
  {
    var s1, pc' := s.(lock := Some(t)), Locked(Todo(s, t)[0].entry);
    LockTaken(s, s1, t);
    MovePins(s1, MainOf(t), pc');
    FramePins(Goto(s1, MainOf(t), pc'), AcquireNext(s, t));
  }

  lemma LockTaken(s: Host, s1: Host, t: nat)
    requires PinInv(s) && s.lock == None && s1 == s.(lock := Some(t))
    ensures PinInv(s1)
  {
    assert forall i: nat :: TargetAt(s1, i) == TargetAt(s, i);
    assert forall a :: PcOf(s1, a) == PcOf(s, a);
    assert forall u: nat :: !PcOf(s, MainOf(u)).Locked?;
  }

  function Mover(step: Step): Agent {
    match step
    case Interrupt(t, _) => HandlerOf(t)
    case Sample(t) => HandlerOf(t)
    case Probe(a) => a
    case Load(a) => a
    case Cas(a, _) => a
    case Check(a) => a
    case Work(a, _) => a
    case Unpin(a) => a
    case other => MainOf(other.t)
  }

  lemma CheckHold(s: Host, a: Agent)
    requires PcOf(s, a).Checking? || PcOf(s, a).Tagging?
    ensures SameHold(s, a, CheckPc(s, a))
  {
  }

  /** Steps that touch nothing but the agent's own locals. */
  lemma LocalPins(s: Host, step: Step)
    requires PinInv(s) && Enabled(s, step)
    requires step.Interrupt? || step.Sample? || step.Probe? || step.Load? || step.Check?
    ensures PinInv(Next(s, step))
  {
    match step
    case Interrupt(t, overrun) => MovePins(s, HandlerOf(t), Sampling(0, UNREAD, overrun));
    case Sample(t) => MovePins(s, HandlerOf(t), SamplePc(s, t));
    case Probe(a) => MovePins(s, a, ProbePc(s, a));
    case Load(a) => MovePins(s, a, LoadPc(s, a));
    case Check(a) =>
      CheckHold(s, a);
      MovePins(s, a, CheckPc(s, a));
  }

  lemma CommandPins(s: Host, t: nat, armed: bool)
    requires PinInv(s) && Enabled(s, Command(t, armed))
    ensures PinInv(CommandNext(s, t, armed))
  {
    var pc' := CommandPc(s, t, Todo(s, t)[0], armed);
    MovePins(s, MainOf(t), pc');
    FramePins(Goto(s, MainOf(t), pc'), CommandNext(s, t, armed));
  }

  lemma StorePins(s: Host, t: nat)
    requires PinInv(s) && PcOf(s, MainOf(t)).Publishing?
    ensures PinInv(StoreNext(s, t))
  {
    var pc' := StorePc(PcOf(s, MainOf(t)));
    MovePins(s, MainOf(t), pc');
    FramePins(Goto(s, MainOf(t), pc'), StoreNext(s, t));
  }

  lemma WaitPins(s: Host, t: nat)
    requires PinInv(s) && PcOf(s, MainOf(t)).Waiting?
    ensures PinInv(WaitNext(s, t))
  {
    var pc' := PcOf(WaitNext(s, t), MainOf(t));
    MovePins(s, MainOf(t), pc');
    FramePins(Goto(s, MainOf(t), pc'), WaitNext(s, t));
  }

  lemma StepPins(s: Host, step: Step)
    requires PinInv(s) && Enabled(s, step)
    ensures PinInv(Next(s, step))
  {
    match step
    case Cas(a, spurious) => CasPins(s, a, spurious);
    case Work(a, more) => WorkPins(s, a, more);
    case Unpin(a) => UnpinPins(s, a);
    case Acquire(t) => AcquirePins(s, t);
    case Critical(t, granted) => CriticalPins(s, t, granted);
    case Store(t) => StorePins(s, t);
    case Begin(t, call) => FramePins(s, BeginNext(s, t, call));
    case Command(t, armed) => CommandPins(s, t, armed);
    case Wait(t) => WaitPins(s, t);
    case _ => LocalPins(s, step);
  }

  lemma RunPins(s: Host, steps: seq<Step>)
    requires PinInv(s) && Legal(s, steps)
    ensures PinInv(Run(s, steps))
    decreases |steps|
  {
    if steps != [] {
      StepPins(s, steps[0]);
      RunPins(Next(s, steps[0]), steps[1..]);
    }
  }

  ghost predicate Reachable(s: Host) {
    exists steps :: Legal(BOOT, steps) && Run(BOOT, steps) == s
  }

  lemma ReachablePins(s: Host)
    requires Reachable(s)
    ensures PinInv(s)
  {
    var steps :| Legal(BOOT, steps) && Run(BOOT, steps) == s;
    BootPins();
    RunPins(BOOT, steps);
  }

  /** In every reachable state a pinned slot still has its event array and token. */
  lemma {:induction false} PinnedSlotsAreBacked(s: Host, a: Agent, i: nat)
    requires Reachable(s) && Pinned(PcOf(s, a), i)
    ensures TargetAt(s, i).events && TargetAt(s, i).token != 0 && PhaseOf(s, i) != FREE
              && TargetAt(s, i).word.readers > 0
  {
    ReachablePins(s);
    assert a in TargetAt(s, i).pinners;
  }

  lemma FreeSlotsHaveNoReaders(s: Host, i: nat)
    requires Reachable(s) && PhaseOf(s, i) == FREE
    ensures TargetAt(s, i).word.readers == 0 && forall a :: !Pinned(PcOf(s, a), i)
  {
    ReachablePins(s);
    assert SlotOk(TargetAt(s, i));
  }

  lemma RewriteIdentity(x: Target, stage: Stage, found: Option<nat>, newToken: nat, granted: bool)
    requires Knows(x, stage) && SlotOk(x)
    ensures var x' := Rewrite(x, stage, found, newToken, granted);
      && (x.events && !x'.events ==> x.word.phase == RECLAIMING && x.pinners == {})
      && (x.pinners != {} ==> x'.token == x.token && x'.events == x.events)
  {
  }

  lemma CriticalTargets(s: Host, t: nat, granted: bool)
    requires PcOf(s, MainOf(t)).Locked?
    ensures var stage := PcOf(s, MainOf(t)).stage; var i := StageSlot(stage, Found(s, stage));
      var s' := CriticalNext(s, t, stage, granted);
      s'.targets == s.targets ||
      s'.targets == s.targets[i := Rewrite(TargetAt(s, i), stage, Found(s, stage), s.nextToken + 1, granted)]
  {
    var stage := PcOf(s, MainOf(t)).stage;
    if !stage.Unlocking? && !stage.StoreToken? {
      CriticalShape(s, t, stage, granted);
    }
  }

  /** A statement under the lock leaves a slot alone or rewrites it. */
  lemma CriticalAt(s: Host, t: nat, granted: bool, i: nat)
    requires PcOf(s, MainOf(t)).Locked?
    ensures var stage := PcOf(s, MainOf(t)).stage; var found := Found(s, stage);
      var x' := TargetAt(CriticalNext(s, t, stage, granted), i);
      x' == TargetAt(s, i) ||
      (i == StageSlot(stage, found) && x' == Rewrite(TargetAt(s, i), stage, found, s.nextToken + 1, granted))
  {
    CriticalTargets(s, t, granted);
  }

  lemma CasTargets(s: Host, a: Agent, spurious: bool, i: nat)
    requires PcOf(s, a).Trying?
    ensures TargetAt(CasNext(s, a, spurious), i).token == TargetAt(s, i).token
    ensures TargetAt(CasNext(s, a, spurious), i).events == TargetAt(s, i).events
  {
  }

  lemma ChargeTargets(s: Host, a: Agent, more: Option<nat>, i: nat)
    requires PcOf(s, a).Working? && !Publishes(PcOf(s, a).task)
    ensures TargetAt(ChargeNext(s, a, more), i).token == TargetAt(s, i).token
    ensures TargetAt(ChargeNext(s, a, more), i).events == TargetAt(s, i).events
  {
  }

  lemma WorkTargets(s: Host, a: Agent, more: Option<nat>, i: nat)
    requires PcOf(s, a).Working?
    ensures TargetAt(WorkNext(s, a, more), i).token == TargetAt(s, i).token
    ensures TargetAt(WorkNext(s, a, more), i).events == TargetAt(s, i).events
  {
    if Publishes(PcOf(s, a).task) {
      assert WorkNext(s, a, more).targets == s.targets;
    } else {
      ChargeTargets(s, a, more, i);
    }
  }

  lemma UnpinTargets(s: Host, a: Agent, i: nat)
    requires PcOf(s, a).Unpinning?
    ensures TargetAt(UnpinNext(s, a), i).token == TargetAt(s, i).token
    ensures TargetAt(UnpinNext(s, a), i).events == TargetAt(s, i).events
  {
  }

  /** Steps outside the lock never change a slot's identity. */
  lemma LocalTargets(s: Host, step: Step)
    requires Enabled(s, step) && !step.Cas? && !step.Work? && !step.Unpin? && !step.Critical?
    ensures Next(s, step).targets == s.targets
  {
    match step
    case Begin(t, call) => assert BeginNext(s, t, call).targets == s.targets;
    case Command(t, armed) => assert CommandNext(s, t, armed).targets == s.targets;
    case Store(t) => assert StoreNext(s, t).targets == s.targets;
    case Acquire(t) => assert AcquireNext(s, t).targets == s.targets;
    case Wait(t) => assert WaitNext(s, t).targets == s.targets;
    case _ =>
  }

  lemma IdentityKept(s: Host, step: Step, i: nat)
    requires Enabled(s, step) && !step.Critical?
    ensures TargetAt(Next(s, step), i).token == TargetAt(s, i).token
    ensures TargetAt(Next(s, step), i).events == TargetAt(s, i).events
  {
    match step
    case Cas(b, spurious) => CasTargets(s, b, spurious, i);
    case Work(b, more) => WorkTargets(s, b, more, i);
    case Unpin(b) => UnpinTargets(s, b, i);
    case _ => LocalTargets(s, step);
  }

  /** What one statement under the lock does to any slot. */
  lemma CriticalIdentity(s: Host, t: nat, granted: bool, i: nat)
    requires PinInv(s) && PcOf(s, MainOf(t)).Locked?
    ensures var x, x' := TargetAt(s, i), TargetAt(CriticalNext(s, t, PcOf(s, MainOf(t)).stage, granted), i);
      && (x.events && !x'.events ==> x.word.phase == RECLAIMING && x.pinners == {})
      && (x.pinners != {} ==> x'.token == x.token && x'.events == x.events)
  {
    SlotFacts(s, t);
    var stage := PcOf(s, MainOf(t)).stage;
    RewriteIdentity(TargetAt(s, StageSlot(stage, Found(s, stage))), stage, Found(s, stage), s.nextToken + 1, granted);
    CriticalTargets(s, t, granted);
  }

  /** The event array is freed only in RECLAIMING with no reader left. */
  lemma EventsFreedWhenUnread(s: Host, step: Step, i: nat)
    requires Reachable(s) && Enabled(s, step)
    requires TargetAt(s, i).events && !TargetAt(Next(s, step), i).events
    ensures PhaseOf(s, i) == RECLAIMING && TargetAt(s, i).word.readers == 0
    ensures forall a :: !Pinned(PcOf(s, a), i)
  {
    ReachablePins(s);
    if step.Critical? {
      CriticalIdentity(s, step.t, step.granted, i);
      assert forall a :: a !in TargetAt(s, i).pinners;
    } else {
      IdentityKept(s, step, i);
    }
  }

  /** While any agent holds a pin, no step of any thread changes the slot's
      token or frees its events. */
  lemma PinFreezesIdentity(s: Host, step: Step, a: Agent, i: nat)
    requires Reachable(s) && Enabled(s, step) && Pinned(PcOf(s, a), i)
    ensures TargetAt(Next(s, step), i).token == TargetAt(s, i).token && TargetAt(Next(s, step), i).events
  {
    PinnedSlotsAreBacked(s, a, i);
    if step.Critical? {
      ReachablePins(s);
      assert a in TargetAt(s, i).pinners;
      CriticalIdentity(s, step.t, step.granted, i);
    } else {
      IdentityKept(s, step, i);
    }
  }
}
