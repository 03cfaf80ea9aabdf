/** One consumer per ring: a session's events are taken by one thread at a time, which
    is also the only one whose handler adds any. The ring is thus used by the normal
    code and the handler of one thread, as in `ThreadRing`, and a removal may be
    treated as one step. */
module SkynetOwner {
  import opened Common
  import opened SkynetModel
  import opened SkynetPins
  import opened SkynetSlots
  import opened SkynetQuiesce
  import opened SkynetDispatch

  ghost predicate OwnerInv(s: Host) {
    && (forall t: nat, k: nat :: Drains(s, t, k) ==> k in s.handles)
    && (forall t: nat, u: nat, k: nat, l: nat ::
          t != u && Drains(s, t, k) && Drains(s, u, l) ==> s.handles[k] != s.handles[l])
    && (forall t: nat, u: nat, k: nat ::
          t != u && WorkerOf(s, u).handle != 0 && Drains(s, t, k) ==> WorkerOf(s, u).handle != s.handles[k])
  }

  /** No thread drains anything new, and none dispatches a new service. */
  ghost predicate NothingNew(s: Host, s': Host) {
    && HandlesGrow(s, s')
    && (forall t: nat, k: nat :: Drains(s', t, k) ==> Drains(s, t, k))
    && (forall t: nat :: WorkerOf(s', t).handle == 0 || WorkerOf(s', t).handle == WorkerOf(s, t).handle)
  }

  lemma NothingNewKeeps(s: Host, s': Host)
    requires OwnerInv(s) && NothingNew(s, s')
    ensures OwnerInv(s')
  {
  }

  /** Only the acting agent's program counter changed, in a way that drains nothing new. */
  lemma MoveOwner(s: Host, a: Agent, pc': Pc, s': Host)
    requires s'.pcs == s.pcs[a := pc'] && s'.todo == s.todo && HandlesGrow(s, s')
    requires forall t: nat :: WorkerOf(s', t).handle == WorkerOf(s, t).handle
    requires a.level == Main ==> forall k: nat :: TakesEvents(pc', k) ==> TakesEvents(PcOf(s, a), k)
    ensures NothingNew(s, s')
  {
    forall t: nat, k: nat | Drains(s', t, k) ensures Drains(s, t, k) {
      assert Todo(s', t) == Todo(s, t);
      if MainOf(t) != a {
        assert PcOf(s', MainOf(t)) == PcOf(s, MainOf(t));
      }
    }
  }

  // ---------- where a program counter goes ----------

  lemma ProbeTakes(s: Host, a: Agent, k: nat)
    requires PcOf(s, a).Scanning? || PcOf(s, a).ScanningToken?
    requires TakesEvents(ProbePc(s, a), k)
    ensures TakesEvents(PcOf(s, a), k)
  {
  }

  lemma CasTakes(x: Target, pc: Pc, spurious: bool, k: nat)
    requires pc.Trying? && TakesEvents(CasPc(x, pc, spurious), k)
    ensures TakesEvents(pc, k)
  {
  }

  lemma CheckTakes(s: Host, a: Agent, h: nat, k: nat)
    requires PcOf(s, a).Checking? || PcOf(s, a).Tagging?
    requires PcNamed(s, h, PcOf(s, a)) && TakesEvents(CheckPc(s, a), k)
    ensures TakesEvents(PcOf(s, a), k)
  {
  }

  lemma EffectTakes(d: Data, phase: Phase, job: Job, more: Option<nat>)
    ensures var next := Effect(d, phase, job, more).next; next.Some? ==> !next.value.NextEvent?
  {
  }

  lemma WorkTakes(s: Host, a: Agent, more: Option<nat>, k: nat)
    requires PcOf(s, a).Working?
    ensures !TakesEvents(PcOf(WorkNext(s, a, more), a), k)
  {
    EffectTakes(TargetAt(s, PcOf(s, a).slot).data, PcOf(s, a).phase, PcOf(s, a).task, more);
  }

  // ---------- steps ----------

  lemma ProbeOwner(s: Host, a: Agent)
    requires Enabled(s, Probe(a))
    ensures NothingNew(s, Next(s, Probe(a)))
  {
    forall k: nat | TakesEvents(ProbePc(s, a), k) ensures TakesEvents(PcOf(s, a), k) {
      ProbeTakes(s, a, k);
    }
    MoveOwner(s, a, ProbePc(s, a), Next(s, Probe(a)));
  }

  lemma CasOwner(s: Host, a: Agent, spurious: bool)
    requires Enabled(s, Cas(a, spurious))
    ensures NothingNew(s, CasNext(s, a, spurious))
  {
    var x := TargetAt(s, PcOf(s, a).slot);
    forall k: nat | TakesEvents(CasPc(x, PcOf(s, a), spurious), k) ensures TakesEvents(PcOf(s, a), k) {
      CasTakes(x, PcOf(s, a), spurious, k);
    }
    MoveOwner(s, a, CasPc(x, PcOf(s, a), spurious), CasNext(s, a, spurious));
  }

  lemma CheckOwner(s: Host, a: Agent)
    requires DispatchInv(s) && Enabled(s, Check(a))
    ensures NothingNew(s, Next(s, Check(a)))
  {
    if a.level == Main {
      assert ThreadNamed(s, a.tid);
      forall k: nat | TakesEvents(CheckPc(s, a), k) ensures TakesEvents(PcOf(s, a), k) {
        CheckTakes(s, a, WorkerOf(s, a.tid).handle, k);
      }
    }
    MoveOwner(s, a, CheckPc(s, a), Next(s, Check(a)));
  }

  /** Only this agent moved, and no worker's handle changed. */
  ghost predicate Local(s: Host, a: Agent, s': Host) {
    && s'.pcs == s.pcs[a := PcOf(s', a)] && s'.todo == s.todo && s'.handles == s.handles
    && forall t: nat :: WorkerOf(s', t).handle == WorkerOf(s, t).handle
  }

  lemma ChargeShape(s: Host, a: Agent, more: Option<nat>)
    requires PcOf(s, a).Working? && !Publishes(PcOf(s, a).task)
    ensures Local(s, a, WorkNext(s, a, more))
  {
    assert WorkNext(s, a, more).workers == s.workers;
  }

  lemma StoreHandle(w: Worker, at: nat, pub: Pub)
    ensures StoreAt(w, at, pub).handle == w.handle
  {
  }

  lemma PutShape(s: Host, a: Agent, w: Worker, pc: Pc)
    requires w.handle == WorkerOf(s, a.tid).handle
    ensures Local(s, a, Goto(PutW(s, a.tid, w), a, pc))
  {
  }

  lemma WorkShape(s: Host, a: Agent, more: Option<nat>)
    requires PcOf(s, a).Working?
    ensures Local(s, a, WorkNext(s, a, more))
  {
    var job := PcOf(s, a).task;
    if Publishes(job) {
      if job.at > 0 {
        StoreHandle(WorkerOf(s, a.tid), job.at - 1, job.pub);
      }
      PutShape(s, a, PublishStore(WorkerOf(s, a.tid), job), PublishPc(s, a));
    } else {
      ChargeShape(s, a, more);
    }
  }

  lemma WorkOwner(s: Host, a: Agent, more: Option<nat>)
    requires PcOf(s, a).Working?
    ensures NothingNew(s, WorkNext(s, a, more))
  {
    var s' := WorkNext(s, a, more);
    forall k: nat ensures !TakesEvents(PcOf(s', a), k) {
      WorkTakes(s, a, more, k);
    }
    WorkShape(s, a, more);
    MoveOwner(s, a, PcOf(s', a), s');
  }

  predicate Simple(step: Step) {
    step.Interrupt? || step.Sample? || step.Load? || step.Unpin? || step.Store? || step.Wait?
  }

  function Actor(step: Step): Agent
    requires Simple(step)
  {
    if step.Load? || step.Unpin? then step.a
    else if step.Interrupt? || step.Sample? then HandlerOf(step.t)
    else MainOf(step.t)
  }

  lemma StoreShape(s: Host, t: nat)
    requires Enabled(s, Store(t))
    ensures Local(s, MainOf(t), Next(s, Store(t)))
  {
    var pc := PcOf(s, MainOf(t));
    StoreHandle(WorkerOf(s, t), pc.at, pc.pub);
    PutShape(s, MainOf(t), StoreAt(WorkerOf(s, t), pc.at, pc.pub), PcOf(Next(s, Store(t)), MainOf(t)));
  }

  lemma SimpleShape(s: Host, step: Step)
    requires Enabled(s, step) && Simple(step)
    ensures Local(s, Actor(step), Next(s, step))
  {
    match step
    case Store(t) => StoreShape(s, t);
    case _ =>
  }

  lemma SimpleTakes(s: Host, step: Step, k: nat)
    requires Enabled(s, step) && Simple(step) && Actor(step).level == Main
    requires TakesEvents(PcOf(Next(s, step), Actor(step)), k)
    ensures TakesEvents(PcOf(s, Actor(step)), k)
  {
  }

  /** The other steps that leave the commands alone. */
  lemma SimpleOwner(s: Host, step: Step)
    requires Enabled(s, step) && Simple(step)
    ensures NothingNew(s, Next(s, step))
  {
    var s', a := Next(s, step), Actor(step);
    SimpleShape(s, step);
    forall k: nat | a.level == Main && TakesEvents(PcOf(s', a), k) ensures TakesEvents(PcOf(s, a), k) {
      SimpleTakes(s, step, k);
    }
    MoveOwner(s, a, PcOf(s', a), s');
  }

  /** A step of one thread's call that does not begin one. */
  lemma OwnOwner(s: Host, t: nat, s': Host)
    requires HandlesGrow(s, s')
    requires forall u: nat :: u != t ==>
              WorkerOf(s', u) == WorkerOf(s, u) && PcOf(s', MainOf(u)) == PcOf(s, MainOf(u))
                  && Todo(s', u) == Todo(s, u)
    requires WorkerOf(s', t).handle == 0 || WorkerOf(s', t).handle == WorkerOf(s, t).handle
    requires forall k: nat :: Drains(s', t, k) ==> Drains(s, t, k)
    ensures NothingNew(s, s')
  {
    forall u: nat, k: nat | Drains(s', u, k) ensures Drains(s, u, k) {
      if u != t {
        assert PcOf(s', MainOf(u)) == PcOf(s, MainOf(u)) && Todo(s', u) == Todo(s, u);
      }
    }
  }

  lemma CommandOwner(s: Host, t: nat, armed: bool)
    requires Enabled(s, Command(t, armed))
    ensures NothingNew(s, CommandNext(s, t, armed))
  {
    var s', todo := CommandNext(s, t, armed), Todo(s, t);
    forall k: nat | Drains(s', t, k) ensures Drains(s, t, k) {
      if TakesEvents(PcOf(s', MainOf(t)), k) {
        assert todo[0] == DoScan(Session(k), NextEvent);
      } else {
        assert DoScan(Session(k), NextEvent) in CommandRest(todo[0], todo[1..], armed);
        assert DoScan(Session(k), NextEvent) in todo[1..];
      }
    }
    OwnOwner(s, t, s');
  }

  lemma AcquireOwner(s: Host, t: nat)
    requires Enabled(s, Acquire(t))
    ensures NothingNew(s, Next(s, Acquire(t)))
  {
    var s' := Next(s, Acquire(t));
    forall k: nat | Drains(s', t, k) ensures Drains(s, t, k) {
      assert DoScan(Session(k), NextEvent) in Todo(s, t)[1..];
    }
    OwnOwner(s, t, s');
  }

  lemma StageTodoTakes(s: Host, t: nat, x: Target, stage: Stage, granted: bool, k: nat)
    requires DoScan(Session(k), NextEvent) in StageTodo(s, t, x, stage, granted)
    ensures DoScan(Session(k), NextEvent) in Todo(s, t)
  {
  }

  lemma StageDrains(s: Host, t: nat, granted: bool, k: nat)
    requires PcOf(s, MainOf(t)).Locked?
    requires var g := PcOf(s, MainOf(t)).stage; !g.Unlocking? && !g.StoreToken?
    requires Drains(CriticalNext(s, t, PcOf(s, MainOf(t)).stage, granted), t, k)
    ensures Drains(s, t, k)
  {
    var stage := PcOf(s, MainOf(t)).stage;
    CriticalShape(s, t, stage, granted);
    CriticalTodo(s, t, granted);
    StageTodoTakes(s, t, TargetAt(s, StageSlot(stage, Found(s, stage))), stage, granted, k);
  }

  lemma StageOwner(s: Host, t: nat, granted: bool)
    requires PcOf(s, MainOf(t)).Locked?
    requires var g := PcOf(s, MainOf(t)).stage; !g.Unlocking? && !g.StoreToken?
    ensures NothingNew(s, CriticalNext(s, t, PcOf(s, MainOf(t)).stage, granted))
  {
    var stage := PcOf(s, MainOf(t)).stage;
    var s' := CriticalNext(s, t, stage, granted);
    StageFrame(s, t, granted, s');
    CriticalHandles(s, t, stage, granted);
    CriticalShape(s, t, stage, granted);
    forall k: nat | Drains(s', t, k) ensures Drains(s, t, k) {
      StageDrains(s, t, granted, k);
    }
    OwnOwner(s, t, s');
  }

  lemma StoreTokenOwner(s: Host, t: nat, granted: bool)
    requires DispatchInv(s) && PcOf(s, MainOf(t)).Locked? && PcOf(s, MainOf(t)).stage.StoreToken?
    ensures NothingNew(s, CriticalNext(s, t, PcOf(s, MainOf(t)).stage, granted))
  {
    var s' := CriticalNext(s, t, PcOf(s, MainOf(t)).stage, granted);
    MoveOwner(s, MainOf(t), PcOf(s', MainOf(t)), s');
  }

  lemma CriticalOwner(s: Host, t: nat, granted: bool)
    requires DispatchInv(s) && PcOf(s, MainOf(t)).Locked?
    ensures NothingNew(s, CriticalNext(s, t, PcOf(s, MainOf(t)).stage, granted))
  {
    var stage := PcOf(s, MainOf(t)).stage;
    if stage.Unlocking? {
      MoveOwner(s, MainOf(t), Idle, CriticalNext(s, t, stage, granted));
    } else if stage.StoreToken? {
      StoreTokenOwner(s, t, granted);
    } else {
      StageOwner(s, t, granted);
    }
  }

  lemma BeginDrains(s: Host, t: nat, call: Call, u: nat, k: nat)
    requires PcOf(s, MainOf(t)) == Idle && Todo(s, t) == []
    ensures Drains(BeginNext(s, t, call), u, k) ==> if u == t then call == ApiNext(k) else Drains(s, u, k)
  {
    var s' := BeginNext(s, t, call);
    assert PcOf(s', MainOf(u)) == PcOf(s, MainOf(u));
    if u != t {
      assert Todo(s', u) == Todo(s, u);
    } else {
      assert Todo(s', u) == CallCommands(WorkerOf(s, t), call);
    }
  }

  /** One thread's call may take events or enter a dispatch; the rest is as before. */
  lemma CallKeeps(s: Host, t: nat, call: Call, s': Host)
    requires OwnerInv(s) && Permitted(s, t, call) && s'.handles == s.handles
    requires forall u: nat :: u != t ==> WorkerOf(s', u) == WorkerOf(s, u)
    requires WorkerOf(s', t).handle == if call.DispatchEnter? then call.handle else WorkerOf(s, t).handle
    requires forall u: nat, k: nat :: Drains(s', u, k) ==> if u == t then call == ApiNext(k) else Drains(s, u, k)
    ensures OwnerInv(s')
  {
  }

  /** A call that begins obeys the host's rules. */
  lemma BeginOwner(s: Host, t: nat, call: Call)
    requires OwnerInv(s) && Enabled(s, Begin(t, call)) && Permitted(s, t, call)
    ensures OwnerInv(BeginNext(s, t, call))
  {
    var s' := BeginNext(s, t, call);
    forall u: nat, k: nat | Drains(s', u, k)
      ensures if u == t then call == ApiNext(k) else Drains(s, u, k)
    {
      BeginDrains(s, t, call, u, k);
    }
    CallKeeps(s, t, call, s');
  }

  lemma NothingNewInStep(s: Host, step: Step)
    requires DispatchInv(s) && Enabled(s, step) && !step.Begin?
    ensures NothingNew(s, Next(s, step))
  {
    match step
    case Probe(a) => ProbeOwner(s, a);
    case Cas(a, spurious) => CasOwner(s, a, spurious);
    case Check(a) => CheckOwner(s, a);
    case Work(a, more) => WorkOwner(s, a, more);
    case Command(t, armed) => CommandOwner(s, t, armed);
    case Acquire(t) => AcquireOwner(s, t);
    case Critical(t, granted) => CriticalOwner(s, t, granted);
    case _ => SimpleOwner(s, step);
  }

  lemma StepOwner(s: Host, step: Step)
    requires DispatchInv(s) && OwnerInv(s) && Enabled(s, step) && Obeys(s, step)
    ensures OwnerInv(Next(s, step))
  {
    if step.Begin? {
      BeginOwner(s, step.t, step.call);
    } else {
      NothingNewInStep(s, step);
      NothingNewKeeps(s, Next(s, step));
    }
  }

  lemma RunOwner(s: Host, steps: seq<Step>)
    requires PinInv(s) && SlotInv(s) && DispatchInv(s) && OwnerInv(s) && Legal(s, steps) && Obedient(s, steps)
    ensures OwnerInv(Run(s, steps))
    decreases |steps|
  {
    if steps != [] {
      StepPins(s, steps[0]);
      StepSlots(s, steps[0]);
      StepNamed(s, steps[0]);
      StepOwner(s, steps[0]);
      RunOwner(Next(s, steps[0]), steps[1..]);
    }
  }

  lemma BootOwner()
    ensures PinInv(BOOT) && SlotInv(BOOT) && DispatchInv(BOOT) && OwnerInv(BOOT)
  {
    BootNamed();
  }

  lemma ReachableOwner(s: Host)
    requires RuledReachable(s)
    ensures OwnerInv(s)
  {
    var steps :| Legal(BOOT, steps) && Obedient(BOOT, steps) && Run(BOOT, steps) == s;
    BootOwner();
    RunOwner(BOOT, steps);
  }

  /** An agent takes an event from slot `i`. */
  predicate TakesFrom(s: Host, t: nat, i: nat) {
    var pc := PcOf(s, MainOf(t));
    pc.Working? && pc.task.NextEvent? && pc.slot == i
  }

  predicate FillsRing(s: Host, t: nat, i: nat) {
    var pc := PcOf(s, HandlerOf(t));
    pc.Working? && pc.task.Tick? && pc.slot == i
  }

  /** A thread taking an event from a slot drains the session the slot belongs to. */
  lemma TakerDrains(s: Host, t: nat, i: nat)
    requires PinInv(s) && TakesFrom(s, t, i)
    ensures Drains(s, t, TargetAt(s, i).token)
  {
  }

  /** Two threads taking events from the same slot are the same one. */
  lemma OneConsumerPerRing(s: Host, t: nat, u: nat, i: nat)
    requires RuledReachable(s) && TakesFrom(s, t, i) && TakesFrom(s, u, i)
    ensures t == u
  {
    ReachableOwner(s);
    ReachableNamed(s);
    ReachablePins(s);
    TakerDrains(s, t, i);
    TakerDrains(s, u, i);
  }

  /** And a handler that fills the ring interrupts the very thread that empties it. */
  lemma RingIsOneThreads(s: Host, t: nat, u: nat, i: nat)
    requires RuledReachable(s) && TakesFrom(s, t, i) && FillsRing(s, u, i)
    ensures t == u
  {
    ReachableOwner(s);
    ReachableNamed(s);
    ReachablePins(s);
    TakerDrains(s, t, i);
    TickerDispatches(s, u);
  }
}
