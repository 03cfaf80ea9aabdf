/** The versioned execution slot: a handler that interrupts its own thread
    between any two stores of a publication never accepts a mixture. */
module SkynetSlots {
  import opened Common
  import opened SkynetModel
  import opened SkynetPins

  /** A publication under way: the store it performs next and its contents. */
  function InFlight(m: Pc): Option<(nat, Pub)> {
    match m
    case Publishing(at, pub) => Some((at, pub))
    case Working(_, _, _, PublishState(pub, at)) => if at > 0 then Some((at - 1, pub)) else None
    case Working(_, _, _, EnterDispatch(pub, at)) => if at > 0 then Some((at - 1, pub)) else None
    case _ => None
  }

  /** The worker slot after the first `at` stores of `pub`. */
  predicate Shape(w: Worker, at: nat, pub: Pub) {
    && at <= LAST_STORE
    && w.version % 2 == (if 1 <= at <= 6 then 1 else 0)
    && w.slot == (if at > 6 then pub else Pub(
         if at > 1 then pub.target else w.published.target,
         if at > 2 then pub.token else w.published.token,
         if at > 3 then pub.state else w.published.state,
         if at > 4 then pub.cfunction else w.published.cfunction,
         if at > 5 then pub.vmState else w.published.vmState))
    && (at > 6 ==> w.published == pub)
    && (at <= 6 ==> w.qTarget == w.published.target && w.qToken == w.published.token)
    && (at > 7 ==> w.qToken == pub.token)
  }

  predicate SlotShape(w: Worker, m: Pc) {
    match InFlight(m)
    case None => Shape(w, 0, NOTHING)
    case Some(p) => Shape(w, p.0, p.1)
  }

  /** What the handler has copied so far is what the slot still holds. */
  predicate Copied(w: Worker, k: nat, r: Reading) {
    && k <= 8
    && (k > 0 ==> r.qTarget == w.qTarget)
    && (k > 1 ==> r.qToken == w.qToken)
    && (k > 2 ==> r.version == w.version && w.version % 2 == 0)
    && (k > 3 ==> r.slot.target == w.slot.target)
    && (k > 4 ==> r.slot.token == w.slot.token)
    && (k > 5 ==> r.slot.state == w.slot.state)
    && (k > 6 ==> r.slot.cfunction == w.slot.cfunction)
    && (k > 7 ==> r.slot.vmState == w.slot.vmState)
  }

  /** The slot index, token and job with which a handler charges a session. */
  datatype Charge = Charge(slot: nat, token: nat, job: Job)

  function ChargeOf(h: Pc): Option<Charge> {
    match h
    case Loading(i, Session(k), job) => Some(Charge(i, k, job))
    case Trying(i, Session(k), _, job) => Some(Charge(i, k, job))
    case Checking(i, Session(k), _, job) => Some(Charge(i, k, job))
    case Working(i, k, _, job) => Some(Charge(i, k, job))
    case _ => None
  }

  /** An accepted tick carries one completed publication; an unsettled tick in
      the odd window names the owner published before it. */
  predicate Faithful(w: Worker, c: Charge) {
    match c.job
    case Tick(ev, _, _) =>
      w.version % 2 == 0 && w.published == Pub(Some(c.slot), c.token, ev.state, ev.cfunction, ev.vmState)
    case Unsettled(_, _) =>
      w.version % 2 == 1 && w.published.target == Some(c.slot) && w.published.token == c.token
    case _ => false
  }

  predicate HandlerOk(w: Worker, h: Pc) {
    match h
    case Idle => true
    case Sampling(k, r, _) => Copied(w, k, r)
    case Unpinning(_, rest) => rest == None
    case _ => ChargeOf(h).Some? && Faithful(w, ChargeOf(h).value)
  }

  predicate ThreadOk(w: Worker, m: Pc, h: Pc) {
    SlotShape(w, m) && HandlerOk(w, h)
  }

  ghost predicate SlotInv(s: Host) {
    forall t: nat :: ThreadOk(WorkerOf(s, t), PcOf(s, MainOf(t)), PcOf(s, HandlerOf(t)))
  }

  lemma SampleOk(w: Worker, m: Pc, k: nat, r: Reading, overrun: nat)
    requires SlotShape(w, m) && Copied(w, k, r)
    ensures HandlerOk(w, SampleNext(w, k, r, overrun))
  {
    if k == 2 && w.version % 2 != 0 {
      var p := InFlight(m);
      assert p.Some? && 1 <= p.value.0 <= 6;
    }
    if k == 8 {
      assert r.slot == w.slot;
    }
  }

  lemma StoreOk(w: Worker, at: nat, pub: Pub)
    requires Shape(w, at, pub)
    ensures var w' := StoreAt(w, at, pub);
      if at < LAST_STORE then Shape(w', at + 1, pub) else Shape(w', 0, NOTHING)
  {
  }

  lemma UpdateSlots(s: Host, a: Agent, pc': Pc, w': Worker, s': Host)
    requires SlotInv(s) && s'.pcs == s.pcs[a := pc']
    requires forall t: nat :: WorkerOf(s', t) == if t == a.tid then w' else WorkerOf(s, t)
    requires a.level == Main ==> PcOf(s, HandlerOf(a.tid)) == Idle && SlotShape(w', pc')
    requires a.level == Handler ==> w' == WorkerOf(s, a.tid) && HandlerOk(w', pc')
    ensures SlotInv(s')
  {
    forall t: nat
      ensures ThreadOk(WorkerOf(s', t), PcOf(s', MainOf(t)), PcOf(s', HandlerOf(t)))
    {
      assert ThreadOk(WorkerOf(s, t), PcOf(s, MainOf(t)), PcOf(s, HandlerOf(t)));
    }
  }

  /** Steps of normal code that are not part of a publication. */
  lemma QuietMain(s: Host, a: Agent, pc': Pc, s': Host)
    requires SlotInv(s) && a.level == Main && Runs(s, a) && s'.pcs == s.pcs[a := pc']
    requires InFlight(PcOf(s, a)).None? && (InFlight(pc').None? || (InFlight(pc').value.0 == 0))
    requires s'.workers == s.workers
    ensures SlotInv(s')
  {
    assert ThreadOk(WorkerOf(s, a.tid), PcOf(s, MainOf(a.tid)), PcOf(s, HandlerOf(a.tid)));
    assert forall t: nat :: WorkerOf(s', t) == WorkerOf(s, t);
    UpdateSlots(s, a, pc', WorkerOf(s, a.tid), s');
  }

  lemma HandlerMoves(s: Host, a: Agent, pc': Pc, s': Host)
    requires SlotInv(s) && a.level == Handler && s'.pcs == s.pcs[a := pc'] && s'.workers == s.workers
    requires HandlerOk(WorkerOf(s, a.tid), pc')
    ensures SlotInv(s')
  {
    assert forall t: nat :: WorkerOf(s', t) == WorkerOf(s, t);
    UpdateSlots(s, a, pc', WorkerOf(s, a.tid), s');
  }

  /** Steps of any agent that lead to a pc without a publication. */
  lemma MoveSlots(s: Host, a: Agent, pc': Pc, s': Host)
    requires SlotInv(s) && Runs(s, a) && s'.pcs == s.pcs[a := pc'] && s'.workers == s.workers
    requires InFlight(PcOf(s, a)).None? && (InFlight(pc').None? || InFlight(pc').value.0 == 0)
    requires HandlerOk(WorkerOf(s, a.tid), PcOf(s, a)) ==> HandlerOk(WorkerOf(s, a.tid), pc')
    ensures SlotInv(s')
  {
    assert ThreadOk(WorkerOf(s, a.tid), PcOf(s, MainOf(a.tid)), PcOf(s, HandlerOf(a.tid)));
    if a.level == Main {
      QuietMain(s, a, pc', s');
    } else {
      HandlerMoves(s, a, pc', s');
    }
  }

  /** `pc'` continues `pc` without a store to the worker slot. */
  ghost predicate Continues(w: Worker, pc: Pc, pc': Pc) {
    && InFlight(pc).None? && (InFlight(pc').None? || InFlight(pc').value.0 == 0)
    && (HandlerOk(w, pc) ==> HandlerOk(w, pc'))
  }

  lemma ProbeContinues(s: Host, a: Agent)
    requires PcOf(s, a).Scanning? || PcOf(s, a).ScanningToken?
    ensures Continues(WorkerOf(s, a.tid), PcOf(s, a), ProbePc(s, a))
  {
  }

  lemma CasContinues(w: Worker, x: Target, pc: Pc, spurious: bool)
    requires pc.Trying?
    ensures Continues(w, pc, CasPc(x, pc, spurious))
  {
  }

  lemma CheckContinues(s: Host, a: Agent)
    requires PcOf(s, a).Checking? || PcOf(s, a).Tagging?
    ensures Continues(WorkerOf(s, a.tid), PcOf(s, a), CheckPc(s, a))
  {
  }

  lemma ProbeSlots(s: Host, a: Agent)
    requires SlotInv(s) && Enabled(s, Probe(a))
    ensures SlotInv(Next(s, Probe(a)))
  {
    ProbeContinues(s, a);
    MoveSlots(s, a, ProbePc(s, a), Next(s, Probe(a)));
  }

  lemma LoadSlots(s: Host, a: Agent)
    requires SlotInv(s) && Enabled(s, Load(a))
    ensures SlotInv(Next(s, Load(a)))
  {
    MoveSlots(s, a, PcOf(Next(s, Load(a)), a), Next(s, Load(a)));
  }

  lemma CasSlots(s: Host, a: Agent, spurious: bool)
    requires SlotInv(s) && Enabled(s, Cas(a, spurious))
    ensures SlotInv(CasNext(s, a, spurious))
  {
    var x := TargetAt(s, PcOf(s, a).slot);
    CasContinues(WorkerOf(s, a.tid), x, PcOf(s, a), spurious);
    MoveSlots(s, a, CasPc(x, PcOf(s, a), spurious), CasNext(s, a, spurious));
  }

  lemma CheckSlots(s: Host, a: Agent)
    requires SlotInv(s) && Enabled(s, Check(a))
    ensures SlotInv(Next(s, Check(a)))
  {
    CheckContinues(s, a);
    MoveSlots(s, a, CheckPc(s, a), Next(s, Check(a)));
  }

  lemma ChargeContinues(w: Worker, pc: Pc, d: Data, more: Option<nat>)
    requires pc.Working? && !Publishes(pc.task)
    ensures Continues(w, pc, ChargePc(pc, Effect(d, pc.phase, pc.task, more).next))
  {
  }

  lemma ChargeSlots(s: Host, a: Agent, more: Option<nat>)
    requires SlotInv(s) && Enabled(s, Work(a, more)) && !Publishes(PcOf(s, a).task)
    ensures SlotInv(ChargeNext(s, a, more))
  {
    var pc, d := PcOf(s, a), TargetAt(s, PcOf(s, a).slot).data;
    ChargeContinues(WorkerOf(s, a.tid), pc, d, more);
    MoveSlots(s, a, ChargePc(pc, Effect(d, pc.phase, pc.task, more).next), ChargeNext(s, a, more));
  }

  lemma PublishShape(s: Host, a: Agent)
    requires PcOf(s, a).Working? && Publishes(PcOf(s, a).task) && SlotShape(WorkerOf(s, a.tid), PcOf(s, a))
    ensures SlotShape(PublishStore(WorkerOf(s, a.tid), PcOf(s, a).task), PublishPc(s, a))
  {
    var job := PcOf(s, a).task;
    if job.at > 0 {
      StoreOk(WorkerOf(s, a.tid), job.at - 1, job.pub);
    }
  }

  lemma PublishSlots(s: Host, a: Agent, more: Option<nat>)
    requires SlotInv(s) && Enabled(s, Work(a, more)) && Publishes(PcOf(s, a).task)
    ensures SlotInv(WorkNext(s, a, more))
  {
    assert ThreadOk(WorkerOf(s, a.tid), PcOf(s, MainOf(a.tid)), PcOf(s, HandlerOf(a.tid)));
    assert a.level == Main;
    PublishShape(s, a);
    UpdateSlots(s, a, PublishPc(s, a), PublishStore(WorkerOf(s, a.tid), PcOf(s, a).task), WorkNext(s, a, more));
  }

  lemma StoreSlots(s: Host, t: nat)
    requires SlotInv(s) && Enabled(s, Store(t))
    ensures SlotInv(StoreNext(s, t))
  {
    assert ThreadOk(WorkerOf(s, t), PcOf(s, MainOf(t)), PcOf(s, HandlerOf(t)));
    var pc := PcOf(s, MainOf(t));
    StoreOk(WorkerOf(s, t), pc.at, pc.pub);
    UpdateSlots(s, MainOf(t), StorePc(pc), StoreAt(WorkerOf(s, t), pc.at, pc.pub), StoreNext(s, t));
  }

  /** Steps between publications: the slot shape ignores the dispatched handle. */
  lemma BeginSlots(s: Host, t: nat, call: Call)
    requires SlotInv(s) && Enabled(s, Begin(t, call))
    ensures SlotInv(BeginNext(s, t, call))
  {
    var s' := BeginNext(s, t, call);
    forall u: nat
      ensures ThreadOk(WorkerOf(s', u), PcOf(s', MainOf(u)), PcOf(s', HandlerOf(u)))
    {
      assert ThreadOk(WorkerOf(s, u), PcOf(s, MainOf(u)), PcOf(s, HandlerOf(u)));
    }
  }

  lemma CommandSlots(s: Host, t: nat, armed: bool)
    requires SlotInv(s) && Enabled(s, Command(t, armed))
    ensures SlotInv(CommandNext(s, t, armed))
  {
    var s' := CommandNext(s, t, armed);
    assert ThreadOk(WorkerOf(s, t), PcOf(s, MainOf(t)), PcOf(s, HandlerOf(t)));
    var pc' := CommandPc(s, t, Todo(s, t)[0], armed);
    assert SlotShape(WorkerOf(s', t), pc');
    UpdateSlots(s, MainOf(t), pc', WorkerOf(s', t), s');
  }

  lemma CriticalQuiet(s: Host, t: nat, granted: bool)
    requires PcOf(s, MainOf(t)).Locked?
    ensures var s' := CriticalNext(s, t, PcOf(s, MainOf(t)).stage, granted);
      && s'.pcs == s.pcs[MainOf(t) := PcOf(s', MainOf(t))] && s'.workers == s.workers
      && (PcOf(s', MainOf(t)).Locked? || PcOf(s', MainOf(t)).Idle?)
  {
    var stage := PcOf(s, MainOf(t)).stage;
    if !stage.Unlocking? && !stage.StoreToken? {
      CriticalShape(s, t, stage, granted);
    }
  }

  lemma LockSlots(s: Host, step: Step)
    requires SlotInv(s) && Enabled(s, step) && (step.Critical? || step.Acquire? || step.Wait?)
    ensures SlotInv(Next(s, step))
  {
    match step
    case Critical(t, granted) => CriticalSlots(s, t, granted);
    case Acquire(t) => QuietMain(s, MainOf(t), PcOf(Next(s, step), MainOf(t)), Next(s, step));
    case Wait(t) => QuietMain(s, MainOf(t), PcOf(Next(s, step), MainOf(t)), Next(s, step));
  }

  lemma CriticalSlots(s: Host, t: nat, granted: bool)
    requires SlotInv(s) && Enabled(s, Critical(t, granted))
    ensures SlotInv(Next(s, Critical(t, granted)))
  {
    var s' := Next(s, Critical(t, granted));
    CriticalQuiet(s, t, granted);
    QuietMain(s, MainOf(t), PcOf(s', MainOf(t)), s');
  }

  lemma SampleSlots(s: Host, t: nat)
    requires SlotInv(s) && PcOf(s, HandlerOf(t)).Sampling?
    ensures SlotInv(Goto(s, HandlerOf(t), SamplePc(s, t)))
  {
    assert ThreadOk(WorkerOf(s, t), PcOf(s, MainOf(t)), PcOf(s, HandlerOf(t)));
    var pc := PcOf(s, HandlerOf(t));
    SampleOk(WorkerOf(s, t), PcOf(s, MainOf(t)), pc.k, pc.seen, pc.overrun);
    HandlerMoves(s, HandlerOf(t), SamplePc(s, t), Goto(s, HandlerOf(t), SamplePc(s, t)));
  }

  lemma AgentSlots(s: Host, step: Step)
    requires SlotInv(s) && Enabled(s, step)
    requires step.Probe? || step.Load? || step.Cas? || step.Check? || step.Work? || step.Unpin?
    ensures SlotInv(Next(s, step))
  {
    match step
    case Work(a, more) =>
      if Publishes(PcOf(s, a).task) {
        PublishSlots(s, a, more);
      } else {
        ChargeSlots(s, a, more);
      }
    case Unpin(a) => UnpinSlots(s, a);
    case Probe(a) => ProbeSlots(s, a);
    case Load(a) => LoadSlots(s, a);
    case Cas(a, spurious) => CasSlots(s, a, spurious);
    case Check(a) => CheckSlots(s, a);
  }

  lemma StepSlots(s: Host, step: Step)
    requires SlotInv(s) && Enabled(s, step)
    ensures SlotInv(Next(s, step))
  {
    match step
    case Interrupt(t, overrun) => HandlerMoves(s, HandlerOf(t), Sampling(0, UNREAD, overrun), Next(s, step));
    case Sample(t) => SampleSlots(s, t);
    case Store(t) => StoreSlots(s, t);
    case Begin(t, call) => BeginSlots(s, t, call);
    case Command(t, armed) => CommandSlots(s, t, armed);
    case Acquire(_) => LockSlots(s, step);
    case Critical(_, _) => LockSlots(s, step);
    case Wait(_) => LockSlots(s, step);
    case _ => AgentSlots(s, step);
  }

  lemma UnpinSlots(s: Host, a: Agent)
    requires SlotInv(s) && Enabled(s, Unpin(a))
    ensures SlotInv(Next(s, Unpin(a)))
  {
    var s' := Next(s, Unpin(a));
    MoveSlots(s, a, PcOf(s', a), s');
  }

  lemma RunSlots(s: Host, steps: seq<Step>)
    requires SlotInv(s) && Legal(s, steps)
    ensures SlotInv(Run(s, steps))
    decreases |steps|
  {
    if steps != [] {
      StepSlots(s, steps[0]);
      RunSlots(Next(s, steps[0]), steps[1..]);
    }
  }

  /** A tick a handler accepts carries exactly the last completed publication
      of its worker; a tick in the odd window is charged to the publication
      completed before the one under way. */
  lemma HandlersAreFaithful(s: Host, t: nat)
    requires Reachable(s) && ChargeOf(PcOf(s, HandlerOf(t))).Some?
    ensures Faithful(WorkerOf(s, t), ChargeOf(PcOf(s, HandlerOf(t))).value)
    ensures ChargeOf(PcOf(s, HandlerOf(t))).value.job.Unsettled? ==>
      InFlight(PcOf(s, MainOf(t))).Some? && 1 <= InFlight(PcOf(s, MainOf(t))).value.0 <= 6
  {
    var steps :| Legal(BOOT, steps) && Run(BOOT, steps) == s;
    assert SlotInv(BOOT);
    RunSlots(BOOT, steps);
    assert ThreadOk(WorkerOf(s, t), PcOf(s, MainOf(t)), PcOf(s, HandlerOf(t)));
  }
}
