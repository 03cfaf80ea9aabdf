/** The target lifecycle and timer-signal protocol of src/skynet_host.c as a
    transition system. One step is one access to shared memory, but for a scan or a
    group of stores made under the lock (`Critical`), an append to a ring, and a
    removal from it. Any thread may take the next step, a compare-and-swap may fail
    spuriously, and a signal handler may interrupt its own worker thread between any
    two steps. Signal masks are ignored, so handlers run at more points than in the
    program. */
module SkynetModel {
  import opened Common

  const RING := 4096
  const SLOTS := 128

  const WORD_MAX := 0xffff_ffff_ffff_ffff
  const READER_ONE := 4

  datatype Phase = FREE | ACTIVE | STOPPING | RECLAIMING {
    function Code(): nat {
      match this case FREE => 0 case ACTIVE => 1 case STOPPING => 2 case RECLAIMING => 3
    }
  }

  /** The lifecycle word by its two fields: the phase sits in the two low bits
      and the reader count above them. */
  datatype Word = Word(readers: nat, phase: Phase) {
    function Bits(): nat { readers * READER_ONE + phase.Code() }
  }

  /** Comparing, masking and adding on the machine word act field by field. */
  lemma WordLayout(w: Word, v: Word)
    ensures w.Bits() == v.Bits() <==> w == v
    ensures w.Bits() % READER_ONE == w.phase.Code() && w.Bits() / READER_ONE == w.readers
    ensures w.(readers := w.readers + 1).Bits() == w.Bits() + READER_ONE
    ensures w.(phase := v.phase).Bits() == w.Bits() - w.Bits() % READER_ONE + v.phase.Code()
  {
  }

  datatype Event = Event(state: nat, vmState: int, cfunction: word)

  /** What a slot stores on behalf of one profiling session. */
  datatype Data = Data(ring: seq<Event>, draining: bool,
                       dropped: nat, unstable: nat, overhead: nat, stale: nat,
                       overrunEvents: nat, overrunTicks: nat)

  const FRESH := Data([], true, 0, 0, 0, 0, 0, 0)

  datatype Level = Main | Handler

  /** An activity that can hold a pin: a thread's normal code or its handler. */
  datatype Agent = Agent(tid: nat, level: Level)

  /** `pinners` is auxiliary: the agents whose increment is in `word`. */
  datatype Target = Target(word: Word, handle: nat, token: nat, mainState: nat, events: bool,
                           data: Data, pinners: set<Agent>)

  const UNUSED := Target(Word(0, FREE), 0, 0, 0, false, FRESH, {})

  /** One publication of a worker's execution slot; state 0 is a null lua_State. */
  datatype Pub = Pub(target: Option<nat>, token: nat, state: nat, cfunction: word, vmState: int)

  const NOTHING := Pub(None, 0, 0, 0, 0)

  /** `published` is auxiliary: the last completed publication. */
  datatype Worker = Worker(version: nat, slot: Pub, qTarget: Option<nat>, qToken: nat,
                           handle: nat, published: Pub)

  const NEW_WORKER := Worker(0, NOTHING, None, 0, 0, NOTHING)

  /** How a pin is checked once it is taken: target_pin_session and pin_token
      compare the token, pin_active_handle the handle, and the timer-failure
      broadcast nothing. */
  datatype Claim = Session(token: nat) | OfHandle(handle: nat) | Anyone

  /** What an agent does while it holds a pin; `at` is its place in that code. */
  datatype Job =
    | Tick(ev: Event, overrun: nat, at: nat)
    | Unsettled(overrun: nat, at: nat)
    | Discard(overrun: nat, at: nat)
    | NextEvent
    | TakeQuality(at: nat)
    | SetDrain(on: bool)
    | PublishState(pub: Pub, at: nat)
    | EnterDispatch(pub: Pub, at: nat)
    | TimerFailure

  predicate Publishes(job: Job) { job.PublishState? || job.EnterDispatch? }

  /** A job that has not touched anything yet. */
  type NewJob = j: Job | Publishes(j) || j.Tick? ==> j.at == 0 witness NextEvent

  /** Locals of the handler while it copies the worker slot. */
  datatype Reading = Reading(qTarget: Option<nat>, qToken: nat, version: nat, slot: Pub)

  const UNREAD := Reading(None, 0, 0, NOTHING)

  /** Code that runs under host_lock. */
  datatype Stage =
    | PickSlot(handle: nat, state: nat)
    | StoreToken(slot: nat, handle: nat, state: nat)
    | ResetData(slot: nat, token: nat, state: nat)
    | CasActive(slot: nat, token: nat, state: nat)
    | FindActive(token: nat)
    | CasStopping(slot: nat, token: nat)
    | CheckRollback(slot: nat, token: nat)
    | FindStopping(token: nat)
    | CasReclaiming(slot: nat, token: nat, from: Phase)
    | AwaitReaders(slot: nat)
    | FreeEvents(slot: nat)
    | ClearHandle(slot: nat)
    | ClearToken(slot: nat)
    | CasFree(slot: nat)
    | Unlocking

  /** Where a critical section starts. */
  type Entry = e: Stage | e.PickSlot? || e.FindActive? || e.CheckRollback? || e.FindStopping?
    witness FindActive(0)

  datatype Pc =
    | Idle
    | Sampling(k: nat, seen: Reading, overrun: nat)
    | Scanning(next: nat, claim: Claim, job: NewJob)
    | ScanningToken(next: nat, claim: Claim, job: NewJob)
    | Loading(slot: nat, claim: Claim, job: NewJob)
    | Trying(slot: nat, claim: Claim, word: Word, job: NewJob)
    | Checking(slot: nat, claim: Claim, phase: Phase, job: NewJob)
    | Tagging(slot: nat, phase: Phase, job: NewJob)
    | Working(slot: nat, token: nat, phase: Phase, task: Job)
    | Unpinning(slot: nat, rest: Option<(Claim, NewJob)>)
    | Publishing(at: nat, pub: Pub)
    | Waiting(slot: nat, token: nat)
    | Locked(stage: Stage)

  /** The remaining statements of the host call a thread is making. */
  datatype Cmd =
    | DoPublish(pub: Pub)
    | DoWithdraw(slot: nat)
    | DoDiscard(target: Option<nat>, token: nat)
    | DoSync
    | DoArm(slot: nat, token: nat, state: nat)
    | DoScan(claim: Claim, job: NewJob)
    | DoLock(entry: Entry)
    | DoWait(slot: nat, token: nat)
    | DoClearHandle

  /** The calls of include/luaprof/skynet_host.h that reach targets or slots. */
  datatype Call =
    | DispatchEnter(handle: nat)
    | DispatchLeave
    | TargetStart(handle: nat, state: nat)
    | TargetQuiesce(token: nat)
    | TargetRelease(token: nat)
    | ApiPublish(token: nat, state: nat, vmState: int, cfunction: word)
    | ApiDrain(token: nat, on: bool)
    | ApiNext(token: nat)
    | ApiQuality(token: nat)

  /** `sessions`, `homes`, `handles` and `quiet` are auxiliary: what each token's
      session has recorded, the slot and handle it was created with, and the
      tokens whose quiesce call has passed its final wait. */
  datatype Host = Host(targets: map<nat, Target>, workers: map<nat, Worker>,
                       pcs: map<Agent, Pc>, todo: map<nat, seq<Cmd>>,
                       lock: Option<nat>, nextToken: nat,
                       sessions: map<nat, Data>, homes: map<nat, nat>, handles: map<nat, nat>,
                       quiet: set<nat>)

  const BOOT := Host(map[], map[], map[], map[], None, 0, map[], map[], map[], {})

  // The parts of a state: a target, a worker, an agent's program counter, what a thread still
  // has to do, and what a session has recorded. Whatever was never written is as at the start.

  function TargetAt(s: Host, i: nat): Target { if i in s.targets then s.targets[i] else UNUSED }

  function WorkerOf(s: Host, t: nat): Worker { if t in s.workers then s.workers[t] else NEW_WORKER }

  function PcOf(s: Host, a: Agent): Pc { if a in s.pcs then s.pcs[a] else Idle }

  function Todo(s: Host, t: nat): seq<Cmd> { if t in s.todo then s.todo[t] else [] }

  function Recorded(s: Host, token: nat): Data { if token in s.sessions then s.sessions[token] else FRESH }

  function PhaseOf(s: Host, i: nat): Phase { TargetAt(s, i).word.phase }

  predicate Pinned(pc: Pc, i: nat) {
    (pc.Checking? || pc.Tagging? || pc.Working? || pc.Unpinning?) && pc.slot == i
  }

  // ---------- effects of a job on the session data ----------

  predicate Allowed(job: Job, phase: Phase) {
    phase == ACTIVE ||
    (phase == STOPPING && !job.PublishState? && !job.EnterDispatch? && !job.TimerFailure?)
  }

  predicate Malformed(ev: Event) {
    ev.vmState < 0 || ev.vmState > 3 || (ev.vmState == 2 && ev.cfunction == 0)
  }

  datatype Outcome = Outcome(data: Data, next: Option<Job>)

  /** One access made under a pin. `phase` is the phase found when pinning;
      `more` is what sigtimedwait delivers next to discard_pending. */
  function Effect(d: Data, phase: Phase, job: Job, more: Option<nat>): Outcome {
    match job
    case Tick(ev, overrun, at) =>
      if at == 0 then
        if overrun > 0 then Outcome(d.(overrunEvents := d.overrunEvents + 1), Some(Tick(ev, overrun, 1)))
        else Outcome(d, Some(Tick(ev, overrun, 2)))
      else if at == 1 then
        Outcome(d.(overrunTicks := d.overrunTicks + overrun), Some(Tick(ev, overrun, 2)))
      else if at == 2 then
        if phase != ACTIVE then Outcome(d.(stale := d.stale + 1), None)
        else Outcome(d, Some(Tick(ev, overrun, if d.draining then 3 else 4)))
      else if at == 3 then Outcome(d.(overhead := d.overhead + 1), None)
      else if Malformed(ev) then Outcome(d.(unstable := d.unstable + 1), None)
      else if |d.ring| >= RING then Outcome(d.(dropped := d.dropped + 1), None)
      else Outcome(d.(ring := d.ring + [ev]), None)
    case Unsettled(overrun, at) =>
      if at == 0 then
        if overrun > 0 then Outcome(d.(overrunEvents := d.overrunEvents + 1), Some(Unsettled(overrun, 1)))
        else Outcome(d, Some(Unsettled(overrun, 2)))
      else if at == 1 then
        Outcome(d.(overrunTicks := d.overrunTicks + overrun), Some(Unsettled(overrun, 2)))
      else Outcome(d.(unstable := d.unstable + 1), None)
    case Discard(overrun, at) =>
      if at == 0 then
        match more
        case None => Outcome(d, None)
        case Some(n) => Outcome(d, Some(Discard(n, if n > 0 then 1 else 3)))
      else if at == 1 then Outcome(d.(overrunEvents := d.overrunEvents + 1), Some(Discard(overrun, 2)))
      else if at == 2 then Outcome(d.(overrunTicks := d.overrunTicks + overrun), Some(Discard(overrun, 3)))
      else Outcome(d.(stale := d.stale + 1), Some(Discard(0, 0)))
    case NextEvent =>
      Outcome(if d.ring == [] then d else d.(ring := d.ring[1..]), None)
    case TakeQuality(at) =>
      if at == 0 then Outcome(d.(dropped := 0), Some(TakeQuality(1)))
      else if at == 1 then Outcome(d.(unstable := 0), Some(TakeQuality(2)))
      else if at == 2 then Outcome(d.(overhead := 0), Some(TakeQuality(3)))
      else if at == 3 then Outcome(d.(stale := 0), Some(TakeQuality(4)))
      else if at == 4 then Outcome(d.(overrunEvents := 0), Some(TakeQuality(5)))
      else Outcome(d.(overrunTicks := 0), None)
    case SetDrain(on) => Outcome(d.(draining := on), None)
    case PublishState(_, _) => Outcome(d, None)
    case EnterDispatch(_, _) => Outcome(d, None)
    case TimerFailure => Outcome(d, None)
  }

  // ---------- the worker slot ----------

  /** The stores of publish_slot, in program order. */
  function StoreAt(w: Worker, at: nat, pub: Pub): Worker {
    if at == 0 then w.(version := w.version + 1)
    else if at == 1 then w.(slot := w.slot.(target := pub.target))
    else if at == 2 then w.(slot := w.slot.(token := pub.token))
    else if at == 3 then w.(slot := w.slot.(state := pub.state))
    else if at == 4 then w.(slot := w.slot.(cfunction := pub.cfunction))
    else if at == 5 then w.(slot := w.slot.(vmState := pub.vmState))
    else if at == 6 then w.(version := w.version + 1, published := pub)
    else if at == 7 then w.(qToken := pub.token)
    else w.(qTarget := pub.target)
  }

  const LAST_STORE := 8

  function UnsettledPc(r: Reading, overrun: nat): Pc {
    match r.qTarget
    case None => Idle
    case Some(i) => Loading(i, Session(r.qToken), Unsettled(overrun, 0))
  }

  /** The loads of timer_signal_handler from its own worker's slot. */
  function SampleNext(w: Worker, k: nat, r: Reading, overrun: nat): Pc {
    if k == 0 then Sampling(1, r.(qTarget := w.qTarget), overrun)
    else if k == 1 then Sampling(2, r.(qToken := w.qToken), overrun)
    else if k == 2 then
      if w.version % 2 != 0 then UnsettledPc(r, overrun)
      else Sampling(3, r.(version := w.version), overrun)
    else if k == 3 then Sampling(4, r.(slot := r.slot.(target := w.slot.target)), overrun)
    else if k == 4 then Sampling(5, r.(slot := r.slot.(token := w.slot.token)), overrun)
    else if k == 5 then Sampling(6, r.(slot := r.slot.(state := w.slot.state)), overrun)
    else if k == 6 then Sampling(7, r.(slot := r.slot.(cfunction := w.slot.cfunction)), overrun)
    else if k == 7 then Sampling(8, r.(slot := r.slot.(vmState := w.slot.vmState)), overrun)
    else if w.version != r.version then UnsettledPc(r, overrun)
    else match r.slot.target
      case None => Idle
      case Some(i) =>
        if r.slot.state == 0 then Idle
        else Loading(i, Session(r.slot.token),
                     Tick(Event(r.slot.state, r.slot.vmState, r.slot.cfunction), overrun, 0))
  }

  // ---------- steps ----------

  datatype Step =
    | Interrupt(t: nat, overrun: nat)
    | Sample(t: nat)
    | Probe(a: Agent)
    | Load(a: Agent)
    | Cas(a: Agent, spurious: bool)
    | Check(a: Agent)
    | Work(a: Agent, more: Option<nat>)
    | Unpin(a: Agent)
    | Store(t: nat)
    | Begin(t: nat, call: Call)
    | Command(t: nat, armed: bool)
    | Acquire(t: nat)
    | Critical(t: nat, granted: bool)
    | Wait(t: nat)

  function MainOf(t: nat): Agent { Agent(t, Main) }

  function HandlerOf(t: nat): Agent { Agent(t, Handler) }

  /** Normal code runs only while its thread's handler does not. */
  predicate Runs(s: Host, a: Agent) {
    a.level == Main ==> PcOf(s, HandlerOf(a.tid)) == Idle
  }

  function Goto(s: Host, a: Agent, pc: Pc): Host { s.(pcs := s.pcs[a := pc]) }

  function PutT(s: Host, i: nat, x: Target): Host { s.(targets := s.targets[i := x]) }

  function PutW(s: Host, t: nat, w: Worker): Host { s.(workers := s.workers[t := w]) }

  function PutTodo(s: Host, t: nat, cmds: seq<Cmd>): Host { s.(todo := s.todo[t := cmds]) }

  /** Where an agent goes when it could not use the slot it looked at. */
  function GiveUp(i: nat, claim: Claim, job: NewJob): Pc {
    if job.Tick? || job.Unsettled? || job.Discard? then Idle else Scanning(i + 1, claim, job)
  }

  function RestOf(claim: Claim, job: NewJob): Option<(Claim, NewJob)> {
    if job.Tick? || job.Unsettled? || job.Discard? then None else Some((claim, job))
  }

  predicate Enabled(s: Host, step: Step) {
    match step
    case Interrupt(t, _) => PcOf(s, HandlerOf(t)) == Idle
    case Sample(t) => PcOf(s, HandlerOf(t)).Sampling?
    case Probe(a) => Runs(s, a) && (PcOf(s, a).Scanning? || PcOf(s, a).ScanningToken?)
    case Load(a) => Runs(s, a) && PcOf(s, a).Loading?
    case Cas(a, _) => Runs(s, a) && PcOf(s, a).Trying?
    case Check(a) => Runs(s, a) && (PcOf(s, a).Checking? || PcOf(s, a).Tagging?)
    case Work(a, _) => Runs(s, a) && PcOf(s, a).Working?
    case Unpin(a) => Runs(s, a) && PcOf(s, a).Unpinning?
    case Store(t) => Runs(s, MainOf(t)) && PcOf(s, MainOf(t)).Publishing?
    case Begin(t, call) => Runs(s, MainOf(t)) && PcOf(s, MainOf(t)) == Idle && Todo(s, t) == []
    case Command(t, _) =>
      Runs(s, MainOf(t)) && PcOf(s, MainOf(t)) == Idle && Todo(s, t) != [] && !Todo(s, t)[0].DoLock?
    case Acquire(t) =>
      Runs(s, MainOf(t)) && PcOf(s, MainOf(t)) == Idle && Todo(s, t) != [] && Todo(s, t)[0].DoLock? && s.lock == None
    case Critical(t, _) => Runs(s, MainOf(t)) && PcOf(s, MainOf(t)).Locked?
    case Wait(t) => Runs(s, MainOf(t)) && PcOf(s, MainOf(t)).Waiting?
  }

  function Next(s: Host, step: Step): Host
    requires Enabled(s, step)
  {
    match step
    case Interrupt(t, overrun) => Goto(s, HandlerOf(t), Sampling(0, UNREAD, overrun))
    case Sample(t) => Goto(s, HandlerOf(t), SamplePc(s, t))
    case Probe(a) => Goto(s, a, ProbePc(s, a))
    case Load(a) => Goto(s, a, LoadPc(s, a))
    case Cas(a, spurious) => CasNext(s, a, spurious)
    case Check(a) => Goto(s, a, CheckPc(s, a))
    case Work(a, more) => WorkNext(s, a, more)
    case Unpin(a) => UnpinNext(s, a)
    case Store(t) => StoreNext(s, t)
    case Begin(t, call) => BeginNext(s, t, call)
    case Command(t, armed) => CommandNext(s, t, armed)
    case Acquire(t) => AcquireNext(s, t)
    case Critical(t, granted) => CriticalNext(s, t, PcOf(s, MainOf(t)).stage, granted)
    case Wait(t) => WaitNext(s, t)
  }

  function SamplePc(s: Host, t: nat): Pc
    requires PcOf(s, HandlerOf(t)).Sampling?
  {
    var pc := PcOf(s, HandlerOf(t));
    SampleNext(WorkerOf(s, t), pc.k, pc.seen, pc.overrun)
  }

  function LoadPc(s: Host, a: Agent): Pc
    requires PcOf(s, a).Loading?
  {
    var pc := PcOf(s, a);
    Trying(pc.slot, pc.claim, TargetAt(s, pc.slot).word, pc.job)
  }

  function Unpinned(x: Target, a: Agent): Target {
    x.(word := x.word.(readers := if x.word.readers > 0 then x.word.readers - 1 else 0), pinners := x.pinners - {a})
  }

  function UnpinPc(pc: Pc): Pc
    requires pc.Unpinning?
  {
    match pc.rest
    case None => Idle
    case Some(r) => Scanning(pc.slot + 1, r.0, r.1)
  }

  function UnpinNext(s: Host, a: Agent): Host
    requires PcOf(s, a).Unpinning?
  {
    var pc := PcOf(s, a);
    Goto(PutT(s, pc.slot, Unpinned(TargetAt(s, pc.slot), a)), a, UnpinPc(pc))
  }

  function StorePc(pc: Pc): Pc
    requires pc.Publishing?
  {
    if pc.at < LAST_STORE then Publishing(pc.at + 1, pc.pub) else Idle
  }

  function StoreNext(s: Host, t: nat): Host
    requires PcOf(s, MainOf(t)).Publishing?
  {
    var pc := PcOf(s, MainOf(t));
    Goto(PutW(s, t, StoreAt(WorkerOf(s, t), pc.at, pc.pub)), MainOf(t), StorePc(pc))
  }

  function AcquireNext(s: Host, t: nat): Host
    requires Todo(s, t) != [] && Todo(s, t)[0].DoLock?
  {
    var todo := Todo(s, t);
    Goto(PutTodo(s, t, todo[1..]).(lock := Some(t)), MainOf(t), Locked(todo[0].entry))
  }

  /** One look of target_wait_unpinned. */
  function WaitNext(s: Host, t: nat): Host
    requires PcOf(s, MainOf(t)).Waiting?
  {
    var pc := PcOf(s, MainOf(t));
    var done := TargetAt(s, pc.slot).word.readers == 0;
    Goto(s, MainOf(t), if done then Idle else pc).(quiet := if done then s.quiet + {pc.token} else s.quiet)
  }

  /** pin_token and pin_active_handle look before they pin; the timer-failure
      broadcast does not. */
  function ProbePc(s: Host, a: Agent): Pc
    requires PcOf(s, a).Scanning? || PcOf(s, a).ScanningToken?
  {
    var pc := PcOf(s, a);
    var i, claim, job := pc.next, pc.claim, pc.job;
    if pc.Scanning? then
      if i >= SLOTS then Idle
      else if claim.Anyone? then Loading(i, claim, job)
      else if !Allowed(job, PhaseOf(s, i)) then Scanning(i + 1, claim, job)
      else ScanningToken(i, claim, job)
    else
      var same := match claim {
        case Session(k) => TargetAt(s, i).token == k
        case OfHandle(h) => TargetAt(s, i).handle == h
        case Anyone => true
      };
      if same then Loading(i, claim, job) else Scanning(i + 1, claim, job)
  }

  /** One turn of the loop in target_pin. */
  predicate CasSucceeds(x: Target, pc: Pc, spurious: bool)
    requires pc.Trying?
  {
    Allowed(pc.job, pc.word.phase) && pc.word.Bits() <= WORD_MAX - READER_ONE && !spurious && x.word == pc.word
  }

  function CasPc(x: Target, pc: Pc, spurious: bool): Pc
    requires pc.Trying?
  {
    if !Allowed(pc.job, pc.word.phase) || pc.word.Bits() > WORD_MAX - READER_ONE then
      GiveUp(pc.slot, pc.claim, pc.job)
    else if CasSucceeds(x, pc, spurious) then Checking(pc.slot, pc.claim, pc.word.phase, pc.job)
    else Trying(pc.slot, pc.claim, x.word, pc.job)
  }

  function PinnedBy(x: Target, a: Agent): Target {
    x.(word := x.word.(readers := x.word.readers + 1), pinners := x.pinners + {a})
  }

  function CasNext(s: Host, a: Agent, spurious: bool): Host
    requires PcOf(s, a).Trying?
  {
    var pc := PcOf(s, a);
    var x := TargetAt(s, pc.slot);
    Goto(s, a, CasPc(x, pc, spurious)).(
      targets := if CasSucceeds(x, pc, spurious) then s.targets[pc.slot := PinnedBy(x, a)] else s.targets)
  }

  function CheckPc(s: Host, a: Agent): Pc
    requires PcOf(s, a).Checking? || PcOf(s, a).Tagging?
  {
    var pc := PcOf(s, a);
    var i, x := pc.slot, TargetAt(s, pc.slot);
    if pc.Tagging? then
      var job := if pc.job.EnterDispatch? then EnterDispatch(Pub(Some(i), x.token, x.mainState, 0, 0), pc.job.at)
                 else pc.job;
      Working(i, x.token, pc.phase, job)
    else match pc.claim
      case Session(k) =>
        if x.token == k then Working(i, k, pc.phase, pc.job) else Unpinning(i, RestOf(pc.claim, pc.job))
      case OfHandle(h) =>
        if x.handle == h then Tagging(i, pc.phase, pc.job) else Unpinning(i, RestOf(pc.claim, pc.job))
      case Anyone => Tagging(i, pc.phase, pc.job)
  }

  /** api_publish_state compares the dispatched handle, then both callers store. */
  function PublishPc(s: Host, a: Agent): Pc
    requires PcOf(s, a).Working? && Publishes(PcOf(s, a).task)
  {
    var pc := PcOf(s, a);
    var job := pc.task;
    if job.at == 0 then
      if job.PublishState? then
        if WorkerOf(s, a.tid).handle != TargetAt(s, pc.slot).handle then Unpinning(pc.slot, None)
        else Working(pc.slot, pc.token, pc.phase, PublishState(job.pub.(target := Some(pc.slot)), 1))
      else Working(pc.slot, pc.token, pc.phase, EnterDispatch(job.pub, 1))
    else if job.at > LAST_STORE then Unpinning(pc.slot, None)
    else if job.PublishState? then Working(pc.slot, pc.token, pc.phase, PublishState(job.pub, job.at + 1))
    else Working(pc.slot, pc.token, pc.phase, EnterDispatch(job.pub, job.at + 1))
  }

  function PublishStore(w: Worker, job: Job): Worker
    requires Publishes(job)
  {
    if job.at == 0 then w else StoreAt(w, job.at - 1, job.pub)
  }

  /** After its last access a job lets go of its pin; the broadcast then goes on. */
  function ChargePc(pc: Pc, next: Option<Job>): Pc
    requires pc.Working?
  {
    match next
    case None => Unpinning(pc.slot, if pc.task.TimerFailure? then Some((Anyone, TimerFailure)) else None)
    case Some(job) => Working(pc.slot, pc.token, pc.phase, job)
  }

  /** The job's token names the session that is charged; the slot is where the
      program charges it. */
  function ChargeNext(s: Host, a: Agent, more: Option<nat>): Host
    requires PcOf(s, a).Working?
  {
    var pc := PcOf(s, a);
    var i, k, x := pc.slot, pc.token, TargetAt(s, pc.slot);
    var charged := Effect(Recorded(s, k), pc.phase, pc.task, more);
    var stored := Effect(x.data, pc.phase, pc.task, more);
    Goto(PutT(s, i, x.(data := stored.data)).(sessions := s.sessions[k := charged.data]), a, ChargePc(pc, stored.next))
  }

  function WorkNext(s: Host, a: Agent, more: Option<nat>): Host
    requires PcOf(s, a).Working?
  {
    if Publishes(PcOf(s, a).task) then
      Goto(PutW(s, a.tid, PublishStore(WorkerOf(s, a.tid), PcOf(s, a).task)), a, PublishPc(s, a))
    else ChargeNext(s, a, more)
  }

  /** The statements of a host call after those that only read the caller's own slot. */
  function CallCommands(w: Worker, call: Call): seq<Cmd> {
    match call
    case DispatchEnter(h) =>
      [DoPublish(NOTHING), DoDiscard(w.slot.target, w.slot.token), DoSync,
       DoScan(OfHandle(h), EnterDispatch(NOTHING, 0))]
    case DispatchLeave =>
      [DoPublish(NOTHING), DoDiscard(w.slot.target, w.slot.token), DoSync, DoClearHandle]
    case TargetStart(h, state) => if h != 0 && state != 0 && w.handle == h then [DoLock(PickSlot(h, state))] else []
    case TargetQuiesce(k) => [DoLock(FindActive(k))]
    case TargetRelease(k) => [DoLock(FindStopping(k))]
    case ApiPublish(k, state, vm, c) => [DoScan(Session(k), PublishState(Pub(None, k, state, c, vm), 0))]
    case ApiDrain(k, on) => [DoScan(Session(k), SetDrain(on))]
    case ApiNext(k) => [DoScan(Session(k), NextEvent)]
    case ApiQuality(k) => [DoScan(Session(k), TakeQuality(0))]
  }

  function BeginNext(s: Host, t: nat, call: Call): Host {
    var w := WorkerOf(s, t);
    PutTodo(PutW(s, t, w.(handle := if call.DispatchEnter? then call.handle else w.handle)), t, CallCommands(w, call))
  }

  /** Where a call's next statement takes the thread; `armed` is the result of
      timer_settime. */
  function CommandPc(s: Host, t: nat, cmd: Cmd, armed: bool): Pc {
    match cmd
    case DoPublish(pub) => Publishing(0, pub)
    case DoWithdraw(i) => if WorkerOf(s, t).slot.target == Some(i) then Publishing(0, NOTHING) else Idle
    case DoDiscard(target, k) => if target.None? then Idle else Loading(target.value, Session(k), Discard(0, 0))
    case DoSync => if armed then Idle else Scanning(0, Anyone, TimerFailure)
    case DoArm(_, _, _) => if armed then Idle else Scanning(0, Anyone, TimerFailure)
    case DoScan(claim, job) => Scanning(0, claim, job)
    case DoLock(_) => Idle
    case DoWait(i, k) => Waiting(i, k)
    case DoClearHandle => Idle
  }

  /** A start whose timer cannot be armed is rolled back. */
  function CommandRest(cmd: Cmd, rest: seq<Cmd>, armed: bool): seq<Cmd> {
    if !cmd.DoArm? then rest
    else if armed then [DoPublish(Pub(Some(cmd.slot), cmd.token, cmd.state, 0, 0))] + rest
    else [DoLock(CheckRollback(cmd.slot, cmd.token))] + rest
  }

  function CommandNext(s: Host, t: nat, armed: bool): Host
    requires Todo(s, t) != []
  {
    var cmd, rest := Todo(s, t)[0], Todo(s, t)[1..];
    var w := WorkerOf(s, t);
    Goto(PutW(PutTodo(s, t, CommandRest(cmd, rest, armed)), t,
              w.(handle := if cmd.DoClearHandle? then 0 else w.handle)),
         MainOf(t), CommandPc(s, t, cmd, armed))
  }

  /** The first slot satisfying a scan made under the lock, if any. */
  function FirstSlot(s: Host, want: Target -> bool, i: nat): (r: Option<nat>)
    ensures r.Some? ==> want(TargetAt(s, r.value))
    decreases SLOTS - i
  {
    if i >= SLOTS then None else if want(TargetAt(s, i)) then Some(i) else FirstSlot(s, want, i + 1)
  }

  /** Scans under the lock are one step: phases, handles and tokens change only
      under the lock. A start is refused when its handle already has a slot. */
  function Chosen(s: Host, handle: nat): (r: Option<nat>)
    ensures r.Some? ==> TargetAt(s, r.value).word == Word(0, FREE)
  {
    if FirstSlot(s, (x: Target) => x.word.phase != FREE && x.handle == handle, 0).Some? then None
    else FirstSlot(s, (x: Target) => x.word == Word(0, FREE), 0)
  }

  lemma {:induction false} FirstSlotExactly(s: Host, want: Target -> bool, i: nat)
    ensures var r := FirstSlot(s, want, i);
      && (r.Some? ==> i <= r.value < SLOTS && forall j: nat :: i <= j < r.value ==> !want(TargetAt(s, j)))
      && (r.None? ==> forall j: nat :: i <= j < SLOTS ==> !want(TargetAt(s, j)))
    decreases SLOTS - i
  {
    if i < SLOTS && !want(TargetAt(s, i)) {
      FirstSlotExactly(s, want, i + 1);
    }
  }

  predicate Serves(x: Target, handle: nat) { x.word.phase != FREE && x.handle == handle }

  /** A start finds a slot exactly if its handle has none and some slot is free and
      unread; it takes the first such slot. */
  lemma ChosenExactly(s: Host, handle: nat)
    ensures Chosen(s, handle).Some? <==>
              (forall j: nat :: j < SLOTS ==> !Serves(TargetAt(s, j), handle)) && exists j: nat ::
                  j < SLOTS && TargetAt(s, j).word == Word(0, FREE)
    ensures Chosen(s, handle).Some? ==>
              && Chosen(s, handle).value < SLOTS && TargetAt(s, Chosen(s, handle).value).word == Word(0, FREE)
              && forall j: nat :: j < Chosen(s, handle).value ==> TargetAt(s, j).word != Word(0, FREE)
  {
    FirstSlotExactly(s, (x: Target) => x.word.phase != FREE && x.handle == handle, 0);
    FirstSlotExactly(s, (x: Target) => x.word == Word(0, FREE), 0);
  }

  function Find(s: Host, phase: Phase, token: nat): (r: Option<nat>)
    ensures r.Some? ==> PhaseOf(s, r.value) == phase && TargetAt(s, r.value).token == token
  {
    FirstSlot(s, (x: Target) => x.word.phase == phase && x.token == token, 0)
  }

  /** The result of the scan a statement makes, if it makes one. */
  function Found(s: Host, stage: Stage): Option<nat> {
    match stage
    case PickSlot(h, _) => Chosen(s, h)
    case FindActive(k) => Find(s, ACTIVE, k)
    case FindStopping(k) => Find(s, STOPPING, k)
    case _ => None
  }

  /** The slot a statement under the lock works on. */
  function StageSlot(stage: Stage, found: Option<nat>): nat {
    match stage
    case PickSlot(_, _) => if found.Some? then found.value else 0
    case FindActive(_) => if found.Some? then found.value else 0
    case FindStopping(_) => if found.Some? then found.value else 0
    case Unlocking => 0
    case other => other.slot
  }

  /** What the statement leaves in that slot. `newToken` is the next token;
      `granted` is calloc's result, or a compare-and-swap that does not fail
      spuriously. */
  function Rewrite(x: Target, stage: Stage, found: Option<nat>, newToken: nat, granted: bool): Target {
    match stage
    case PickSlot(_, _) => if found.Some? && granted then x.(events := true) else x
    case StoreToken(_, h, state) => x.(handle := h, token := newToken, mainState := state)
    case ResetData(_, _, _) => x.(data := FRESH)
    case CasActive(_, _, _) =>
      if x.word.phase != FREE then x.(events := false)
      else if granted then x.(word := x.word.(phase := ACTIVE)) else x
    case CasStopping(_, _) =>
      if x.word.phase == ACTIVE && granted then x.(word := x.word.(phase := STOPPING)) else x
    case CasReclaiming(_, _, from) =>
      if x.word.phase == from && granted then x.(word := x.word.(phase := RECLAIMING)) else x
    case FreeEvents(_) => x.(events := false)
    case ClearHandle(_) => x.(handle := 0, mainState := 0)
    case ClearToken(_) => x.(token := 0)
    case CasFree(_) =>
      if x.word.phase == RECLAIMING && granted then x.(word := x.word.(phase := FREE)) else x
    case _ => x
  }

  /** The next statement of the critical section. */
  function Successor(x: Target, stage: Stage, found: Option<nat>, newToken: nat, granted: bool): Stage {
    match stage
    case PickSlot(h, state) => if found.Some? && granted then StoreToken(found.value, h, state) else Unlocking
    case StoreToken(i, _, state) => ResetData(i, newToken, state)
    case ResetData(i, k, state) => CasActive(i, k, state)
    case CasActive(_, _, _) => if x.word.phase == FREE && !granted then stage else Unlocking
    case FindActive(k) => if found.Some? then CasStopping(found.value, k) else Unlocking
    case CasStopping(_, _) => if x.word.phase == ACTIVE && !granted then stage else Unlocking
    case CheckRollback(i, k) =>
      if x.word.phase == ACTIVE && x.token == k then CasReclaiming(i, k, ACTIVE) else Unlocking
    case FindStopping(k) => if found.Some? then CasReclaiming(found.value, k, STOPPING) else Unlocking
    case CasReclaiming(i, _, from) =>
      if x.word.phase != from then Unlocking else if granted then AwaitReaders(i) else stage
    case AwaitReaders(i) => if x.word.readers == 0 then FreeEvents(i) else stage
    case FreeEvents(i) => ClearHandle(i)
    case ClearHandle(i) => ClearToken(i)
    case ClearToken(i) => CasFree(i)
    case CasFree(_) => if x.word.phase == RECLAIMING && !granted then stage else Unlocking
    case Unlocking => Unlocking
  }

  /** What the call still has to do once its phase change has succeeded. */
  function StageTodo(s: Host, t: nat, x: Target, stage: Stage, granted: bool): seq<Cmd> {
    if stage.CasActive? && x.word.phase == FREE && granted then
      [DoPublish(NOTHING), DoDiscard(WorkerOf(s, t).slot.target, WorkerOf(s, t).slot.token),
       DoArm(stage.slot, stage.token, stage.state)]
    else if stage.CasStopping? && x.word.phase == ACTIVE && granted then
      [DoWithdraw(stage.slot), DoDiscard(Some(stage.slot), stage.token), DoSync, DoWait(stage.slot, stage.token)]
    else Todo(s, t)
  }

  function CriticalNext(s: Host, t: nat, stage: Stage, granted: bool): Host {
    var found, newToken := Found(s, stage), s.nextToken + 1;
    var i := StageSlot(stage, found);
    var x := TargetAt(s, i);
    if stage.Unlocking? then Goto(s, MainOf(t), Idle).(lock := None)
    else
      Goto(PutT(s, i, Rewrite(x, stage, found, newToken, granted)), MainOf(t),
           Locked(Successor(x, stage, found, newToken, granted))).(
        nextToken := if stage.StoreToken? then newToken else s.nextToken,
        homes := if stage.StoreToken? then s.homes[newToken := i] else s.homes,
        handles := if stage.StoreToken? then s.handles[newToken := stage.handle] else s.handles,
        sessions := if stage.ResetData? then s.sessions[stage.token := FRESH] else s.sessions,
        todo := if stage.CasActive? || stage.CasStopping? then s.todo[t := StageTodo(s, t, x, stage, granted)]
                else s.todo)
  }

  // ---------- runs ----------

  predicate Legal(s: Host, steps: seq<Step>)
    decreases |steps|
  {
    steps == [] || (Enabled(s, steps[0]) && Legal(Next(s, steps[0]), steps[1..]))
  }

  function Run(s: Host, steps: seq<Step>): Host
    requires Legal(s, steps)
    decreases |steps|
  {
    if steps == [] then s else Run(Next(s, steps[0]), steps[1..])
  }

  // ---------- the host's rules ----------

  /** A thread's call is taking an event of session `k`, or is about to. */
  predicate TakesEvents(pc: Pc, k: nat) {
    match pc
    case Scanning(_, claim, job) => job.NextEvent? && claim == Session(k)
    case ScanningToken(_, claim, job) => job.NextEvent? && claim == Session(k)
    case Loading(_, claim, job) => job.NextEvent? && claim == Session(k)
    case Trying(_, claim, _, job) => job.NextEvent? && claim == Session(k)
    case Checking(_, claim, _, job) => job.NextEvent? && claim == Session(k)
    case Working(_, token, _, task) => task.NextEvent? && token == k
    case Unpinning(_, rest) => rest == Some((Session(k), NextEvent))
    case _ => false
  }

  predicate Drains(s: Host, t: nat, k: nat) {
    TakesEvents(PcOf(s, MainOf(t)), k) || DoScan(Session(k), NextEvent) in Todo(s, t)
  }

  /** No other thread dispatches the service `h` or drains a session of it. */
  ghost predicate Alone(s: Host, t: nat, h: nat) {
    && (forall u: nat :: u != t ==> WorkerOf(s, u).handle != h)
    && (forall u: nat, k: nat :: u != t && Drains(s, u, k) && k in s.handles ==> s.handles[k] != h)
  }

  /** What the host VM is expected to do: dispatch calls are paired, and a service is used by one
      thread at a time, be it to dispatch a message or to drain its session's ring. */
  ghost predicate Permitted(s: Host, t: nat, call: Call) {
    match call
    case DispatchEnter(h) => h != 0 && WorkerOf(s, t).handle == 0 && Alone(s, t, h)
    case ApiNext(k) => k in s.handles && Alone(s, t, s.handles[k])
    case _ => true
  }

  ghost predicate Obeys(s: Host, step: Step) { step.Begin? ==> Permitted(s, step.t, step.call) }

  /** Every call of the run is one the host's rules permit. */
  ghost predicate Obedient(s: Host, steps: seq<Step>)
    requires Legal(s, steps)
    decreases |steps|
  {
    steps == [] || (Obeys(s, steps[0]) && Obedient(Next(s, steps[0]), steps[1..]))
  }
}
