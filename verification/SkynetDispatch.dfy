/** One producer per ring: under the host's rule that a handle is dispatched on
    at most one worker at a time, no two handlers fill the same slot's ring. */
module SkynetDispatch {
  import opened Common
  import opened SkynetModel
  import opened SkynetPins
  import opened SkynetSlots
  import opened SkynetSessions
  import opened SkynetQuiesce

  /** A publication names a session created for the handle `h` being dispatched. */
  predicate Named(handles: map<nat, nat>, pub: Pub, h: nat) {
    pub.target.Some? ==> h != 0 && pub.token in handles && handles[pub.token] == h
  }

  predicate ClaimOk(claim: Claim, job: Job, h: nat) {
    && (job.EnterDispatch? ==> h != 0 && claim == OfHandle(h))
    && (job.PublishState? ==> claim == Session(job.pub.token))
    && (job.NextEvent? ==> claim.Session?)
  }

  predicate PcNamed(s: Host, h: nat, pc: Pc) {
    match pc
    case Scanning(_, claim, job) => ClaimOk(claim, job, h)
    case ScanningToken(_, claim, job) => ClaimOk(claim, job, h)
    case Loading(_, claim, job) => ClaimOk(claim, job, h)
    case Trying(_, claim, _, job) => ClaimOk(claim, job, h)
    case Checking(_, claim, _, job) => ClaimOk(claim, job, h)
    case Tagging(i, _, job) => !job.PublishState? && !job.NextEvent?
        && (job.EnterDispatch? ==> h != 0 && TargetAt(s, i).handle == h)
    case Working(i, k, _, job) =>
      if job.PublishState? then job.pub.token == k && (job.at > 0 ==> Named(s.handles, job.pub, h))
      else job.EnterDispatch? ==> Named(s.handles, job.pub, h)
    case Unpinning(_, rest) => rest.Some? ==> ClaimOk(rest.value.0, rest.value.1, h)
    case Publishing(_, pub) => Named(s.handles, pub, h)
    case Locked(stage) => StageNamed(s.handles, TargetAt(s, StageSlot(stage, None)), stage, h)
    case _ => true
  }

  predicate StageNamed(handles: map<nat, nat>, x: Target, stage: Stage, h: nat) {
    match stage
    case PickSlot(g, _) => h != 0 && g == h
    case StoreToken(_, g, _) => h != 0 && g == h
    case ResetData(_, k, _) => h != 0 && x.handle == h && k in handles && handles[k] == h
    case CasActive(_, k, _) => h != 0 && x.handle == h && k in handles && handles[k] == h
    case _ => true
  }

  predicate CmdNamed(handles: map<nat, nat>, h: nat, c: Cmd) {
    match c
    case DoPublish(pub) => Named(handles, pub, h)
    case DoArm(_, k, _) => h != 0 && k in handles && handles[k] == h
    case DoScan(claim, job) => ClaimOk(claim, job, h)
    case DoLock(e) => e.PickSlot? ==> h != 0 && e.handle == h
    case _ => true
  }

  predicate Withdrawing(c: Cmd) { c == DoPublish(NOTHING) || c.DoDiscard? || c.DoSync? || c.DoClearHandle? }

  predicate Harmless(pc: Pc) {
    match pc
    case Scanning(_, _, job) => !Publishes(job)
    case ScanningToken(_, _, job) => !Publishes(job)
    case Loading(_, _, job) => !Publishes(job)
    case Trying(_, _, _, job) => !Publishes(job)
    case Checking(_, _, _, job) => !Publishes(job)
    case Tagging(_, _, job) => !Publishes(job)
    case Working(_, _, _, job) => !Publishes(job)
    case Unpinning(_, rest) => rest.Some? ==> !Publishes(rest.value.1)
    case Publishing(_, pub) => pub == NOTHING
    case Locked(_) => false
    case _ => true
  }

  /** A dispatch_leave call empties the slot before it forgets the handle. */
  predicate Leaving(w: Worker, m: Pc, todo: seq<Cmd>) {
    DoClearHandle in todo ==>
      && (forall c :: c in todo ==> Withdrawing(c))
      && Harmless(m)
      && (todo[0] == DoPublish(NOTHING) || (m.Publishing? && m.at <= 6) || w.published.target == None)
  }

  ghost predicate ThreadNamed(s: Host, t: nat) {
    var w, m := WorkerOf(s, t), PcOf(s, MainOf(t));
    && Named(s.handles, w.published, w.handle)
    && PcNamed(s, w.handle, m)
    && (forall c :: c in Todo(s, t) ==> CmdNamed(s.handles, w.handle, c))
    && Leaving(w, m, Todo(s, t))
  }

  predicate HandleKept(handles: map<nat, nat>, x: Target) {
    x.handle != 0 && x.token in handles && handles[x.token] == x.handle
  }

  ghost predicate DispatchInv(s: Host) {
    && (forall t: nat :: ThreadNamed(s, t))
    && (forall t: nat, u: nat :: t != u && WorkerOf(s, t).handle != 0 ==>
        WorkerOf(s, t).handle != WorkerOf(s, u).handle)
    && (forall i: nat :: InUse(TargetAt(s, i)) ==> HandleKept(s.handles, TargetAt(s, i)))
    && (forall k: nat :: k in s.handles ==> k <= s.nextToken)
  }

  ghost predicate HandlesGrow(s: Host, s': Host) {
    forall k: nat :: k in s.handles ==> k in s'.handles && s'.handles[k] == s.handles[k]
  }

  /** A step of one agent keeps every other thread's part of the invariant. */
  lemma OthersNamed(s: Host, s': Host, t: nat)
    requires ThreadNamed(s, t) && HandlesGrow(s, s')
    requires WorkerOf(s', t) == WorkerOf(s, t) && PcOf(s', MainOf(t)) == PcOf(s, MainOf(t)) && Todo(s', t) == Todo(s, t)
    requires var m := PcOf(s, MainOf(t));
      && (m.Tagging? ==> TargetAt(s', m.slot).handle == TargetAt(s, m.slot).handle)
      && (m.Locked? && (m.stage.ResetData? || m.stage.CasActive?) ==>
            TargetAt(s', m.stage.slot).handle == TargetAt(s, m.stage.slot).handle)
    ensures ThreadNamed(s', t)
  {
  }

  /** Steps that keep handles, tokens and worker slots, and only narrow the set
      of slots in use. */
  ghost predicate KeepsNames(s: Host, s': Host) {
    && s'.handles == s.handles && s'.nextToken == s.nextToken && s'.workers == s.workers && s'.todo == s.todo
    && (forall i: nat ::
        TargetAt(s', i).handle == TargetAt(s, i).handle && TargetAt(s', i).token == TargetAt(s, i).token)
    && (forall i: nat :: InUse(TargetAt(s', i)) ==> InUse(TargetAt(s, i)))
  }

  /** `pc'` may follow `pc` as far as dispatching is concerned. */
  ghost predicate Follows(s: Host, h: nat, pc: Pc, pc': Pc) {
    && (PcNamed(s, h, pc) ==> PcNamed(s, h, pc'))
    && (Harmless(pc) ==> Harmless(pc'))
    && !pc.Publishing?
  }

  lemma MoveOwn(s: Host, a: Agent, pc': Pc, s': Host)
    requires ThreadNamed(s, a.tid) && KeepsNames(s, s') && s'.pcs == s.pcs[a := pc'] && a.level == Main
    requires Follows(s, WorkerOf(s, a.tid).handle, PcOf(s, a), pc')
    ensures ThreadNamed(s', a.tid)
  {
    assert WorkerOf(s', a.tid) == WorkerOf(s, a.tid) && Todo(s', a.tid) == Todo(s, a.tid);
    assert PcNamed(s', WorkerOf(s, a.tid).handle, pc');
  }

  lemma MoveNamed(s: Host, a: Agent, pc': Pc, s': Host)
    requires DispatchInv(s) && KeepsNames(s, s') && s'.pcs == s.pcs[a := pc']
    requires a.level == Main ==> Follows(s, WorkerOf(s, a.tid).handle, PcOf(s, a), pc')
    ensures DispatchInv(s')
  {
    assert forall t: nat :: WorkerOf(s', t) == WorkerOf(s, t);
    forall t: nat
      ensures ThreadNamed(s', t)
    {
      assert ThreadNamed(s, t);
      if MainOf(t) == a {
        MoveOwn(s, a, pc', s');
      } else {
        assert Todo(s', t) == Todo(s, t);
        OthersNamed(s, s', t);
      }
    }
  }

  /** Steps that leave slots, workers and commands alone. */
  lemma LocalNamed(s: Host, a: Agent, pc': Pc, s': Host)
    requires DispatchInv(s) && s'.pcs == s.pcs[a := pc'] && s'.targets == s.targets && s'.workers == s.workers
    requires s'.handles == s.handles && s'.nextToken == s.nextToken && s'.todo == s.todo
    requires a.level == Main ==> Follows(s, WorkerOf(s, a.tid).handle, PcOf(s, a), pc')
    ensures DispatchInv(s')
  {
    assert forall i: nat :: TargetAt(s', i) == TargetAt(s, i);
    MoveNamed(s, a, pc', s');
  }

  lemma ProbeFollows(s: Host, a: Agent, h: nat)
    requires PcOf(s, a).Scanning? || PcOf(s, a).ScanningToken?
    ensures Follows(s, h, PcOf(s, a), ProbePc(s, a))
  {
  }

  lemma CasFollows(s: Host, x: Target, h: nat, pc: Pc, spurious: bool)
    requires pc.Trying?
    ensures Follows(s, h, pc, CasPc(x, pc, spurious))
  {
  }

  lemma CheckFollows(s: Host, a: Agent, h: nat)
    requires PcOf(s, a).Checking? || PcOf(s, a).Tagging?
    requires HandleKept(s.handles, TargetAt(s, PcOf(s, a).slot))
    ensures Follows(s, h, PcOf(s, a), CheckPc(s, a))
  {
  }

  lemma PinnedInUse(s: Host, a: Agent, i: nat)
    requires PinInv(s) && Pinned(PcOf(s, a), i)
    ensures InUse(TargetAt(s, i))
  {
    assert a in TargetAt(s, i).pinners;
  }

  lemma CasNamed(s: Host, a: Agent, spurious: bool)
    requires DispatchInv(s) && PcOf(s, a).Trying?
    ensures DispatchInv(CasNext(s, a, spurious))
  {
    var x := TargetAt(s, PcOf(s, a).slot);
    CasFollows(s, x, WorkerOf(s, a.tid).handle, PcOf(s, a), spurious);
    CasKeepsNames(s, a, spurious);
    MoveNamed(s, a, CasPc(x, PcOf(s, a), spurious), CasNext(s, a, spurious));
  }

  lemma CasKeepsNames(s: Host, a: Agent, spurious: bool)
    requires PcOf(s, a).Trying?
    ensures KeepsNames(s, CasNext(s, a, spurious))
  {
    forall i: nat
      ensures var x, x' := TargetAt(s, i), TargetAt(CasNext(s, a, spurious), i);
        x'.handle == x.handle && x'.token == x.token && (InUse(x') ==> InUse(x))
    {
      CasKeeps(s, a, spurious, i);
    }
  }

  lemma CheckNamed(s: Host, a: Agent)
    requires PinInv(s) && DispatchInv(s) && Enabled(s, Check(a))
    ensures DispatchInv(Goto(s, a, CheckPc(s, a)))
  {
    PinnedInUse(s, a, PcOf(s, a).slot);
    CheckFollows(s, a, WorkerOf(s, a.tid).handle);
    LocalNamed(s, a, CheckPc(s, a), Goto(s, a, CheckPc(s, a)));
  }

  lemma ProbeNamed(s: Host, a: Agent)
    requires DispatchInv(s) && (PcOf(s, a).Scanning? || PcOf(s, a).ScanningToken?)
    ensures DispatchInv(Goto(s, a, ProbePc(s, a)))
  {
    ProbeFollows(s, a, WorkerOf(s, a.tid).handle);
    LocalNamed(s, a, ProbePc(s, a), Goto(s, a, ProbePc(s, a)));
  }

  lemma LoadNamed(s: Host, a: Agent)
    requires DispatchInv(s) && PcOf(s, a).Loading?
    ensures DispatchInv(Goto(s, a, LoadPc(s, a)))
  {
    LocalNamed(s, a, LoadPc(s, a), Goto(s, a, LoadPc(s, a)));
  }

  lemma UnpinNamed(s: Host, a: Agent)
    requires DispatchInv(s) && PcOf(s, a).Unpinning?
    ensures DispatchInv(UnpinNext(s, a))
  {
    UnpinKeepsNames(s, a);
    MoveNamed(s, a, UnpinPc(PcOf(s, a)), UnpinNext(s, a));
  }

  lemma UnpinKeepsNames(s: Host, a: Agent)
    requires PcOf(s, a).Unpinning?
    ensures KeepsNames(s, UnpinNext(s, a))
  {
  }

  lemma EffectKind(d: Data, phase: Phase, job: Job, more: Option<nat>)
    requires !Publishes(job)
    ensures Effect(d, phase, job, more).next.Some? ==> !Publishes(Effect(d, phase, job, more).next.value)
  {
  }

  lemma ChargeNamed(s: Host, a: Agent, more: Option<nat>)
    requires DispatchInv(s) && PcOf(s, a).Working? && !Publishes(PcOf(s, a).task)
    ensures DispatchInv(ChargeNext(s, a, more))
  {
    var pc, d := PcOf(s, a), TargetAt(s, PcOf(s, a).slot).data;
    EffectKind(d, pc.phase, pc.task, more);
    ChargeKeepsNames(s, a, more);
    MoveNamed(s, a, ChargePc(pc, Effect(d, pc.phase, pc.task, more).next), ChargeNext(s, a, more));
  }

  lemma ChargeKeepsNames(s: Host, a: Agent, more: Option<nat>)
    requires PcOf(s, a).Working?
    ensures KeepsNames(s, ChargeNext(s, a, more))
  {
  }

  lemma HandlerNamed(s: Host, step: Step)
    requires DispatchInv(s) && Enabled(s, step) && (step.Interrupt? || step.Sample?)
    ensures DispatchInv(Next(s, step))
  {
    LocalNamed(s, HandlerOf(step.t), PcOf(Next(s, step), HandlerOf(step.t)), Next(s, step));
  }

  lemma WaitNamed(s: Host, t: nat)
    requires DispatchInv(s) && PcOf(s, MainOf(t)).Waiting?
    ensures DispatchInv(WaitNext(s, t))
  {
    LocalNamed(s, MainOf(t), PcOf(WaitNext(s, t), MainOf(t)), WaitNext(s, t));
  }

  /** Steps of one thread's own calls that change its worker slot or commands. */
  lemma OwnNamed(s: Host, t: nat, s': Host)
    requires DispatchInv(s) && s'.handles == s.handles && s'.nextToken == s.nextToken && s'.targets == s.targets
    requires forall u: nat :: u != t ==>
      WorkerOf(s', u) == WorkerOf(s, u) && PcOf(s', MainOf(u)) == PcOf(s, MainOf(u)) && Todo(s', u) == Todo(s, u)
    requires forall u: nat :: u != t && WorkerOf(s', t).handle != 0 ==> WorkerOf(s', t).handle != WorkerOf(s, u).handle
    requires ThreadNamed(s', t)
    ensures DispatchInv(s')
  {
    assert forall i: nat :: TargetAt(s', i) == TargetAt(s, i);
    forall u: nat
      ensures ThreadNamed(s', u)
    {
      if u != t {
        OthersNamed(s, s', u);
      }
    }
  }

  lemma PublishOwn(s: Host, a: Agent)
    requires ThreadNamed(s, a.tid) && a.level == Main && PcOf(s, a).Working? && Publishes(PcOf(s, a).task)
    requires TargetAt(s, PcOf(s, a).slot).token == PcOf(s, a).token
    requires HandleKept(s.handles, TargetAt(s, PcOf(s, a).slot))
    ensures ThreadNamed(Goto(PutW(s, a.tid, PublishStore(WorkerOf(s, a.tid), PcOf(s, a).task)), a, PublishPc(s, a)),
                        a.tid)
  {
    assert DoClearHandle !in Todo(s, a.tid);
  }

  lemma PublishNamed(s: Host, a: Agent, more: Option<nat>)
    requires PinInv(s) && SlotInv(s) && DispatchInv(s)
    requires Enabled(s, Work(a, more)) && Publishes(PcOf(s, a).task)
    ensures DispatchInv(WorkNext(s, a, more))
  {
    var s' := WorkNext(s, a, more);
    PublishReady(s, a, more);
    PublishOwn(s, a);
    PublishFrame(s, a, more);
    OwnNamed(s, a.tid, s');
  }

  /** A thread publishes on its own, for the session it has pinned. */
  lemma PublishReady(s: Host, a: Agent, more: Option<nat>)
    requires PinInv(s) && SlotInv(s) && DispatchInv(s)
    requires Enabled(s, Work(a, more)) && Publishes(PcOf(s, a).task)
    ensures ThreadNamed(s, a.tid) && a.level == Main && TargetAt(s, PcOf(s, a).slot).token == PcOf(s, a).token
  {
    assert ThreadOk(WorkerOf(s, a.tid), PcOf(s, MainOf(a.tid)), PcOf(s, HandlerOf(a.tid)));
    PinnedInUse(s, a, PcOf(s, a).slot);
    assert ThreadNamed(s, a.tid);
  }

  lemma PublishFrame(s: Host, a: Agent, more: Option<nat>)
    requires Enabled(s, Work(a, more)) && Publishes(PcOf(s, a).task) && a.level == Main
    ensures var s' := WorkNext(s, a, more);
      && s'.handles == s.handles && s'.nextToken == s.nextToken && s'.targets == s.targets
      && (forall u: nat :: u != a.tid ==>
          WorkerOf(s', u) == WorkerOf(s, u) && PcOf(s', MainOf(u)) == PcOf(s, MainOf(u)))
      && (forall u: nat :: Todo(s', u) == Todo(s, u))
  {
  }

  lemma StoreKeepsPublished(w: Worker, at: nat, pub: Pub)
    ensures var w' := StoreAt(w, at, pub);
      w'.handle == w.handle && w'.published == (if at == 6 then pub else w.published)
  {
  }

  lemma StoreOwn(s: Host, t: nat)
    requires ThreadNamed(s, t) && PcOf(s, MainOf(t)).Publishing?
    ensures ThreadNamed(StoreNext(s, t), t)
  {
    var pc := PcOf(s, MainOf(t));
    StoreKeepsPublished(WorkerOf(s, t), pc.at, pc.pub);
    assert WorkerOf(StoreNext(s, t), t) == StoreAt(WorkerOf(s, t), pc.at, pc.pub);
    assert PcOf(StoreNext(s, t), MainOf(t)) == StorePc(pc);
  }

  lemma StoreNamed(s: Host, t: nat)
    requires DispatchInv(s) && PcOf(s, MainOf(t)).Publishing?
    ensures DispatchInv(StoreNext(s, t))
  {
    var s' := StoreNext(s, t);
    assert ThreadNamed(s, t);
    StoreOwn(s, t);
    StoreKeepsPublished(WorkerOf(s, t), PcOf(s, MainOf(t)).at, PcOf(s, MainOf(t)).pub);
    assert WorkerOf(s', t).handle == WorkerOf(s, t).handle;
    assert s'.todo == s.todo && s'.targets == s.targets;
    OwnNamed(s, t, s');
  }

  lemma CallNamed(handles: map<nat, nat>, w: Worker, call: Call, h: nat, c: Cmd)
    requires c in CallCommands(w, call) && (call.DispatchEnter? ==> h == call.handle != 0)
    requires call.TargetStart? ==> h == w.handle
    ensures CmdNamed(handles, h, c)
  {
  }

  lemma LeaveBegins(w: Worker, w': Worker, call: Call)
    ensures Leaving(w', Idle, CallCommands(w, call))
  {
    if call.DispatchLeave? {
      assert CallCommands(w, call)[0] == DoPublish(NOTHING);
    } else {
      assert DoClearHandle !in CallCommands(w, call);
    }
  }

  lemma BeginOwn(s: Host, t: nat, call: Call)
    requires ThreadNamed(s, t) && PcOf(s, MainOf(t)) == Idle && Todo(s, t) == [] && Permitted(s, t, call)
    ensures ThreadNamed(BeginNext(s, t, call), t)
  {
    var s', w := BeginNext(s, t, call), WorkerOf(s, t);
    var h := WorkerOf(s', t).handle;
    assert Todo(s', t) == CallCommands(w, call) && PcOf(s', MainOf(t)) == Idle;
    forall c | c in Todo(s', t) ensures CmdNamed(s'.handles, h, c) {
      CallNamed(s.handles, w, call, h, c);
    }
    LeaveBegins(w, WorkerOf(s', t), call);
    if call.DispatchEnter? {
      assert w.published.target == None;
    }
  }

  lemma BeginNamed(s: Host, t: nat, call: Call)
    requires DispatchInv(s) && Enabled(s, Begin(t, call)) && Permitted(s, t, call)
    ensures DispatchInv(BeginNext(s, t, call))
  {
    var s', h := BeginNext(s, t, call), if call.DispatchEnter? then call.handle else WorkerOf(s, t).handle;
    assert ThreadNamed(s, t);
    BeginOwn(s, t, call);
    assert WorkerOf(s', t).handle == h;
    assert forall u: nat :: u != t && h != 0 ==> h != WorkerOf(s, u).handle;
    OwnNamed(s, t, s');
  }

  lemma RestNamed(handles: map<nat, nat>, h: nat, todo: seq<Cmd>, armed: bool, c: Cmd)
    requires todo != [] && (forall d :: d in todo ==> CmdNamed(handles, h, d))
    requires c in CommandRest(todo[0], todo[1..], armed)
    ensures CmdNamed(handles, h, c)
  {
    assert todo[0] in todo;
    if c in todo[1..] {
      assert c in todo;
    }
  }

  lemma CommandNames(s: Host, t: nat, cmd: Cmd, armed: bool, h: nat)
    requires CmdNamed(s.handles, h, cmd) && !cmd.DoLock?
    ensures PcNamed(s, h, CommandPc(s, t, cmd, armed))
  {
  }

  /** A dispatch_leave call goes on withdrawing. */
  lemma LeaveContinues(s: Host, t: nat, armed: bool)
    requires Todo(s, t) != [] && Leaving(WorkerOf(s, t), Idle, Todo(s, t))
    ensures var cmd, rest := Todo(s, t)[0], Todo(s, t)[1..];
      && (DoClearHandle in Todo(s, t) ==> CommandRest(cmd, rest, armed) == rest)
      && forall w: Worker :: w.published == WorkerOf(s, t).published ==>
           Leaving(w, CommandPc(s, t, cmd, armed), CommandRest(cmd, rest, armed))
  {
    var todo := Todo(s, t);
    assert todo[0] in todo;
    if DoClearHandle in todo {
      assert Withdrawing(todo[0]);
      assert forall c :: c in todo[1..] ==> c in todo;
    } else {
      assert forall c :: c in todo[1..] ==> c in todo;
      assert DoClearHandle !in CommandRest(todo[0], todo[1..], armed);
    }
  }

  lemma ClearNames(handles: map<nat, nat>, w: Worker, todo: seq<Cmd>, c: Cmd)
    requires todo != [] && todo[0].DoClearHandle? && Leaving(w, Idle, todo) && c in todo[1..]
    ensures CmdNamed(handles, 0, c) && w.published.target == None
  {
    assert todo[0] in todo && c in todo;
    assert Withdrawing(c);
  }

  lemma CommandOwn(s: Host, t: nat, armed: bool)
    requires ThreadNamed(s, t) && PcOf(s, MainOf(t)) == Idle && Todo(s, t) != [] && !Todo(s, t)[0].DoLock?
    ensures ThreadNamed(CommandNext(s, t, armed), t)
  {
    var s', todo := CommandNext(s, t, armed), Todo(s, t);
    var h := WorkerOf(s', t).handle;
    assert todo[0] in todo;
    LeaveContinues(s, t, armed);
    assert Todo(s', t) == CommandRest(todo[0], todo[1..], armed);
    assert PcOf(s', MainOf(t)) == CommandPc(s, t, todo[0], armed);
    forall c | c in Todo(s', t) ensures CmdNamed(s'.handles, h, c) {
      if todo[0].DoClearHandle? {
        ClearNames(s.handles, WorkerOf(s, t), todo, c);
      } else {
        RestNamed(s.handles, h, todo, armed, c);
      }
    }
    if !todo[0].DoClearHandle? {
      CommandNames(s, t, todo[0], armed, h);
    } else {
      ClearPublished(WorkerOf(s, t), todo);
    }
  }

  lemma ClearPublished(w: Worker, todo: seq<Cmd>)
    requires todo != [] && todo[0].DoClearHandle? && Leaving(w, Idle, todo)
    ensures w.published.target == None
  {
    assert todo[0] in todo;
  }

  lemma CommandNamed(s: Host, t: nat, armed: bool)
    requires DispatchInv(s) && Enabled(s, Command(t, armed))
    ensures DispatchInv(CommandNext(s, t, armed))
  {
    assert ThreadNamed(s, t);
    CommandOwn(s, t, armed);
    OwnNamed(s, t, CommandNext(s, t, armed));
  }

  lemma AcquireOwn(s: Host, t: nat)
    requires ThreadNamed(s, t) && PcOf(s, MainOf(t)) == Idle && Todo(s, t) != [] && Todo(s, t)[0].DoLock?
    ensures ThreadNamed(AcquireNext(s, t), t)
  {
    var s', todo := AcquireNext(s, t), Todo(s, t);
    assert todo[0] in todo;
    assert forall c :: c in todo[1..] ==> c in todo;
    assert DoClearHandle !in todo by {
      assert DoClearHandle in todo ==> Withdrawing(todo[0]);
    }
    assert Todo(s', t) == todo[1..] && PcOf(s', MainOf(t)) == Locked(todo[0].entry);
  }

  lemma AcquireNamed(s: Host, t: nat)
    requires DispatchInv(s) && Enabled(s, Acquire(t))
    ensures DispatchInv(AcquireNext(s, t))
  {
    assert ThreadNamed(s, t);
    AcquireOwn(s, t);
    OwnNamed(s, t, AcquireNext(s, t));
  }

  /** The slot under the lock keeps its name until it is cleared or renamed. */
  lemma RewriteNamed(x: Target, stage: Stage, found: Option<nat>, newToken: nat, granted: bool)
    requires Knows(x, stage) && SlotOk(x) && !stage.StoreToken?
    ensures var x' := Rewrite(x, stage, found, newToken, granted);
      && (stage.ClearHandle? || x'.handle == x.handle)
      && (InUse(x') ==> x'.handle == x.handle && x'.token == x.token)
      && (InUse(x') ==> InUse(x) || (stage.CasActive? && x.token == stage.token))
  {
  }

  /** Threads that do not hold the lock, while its holder rewrites slot `i`. */
  lemma LockOthers(s: Host, s': Host, t: nat, i: nat, u: nat)
    requires PinInv(s) && ThreadNamed(s, u) && u != t && PcOf(s, MainOf(t)).Locked? && HandlesGrow(s, s')
    requires forall j: nat :: j != i ==> TargetAt(s', j) == TargetAt(s, j)
    requires TargetAt(s', i).handle == TargetAt(s, i).handle || TargetAt(s, i).pinners == {}
    requires WorkerOf(s', u) == WorkerOf(s, u) && PcOf(s', MainOf(u)) == PcOf(s, MainOf(u)) && Todo(s', u) == Todo(s, u)
    ensures ThreadNamed(s', u)
  {
    assert !PcOf(s, MainOf(u)).Locked?;
    if PcOf(s, MainOf(u)).Tagging? {
      assert MainOf(u) in TargetAt(s, PcOf(s, MainOf(u)).slot).pinners;
    }
    OthersNamed(s, s', u);
  }

  lemma SuccessorNamed(handles: map<nat, nat>, x: Target, stage: Stage, found: Option<nat>, newToken: nat,
                       granted: bool, h: nat)
    requires !stage.Unlocking? && !stage.StoreToken? && StageNamed(handles, x, stage, h)
    ensures StageNamed(handles, Rewrite(x, stage, found, newToken, granted),
                       Successor(x, stage, found, newToken, granted), h)
  {
  }

  lemma StageBegins(s: Host, t: nat)
    requires ThreadNamed(s, t) && PcOf(s, MainOf(t)).Locked?
    ensures var g := PcOf(s, MainOf(t)).stage;
      StageNamed(s.handles, TargetAt(s, StageSlot(g, Found(s, g))), g, WorkerOf(s, t).handle)
    ensures DoClearHandle !in Todo(s, t) && forall c :: c in Todo(s, t) ==>
              CmdNamed(s.handles, WorkerOf(s, t).handle, c)
  {
  }

  lemma StageTodoNamed(s: Host, t: nat, x: Target, stage: Stage, granted: bool, h: nat)
    requires StageNamed(s.handles, x, stage, h)
    requires forall c :: c in Todo(s, t) ==> CmdNamed(s.handles, h, c)
    requires DoClearHandle !in Todo(s, t)
    ensures forall c :: c in StageTodo(s, t, x, stage, granted) ==> CmdNamed(s.handles, h, c) && !c.DoClearHandle?
  {
  }

  lemma LockedNamed(s: Host, s': Host, t: nat, next: Stage)
    requires ThreadNamed(s, t) && PcOf(s, MainOf(t)).Locked? && PcOf(s', MainOf(t)) == Locked(next)
    requires s'.handles == s.handles && WorkerOf(s', t) == WorkerOf(s, t)
    requires StageNamed(s.handles, TargetAt(s', StageSlot(next, None)), next, WorkerOf(s, t).handle)
    requires forall c :: c in Todo(s', t) ==> CmdNamed(s.handles, WorkerOf(s, t).handle, c) && !c.DoClearHandle?
    ensures ThreadNamed(s', t)
  {
  }

  lemma StageTodos(s: Host, t: nat, granted: bool, s': Host)
    requires PcOf(s, MainOf(t)).Locked? && s' == CriticalNext(s, t, PcOf(s, MainOf(t)).stage, granted)
    requires var g := PcOf(s, MainOf(t)).stage;
      StageNamed(s.handles, TargetAt(s, StageSlot(g, Found(s, g))), g, WorkerOf(s, t).handle)
    requires DoClearHandle !in Todo(s, t) && forall c :: c in Todo(s, t) ==>
              CmdNamed(s.handles, WorkerOf(s, t).handle, c)
    ensures forall c :: c in Todo(s', t) ==> CmdNamed(s.handles, WorkerOf(s, t).handle, c) && !c.DoClearHandle?
  {
    var stage := PcOf(s, MainOf(t)).stage;
    StageTodoNamed(s, t, TargetAt(s, StageSlot(stage, Found(s, stage))), stage, granted, WorkerOf(s, t).handle);
    CriticalTodo(s, t, granted);
  }

  lemma StageOwn(s: Host, t: nat, granted: bool, s': Host)
    requires ThreadNamed(s, t) && PcOf(s, MainOf(t)).Locked?
    requires var g := PcOf(s, MainOf(t)).stage; var x := TargetAt(s, StageSlot(g, Found(s, g)));
      !g.Unlocking? && !g.StoreToken? && SlotOk(x) && x.word.readers == |x.pinners| && Knows(x, g)
    requires s' == CriticalNext(s, t, PcOf(s, MainOf(t)).stage, granted)
    ensures ThreadNamed(s', t)
  {
    var stage := PcOf(s, MainOf(t)).stage;
    var found := Found(s, stage);
    var next := Successor(TargetAt(s, StageSlot(stage, found)), stage, found, s.nextToken + 1, granted);
    StageBegins(s, t);
    StageTodos(s, t, granted, s');
    StageNext(s, t, granted, s');
    CriticalHandles(s, t, stage, granted);
    LockedNamed(s, s', t, next);
  }

  lemma NextNamed(handles: map<nat, nat>, x: Target, stage: Stage, found: Option<nat>, newToken: nat,
                  granted: bool, h: nat, y: Target)
    requires !stage.Unlocking? && !stage.StoreToken? && SlotOk(x) && x.word.readers == |x.pinners|
    requires Knows(x, stage) && StageNamed(handles, x, stage, h)
    requires stage.PickSlot? && found.Some? ==> x.word == Word(0, FREE)
    requires stage.FindActive? && found.Some? ==> x.word.phase == ACTIVE && x.token == stage.token
    requires stage.FindStopping? && found.Some? ==> x.word.phase == STOPPING && x.token == stage.token
    requires var next := Successor(x, stage, found, newToken, granted);
      StageSlot(next, None) == StageSlot(stage, found) ==> y == Rewrite(x, stage, found, newToken, granted)
    ensures StageNamed(handles, y, Successor(x, stage, found, newToken, granted), h)
  {
    SuccessorNamed(handles, x, stage, found, newToken, granted, h);
    StageShape(x, stage, found, newToken, granted);
  }

  lemma StageNext(s: Host, t: nat, granted: bool, s': Host)
    requires PcOf(s, MainOf(t)).Locked?
    requires var g := PcOf(s, MainOf(t)).stage; var x := TargetAt(s, StageSlot(g, Found(s, g)));
      && !g.Unlocking? && !g.StoreToken? && SlotOk(x) && x.word.readers == |x.pinners| && Knows(x, g)
      && StageNamed(s.handles, x, g, WorkerOf(s, t).handle)
    requires s' == CriticalNext(s, t, PcOf(s, MainOf(t)).stage, granted)
    ensures var g := PcOf(s, MainOf(t)).stage; var x := TargetAt(s, StageSlot(g, Found(s, g)));
      var next := Successor(x, g, Found(s, g), s.nextToken + 1, granted);
      && WorkerOf(s', t) == WorkerOf(s, t) && PcOf(s', MainOf(t)) == Locked(next)
      && StageNamed(s.handles, TargetAt(s', StageSlot(next, None)), next, WorkerOf(s, t).handle)
  {
    var stage := PcOf(s, MainOf(t)).stage;
    var found := Found(s, stage);
    var x := TargetAt(s, StageSlot(stage, found));
    var next := Successor(x, stage, found, s.nextToken + 1, granted);
    CriticalShape(s, t, stage, granted);
    NextNamed(s.handles, x, stage, found, s.nextToken + 1, granted, WorkerOf(s, t).handle,
              TargetAt(s', StageSlot(next, None)));
  }

  lemma CriticalHandles(s: Host, t: nat, stage: Stage, granted: bool)
    requires !stage.Unlocking? && !stage.StoreToken?
    ensures CriticalNext(s, t, stage, granted).handles == s.handles
  {
  }

  lemma RewriteKept(handles: map<nat, nat>, x: Target, stage: Stage, found: Option<nat>, newToken: nat,
                    granted: bool, h: nat)
    requires Knows(x, stage) && SlotOk(x) && !stage.StoreToken? && StageNamed(handles, x, stage, h)
    requires InUse(x) ==> HandleKept(handles, x)
    requires InUse(Rewrite(x, stage, found, newToken, granted))
    ensures HandleKept(handles, Rewrite(x, stage, found, newToken, granted))
  {
    RewriteNamed(x, stage, found, newToken, granted);
  }

  lemma StageInUse(s: Host, t: nat, granted: bool, j: nat)
    requires PinInv(s) && DispatchInv(s) && PcOf(s, MainOf(t)).Locked?
    requires var g := PcOf(s, MainOf(t)).stage; !g.Unlocking? && !g.StoreToken?
    requires InUse(TargetAt(CriticalNext(s, t, PcOf(s, MainOf(t)).stage, granted), j))
    ensures HandleKept(s.handles, TargetAt(CriticalNext(s, t, PcOf(s, MainOf(t)).stage, granted), j))
  {
    var stage := PcOf(s, MainOf(t)).stage;
    var found := Found(s, stage);
    var i := StageSlot(stage, found);
    SlotFacts(s, t);
    CriticalTargets(s, t, granted);
    assert ThreadNamed(s, t);
    StageBegins(s, t);
    if TargetAt(CriticalNext(s, t, stage, granted), j) == TargetAt(s, j) {
      assert HandleKept(s.handles, TargetAt(s, j));
    } else {
      RewriteKept(s.handles, TargetAt(s, i), stage, found, s.nextToken + 1, granted, WorkerOf(s, t).handle);
    }
  }

  lemma StageOthers(s: Host, t: nat, granted: bool, u: nat)
    requires PinInv(s) && ThreadNamed(s, u) && u != t && PcOf(s, MainOf(t)).Locked?
    requires var g := PcOf(s, MainOf(t)).stage; !g.Unlocking? && !g.StoreToken?
    ensures ThreadNamed(CriticalNext(s, t, PcOf(s, MainOf(t)).stage, granted), u)
  {
    var stage := PcOf(s, MainOf(t)).stage;
    var i, s' := StageSlot(stage, Found(s, stage)), CriticalNext(s, t, stage, granted);
    StageFrame(s, t, granted, s');
    StageSlotName(s, t, granted, i, s');
    CriticalHandles(s, t, stage, granted);
    LockOthers(s, s', t, i, u);
  }

  lemma StageFrame(s: Host, t: nat, granted: bool, s': Host)
    requires PcOf(s, MainOf(t)).Locked? && s' == CriticalNext(s, t, PcOf(s, MainOf(t)).stage, granted)
    requires var g := PcOf(s, MainOf(t)).stage; !g.Unlocking? && !g.StoreToken?
    ensures forall u: nat :: u != t ==>
              WorkerOf(s', u) == WorkerOf(s, u) && PcOf(s', MainOf(u)) == PcOf(s, MainOf(u))
                  && Todo(s', u) == Todo(s, u)
  {
    CriticalShape(s, t, PcOf(s, MainOf(t)).stage, granted);
    CriticalTodo(s, t, granted);
  }

  lemma StageSlotName(s: Host, t: nat, granted: bool, i: nat, s': Host)
    requires PinInv(s) && PcOf(s, MainOf(t)).Locked? && s' == CriticalNext(s, t, PcOf(s, MainOf(t)).stage, granted)
    requires var g := PcOf(s, MainOf(t)).stage; !g.Unlocking? && !g.StoreToken? && i == StageSlot(g, Found(s, g))
    ensures forall j: nat :: j != i ==> TargetAt(s', j) == TargetAt(s, j)
    ensures TargetAt(s', i).handle == TargetAt(s, i).handle || TargetAt(s, i).pinners == {}
  {
    var stage := PcOf(s, MainOf(t)).stage;
    SlotFacts(s, t);
    CriticalShape(s, t, stage, granted);
    RewriteNamed(TargetAt(s, i), stage, Found(s, stage), s.nextToken + 1, granted);
  }

  lemma StagesNamed(s: Host, t: nat, granted: bool)
    requires PinInv(s) && DispatchInv(s) && PcOf(s, MainOf(t)).Locked?
    requires var g := PcOf(s, MainOf(t)).stage; !g.Unlocking? && !g.StoreToken?
    ensures DispatchInv(CriticalNext(s, t, PcOf(s, MainOf(t)).stage, granted))
  {
    var stage := PcOf(s, MainOf(t)).stage;
    var s' := CriticalNext(s, t, stage, granted);
    CriticalShape(s, t, stage, granted);
    CriticalHandles(s, t, stage, granted);
    assert forall u: nat :: WorkerOf(s', u) == WorkerOf(s, u);
    forall u: nat
      ensures ThreadNamed(s', u)
    {
      assert ThreadNamed(s, u);
      if u == t {
        SlotFacts(s, t);
        StageOwn(s, t, granted, s');
      } else {
        StageOthers(s, t, granted, u);
      }
    }
    forall j: nat | InUse(TargetAt(s', j))
      ensures HandleKept(s'.handles, TargetAt(s', j))
    {
      StageInUse(s, t, granted, j);
    }
  }

  /** The statement that gives a session its token. */
  lemma StoreTokenShape(s: Host, t: nat, granted: bool)
    requires PcOf(s, MainOf(t)).Locked? && PcOf(s, MainOf(t)).stage.StoreToken?
    ensures var StoreToken(i, h, state) := PcOf(s, MainOf(t)).stage;
      var s', k := CriticalNext(s, t, PcOf(s, MainOf(t)).stage, granted), s.nextToken + 1;
      && TargetAt(s', i) == TargetAt(s, i).(handle := h, token := k, mainState := state)
      && (forall j: nat :: j != i ==> TargetAt(s', j) == TargetAt(s, j))
      && s'.pcs == s.pcs[MainOf(t) := Locked(ResetData(i, k, state))]
      && s'.workers == s.workers && s'.todo == s.todo && s'.nextToken == k && s'.handles == s.handles[k := h]
  {
  }

  lemma StoreTokenOwn(s: Host, t: nat, granted: bool)
    requires ThreadNamed(s, t) && PcOf(s, MainOf(t)).Locked? && PcOf(s, MainOf(t)).stage.StoreToken?
    requires forall k: nat :: k in s.handles ==> k <= s.nextToken
    ensures ThreadNamed(CriticalNext(s, t, PcOf(s, MainOf(t)).stage, granted), t)
  {
    StoreTokenShape(s, t, granted);
    assert Todo(CriticalNext(s, t, PcOf(s, MainOf(t)).stage, granted), t) == Todo(s, t);
  }

  lemma StoreTokenOthers(s: Host, t: nat, granted: bool, u: nat)
    requires PinInv(s) && DispatchInv(s) && PcOf(s, MainOf(t)).Locked? && PcOf(s, MainOf(t)).stage.StoreToken?
    requires u != t
    ensures ThreadNamed(CriticalNext(s, t, PcOf(s, MainOf(t)).stage, granted), u)
  {
    SlotFacts(s, t);
    StoreTokenShape(s, t, granted);
    assert ThreadNamed(s, u);
    assert Todo(CriticalNext(s, t, PcOf(s, MainOf(t)).stage, granted), u) == Todo(s, u);
    LockOthers(s, CriticalNext(s, t, PcOf(s, MainOf(t)).stage, granted), t, PcOf(s, MainOf(t)).stage.slot, u);
  }

  lemma StoreTokenNamed(s: Host, t: nat, granted: bool)
    requires PinInv(s) && DispatchInv(s) && PcOf(s, MainOf(t)).Locked? && PcOf(s, MainOf(t)).stage.StoreToken?
    ensures DispatchInv(CriticalNext(s, t, PcOf(s, MainOf(t)).stage, granted))
  {
    var stage := PcOf(s, MainOf(t)).stage;
    var s' := CriticalNext(s, t, stage, granted);
    SlotFacts(s, t);
    StoreTokenShape(s, t, granted);
    assert forall u: nat :: WorkerOf(s', u) == WorkerOf(s, u);
    forall u: nat
      ensures ThreadNamed(s', u)
    {
      if u != t {
        StoreTokenOthers(s, t, granted, u);
      } else {
        StoreTokenOwn(s, t, granted);
      }
    }
    forall j: nat | InUse(TargetAt(s', j))
      ensures HandleKept(s'.handles, TargetAt(s', j))
    {
      assert j != stage.slot && HandleKept(s.handles, TargetAt(s, j));
    }
  }

  lemma UnlockNamed(s: Host, t: nat)
    requires DispatchInv(s) && PcOf(s, MainOf(t)) == Locked(Unlocking)
    ensures DispatchInv(Goto(s, MainOf(t), Idle).(lock := None))
  {
    MoveNamed(s, MainOf(t), Idle, Goto(s, MainOf(t), Idle).(lock := None));
  }

  lemma AgentNamed(s: Host, step: Step)
    requires PinInv(s) && SlotInv(s) && DispatchInv(s) && Enabled(s, step)
    requires step.Probe? || step.Load? || step.Cas? || step.Check? || step.Work? || step.Unpin?
    ensures DispatchInv(Next(s, step))
  {
    match step
    case Probe(a) => ProbeNamed(s, a);
    case Load(a) => LoadNamed(s, a);
    case Cas(a, spurious) => CasNamed(s, a, spurious);
    case Check(a) => CheckNamed(s, a);
    case Work(a, more) =>
      if Publishes(PcOf(s, a).task) {
        PublishNamed(s, a, more);
      } else {
        ChargeNamed(s, a, more);
      }
    case Unpin(a) => UnpinNamed(s, a);
  }

  lemma CriticalNamed(s: Host, t: nat, granted: bool)
    requires PinInv(s) && DispatchInv(s) && PcOf(s, MainOf(t)).Locked?
    ensures DispatchInv(CriticalNext(s, t, PcOf(s, MainOf(t)).stage, granted))
  {
    var stage := PcOf(s, MainOf(t)).stage;
    if stage.Unlocking? {
      UnlockNamed(s, t);
    } else if stage.StoreToken? {
      StoreTokenNamed(s, t, granted);
    } else {
      StagesNamed(s, t, granted);
    }
  }

  lemma StepNamed(s: Host, step: Step)
    requires PinInv(s) && SlotInv(s) && DispatchInv(s) && Enabled(s, step) && Obeys(s, step)
    ensures DispatchInv(Next(s, step))
  {
    match step
    case Interrupt(_, _) => HandlerNamed(s, step);
    case Sample(_) => HandlerNamed(s, step);
    case Store(t) => StoreNamed(s, t);
    case Begin(t, call) => BeginNamed(s, t, call);
    case Command(t, armed) => CommandNamed(s, t, armed);
    case Acquire(t) => AcquireNamed(s, t);
    case Critical(t, granted) => CriticalNamed(s, t, granted);
    case Wait(t) => WaitNamed(s, t);
    case _ => AgentNamed(s, step);
  }

  lemma RunNamed(s: Host, steps: seq<Step>)
    requires PinInv(s) && SlotInv(s) && DispatchInv(s) && Legal(s, steps) && Obedient(s, steps)
    ensures PinInv(Run(s, steps)) && SlotInv(Run(s, steps)) && DispatchInv(Run(s, steps))
    decreases |steps|
  {
    if steps != [] {
      StepPins(s, steps[0]);
      StepSlots(s, steps[0]);
      StepNamed(s, steps[0]);
      RunNamed(Next(s, steps[0]), steps[1..]);
    }
  }

  /** The states a host reaches that keeps to the rules. */
  ghost predicate RuledReachable(s: Host) {
    exists steps: seq<Step> :: Legal(BOOT, steps) && Obedient(BOOT, steps) && Run(BOOT, steps) == s
  }

  lemma BootNamed()
    ensures PinInv(BOOT) && SlotInv(BOOT) && DispatchInv(BOOT)
  {
    BootPins();
  }

  lemma ReachableNamed(s: Host)
    requires RuledReachable(s)
    ensures DispatchInv(s) && Reachable(s)
  {
    var steps :| Legal(BOOT, steps) && Obedient(BOOT, steps) && Run(BOOT, steps) == s;
    BootNamed();
    RunNamed(BOOT, steps);
  }

  /** The worker whose handler accepted a tick is dispatching that session's handle. */
  lemma TickerDispatches(s: Host, t: nat)
    requires RuledReachable(s) && PcOf(s, HandlerOf(t)).Working? && PcOf(s, HandlerOf(t)).task.Tick?
    ensures var k := TargetAt(s, PcOf(s, HandlerOf(t)).slot).token;
      k in s.handles && s.handles[k] == WorkerOf(s, t).handle != 0
  {
    ReachableNamed(s);
    ReachablePins(s);
    HandlersAreFaithful(s, t);
    assert ThreadNamed(s, t);
  }

  /** Two handlers that have pinned the same slot for a tick are the same one. */
  lemma OneProducerPerRing(s: Host, t: nat, u: nat)
    requires RuledReachable(s)
    requires PcOf(s, HandlerOf(t)).Working? && PcOf(s, HandlerOf(t)).task.Tick? && PcOf(s, HandlerOf(u)).Working?
              && PcOf(s, HandlerOf(u)).task.Tick?
    requires PcOf(s, HandlerOf(t)).slot == PcOf(s, HandlerOf(u)).slot
    ensures t == u
  {
    TickerDispatches(s, t);
    TickerDispatches(s, u);
    ReachableNamed(s);
  }
}
