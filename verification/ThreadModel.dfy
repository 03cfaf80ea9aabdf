/** The thread backend of src/thread_timer.c driven by src/lua_bridge.c. The
    owner thread's accesses to the timer are single steps; the signal handler
    runs to completion on the same thread between any two of them. */
module ThreadModel {
  import opened Common

  const CAPACITY := 4096
  const WRAP := 0x1_0000_0000_0000_0000
  const HOST := 0

  datatype Event = Event(state: nat, vmState: int, cfunction: word)

  /** Counters that take_quality exchanges for zero. */
  datatype Quality = Quality(dropped: nat, unstable: nat, overhead: nat,
                             overrunEvents: nat, overrunTicks: nat)

  const NO_LOSS := Quality(0, 0, 0, 0, 0)

  /** struct lp_thread_timer; sequences are 64-bit and wrap. */
  datatype Timer = Timer(cells: seq<Event>, write: nat, read: nat, quality: Quality,
                         version: nat, slot: Event, active: bool, draining: bool)

  const IDLE_EVENT := Event(0, HOST, 0)

  function NewTimer(): Timer {
    Timer(seq(CAPACITY, _ => IDLE_EVENT), 0, 0, NO_LOSS, 0, IDLE_EVENT, false, true)
  }

  /** si_overrun counts only when positive. */
  function Overrun(info: int): nat { if info <= 0 then 0 else info }

  function Overran(q: Quality, info: int): Quality {
    if Overrun(info) == 0 then q
    else q.(overrunEvents := q.overrunEvents + 1, overrunTicks := q.overrunTicks + Overrun(info))
  }

  predicate Unusable(ev: Event) {
    ev.state == 0 || ev.vmState < 0 || ev.vmState > 3 || (ev.vmState == 2 && ev.cfunction == 0)
  }

  /** write - read in 64-bit arithmetic. */
  function Pending(t: Timer): nat { (t.write - t.read) % WRAP }

  /** What timer_signal_handler makes of one delivery to an active timer. */
  datatype Verdict = Overhead | Unstable | Dropped | Queued

  function Judge(t: Timer): Verdict {
    if t.draining then Overhead
    else if t.version % 2 != 0 || Unusable(t.slot) then Unstable
    else if Pending(t) >= CAPACITY then Dropped
    else Queued
  }

  function Deliver(t: Timer, info: int): Timer
    requires |t.cells| == CAPACITY
  {
    var t1 := t.(quality := Overran(t.quality, info));
    match Judge(t)
    case Overhead => t1.(quality := t1.quality.(overhead := t1.quality.overhead + 1))
    case Unstable => t1.(quality := t1.quality.(unstable := t1.quality.unstable + 1))
    case Dropped => t1.(quality := t1.quality.(dropped := t1.quality.dropped + 1))
    case Queued => t1.(cells := t.cells[t.write % CAPACITY := t.slot], write := (t.write + 1) % WRAP)
  }

  /** A delivery found pending while the timer is being disarmed. */
  function Discarded(t: Timer, info: int): Timer {
    var q := Overran(t.quality, info);
    t.(quality := q.(dropped := q.dropped + 1))
  }

  /** The accesses of lp_thread_timer_publish_state. */
  function PublishAt(t: Timer, k: nat, ev: Event): Timer {
    if k == 0 then t.(version := t.version + 1)
    else if k == 1 then t.(slot := t.slot.(state := ev.state))
    else if k == 2 then t.(slot := t.slot.(cfunction := ev.cfunction))
    else if k == 3 then t.(slot := t.slot.(vmState := ev.vmState))
    else t.(version := t.version + 1)
  }

  /** The five exchanges of lp_thread_timer_take_quality. */
  function Zeroed(q: Quality, k: nat): Quality {
    if k == 0 then q.(dropped := 0)
    else if k == 1 then q.(unstable := 0)
    else if k == 2 then q.(overhead := 0)
    else if k == 3 then q.(overrunEvents := 0)
    else q.(overrunTicks := 0)
  }

  function Gained(q: Quality, taken: Quality, k: nat): Quality {
    if k == 0 then taken.(dropped := q.dropped)
    else if k == 1 then taken.(unstable := q.unstable)
    else if k == 2 then taken.(overhead := q.overhead)
    else if k == 3 then taken.(overrunEvents := q.overrunEvents)
    else taken.(overrunTicks := q.overrunTicks)
  }

  function Add(a: Quality, b: Quality): Quality {
    Quality(a.dropped + b.dropped, a.unstable + b.unstable, a.overhead + b.overhead,
            a.overrunEvents + b.overrunEvents, a.overrunTicks + b.overrunTicks)
  }

  /** lp_result_stats as far as CPU ticks are concerned; `byState` is
      sample_host, sample_lua, sample_c and sample_gc. */
  datatype Stats = Stats(samples: nat, byState: seq<nat>, aggregateOverflows: nat, quality: Quality)

  const NO_STATS := Stats(0, [0, 0, 0, 0], 0, NO_LOSS)

  /** lp_cpu_profile_record; `stored` says the aggregate table had room. */
  function Recorded(p: Stats, ev: Event, stored: bool): Stats
    requires |p.byState| == 4
  {
    if ev.vmState < 0 || ev.vmState > 3 then p
    else if !stored then p.(aggregateOverflows := p.aggregateOverflows + 1)
    else p.(samples := p.samples + 1, byState := p.byState[ev.vmState := p.byState[ev.vmState] + 1])
  }

  /** The bridge entry point the owner thread is in. */
  datatype Op =
    | SafePoint
    | HandBack(state: nat)
    | Change(ev: Event)
    | GuardBegin
    | GuardEnd
    | Start
    | Stop

  datatype Stage =
    | Ready
    | BeginDepth
    | BeginStore
    | Publish(k: nat)
    | LoadRead
    | LoadWrite(read: nat)
    | Copy(read: nat)
    | Advance(read: nat, ev: Event)
    | Record(ev: Event)
    | Take(k: nat, taken: Quality)
    | Report(taken: Quality)
    | EndDepth
    | EndStore
    | Return
    | Arm
    | Disarm
    | Discarding

  datatype Mode = Off | On | Done

  /** The fields from `produced` on are auxiliary: every event queued so far, how
      many were taken out, the deliveries seen, the sum of positive overruns, the
      coroutines that were entered and whose HOST callback has not returned, and
      the last completed publication. */
  datatype Bridge = Bridge(timer: Timer, mode: Mode, depth: nat, op: Op, stage: Stage,
                           mainState: nat, stats: Stats,
                           produced: seq<Event>, consumed: nat,
                           accepted: nat, discarded: nat, overrun: nat, running: set<nat>,
                           published: Event)

  function Boot(mainState: nat): Bridge {
    Bridge(NewTimer(), Off, 0, GuardEnd, Ready, mainState, NO_STATS, [], 0, 0, 0, 0, {}, IDLE_EVENT)
  }

  datatype Step =
    | Interrupt(info: int)
    | Call(op: Op)
    | Main(info: int, flag: bool)

  function Published(s: Bridge): Event
    requires s.op.Change? || s.op.HandBack?
  {
    if s.op.Change? then s.op.ev else Event(s.mainState, HOST, 0)
  }

  /** Calls the host makes: hooks are installed only while the timer runs, and a
      HOST change of a coroutine is its hand-back. */
  predicate Callable(s: Bridge, op: Op) {
    match op
    case SafePoint => s.mode == On
    case HandBack(state) => s.mode == On && state != s.mainState && state != 0
    case Change(ev) => s.mode == On && ev.state != 0 && (ev.vmState == HOST ==> ev.state == s.mainState)
    case GuardBegin => s.mode != Done
    case GuardEnd => s.mode != Done
    case Start => s.mode == Off
    case Stop => s.mode == On
  }

  predicate Enabled(s: Bridge, step: Step) {
    match step
    case Interrupt(_) => s.mode == On && s.timer.active && |s.timer.cells| == CAPACITY
    case Call(op) => s.stage == Ready && Callable(s, op)
    case Main(_, _) => s.stage != Ready && |s.stats.byState| == 4 && |s.timer.cells| == CAPACITY
  }

  function FirstStage(op: Op): Stage {
    match op
    case SafePoint => BeginDepth
    case HandBack(_) => BeginDepth
    case Change(_) => Publish(0)
    case GuardBegin => BeginDepth
    case GuardEnd => EndDepth
    case Start => Arm
    case Stop => Disarm
  }

  predicate Guards(stage: Stage) { stage.BeginDepth? || stage.BeginStore? || stage.EndDepth? || stage.EndStore? }

  predicate Drains(stage: Stage) {
    stage.LoadRead? || stage.LoadWrite? || stage.Copy? || stage.Advance? || stage.Record? || stage.Take?
        || stage.Report?
  }

  /** The statements each entry point consists of. */
  predicate Fits(op: Op, stage: Stage) {
    stage.Ready? || stage.Return? ||
    match op
    case SafePoint => Guards(stage) || Drains(stage)
    case HandBack(_) => Guards(stage) || Drains(stage) || stage.Publish?
    case Change(_) => stage.Publish?
    case GuardBegin => stage.BeginDepth? || stage.BeginStore?
    case GuardEnd => stage.EndDepth? || stage.EndStore?
    case Start => stage.Arm? || stage.EndStore?
    case Stop => stage.Disarm? || stage.Discarding? || Drains(stage)
  }

  /** Where the entry point goes after its guard is entered, its slot is
      published, its ring and counters are drained, and its guard is left. */
  function AfterBegin(op: Op): Stage {
    match op case HandBack(_) => Publish(0) case SafePoint => LoadRead case _ => Return
  }

  function AfterPublish(op: Op): Stage { if op.HandBack? then LoadRead else Return }

  function AfterReport(op: Op): Stage { if op.Stop? then Return else EndDepth }

  function Next(s: Bridge, step: Step): Bridge
    requires Enabled(s, step)
  {
    match step
    case Interrupt(info) =>
      s.(timer := Deliver(s.timer, info), accepted := s.accepted + 1, overrun := s.overrun + Overrun(info),
         produced := if Judge(s.timer).Queued? then s.produced + [s.timer.slot] else s.produced)
    case Call(op) =>
      s.(op := op, stage := FirstStage(op), mode := if op.Start? then On else s.mode,
         timer := if op.Start? then NewTimer() else s.timer,
         published := if op.Start? then IDLE_EVENT else s.published,
         running := if op.Change? && op.ev.vmState != HOST then s.running + {op.ev.state} else s.running)
    case Main(info, flag) => MainNext(s, info, flag)
  }

  /** One statement of the owner thread. `flag` is the host's choice: arming
      succeeds, another delivery is pending while disarming, or the aggregate
      table has room. */
  function MainNext(s: Bridge, info: int, flag: bool): Bridge
    requires s.stage != Ready && |s.stats.byState| == 4 && |s.timer.cells| == CAPACITY
  {
    var t := s.timer;
    match s.stage
    case Ready => s
    case BeginDepth =>
      s.(depth := s.depth + 1,
         stage := if s.depth == 0 && s.mode == On then BeginStore else AfterBegin(s.op))
    case BeginStore => s.(timer := t.(draining := true), stage := AfterBegin(s.op))
    case Publish(k) =>
      if s.op.Change? || s.op.HandBack? then
        s.(timer := PublishAt(t, k, Published(s)), stage := if k < 4 then Publish(k + 1) else AfterPublish(s.op),
           published := if k < 4 then s.published else Published(s))
      else s
    case LoadRead => s.(stage := LoadWrite(t.read))
    case LoadWrite(r) => s.(stage := if r == t.write then Take(0, NO_LOSS) else Copy(r))
    case Copy(r) => s.(stage := Advance(r, t.cells[r % CAPACITY]))
    case Advance(r, ev) => s.(timer := t.(read := (r + 1) % WRAP), consumed := s.consumed + 1, stage := Record(ev))
    case Record(ev) => s.(stats := Recorded(s.stats, ev, flag), stage := LoadRead)
    case Take(k, taken) =>
      s.(timer := t.(quality := Zeroed(t.quality, k)),
         stage := if k < 4 then Take(k + 1, Gained(t.quality, taken, k)) else Report(Gained(t.quality, taken, k)))
    case Report(taken) =>
      s.(stats := s.stats.(quality := Add(s.stats.quality, taken)), stage := AfterReport(s.op))
    case EndDepth =>
      if s.depth == 0 then s.(stage := Return)
      else s.(depth := s.depth - 1, stage := if s.depth == 1 && s.mode == On then EndStore else Return)
    case EndStore => s.(timer := t.(draining := false), stage := Return)
    case Return =>
      s.(stage := Ready, mode := if s.op.Stop? then Done else s.mode,
         running := if s.op.HandBack? then s.running - {s.op.state} else s.running)
    case Arm =>
      if flag then s.(timer := t.(active := true), stage := if s.depth == 0 then EndStore else Return)
      else s.(mode := Off, stage := Return)
    case Disarm => s.(timer := t.(active := false), stage := Discarding)
    case Discarding =>
      if flag then s.(timer := Discarded(t, info), discarded := s.discarded + 1, overrun := s.overrun + Overrun(info))
      else s.(stage := LoadRead)
  }

  ghost predicate Legal(s: Bridge, steps: seq<Step>)
    decreases |steps|
  {
    steps == [] || (Enabled(s, steps[0]) && Legal(Next(s, steps[0]), steps[1..]))
  }

  ghost function Run(s: Bridge, steps: seq<Step>): Bridge
    requires Legal(s, steps)
    decreases |steps|
  {
    if steps == [] then s else Run(Next(s, steps[0]), steps[1..])
  }
}
