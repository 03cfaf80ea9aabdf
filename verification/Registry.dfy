/** The target registry of src/skynet_host.c: what each critical section under
    host_lock does to the slots, the active count and the shared frequency. Pins
    do not matter here; SkynetModel has them. Token numbers do not wrap. */
module Registry {
  import opened Common
  import opened SkynetModel

  const CAPACITY := 128

  datatype Slot = Slot(phase: Phase, handle: nat, token: nat, mainState: nat, generation: nat, sampleHz: nat,
                       events: bool, timerFailures: nat)

  function Active(s: Slot): nat { if s.phase == ACTIVE then 1 else 0 }

  function CountActive(slots: seq<Slot>): nat {
    if |slots| == 0 then 0 else CountActive(slots[..|slots| - 1]) + Active(slots[|slots| - 1])
  }

  lemma {:induction false} CountOfChange(slots: seq<Slot>, i: nat, s: Slot)
    requires i < |slots|
    ensures CountActive(slots[i := s]) + Active(slots[i]) == CountActive(slots) + Active(s)
  {
    var n := |slots| - 1;
    if i == n {
      assert slots[i := s][..n] == slots[..n];
    } else {
      assert slots[i := s][..n] == slots[..n][i := s];
      CountOfChange(slots[..n], i, s);
    }
  }

  lemma {:induction false} CountZero(slots: seq<Slot>)
    ensures CountActive(slots) == 0 <==> forall i: nat :: i < |slots| ==> slots[i].phase != ACTIVE
  {
    if |slots| > 0 {
      var n := |slots| - 1;
      CountZero(slots[..n]);
      if slots[n].phase != ACTIVE && CountActive(slots[..n]) == 0 {
        forall i: nat | i < |slots| ensures slots[i].phase != ACTIVE {
          if i < n { assert slots[..n][i] == slots[i]; }
        }
      } else if CountActive(slots[..n]) != 0 {
        var i: nat :| i < n && slots[..n][i].phase == ACTIVE;
        assert slots[i].phase == ACTIVE;
      }
    }
  }

  /** All active slots run at the shared frequency. */
  ghost predicate SameHz(slots: seq<Slot>, hz: nat) {
    forall i: nat :: i < |slots| && slots[i].phase == ACTIVE ==> slots[i].sampleHz == hz != 0
  }

  /** Slots in use have their own handle and token, and a ring; free ones are blank. */
  ghost predicate Identified(slots: seq<Slot>, nextToken: nat) {
    && (forall i: nat :: i < |slots| ==>
          if slots[i].phase == FREE then slots[i].(timerFailures := 0) == BLANK
          else
            && slots[i].phase != RECLAIMING && slots[i].events && slots[i].handle != 0
            && 0 < slots[i].token <= nextToken)
    && (forall i: nat, j: nat :: i < j < |slots| && slots[i].phase != FREE && slots[j].phase != FREE ==>
          slots[i].handle != slots[j].handle && slots[i].token != slots[j].token)
  }

  const BLANK := Slot(FREE, 0, 0, 0, 0, 0, false, 0)

  /** The registry invariant, true whenever the lock is free. */
  ghost predicate Ordered(slots: seq<Slot>, active: nat, hz: nat, nextToken: nat) {
    && active == CountActive(slots)
    && (active == 0 <==> hz == 0)
    && SameHz(slots, hz)
    && Identified(slots, nextToken)
  }

  /** record_active_timer_failure. */
  function Failed(s: Slot): Slot { if s.phase == ACTIVE then s.(timerFailures := s.timerFailures + 1) else s }

  ghost predicate AllFailed(s: seq<Slot>, t: seq<Slot>) {
    |t| == |s| && forall i: nat :: i < |s| ==> t[i] == Failed(s[i])
  }

  lemma {:induction false} FailedCount(s: seq<Slot>, t: seq<Slot>)
    requires AllFailed(s, t)
    ensures CountActive(t) == CountActive(s)
  {
    if |s| > 0 {
      FailedCount(s[..|s| - 1], t[..|s| - 1]);
    }
  }

  lemma FailedKeepsOrder(s: seq<Slot>, t: seq<Slot>, active: nat, hz: nat, nextToken: nat)
    requires Ordered(s, active, hz, nextToken) && AllFailed(s, t)
    ensures Ordered(t, active, hz, nextToken)
  {
    FailedCount(s, t);
    forall i: nat | i < |s| ensures t[i] == Failed(s[i]) {
    }
  }

  /** The slot `i` starts, stops or is freed: the invariant moves along. */
  lemma StartKeepsOrder(slots: seq<Slot>, active: nat, hz: nat, nextToken: nat, i: nat, s: Slot)
    requires Ordered(slots, active, hz, nextToken) && i < |slots| && slots[i].phase == FREE
    requires s.phase == ACTIVE && s.token == nextToken + 1 && s.handle != 0 && s.events && s.sampleHz != 0
    requires active != 0 ==> hz == s.sampleHz
    requires forall j: nat :: j < |slots| && slots[j].phase != FREE ==> slots[j].handle != s.handle
    ensures Ordered(slots[i := s], active + 1, s.sampleHz, nextToken + 1)
  {
    CountOfChange(slots, i, s);
    CountZero(slots);
  }

  lemma StopKeepsOrder(slots: seq<Slot>, active: nat, hz: nat, nextToken: nat, i: nat, s: Slot)
    requires Ordered(slots, active, hz, nextToken) && i < |slots| && slots[i].phase == ACTIVE
    requires s == slots[i].(phase := STOPPING) || s.(timerFailures := 0) == BLANK
    ensures active > 0
    ensures Ordered(slots[i := s], active - 1, if active == 1 then 0 else hz, nextToken)
  {
    CountOfChange(slots, i, s);
    CountZero(slots[i := s]);
  }

  lemma FreeKeepsOrder(slots: seq<Slot>, active: nat, hz: nat, nextToken: nat, i: nat, s: Slot)
    requires Ordered(slots, active, hz, nextToken) && i < |slots| && slots[i].phase == STOPPING
    requires s.(timerFailures := 0) == BLANK
    ensures Ordered(slots[i := s], active, hz, nextToken)
  {
    CountOfChange(slots, i, s);
  }

  // ---------- starts ----------

  /** The first free slot from `i` on, or the end. */
  function FirstFree(slots: seq<Slot>, i: nat): (r: nat)
    requires i <= |slots|
    ensures i <= r <= |slots| && (r < |slots| ==> slots[r].phase == FREE)
    ensures forall j: nat :: i <= j < r ==> slots[j].phase != FREE
    decreases |slots| - i
  {
    if i == |slots| || slots[i].phase == FREE then i else FirstFree(slots, i + 1)
  }

  predicate HandleTaken(slots: seq<Slot>, handle: nat) {
    exists i: nat :: i < |slots| && slots[i].phase != FREE && slots[i].handle == handle
  }

  /** What a start asks for, and whether calloc would succeed. */
  datatype Request = Request(handle: nat, mainState: nat, generation: nat, hz: nat, memory: bool)

  /** The critical section of a start lets the request in. */
  predicate Room(slots: seq<Slot>, active: nat, activeHz: nat, q: Request) {
    && (active == 0 || activeHz == q.hz) && q.memory
    && !HandleTaken(slots, q.handle) && FirstFree(slots, 0) < |slots|
  }

  /** Nothing but the timer can make the start fail. */
  predicate Admissible(slots: seq<Slot>, active: nat, activeHz: nat, failed: bool, q: Request, current: Option<nat>) {
    && q.handle != 0 && q.mainState != 0 && q.generation != 0 && q.hz != 0 && current == Some(q.handle) && !failed
    && Room(slots, active, activeHz, q)
  }

  function Started(q: Request, token: nat): Slot {
    Slot(ACTIVE, q.handle, token, q.mainState, q.generation, q.hz, true, 0)
  }

  // ---------- timers that cannot be set ----------

  /** sync_worker_timer has to set the timer of a worker whose timer runs at `armedHz`. */
  predicate SetsTimer(active: nat, hz: nat, armedHz: nat) {
    if active == 0 || hz == 0 then armedHz != 0 else armedHz != hz
  }

  predicate TimerOk(active: nat, hz: nat, armedHz: nat, sets: bool) { SetsTimer(active, hz, armedHz) ==> sets }

  predicate Mine(s: Slot, token: nat) { s.phase == ACTIVE && s.token == token }

  /** The slots after a timer could not be set for the start with this slot and token,
      and the start was rolled back. */
  function AfterFailure(slots: seq<Slot>, i: nat, token: nat): (t: seq<Slot>)
    requires i < |slots|
    ensures |t| == |slots|
  {
    seq(|slots|, j requires 0 <= j < |slots| =>
      if j == i && Mine(slots[i], token) then BLANK.(timerFailures := slots[i].timerFailures + 1) else Failed(slots[j]))
  }

  ghost predicate SparesOthers(slots: seq<Slot>, t: seq<Slot>, i: nat) {
    |t| == |slots| && forall j: nat :: j < |slots| && j != i ==> t[j] == slots[j]
  }

  /** A failed start leaves the other targets alone exactly if none of them is active
      at the moment its timer fails; those that are gain a failure. */
  lemma FailureSparesOthers(slots: seq<Slot>, active: nat, hz: nat, nextToken: nat, i: nat, token: nat)
    requires Ordered(slots, active, hz, nextToken) && i < |slots|
    ensures SparesOthers(slots, AfterFailure(slots, i, token), i)
            <==> active == if slots[i].phase == ACTIVE then 1 else 0
  {
    var others, t := slots[i := BLANK], AfterFailure(slots, i, token);
    CountOfChange(slots, i, BLANK);
    CountZero(others);
    if CountActive(others) > 0 {
      var j: nat :| j < |others| && others[j].phase == ACTIVE;
      assert j != i && t[j].timerFailures == slots[j].timerFailures + 1;
    } else {
      assert forall j: nat :: j < |others| && j != i ==> others[j] == slots[j];
    }
  }

  /** So, when no other call comes in between, exactly if none was active to begin with. */
  lemma FailedStartSparesOthers(slots: seq<Slot>, active: nat, hz: nat, nextToken: nat, i: nat, q: Request)
    requires Ordered(slots, active, hz, nextToken) && Room(slots, active, hz, q) && q.handle != 0 && q.hz != 0
    requires i == FirstFree(slots, 0)
    ensures SparesOthers(slots, AfterFailure(slots[i := Started(q, nextToken + 1)], i, nextToken + 1), i) <==>
              active == 0
  {
    var s := Started(q, nextToken + 1);
    StartKeepsOrder(slots, active, hz, nextToken, i, s);
    FailureSparesOthers(slots[i := s], active + 1, q.hz, nextToken + 1, i, nextToken + 1);
  }

  function NoTargets(): (r: seq<Slot>)
    ensures |r| == CAPACITY
  {
    seq(CAPACITY, _ => BLANK)
  }

  lemma FreeAfterOne(s: Slot)
    requires s.phase != FREE
    ensures FirstFree(NoTargets(), 0) == 0 && FirstFree(NoTargets()[0 := s], 0) == 1
  {
    assert FirstFree(NoTargets()[0 := s], 0) == FirstFree(NoTargets()[0 := s], 1);
  }

  const FIRST := Request(7, 1, 1, 100, true)
  const SECOND := Request(8, 2, 2, 100, true)

  /** Two services: while the first is profiled, the second's start cannot set its timer.
      Its worker has not set it before if this dispatch began before the first start. */
  lemma FailureReachesEarlierStart()
    ensures var one := NoTargets()[0 := Started(FIRST, 1)];
      && Ordered(one, 1, 100, 1) && Admissible(one, 1, 100, false, SECOND, Some(8)) && !TimerOk(2, 100, 0, false)
      && AfterFailure(one[1 := Started(SECOND, 2)], 1, 2)[0] == Started(FIRST, 1).(timerFailures := 1)
  {
    var one := NoTargets()[0 := Started(FIRST, 1)];
    FreeAfterOne(Started(FIRST, 1));
    CountZero(NoTargets());
    StartKeepsOrder(NoTargets(), 0, 0, 0, 0, Started(FIRST, 1));
    assert !HandleTaken(one, 8);
    var two := one[1 := Started(SECOND, 2)];
    assert AfterFailure(two, 1, 2)[0] == Failed(two[0]);
  }

  /** Two workers: nothing was active when the first start began, but the second was let
      in before the first one's timer failed. */
  lemma FailureReachesLaterStart()
    ensures var one := NoTargets()[0 := Started(FIRST, 1)];
      var two := one[1 := Started(SECOND, 2)];
      && Ordered(NoTargets(), 0, 0, 0) && Admissible(NoTargets(), 0, 0, false, FIRST, Some(7))
      && Admissible(one, 1, 100, false, SECOND, Some(8)) && !TimerOk(2, 100, 0, false)
      && AfterFailure(two, 0, 1)[1] == Started(SECOND, 2).(timerFailures := 1)
      && AfterFailure(two, 0, 1)[0] == BLANK.(timerFailures := 1)
  {
    FreeAfterOne(Started(FIRST, 1));
    CountZero(NoTargets());
    var one := NoTargets()[0 := Started(FIRST, 1)];
    assert !HandleTaken(NoTargets(), 7) && !HandleTaken(one, 8);
    var two := one[1 := Started(SECOND, 2)];
    assert AfterFailure(two, 0, 1)[1] == Failed(two[1]);
  }

  class Registry {
    const targets: array<Slot>
    var activeTargets: nat
    var activeHz: nat
    var nextToken: nat
    var hostFailed: bool

    ghost predicate Valid()
      reads this, targets
    {
      targets.Length == CAPACITY && Ordered(targets[..], activeTargets, activeHz, nextToken)
    }

    constructor ()
      ensures Valid() && fresh(targets) && activeTargets == nextToken == 0 && !hostFailed
      ensures forall i: nat :: i < CAPACITY ==> targets[i] == BLANK
    {
      targets := new Slot[CAPACITY](_ => BLANK);
      activeTargets, activeHz, nextToken, hostFailed := 0, 0, 0, false;
      new;
      CountZero(targets[..]);
    }

    /** The loop of api_target_start: the first free slot, unless the handle is in use. */
    method PickSlot(handle: nat) returns (taken: bool, selected: nat)
      requires Valid()
      ensures taken <==> HandleTaken(targets[..], handle)
      ensures !taken ==> selected == FirstFree(targets[..], 0)
    {
      taken, selected := false, CAPACITY;
      for i := 0 to CAPACITY
        invariant !taken && selected <= CAPACITY
        invariant forall j: nat :: j < i && targets[j].phase != FREE ==> targets[j].handle != handle
        invariant FirstFree(targets[..], 0) == if selected < CAPACITY then selected else FirstFree(targets[..], i)
      {
        if targets[i].phase != FREE && targets[i].handle == handle {
          assert HandleTaken(targets[..], handle) by {
            assert targets[..][i].handle == handle;
          }
          taken := true;
          return;
        }
        if selected >= CAPACITY && targets[i].phase == FREE {
          selected := i;
        }
      }
    }

    /** The critical section of api_target_start. */
    method Admit(q: Request) returns (r: Option<nat>)
      requires Valid() && q.handle != 0 && q.hz != 0
      modifies this, targets
      ensures Valid() && hostFailed == old(hostFailed)
      ensures r.Some? <==> Room(old(targets[..]), old(activeTargets), old(activeHz), q)
      ensures r.None? ==> targets[..] == old(targets[..]) && activeTargets == old(activeTargets)
                          && activeHz == old(activeHz) && nextToken == old(nextToken)
      ensures r.Some? ==>
                && r.value == FirstFree(old(targets[..]), 0) < CAPACITY
                && nextToken == old(nextToken) + 1 && activeTargets == old(activeTargets) + 1 && activeHz == q.hz
                && targets[..] == old(targets[..])[r.value := Started(q, nextToken)]
    {
      if activeTargets != 0 && activeHz != q.hz { return None; }
      var taken, selected := PickSlot(q.handle);
      if taken || selected >= CAPACITY || !q.memory { return None; }
      var slot := Started(q, nextToken + 1);
      StartKeepsOrder(targets[..], activeTargets, activeHz, nextToken, selected, slot);
      nextToken := nextToken + 1;
      targets[selected] := slot;
      activeHz := q.hz;
      activeTargets := activeTargets + 1;
      assert targets[..] == old(targets[..])[selected := slot];
      r := Some(selected);
    }

    method CountDown()
      modifies this`activeTargets, this`activeHz
      ensures activeTargets == if old(activeTargets) > 0 then old(activeTargets) - 1 else 0
      ensures activeHz == if activeTargets == 0 then 0 else old(activeHz)
    {
      var count := activeTargets;
      if count > 0 {
        count := count - 1;
      }
      activeTargets := count;
      if count == 0 {
        activeHz := 0;
      }
    }

    /** rollback_target_start. */
    method Rollback(i: nat, token: nat)
      requires Valid() && i < CAPACITY
      modifies this`activeTargets, this`activeHz, targets
      ensures Valid()
      ensures var mine := old(targets[i]).phase == ACTIVE && old(targets[i]).token == token;
        && targets[..] == (if mine then old(targets[..])[i := BLANK.(timerFailures := old(targets[i]).timerFailures)]
                           else old(targets[..]))
        && activeTargets == old(activeTargets) - (if mine then 1 else 0)
        && activeHz == if mine && old(activeTargets) == 1 then 0 else old(activeHz)
    {
      if targets[i].phase == ACTIVE && targets[i].token == token {
        StopKeepsOrder(targets[..], activeTargets, activeHz, nextToken, i,
                       BLANK.(timerFailures := targets[i].timerFailures));
        targets[i] := targets[i].(phase := RECLAIMING);
        CountDown();
        Reclaim(i);
        assert targets[..] == old(targets[..])[i := BLANK.(timerFailures := old(targets[i]).timerFailures)];
      }
    }

    /** The end of a release and of a rollback, once no reader is left. */
    method Reclaim(i: nat)
      requires i < targets.Length && targets[i].phase == RECLAIMING
      modifies targets
      ensures targets[..] == old(targets[..])[i := BLANK.(timerFailures := old(targets[i]).timerFailures)]
    {
      targets[i] := targets[i].(events := false);
      targets[i] := targets[i].(handle := 0, token := 0, generation := 0, sampleHz := 0, mainState := 0);
      targets[i] := targets[i].(phase := FREE);
    }

    /** A failed timer_settime in sync_worker_timer. */
    method TimerFailure()
      requires Valid()
      modifies this`hostFailed, targets
      ensures Valid() && hostFailed && AllFailed(old(targets[..]), targets[..])
    {
      hostFailed := true;
      for i := 0 to CAPACITY
        invariant targets.Length == CAPACITY && hostFailed
        invariant forall j: nat :: j < CAPACITY ==>
                    targets[j] == if j < i then Failed(old(targets[j])) else old(targets[j])
      {
        targets[i] := Failed(targets[i]);
      }
      assert AllFailed(old(targets[..]), targets[..]);
      FailedKeepsOrder(old(targets[..]), targets[..], activeTargets, activeHz, nextToken);
    }

    /** sync_worker_timer of a worker whose timer runs at `armedHz`; `sets` is whether
        timer_settime would succeed. */
    method Sync(armedHz: nat, sets: bool) returns (ok: bool, armed: nat)
      requires Valid()
      modifies this`hostFailed, targets
      ensures Valid() && ok == TimerOk(activeTargets, activeHz, armedHz, sets)
      ensures ok ==> armed == (if activeTargets == 0 || activeHz == 0 then 0 else activeHz)
                     && hostFailed == old(hostFailed) && targets[..] == old(targets[..])
      ensures !ok ==> armed == armedHz && hostFailed && AllFailed(old(targets[..]), targets[..])
    {
      armed := if activeTargets == 0 || activeHz == 0 then 0 else activeHz;
      ok := armedHz == armed || sets;
      if !ok {
        armed := armedHz;
        TimerFailure();
      }
    }

    /** The end of a start, after its critical section: other calls may have come in
        between, and the slot may no longer be its own. */
    method Conclude(i: nat, token: nat, armedHz: nat, sets: bool) returns (ok: bool, armed: nat)
      requires Valid() && i < CAPACITY
      modifies this`hostFailed, this`activeTargets, this`activeHz, targets
      ensures Valid() && ok == TimerOk(old(activeTargets), old(activeHz), armedHz, sets)
      ensures ok ==> hostFailed == old(hostFailed) && targets[..] == old(targets[..])
                     && activeTargets == old(activeTargets) && activeHz == old(activeHz)
      ensures !ok ==>
                var mine := Mine(old(targets[i]), token);
                && hostFailed && targets[..] == AfterFailure(old(targets[..]), i, token)
                && activeTargets == old(activeTargets) - (if mine then 1 else 0)
                && activeHz == if mine && old(activeTargets) == 1 then 0 else old(activeHz)
    {
      ok, armed := Sync(armedHz, sets);
      if !ok {
        Rollback(i, token);
        assert targets[..] == AfterFailure(old(targets[..]), i, token);
      }
    }

    /** api_target_start of a worker in `current`'s dispatch, when no other call comes
        between its critical section and its end. */
    method Start(q: Request, current: Option<nat>, armedHz: nat, sets: bool) returns (token: Option<nat>)
      requires Valid()
      modifies this, targets
      ensures Valid()
      ensures var before, i := old(targets[..]), FirstFree(old(targets[..]), 0);
        var ok := Admissible(before, old(activeTargets), old(activeHz), old(hostFailed), q, current);
        var timed := armedHz == q.hz || sets;
        && token == (if ok && timed then Some(old(nextToken) + 1) else None)
        && nextToken == old(nextToken) + (if ok then 1 else 0)
        && (hostFailed <==> old(hostFailed) || (ok && !timed))
        && activeTargets == old(activeTargets) + (if ok && timed then 1 else 0)
        && activeHz == (if ok && timed then q.hz else old(activeHz))
        && targets[..] ==
             if !ok then before
             else if timed then before[i := Started(q, nextToken)]
             else AfterFailure(before[i := Started(q, nextToken)], i, nextToken)
    {
      if q.handle == 0 || q.mainState == 0 || q.generation == 0 || q.hz == 0 || current != Some(q.handle)
        || hostFailed {
        return None;
      }
      var selected := Admit(q);
      if selected.None? { return None; }
      var mine := nextToken;
      var ok, armed := Conclude(selected.value, mine, armedHz, sets);
      token := if ok then Some(mine) else None;
    }

    method Find(phase: Phase, token: nat) returns (i: nat)
      requires Valid()
      ensures i < CAPACITY ==> targets[i].phase == phase && targets[i].token == token
      ensures i >= CAPACITY ==> forall j: nat :: j < CAPACITY ==>
                !(targets[j].phase == phase && targets[j].token == token)
    {
      i := 0;
      while i < CAPACITY
        invariant i <= CAPACITY
        invariant forall j: nat :: j < i ==> !(targets[j].phase == phase && targets[j].token == token)
      {
        if targets[i].phase == phase && targets[i].token == token { return; }
        i := i + 1;
      }
    }

    /** The critical section of api_target_quiesce. */
    method Quiesce(token: nat) returns (found: bool)
      requires Valid()
      modifies this`activeTargets, this`activeHz, targets
      ensures Valid()
      ensures found <==> exists i: nat ::
                i < CAPACITY && old(targets[i]).phase == ACTIVE && old(targets[i]).token == token
      ensures !found ==>
                targets[..] == old(targets[..]) && activeTargets == old(activeTargets) && activeHz == old(activeHz)
      ensures found ==>
                && activeTargets == old(activeTargets) - 1
                    && activeHz == (if activeTargets == 0 then 0 else old(activeHz))
                && exists i: nat :: i < CAPACITY && old(targets[i]).phase == ACTIVE && old(targets[i]).token == token
                                    && targets[..] == old(targets[..])[i := old(targets[i]).(phase := STOPPING)]
    {
      var i := Find(ACTIVE, token);
      found := i < CAPACITY;
      if found {
        StopKeepsOrder(targets[..], activeTargets, activeHz, nextToken, i, targets[i].(phase := STOPPING));
        targets[i] := targets[i].(phase := STOPPING);
        CountDown();
        assert targets[..] == old(targets[..])[i := old(targets[i]).(phase := STOPPING)];
      }
    }

    /** api_target_release. */
    method Release(token: nat)
      requires Valid()
      modifies targets
      ensures Valid()
      ensures (forall i: nat :: i < CAPACITY ==>
               !(old(targets[i]).phase == STOPPING && old(targets[i]).token == token)) ==>
                targets[..] == old(targets[..])
      ensures forall i: nat :: i < CAPACITY && old(targets[i]).phase == STOPPING && old(targets[i]).token == token ==>
                targets[..] == old(targets[..])[i := BLANK.(timerFailures := old(targets[i]).timerFailures)]
    {
      var i := Find(STOPPING, token);
      if i < CAPACITY {
        var blank := BLANK.(timerFailures := targets[i].timerFailures);
        FreeKeepsOrder(targets[..], activeTargets, activeHz, nextToken, i, blank);
        targets[i] := targets[i].(phase := RECLAIMING);
        Reclaim(i);
        assert targets[..] == old(targets[..])[i := blank];
      }
    }
  }
}
