/** The tick ring refines a bounded first-in first-out queue although its 64-bit
    sequence numbers wrap and the producer interrupts the consumer anywhere. */
module ThreadRing {
  import opened ThreadModel

  const QUOTIENT := WRAP / CAPACITY

  lemma WrapIndex(n: nat)
    ensures (n % WRAP) % CAPACITY == n % CAPACITY
  {
    var q := n / WRAP;
    assert n == q * WRAP + n % WRAP;
    assert n == CAPACITY * (q * QUOTIENT) + n % WRAP;
    SameResidue(n % WRAP, q * QUOTIENT);
  }

  lemma SameResidue(a: nat, k: nat)
    ensures (CAPACITY * k + a) % CAPACITY == a % CAPACITY
  {
  }

  /** Subtraction of wrapped sequences gives the true distance. */
  lemma WrapDistance(a: nat, b: nat)
    requires b <= a < b + WRAP
    ensures (a % WRAP - b % WRAP) % WRAP == a - b
    ensures a % WRAP == b % WRAP ==> a == b
    ensures (a % WRAP + 1) % WRAP == (a + 1) % WRAP
  {
  }

  lemma DistinctCells(a: nat, b: nat)
    requires b < a < b + CAPACITY
    ensures a % CAPACITY != b % CAPACITY
  {
  }

  /** Everything queued and not yet taken out, oldest first. */
  function Queue(s: Bridge): seq<Event>
    requires s.consumed <= |s.produced|
  {
    s.produced[s.consumed..]
  }

  ghost predicate RingInv(s: Bridge) {
    && |s.timer.cells| == CAPACITY && |s.stats.byState| == 4
    && s.consumed <= |s.produced| <= s.consumed + CAPACITY
    && s.timer.write == |s.produced| % WRAP
    && s.timer.read == s.consumed % WRAP
    && (forall j: nat :: s.consumed <= j < |s.produced| ==> s.timer.cells[j % CAPACITY] == s.produced[j])
    && (s.stage.LoadWrite? ==> s.stage.read == s.timer.read)
    && (s.stage.Copy? ==> s.stage.read == s.timer.read && s.consumed < |s.produced|)
    && (s.stage.Advance? ==> s.stage.read == s.timer.read && s.consumed < |s.produced|
                             && s.stage.ev == s.produced[s.consumed])
    && (s.stage.Record? ==> 0 < s.consumed && s.stage.ev == s.produced[s.consumed - 1])
  }

  /** The handler's test of the wrapped difference is the queue's true length. */
  lemma FullExactly(s: Bridge)
    requires RingInv(s)
    ensures Pending(s.timer) == |Queue(s)|
  {
    WrapDistance(|s.produced|, s.consumed);
  }

  lemma InterruptRing(s: Bridge, info: int)
    requires RingInv(s) && Enabled(s, Interrupt(info))
    ensures RingInv(Next(s, Interrupt(info)))
  {
    var s' := Next(s, Interrupt(info));
    FullExactly(s);
    if Judge(s.timer).Queued? {
      var n := |s.produced|;
      WrapIndex(n);
      WrapDistance(n, n);
      forall j: nat | s'.consumed <= j < |s'.produced|
        ensures s'.timer.cells[j % CAPACITY] == s'.produced[j]
      {
        if j < n {
          DistinctCells(n, j);
        }
      }
    }
  }

  lemma MainRing(s: Bridge, info: int, flag: bool)
    requires RingInv(s) && s.stage != Ready
    ensures RingInv(MainNext(s, info, flag))
  {
    match s.stage
    case LoadWrite(r) => WrapDistance(|s.produced|, s.consumed);
    case Copy(r) => WrapIndex(s.consumed);
    case Advance(r, ev) => AdvanceRing(s, info, flag);
    case _ =>
  }

  lemma AdvanceRing(s: Bridge, info: int, flag: bool)
    requires RingInv(s) && s.stage.Advance?
    ensures RingInv(MainNext(s, info, flag))
  {
    WrapDistance(s.consumed, s.consumed);
  }

  lemma StepRing(s: Bridge, step: Step)
    requires RingInv(s) && Enabled(s, step)
    requires step.Call? && step.op.Start? ==> s.produced == [] && s.consumed == 0
    ensures RingInv(Next(s, step))
  {
    match step
    case Interrupt(info) => InterruptRing(s, info);
    case Main(info, flag) => MainRing(s, info, flag);
    case Call(_) =>
  }
}
