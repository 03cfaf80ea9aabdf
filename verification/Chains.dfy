/** Intrusive singly linked lists over array indices: how moving one index from
    the middle of a list to the front of another acts on heads and links. */
module Chains {
  const NONE := 0xffff_ffff

  /** The lists, and for each index the list it is on and its place there. */
  datatype Lists = Lists(chains: seq<seq<nat>>, home: seq<nat>, pos: seq<nat>)

  ghost predicate Listed(l: Lists) {
    |l.home| == |l.pos| &&
    forall b: nat, k: nat :: b < |l.chains| && k < |l.chains[b]| ==>
      l.chains[b][k] < |l.home| && l.home[l.chains[b][k]] == b && l.pos[l.chains[b][k]] == k
  }

  ghost predicate Placed(l: Lists) {
    |l.home| == |l.pos| &&
    forall i: nat :: i < |l.home| ==>
      l.home[i] < |l.chains| && l.pos[i] < |l.chains[l.home[i]]| && l.chains[l.home[i]][l.pos[i]] == i
  }

  /** Every index is on exactly one list, exactly once. */
  ghost predicate Partition(l: Lists) {
    Listed(l) && Placed(l)
  }

  function First(chain: seq<nat>): nat { if chain == [] then NONE else chain[0] }

  function After(chain: seq<nat>, k: nat): nat { if k + 1 < |chain| then chain[k + 1] else NONE }

  /** `heads` and `next` spell out the lists. */
  ghost predicate Linked(chains: seq<seq<nat>>, heads: seq<nat>, next: seq<nat>) {
    && |heads| == |chains|
    && (forall b: nat :: b < |chains| ==> heads[b] == First(chains[b]))
    && (forall b: nat, k: nat {:trigger After(chains[b], k)} :: b < |chains| && k < |chains[b]| ==>
          chains[b][k] < |next| && next[chains[b][k]] == After(chains[b], k))
  }

  function Cut(chain: seq<nat>, k: nat): seq<nat>
    requires k < |chain|
  {
    chain[..k] + chain[k + 1..]
  }

  predicate Movable(l: Lists, from: nat, k: nat, to: nat) {
    from < |l.chains| && to < |l.chains| && from != to && k < |l.chains[from]|
    && |l.home| == |l.pos| && l.chains[from][k] < |l.home|
  }

  function NewPlace(l: Lists, from: nat, k: nat, to: nat, j: nat): nat
    requires Movable(l, from, k, to) && j < |l.pos|
  {
    if j == l.chains[from][k] then 0
    else if l.home[j] == from && l.pos[j] > k then l.pos[j] - 1
    else if l.home[j] == to then l.pos[j] + 1
    else l.pos[j]
  }

  function Move(l: Lists, from: nat, k: nat, to: nat): (r: Lists)
    requires Movable(l, from, k, to)
  {
    var i := l.chains[from][k];
    Lists(l.chains[from := Cut(l.chains[from], k)][to := [i] + l.chains[to]],
          l.home[i := to],
          seq(|l.pos|, j requires 0 <= j < |l.pos| => NewPlace(l, from, k, to, j)))
  }

  lemma MoveLists(l: Lists, from: nat, k: nat, to: nat)
    requires Movable(l, from, k, to) && Partition(l)
    ensures Listed(Move(l, from, k, to))
  {
    var r := Move(l, from, k, to);
    var i := l.chains[from][k];
    forall b: nat, q: nat | b < |r.chains| && q < |r.chains[b]|
      ensures r.chains[b][q] < |r.home| && r.home[r.chains[b][q]] == b && r.pos[r.chains[b][q]] == q
    {
      if b == from {
        assert r.chains[b][q] == l.chains[b][if q < k then q else q + 1];
      } else if b == to {
        if q > 0 {
          assert r.chains[b][q] == l.chains[b][q - 1];
        }
      } else {
        assert r.chains[b][q] == l.chains[b][q];
      }
    }
  }

  lemma MovePlaces(l: Lists, from: nat, k: nat, to: nat)
    requires Movable(l, from, k, to) && Partition(l)
    ensures Placed(Move(l, from, k, to))
  {
    var r := Move(l, from, k, to);
    var i := l.chains[from][k];
    forall j: nat | j < |r.home|
      ensures r.home[j] < |r.chains| && r.pos[j] < |r.chains[r.home[j]]| && r.chains[r.home[j]][r.pos[j]] == j
    {
      if j != i {
        assert l.chains[l.home[j]][l.pos[j]] == j;
      }
    }
  }

  lemma MoveKeepsPartition(l: Lists, from: nat, k: nat, to: nat)
    requires Movable(l, from, k, to) && Partition(l)
    ensures Partition(Move(l, from, k, to))
  {
    MoveLists(l, from, k, to);
    MovePlaces(l, from, k, to);
  }

  /** Chains whose elements know their list and place, with links to follow. */
  ghost predicate Sound(l: Lists, heads: seq<nat>, next: seq<nat>) {
    Partition(l) && Linked(l.chains, heads, next) && |next| == |l.home|
  }

  /** Unlinking: the list head or the link before the element skips it. */
  function CutHeads(heads: seq<nat>, next: seq<nat>, chain: seq<nat>, from: nat, k: nat): seq<nat>
    requires k < |chain| && from < |heads| && chain[k] < |next|
  {
    if k == 0 then heads[from := next[chain[k]]] else heads
  }

  function CutNext(next: seq<nat>, chain: seq<nat>, k: nat): seq<nat>
    requires k < |chain| && chain[k] < |next| && (k > 0 ==> chain[k - 1] < |next|)
  {
    if k == 0 then next else next[chain[k - 1] := next[chain[k]]]
  }

  lemma CutAfter(chain: seq<nat>, k: nat, q: nat)
    requires k < |chain| && q + 1 < |chain|
    ensures Cut(chain, k)[q] == chain[if q < k then q else q + 1]
    ensures After(Cut(chain, k), q) ==
            if q + 1 == k then After(chain, k) else After(chain, if q < k then q else q + 1)
  {
  }

  /** The links of the list an index leaves. */
  lemma LeftLink(l: Lists, heads: seq<nat>, next: seq<nat>, from: nat, k: nat, to: nat, link: nat, q: nat)
    requires Movable(l, from, k, to) && Sound(l, heads, next) && q + 1 < |l.chains[from]|
    ensures var c := Cut(l.chains[from], k);
      c[q] < |next| && CutNext(next, l.chains[from], k)[l.chains[from][k] := link][c[q]] == After(c, q)
  {
    var chain := l.chains[from];
    var p := if q < k then q else q + 1;
    assert l.pos[chain[p]] == p && l.pos[chain[k]] == k && (k > 0 ==> l.pos[chain[k - 1]] == k - 1);
    assert next[chain[p]] == After(chain, p) && next[chain[k]] == After(chain, k);
    CutAfter(chain, k, q);
  }

  lemma LeftHead(l: Lists, heads: seq<nat>, next: seq<nat>, from: nat, k: nat)
    requires from < |l.chains| && k < |l.chains[from]| && Sound(l, heads, next)
    ensures l.chains[from][k] < |next|
    ensures CutHeads(heads, next, l.chains[from], from, k)[from] == First(Cut(l.chains[from], k))
  {
    var chain := l.chains[from];
    assert next[chain[k]] == After(chain, k);
    assert heads[from] == First(chain);
  }

  /** Links of elements elsewhere are not touched. */
  lemma OtherLink(l: Lists, heads: seq<nat>, next: seq<nat>, from: nat, k: nat, to: nat, link: nat, b: nat, q: nat)
    requires Movable(l, from, k, to) && Sound(l, heads, next)
    requires b < |l.chains| && b != from && q < |l.chains[b]|
    ensures CutNext(next, l.chains[from], k)[l.chains[from][k] := link][l.chains[b][q]] == After(l.chains[b], q)
  {
    var x := l.chains[b][q];
    assert next[x] == After(l.chains[b], q);
    assert l.home[x] == b && l.home[l.chains[from][k]] == from;
    if k > 0 {
      assert l.home[l.chains[from][k - 1]] == from;
    }
  }

  lemma MovedLink(l: Lists, heads: seq<nat>, next: seq<nat>, from: nat, k: nat, to: nat, b: nat, q: nat)
    requires Movable(l, from, k, to) && Sound(l, heads, next)
    requires b < |l.chains| && q < |Move(l, from, k, to).chains[b]|
    ensures var r := Move(l, from, k, to).chains;
      r[b][q] < |next|
      && CutNext(next, l.chains[from], k)[l.chains[from][k] := First(l.chains[to])][r[b][q]] == After(r[b], q)
  {
    var link := First(l.chains[to]);
    if b == from {
      LeftLink(l, heads, next, from, k, to, link, q);
    } else if b == to {
      if q > 0 {
        OtherLink(l, heads, next, from, k, to, link, b, q - 1);
      }
    } else {
      OtherLink(l, heads, next, from, k, to, link, b, q);
    }
  }

  /** Unlink an index and push it on another list: the lists move with the links. */
  lemma MoveKeepsLinks(l: Lists, heads: seq<nat>, next: seq<nat>, from: nat, k: nat, to: nat)
    requires Movable(l, from, k, to) && Sound(l, heads, next)
    ensures var i := l.chains[from][k];
      Sound(Move(l, from, k, to), CutHeads(heads, next, l.chains[from], from, k)[to := i],
            CutNext(next, l.chains[from], k)[i := heads[to]])
  {
    var r := Move(l, from, k, to);
    MoveKeepsPartition(l, from, k, to);
    LeftHead(l, heads, next, from, k);
    assert heads[to] == First(l.chains[to]);
    forall b: nat, q: nat | b < |r.chains| && q < |r.chains[b]|
      ensures r.chains[b][q] < |next|
      ensures CutNext(next, l.chains[from], k)[l.chains[from][k] := heads[to]][r.chains[b][q]] == After(r.chains[b], q)
    {
      MovedLink(l, heads, next, from, k, to, b, q);
    }
  }
}
