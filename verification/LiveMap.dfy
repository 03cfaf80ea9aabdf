/** The live allocation map of src/memory_core.c: chained hashing over two fixed
    arrays, with an intrusive free list. It acts as a finite map from pointers. */
module LiveMap {
  import opened Common
  import opened Chains

  /** lp_memory_live_entry; the null pointer is 0. */
  datatype Live = Live(pointer: nat, space: nat, objects: nat, aggregate: nat, next: nat)

  const UNUSED := Live(0, 0, 0, 0, NONE)

  function Nexts(es: seq<Live>): seq<nat> {
    seq(|es|, i requires 0 <= i < |es| => es[i].next)
  }

  /** pointer_bucket: the hash, cut to the number of buckets. */
  function Bucket(hash: nat -> nat, p: nat, n: nat): (b: nat)
    requires n > 0
    ensures b < n
  {
    hash(p) % n
  }

  ghost predicate Homes(es: seq<Live>, free: nat, l: Lists, at: map<nat, nat>, hash: nat -> nat)
    requires |es| == |l.home| && free > 0
  {
    forall i: nat :: i < |es| ==>
      if es[i].pointer == 0 then l.home[i] == free
      else l.home[i] == Bucket(hash, es[i].pointer, free) && es[i].pointer in at && at[es[i].pointer] == i
  }

  ghost predicate Keyed(es: seq<Live>, at: map<nat, nat>) {
    forall p: nat :: p in at ==> p != 0 && at[p] < |es| && es[at[p]].pointer == p
  }

  /** The representation: `heads` are the `free` buckets followed by the free list. */
  ghost predicate Wf(es: seq<Live>, heads: seq<nat>, free: nat, count: nat, l: Lists, at: map<nat, nat>,
                     hash: nat -> nat) {
    && |heads| == free + 1 && free > 0 && |es| < NONE
    && Sound(l, heads, Nexts(es))
    && Homes(es, free, l, at, hash)
    && Keyed(es, at)
    && count + |l.chains[free]| == |es|
    && |at| == count
  }

  /** The map an instance stands for. */
  ghost function Entries(es: seq<Live>, at: map<nat, nat>): map<nat, (nat, nat, nat)>
    requires Keyed(es, at)
  {
    map p | p in at :: (es[at[p]].space, es[at[p]].objects, es[at[p]].aggregate)
  }

  /** The entries after `index` is unlinked and its predecessor skips it. */
  function Freed(es: seq<Live>, index: nat, prev: nat, free: nat): (r: seq<Live>)
    requires index < |es| && (prev == NONE || prev < |es|)
    ensures |r| == |es|
  {
    var skipped := if prev == NONE then es else es[prev := es[prev].(next := es[index].next)];
    skipped[index := skipped[index].(pointer := 0, next := free)]
  }

  lemma FreedNexts(es: seq<Live>, chain: seq<nat>, k: nat, prev: nat, link: nat)
    requires k < |chain| && chain[k] < |es| && (k > 0 ==> chain[k - 1] < |es| && chain[k - 1] != chain[k])
    requires prev == (if k == 0 then NONE else chain[k - 1]) && |es| < NONE
    ensures Nexts(Freed(es, chain[k], prev, link)) == CutNext(Nexts(es), chain, k)[chain[k] := link]
  {
  }

  lemma FreedHomes(es: seq<Live>, i: nat, prev: nat, link: nat, free: nat, l: Lists, l': Lists,
                   at: map<nat, nat>, hash: nat -> nat)
    requires i < |es| == |l.home| && free > 0 && Homes(es, free, l, at, hash)
    requires l'.home == l.home[i := free] && es[i].pointer != 0 && (prev == NONE || prev < |es|)
    ensures Homes(Freed(es, i, prev, link), free, l', at - {es[i].pointer}, hash)
  {
  }

  lemma FreedKeyed(es: seq<Live>, i: nat, prev: nat, link: nat, at: map<nat, nat>)
    requires i < |es| && Keyed(es, at) && es[i].pointer in at && (prev == NONE || prev < |es|)
    ensures Keyed(Freed(es, i, prev, link), at - {es[i].pointer})
    ensures |at - {es[i].pointer}| == |at| - 1
    ensures Entries(Freed(es, i, prev, link), at - {es[i].pointer}) == Entries(es, at) - {es[i].pointer}
  {
    var at' := at - {es[i].pointer};
    assert at == at'[es[i].pointer := at[es[i].pointer]];
    forall p: nat | p in at' ensures Freed(es, i, prev, link)[at[p]].pointer == p {
      assert es[at[p]].pointer == p;
    }
  }

  function Prev(chain: seq<nat>, k: nat): nat
    requires k <= |chain|
  {
    if k == 0 then NONE else chain[k - 1]
  }

  /** Facts about the `k`-th entry of bucket `b`. */
  lemma OnBucket(es: seq<Live>, heads: seq<nat>, free: nat, count: nat, l: Lists, at: map<nat, nat>, hash: nat -> nat,
                 b: nat, k: nat)
    requires Wf(es, heads, free, count, l, at, hash) && b < free && k < |l.chains[b]|
    ensures var i := l.chains[b][k]; i < |es| && es[i].pointer in at && es[i].pointer != 0
    ensures k > 0 ==> l.chains[b][k - 1] < |es| < NONE && l.chains[b][k - 1] != l.chains[b][k]
    ensures count > 0 && Movable(l, b, k, free)
  {
    assert l.home[l.chains[b][k]] == b && l.pos[l.chains[b][k]] == k;
    if k > 0 {
      assert l.pos[l.chains[b][k - 1]] == k - 1;
    }
  }

  lemma RemoveSound(es: seq<Live>, heads: seq<nat>, free: nat, l: Lists, b: nat, k: nat)
    requires |heads| == free + 1 && |es| < NONE && Sound(l, heads, Nexts(es)) && b < free && k < |l.chains[b]|
    requires l.chains[b][k] < |es| && (k > 0 ==> l.chains[b][k - 1] < |es| && l.chains[b][k - 1] != l.chains[b][k])
    requires Movable(l, b, k, free)
    ensures var i := l.chains[b][k];
      Sound(Move(l, b, k, free), CutHeads(heads, Nexts(es), l.chains[b], b, k)[free := i],
            Nexts(Freed(es, i, Prev(l.chains[b], k), heads[free])))
  {
    FreedNexts(es, l.chains[b], k, Prev(l.chains[b], k), heads[free]);
    MoveKeepsLinks(l, heads, Nexts(es), b, k, free);
  }

  lemma RemoveKeyed(es: seq<Live>, free: nat, count: nat, l: Lists, at: map<nat, nat>, hash: nat -> nat,
                    b: nat, k: nat, link: nat)
    requires free > 0 && |es| < NONE && |es| == |l.home| && b < free < |l.chains| && k < |l.chains[b]|
    requires Homes(es, free, l, at, hash) && Keyed(es, at) && Movable(l, b, k, free)
    requires l.chains[b][k] < |es| && (k > 0 ==> l.chains[b][k - 1] < |es|)
    requires var p := es[l.chains[b][k]].pointer; p in at && p != 0
    ensures var i := l.chains[b][k]; var es' := Freed(es, i, Prev(l.chains[b], k), link); var l' := Move(l, b, k, free);
      && |l'.home| == |es| && Homes(es', free, l', at - {es[i].pointer}, hash) && Keyed(es', at - {es[i].pointer})
      && |at - {es[i].pointer}| == |at| - 1 && |l'.chains| == |l.chains| && |l'.chains[free]| == |l.chains[free]| + 1
  {
    var i := l.chains[b][k];
    FreedHomes(es, i, Prev(l.chains[b], k), link, free, l, Move(l, b, k, free), at, hash);
    FreedKeyed(es, i, Prev(l.chains[b], k), link, at);
  }

  lemma RemoveWf(es: seq<Live>, heads: seq<nat>, free: nat, count: nat, l: Lists, at: map<nat, nat>, hash: nat -> nat,
                 b: nat, k: nat)
    requires Wf(es, heads, free, count, l, at, hash) && b < free && k < |l.chains[b]|
    requires l.chains[b][k] < |es| && (k > 0 ==> l.chains[b][k - 1] < |es|) && Movable(l, b, k, free) && count > 0
    ensures var i := l.chains[b][k];
      Wf(Freed(es, i, Prev(l.chains[b], k), heads[free]), CutHeads(heads, Nexts(es), l.chains[b], b, k)[free := i],
         free, count - 1, Move(l, b, k, free), at - {es[i].pointer}, hash)
  {
    var i, chain := l.chains[b][k], l.chains[b];
    OnBucket(es, heads, free, count, l, at, hash, b, k);
    RemoveSound(es, heads, free, l, b, k);
    RemoveKeyed(es, free, count, l, at, hash, b, k, heads[free]);
    var es' := Freed(es, i, Prev(chain, k), heads[free]);
    Assemble(es', CutHeads(heads, Nexts(es), chain, b, k)[free := i], Nexts(es'),
             free, count - 1, Move(l, b, k, free), at - {es[i].pointer}, hash);
  }

  lemma Assemble(es: seq<Live>, heads: seq<nat>, next: seq<nat>, free: nat, count: nat, l: Lists, at: map<nat, nat>,
                 hash: nat -> nat)
    requires |heads| == free + 1 && free > 0 && |es| < NONE && |es| == |l.home| && free < |l.chains|
    requires Sound(l, heads, next) && next == Nexts(es)
    requires Homes(es, free, l, at, hash) && Keyed(es, at) && count + |l.chains[free]| == |es| && |at| == count
    ensures Wf(es, heads, free, count, l, at, hash)
  {
  }

  lemma TakenNexts(es: seq<Live>, i: nat, e: Live)
    requires i < |es|
    ensures Nexts(es[i := e]) == Nexts(es)[i := e.next]
  {
  }

  lemma TakenHomes(es: seq<Live>, i: nat, e: Live, free: nat, l: Lists, l': Lists, at: map<nat, nat>, hash: nat -> nat)
    requires i < |es| == |l.home| && free > 0 && Homes(es, free, l, at, hash)
    requires e.pointer != 0 && e.pointer !in at && l'.home == l.home[i := Bucket(hash, e.pointer, free)]
    ensures Homes(es[i := e], free, l', at[e.pointer := i], hash)
  {
  }

  lemma TakenKeyed(es: seq<Live>, i: nat, e: Live, at: map<nat, nat>)
    requires i < |es| && Keyed(es, at) && es[i].pointer == 0 && e.pointer != 0 && e.pointer !in at
    ensures Keyed(es[i := e], at[e.pointer := i])
    ensures Entries(es[i := e], at[e.pointer := i]) == Entries(es, at)[e.pointer := (e.space, e.objects, e.aggregate)]
  {
    forall p: nat | p in at ensures at[p] != i && es[at[p]].pointer == p {
      assert es[at[p]].pointer == p;
    }
  }

  lemma AddWf(es: seq<Live>, heads: seq<nat>, free: nat, count: nat, l: Lists, at: map<nat, nat>, hash: nat -> nat,
              e: Live)
    requires Wf(es, heads, free, count, l, at, hash) && |l.chains[free]| > 0 && e.pointer != 0 && e.pointer !in at
    requires var b := Bucket(hash, e.pointer, free);
      Movable(l, free, 0, b) && l.chains[free][0] < |es| && e.next == heads[b]
    ensures var i, b := l.chains[free][0], Bucket(hash, e.pointer, free);
      && es[i].pointer == 0
      && Wf(es[i := e], CutHeads(heads, Nexts(es), l.chains[free], free, 0)[b := i], free,
            count + 1, Move(l, free, 0, b), at[e.pointer := i], hash)
  {
    var i, b := l.chains[free][0], Bucket(hash, e.pointer, free);
    assert l.home[i] == free;
    TakenNexts(es, i, e);
    TakenHomes(es, i, e, free, l, Move(l, free, 0, b), at, hash);
    TakenKeyed(es, i, e, at);
    MoveKeepsLinks(l, heads, Nexts(es), free, 0, b);
  }

  lemma ReplaceWf(es: seq<Live>, heads: seq<nat>, free: nat, count: nat, l: Lists, at: map<nat, nat>, hash: nat -> nat,
                  i: nat, e: Live)
    requires Wf(es, heads, free, count, l, at, hash)
    requires i < |es| && es[i].pointer != 0 && e.pointer == es[i].pointer && e.next == es[i].next
    ensures Wf(es[i := e], heads, free, count, l, at, hash)
    ensures Entries(es[i := e], at) == Entries(es, at)[e.pointer := (e.space, e.objects, e.aggregate)]
  {
    TakenNexts(es, i, e);
    assert Nexts(es[i := e]) == Nexts(es);
    ReplacedEntry(es, free, l, at, hash, i, e);
  }

  lemma ReplacedEntry(es: seq<Live>, free: nat, l: Lists, at: map<nat, nat>, hash: nat -> nat, i: nat, e: Live)
    requires i < |es| == |l.home| && free > 0 && Homes(es, free, l, at, hash) && Keyed(es, at)
    requires es[i].pointer != 0 && e.pointer == es[i].pointer
    ensures Homes(es[i := e], free, l, at, hash) && Keyed(es[i := e], at)
    ensures Entries(es[i := e], at) == Entries(es, at)[e.pointer := (e.space, e.objects, e.aggregate)]
  {
    forall p: nat | p in at ensures es[i := e][at[p]].pointer == p {
      assert es[at[p]].pointer == p;
    }
  }

  /** `t` is `s` with different links and entry `now`, in place of `was` or of a free one. */
  ghost predicate Entered(s: seq<Live>, t: seq<Live>, was: Option<Live>, now: Live) {
    exists i: nat :: Changed(s, t, i) && t[i].(next := 0) == now.(next := 0)
                     && if was.Some? then s[i] == was.value else s[i].pointer == 0
  }

  lemma EntriesSize(es: seq<Live>, at: map<nat, nat>)
    requires Keyed(es, at)
    ensures |Entries(es, at)| == |at|
  {
    assert Entries(es, at).Keys == at.Keys;
  }

  lemma CutBuckets(bs: seq<nat>, freeHead: nat, es: seq<Live>, chain: seq<nat>, b: nat, k: nat)
    requires k < |chain| && chain[k] < |es| && b < |bs|
    ensures (if k == 0 then bs[b := es[chain[k]].next] else bs) + [chain[k]]
         == CutHeads(bs + [freeHead], Nexts(es), chain, b, k)[|bs| := chain[k]]
  {
  }

  /** `t` is `s` with different links and without the entry `gone`. */
  ghost predicate Forgotten(s: seq<Live>, t: seq<Live>, gone: Live) {
    exists i: nat :: Changed(s, t, i) && s[i] == gone && t[i].pointer == 0
  }

  /** Apart from links, at most entry `i` changes. */
  ghost predicate Changed(s: seq<Live>, t: seq<Live>, i: nat) {
    i < |s| == |t| && forall j: nat :: j < |s| && j != i ==> t[j].(next := 0) == s[j].(next := 0)
  }

  lemma FreedForgets(es: seq<Live>, i: nat, prev: nat, link: nat)
    requires i < |es| && (prev == NONE || prev < |es|)
    ensures Forgotten(es, Freed(es, i, prev, link), es[i])
  {
    assert Changed(es, Freed(es, i, prev, link), i);
  }

  lemma TakenEntered(es: seq<Live>, i: nat, e: Live)
    requires i < |es| && es[i].pointer == 0
    ensures Entered(es, es[i := e], None, e.(next := 0))
  {
    assert Changed(es, es[i := e], i);
  }

  lemma TakenHeads(bs: seq<nat>, freeHead: nat, es: seq<Live>, chain: seq<nat>, b: nat)
    requires |chain| > 0 && chain[0] < |es| && b < |bs|
    ensures bs[b := chain[0]] + [es[chain[0]].next]
         == CutHeads(bs + [freeHead], Nexts(es), chain, |bs|, 0)[b := chain[0]]
  {
  }

  lemma EmptyFree(es: seq<Live>, heads: seq<nat>, free: nat, count: nat, l: Lists, at: map<nat, nat>, hash: nat -> nat)
    requires Wf(es, heads, free, count, l, at, hash)
    ensures |Entries(es, at)| <= |es|
    ensures heads[free] == NONE ==> |Entries(es, at)| == |es|
  {
    EntriesSize(es, at);
    if l.chains[free] != [] {
      assert heads[free] == l.chains[free][0] < |es|;
    }
  }

  function AllFree(n: nat, free: nat): Lists {
    Lists(seq(free, _ => []) + [seq(n, i => i)], seq(n, _ => free), seq(n, i => i))
  }

  lemma AllFreeSound(es: seq<Live>, heads: seq<nat>, free: nat)
    requires |heads| == free + 1 && (forall b: nat :: b < free ==> heads[b] == NONE)
    requires heads[free] == if |es| > 0 then 0 else NONE
    requires forall j: nat :: j < |es| ==> es[j] == UNUSED.(next := if j + 1 < |es| then j + 1 else NONE)
    ensures Sound(AllFree(|es|, free), heads, Nexts(es))
  {
    AllFreePartition(|es|, free);
    var chains, next := AllFree(|es|, free).chains, Nexts(es);
    assert chains[free] == seq(|es|, i => i);
    assert forall b: nat :: b < free ==> chains[b] == [];
  }

  lemma AllFreePartition(n: nat, free: nat)
    ensures Partition(AllFree(n, free))
  {
  }

  /** The first `k` entries of a chain hold other pointers. */
  ghost predicate Skipped(es: seq<Live>, chain: seq<nat>, k: nat, p: nat) {
    k <= |chain| && forall q: nat :: q < k ==> chain[q] < |es| && es[chain[q]].pointer != p
  }

  lemma SkipOne(es: seq<Live>, chain: seq<nat>, k: nat, p: nat)
    requires Skipped(es, chain, k, p) && k < |chain| && chain[k] < |es| && es[chain[k]].pointer != p
    ensures Skipped(es, chain, k + 1, p)
  {
  }

  /** A pointer the chain of its bucket does not hold is not in the map. */
  lemma NotOnChain(es: seq<Live>, heads: seq<nat>, free: nat, count: nat, l: Lists, at: map<nat, nat>, hash: nat -> nat,
                   p: nat)
    requires Wf(es, heads, free, count, l, at, hash)
    ensures var chain := l.chains[Bucket(hash, p, free)];
      p in at ==> exists q: nat :: q < |chain| && chain[q] < |es| && es[chain[q]].pointer == p
  {
    if p in at {
      var chain := l.chains[Bucket(hash, p, free)];
      assert es[at[p]].pointer == p && l.home[at[p]] == Bucket(hash, p, free);
      assert chain[l.pos[at[p]]] == at[p];
    }
  }

  lemma NotThere(es: seq<Live>, at: map<nat, nat>, p: nat)
    requires Keyed(es, at) && p !in at
    ensures Entries(es, at) - {p} == Entries(es, at)
  {
  }

  /** What an addition did: nothing for null, replaced an entry, took a free one,
      or found none. */
  datatype Added = Ignored | Replaced(was: Live) | Inserted | Overflow

  class LiveTable {
    const entries: array<Live>
    const buckets: array<nat>
    const hash: nat -> nat
    var freeHead: nat
    var count: nat
    ghost var lists: Lists
    ghost var at: map<nat, nat>

    ghost predicate Intact()
      reads this, entries, buckets
    {
      && buckets.Length > 0
      && Wf(entries[..], buckets[..] + [freeHead], buckets.Length, count, lists, at, hash)
    }

    /** The representation is intact; users of the map need not look inside. */
    ghost predicate Valid()
      reads this, entries, buckets
    {
      forall key: nat :: Opened(LiveLock, key) ==> Intact()
    }

    /** All entries on the free list, in index order, as lp_memory_profile_new links them. */
    constructor (capacity: nat, bucketCount: nat, hash: nat -> nat)
      requires capacity < NONE && bucketCount > 0
      ensures Valid() && Contents() == map[] && fresh(entries) && fresh(buckets)
      ensures entries.Length == capacity && buckets.Length == bucketCount
      ensures forall i: nat :: i < capacity ==> entries[i].pointer == 0
    {
      var es := new Live[capacity](_ => UNUSED);
      var head, i := NONE, capacity;
      while i != 0
        invariant i <= capacity && head == if i < capacity then i else NONE
        invariant forall j: nat :: j < i ==> es[j] == UNUSED
        invariant forall j: nat :: i <= j < capacity ==>
                  es[j] == UNUSED.(next := if j + 1 < capacity then j + 1 else NONE)
      {
        i := i - 1;
        es[i] := es[i].(next := head);
        head := i;
      }
      entries := es;
      buckets := new nat[bucketCount](_ => NONE);
      this.hash := hash;
      freeHead, count, at := head, 0, map[];
      lists := AllFree(capacity, bucketCount);
      new;
      AllFreeSound(entries[..], buckets[..] + [freeHead], bucketCount);
    }

    /** The finite map: pointer to weighted space, weighted objects and aggregate. */
    ghost function Contents(): map<nat, (nat, nat, nat)>
      reads this, entries, buckets
      requires Valid()
    {
      assert Opened(LiveLock, 0);
      Entries(entries[..], at)
    }

    lemma HeadIs(b: nat)
      requires Valid() && b < buckets.Length
      ensures b < |lists.chains| && buckets[b] == First(lists.chains[b])
      ensures forall k: nat :: k < |lists.chains[b]| ==> lists.chains[b][k] < entries.Length < NONE
    {
      assert Opened(LiveLock, 0);
      forall k: nat | k < |lists.chains[b]| ensures lists.chains[b][k] < entries.Length {
        var next := After(lists.chains[b], k);
        assert lists.chains[b][k] < |Nexts(entries[..])|;
      }
      assert (buckets[..] + [freeHead])[b] == First(lists.chains[b]);
    }

    lemma LinkIs(b: nat, k: nat)
      requires Valid() && b < buckets.Length && b < |lists.chains| && k < |lists.chains[b]|
      ensures lists.chains[b][k] < entries.Length && entries[lists.chains[b][k]].next == After(lists.chains[b], k)
      ensures entries[lists.chains[b][k]].pointer in at && at[entries[lists.chains[b][k]].pointer] == lists.chains[b][k]
    {
      assert Opened(LiveLock, 0);
      OnBucket(entries[..], buckets[..] + [freeHead], buckets.Length, count, lists, at, hash, b, k);
      assert Nexts(entries[..])[lists.chains[b][k]] == After(lists.chains[b], k);
    }

    lemma NotFound(p: nat)
      requires Valid() && buckets.Length > 0 && Bucket(hash, p, buckets.Length) < |lists.chains|
      requires var chain := lists.chains[Bucket(hash, p, buckets.Length)]; Skipped(entries[..], chain, |chain|, p)
      ensures p !in at
    {
      assert Opened(LiveLock, 0);
      NotOnChain(entries[..], buckets[..] + [freeHead], buckets.Length, count, lists, at, hash, p);
    }

    /** Follow a bucket's chain to `p`; `prev` is the entry whose link leads there. */
    method Search(p: nat) returns (index: nat, prev: nat, ghost k: nat)
      requires Valid() && buckets.Length > 0 && p != 0
      ensures Bucket(hash, p, buckets.Length) < |lists.chains|
      ensures index == NONE ==> p !in at
      ensures index != NONE ==> index < entries.Length && entries[index].pointer == p && p in at && at[p] == index
      ensures prev == NONE || prev < entries.Length
      ensures index != NONE ==> var chain := lists.chains[Bucket(hash, p, buckets.Length)];
                k < |chain| && chain[k] == index && prev == Prev(chain, k)
    {
      ghost var b := Bucket(hash, p, buckets.Length);
      HeadIs(b);
      ghost var chain := lists.chains[b];
      index, prev, k := buckets[Bucket(hash, p, buckets.Length)], NONE, 0;
      while index != NONE
        invariant k <= |chain| && prev == Prev(chain, k)
        invariant prev == NONE || prev < entries.Length
        invariant index == if k < |chain| then chain[k] else NONE
        invariant Skipped(entries[..], chain, k, p)
        decreases |chain| - k
      {
        LinkIs(b, k);
        if entries[index].pointer == p {
          return;
        }
        SkipOne(entries[..], chain, k, p);
        prev, index, k := index, entries[index].next, k + 1;
      }
      NotFound(p);
    }

    /** The stores of remove_live on the entry a search found. */
    method Unlink(index: nat, prev: nat, ghost b: nat, ghost k: nat)
      requires index < entries.Length && b < buckets.Length == |lists.chains| - 1 && k < |lists.chains[b]|
      requires lists.chains[b][k] == index && prev == Prev(lists.chains[b], k)
                && (prev == NONE || prev < entries.Length)
      requires (prev == NONE <==> k == 0) && b == Bucket(hash, entries[index].pointer, buckets.Length)
      requires Movable(lists, b, k, buckets.Length) && count > 0
      modifies this, entries, buckets
      ensures entries[..] == Freed(old(entries[..]), index, prev, old(freeHead))
      ensures buckets[..] == if k == 0 then old(buckets[..])[b := old(entries[index].next)] else old(buckets[..])
      ensures freeHead == index && count == old(count) - 1
      ensures lists == Move(old(lists), b, k, buckets.Length) && at == old(at) - {old(entries[index].pointer)}
    {
      at := at - {entries[index].pointer};
      var link := entries[index].next;
      if prev == NONE {
        buckets[Bucket(hash, entries[index].pointer, buckets.Length)] := link;
      } else {
        entries[prev] := entries[prev].(next := link);
      }
      entries[index] := entries[index].(pointer := 0, next := freeHead);
      freeHead := index;
      count := count - 1;
      lists := Move(lists, b, k, buckets.Length);
      assert entries[..] == Freed(old(entries[..]), index, prev, old(freeHead));
    }

    /** remove_live, less the weights: forget `p`. */
    method Remove(p: nat) returns (gone: Option<Live>)
      requires Valid()
      modifies this, entries, buckets
      ensures Valid() && Contents() == old(Contents()) - {p}
      ensures gone.None? ==> p !in old(Contents()) && entries[..] == old(entries[..])
      ensures gone.Some? ==> p in old(Contents()) && gone.value.pointer == p != 0
                              && old(Contents())[p] == (gone.value.space, gone.value.objects, gone.value.aggregate)
                              && Forgotten(old(entries[..]), entries[..], gone.value)
    {
      assert Opened(LiveLock, 0);
      gone := None;
      if p !in at {
        NotThere(entries[..], at, p);
      }
      if p == 0 { return; }
      var index, prev; ghost var k;
      index, prev, k := Search(p);
      if index == NONE { return; }
      FreedForgets(entries[..], index, prev, freeHead);
      gone := Some(entries[index]);
      ForgetAt(index, prev, k);
    }

    method ForgetAt(index: nat, prev: nat, ghost k: nat)
      requires Intact() && index < entries.Length && entries[index].pointer != 0
      requires var chain := lists.chains[Bucket(hash, entries[index].pointer, buckets.Length)];
                k < |chain| && chain[k] == index && prev == Prev(chain, k) && (prev == NONE || prev < entries.Length)
      modifies this, entries, buckets
      ensures Intact() && Entries(entries[..], at) == Entries(old(entries[..]), old(at)) - {old(entries[index].pointer)}
      ensures entries[..] == Freed(old(entries[..]), index, prev, old(freeHead))
    {
      ghost var b, free := Bucket(hash, entries[index].pointer, buckets.Length), buckets.Length;
      ghost var es, heads := entries[..], buckets[..] + [freeHead];
      OnBucket(es, heads, free, count, lists, at, hash, b, k);
      RemoveWf(es, heads, free, count, lists, at, hash, b, k);
      FreedKeyed(es, index, prev, freeHead, at);
      CutBuckets(buckets[..], freeHead, es, lists.chains[b], b, k);
      Unlink(index, prev, b, k);
    }

    /** add_live, less the weights: bind `p`, unless the map is full. */
    method Add(p: nat, space: nat, objects: nat, aggregate: nat) returns (r: Added)
      requires Valid()
      modifies this, entries, buckets
      ensures Valid()
      ensures |old(Contents())| <= entries.Length
      ensures r.Ignored? <==> p == 0
      ensures r.Replaced? <==> p in old(Contents())
      ensures r.Overflow? <==> p != 0 && p !in old(Contents()) && |old(Contents())| == entries.Length
      ensures r.Ignored? || r.Overflow? ==> entries[..] == old(entries[..]) && Contents() == old(Contents())
      ensures r.Replaced? || r.Inserted? ==>
                && Contents() == old(Contents())[p := (space, objects, aggregate)]
                && Entered(old(entries[..]), entries[..], if r.Replaced? then Some(r.was) else None,
                           Live(p, space, objects, aggregate, 0))
      ensures r.Replaced? ==> r.was.pointer == p && old(Contents())[p] == (r.was.space, r.was.objects, r.was.aggregate)
    {
      assert Opened(LiveLock, 0);
      r := Put(p, space, objects, aggregate);
    }

    method Put(p: nat, space: nat, objects: nat, aggregate: nat) returns (r: Added)
      requires Intact()
      modifies this, entries, buckets
      ensures Intact()
      ensures |Entries(old(entries[..]), old(at))| <= entries.Length
      ensures r.Ignored? <==> p == 0
      ensures r.Replaced? <==> p in Entries(old(entries[..]), old(at))
      ensures r.Overflow? <==>
                p != 0 && p !in Entries(old(entries[..]), old(at))
                    && |Entries(old(entries[..]), old(at))| == entries.Length
      ensures r.Ignored? || r.Overflow? ==>
                entries[..] == old(entries[..]) && Entries(entries[..], at) == Entries(old(entries[..]), old(at))
      ensures r.Replaced? || r.Inserted? ==>
                && Entries(entries[..], at) == Entries(old(entries[..]), old(at))[p := (space, objects, aggregate)]
                && Entered(old(entries[..]), entries[..], if r.Replaced? then Some(r.was) else None,
                           Live(p, space, objects, aggregate, 0))
      ensures r.Replaced? ==>
                && r.was.pointer == p
                && Entries(old(entries[..]), old(at))[p] == (r.was.space, r.was.objects, r.was.aggregate)
    {
      ghost var heads := buckets[..] + [freeHead];
      EmptyFree(entries[..], heads, buckets.Length, count, lists, at, hash);
      assert heads[buckets.Length] == freeHead;
      if p == 0 { return Ignored; }
      var index, prev; ghost var k;
      index, prev, k := Search(p);
      if index != NONE {
        r := Replaced(entries[index]);
        Rebind(index, space, objects, aggregate);
      } else if freeHead == NONE {
        r := Overflow;
      } else {
        r := Inserted;
        Bind(p, space, objects, aggregate);
      }
    }

    method Rebind(index: nat, space: nat, objects: nat, aggregate: nat)
      requires Intact() && index < entries.Length && entries[index].pointer != 0
      modifies this, entries, buckets
      ensures Intact() && Entries(entries[..], at)
           == Entries(old(entries[..]), old(at))[old(entries[index].pointer) := (space, objects, aggregate)]
      ensures Entered(old(entries[..]), entries[..], Some(old(entries[index])),
                      Live(old(entries[index].pointer), space, objects, aggregate, 0))
    {
      ghost var es := entries[..];
      var e := Live(entries[index].pointer, space, objects, aggregate, entries[index].next);
      ReplaceWf(es, buckets[..] + [freeHead], buckets.Length, count, lists, at, hash, index, e);
      entries[index] := e;
      assert entries[..] == es[index := e];
      assert Changed(es, entries[..], index);
    }

    method Bind(p: nat, space: nat, objects: nat, aggregate: nat)
      requires Intact() && p != 0 && p !in at && freeHead != NONE
      modifies this, entries, buckets
      ensures Intact()
      ensures Entries(entries[..], at) == Entries(old(entries[..]), old(at))[p := (space, objects, aggregate)]
      ensures |Entries(old(entries[..]), old(at))| < entries.Length
      ensures Entered(old(entries[..]), entries[..], None, Live(p, space, objects, aggregate, 0))
    {
      ghost var es, heads, free := entries[..], buckets[..] + [freeHead], buckets.Length;
      ghost var chain := lists.chains[free];
      assert heads[free] == First(chain);
      assert lists.chains[free][0] == freeHead;
      EntriesSize(es, at);
      var index := freeHead;
      var bucket := Bucket(hash, p, buckets.Length);
      assert heads[bucket] == buckets[bucket];
      var e := Live(p, space, objects, aggregate, buckets[bucket]);
      AddWf(es, heads, free, count, lists, at, hash, e);
      TakenKeyed(es, index, e, at);
      TakenHeads(buckets[..], freeHead, es, chain, bucket);
      TakenEntered(es, index, e);
      freeHead := entries[index].next;
      entries[index] := e;
      buckets[bucket] := index;
      count := count + 1;
      lists, at := Move(lists, free, 0, bucket), at[p := index];
      assert entries[..] == es[index := e];
    }
  }
}
