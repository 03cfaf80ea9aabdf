/** Linear probing without deletion, as used by the symbol and aggregate tables
    of src/memory_core.c and src/cpu_core.c and the interning tables of
    src/pprof_exporter.c. The hash function is arbitrary. */
module Probing {
  import opened Common

  datatype Entry<K, V> = Entry(key: K, value: V)

  type Slots<K, V> = seq<Option<Entry<K, V>>>

  /** The cell `p` places after `home`, going round. */
  function At(home: nat, p: nat, cap: nat): nat
    requires home < cap && p < cap
  {
    if home + p < cap then home + p else home + p - cap
  }

  function Distance(home: nat, i: nat, cap: nat): nat
    requires home < cap && i < cap
  {
    if i >= home then i - home else i + cap - home
  }

  lemma ProbeIndex(hash: nat, p: nat, cap: nat)
    requires p < cap
    ensures (hash + p) % cap == At(hash % cap, p, cap)
  {
    var q, r := hash / cap, hash % cap;
    assert hash + p == q * cap + (r + p);
    if r + p < cap {
      Residue(q, r + p, cap);
    } else {
      Residue(q + 1, r + p - cap, cap);
      assert (q + 1) * cap == q * cap + cap;
    }
  }

  lemma Residue(q: nat, r: nat, cap: nat)
    requires r < cap
    ensures (q * cap + r) % cap == r
  {
    var n := q * cap + r;
    SameQuotient(q, r, n / cap, n % cap, cap);
  }

  lemma SameQuotient(q: nat, r: nat, q': nat, r': nat, cap: nat)
    requires r < cap && r' < cap && q * cap + r == q' * cap + r'
    ensures q == q' && r == r'
  {
    var d := q - q';
    Multiple(d, cap);
    assert d * cap == q * cap - q' * cap == r' - r;
  }

  lemma Multiple(d: int, cap: nat)
    ensures d >= 1 ==> d * cap >= cap
    ensures d <= -1 ==> d * cap + cap <= 0
  {
  }

  /** 64-bit overflow of hash + probe does not show in a power-of-two table. */
  lemma WrapIsInvisible(n: nat, cap: nat, k: nat)
    requires 0 < cap && cap * k == WORD
    ensures n % WORD % cap == n % cap
  {
    var q, r := n / WORD, n % WORD;
    assert n == (q * k) * cap + r by {
      assert q * WORD == q * (cap * k);
    }
    assert n == (q * k + r / cap) * cap + r % cap;
    Residue(q * k + r / cap, r % cap, cap);
  }

  predicate Holds<K(==), V>(s: Slots<K, V>, i: nat, k: K) {
    i < |s| && s[i].Some? && s[i].value.key == k
  }

  function Home<K>(h: K -> nat, k: K, cap: nat): nat
    requires 0 < cap
  {
    h(k) % cap
  }

  /** Cells before an entry's own, from its home on, are all taken. */
  ghost predicate NoGaps<K(!new), V(!new)>(s: Slots<K, V>, h: K -> nat) {
    forall i: nat, p: nat ::
      i < |s| && s[i].Some? && p < Distance(Home(h, s[i].value.key, |s|), i, |s|) ==>
        s[At(Home(h, s[i].value.key, |s|), p, |s|)].Some?
  }

  ghost predicate Distinct<K(!new), V(!new)>(s: Slots<K, V>) {
    forall i: nat, j: nat :: i < j < |s| && s[i].Some? && s[j].Some? ==> s[i].value.key != s[j].value.key
  }

  ghost predicate Probed<K(!new), V(!new)>(s: Slots<K, V>, h: K -> nat) {
    NoGaps(s, h) && Distinct(s)
  }

  ghost predicate Absent<K(!new), V(!new)>(s: Slots<K, V>, k: K) {
    forall i: nat :: i < |s| && s[i].Some? ==> s[i].value.key != k
  }

  /** The first `p` probes met other keys. */
  ghost predicate Passed<K(!new), V(!new)>(s: Slots<K, V>, h: K -> nat, k: K, p: nat)
    requires 0 < |s| && p <= |s|
  {
    forall q: nat :: q < p ==>
      s[At(Home(h, k, |s|), q, |s|)].Some? && s[At(Home(h, k, |s|), q, |s|)].value.key != k
  }

  /** A probe that stops at a free cell, or goes all the way round, proves absence. */
  lemma MissMeansAbsent<K(!new), V(!new)>(s: Slots<K, V>, h: K -> nat, k: K, p: nat)
    requires 0 < |s| && p <= |s| && Probed(s, h) && Passed(s, h, k, p)
    requires p < |s| ==> s[At(Home(h, k, |s|), p, |s|)].None?
    ensures Absent(s, k)
  {
    forall i: nat | i < |s| && s[i].Some? ensures s[i].value.key != k {
      var home := Home(h, s[i].value.key, |s|);
      var d := Distance(home, i, |s|);
      assert At(home, d, |s|) == i;
      if p < d {
        assert s[At(home, p, |s|)].Some?;
      }
    }
  }

  lemma InsertKeepsProbed<K(!new), V(!new)>(s: Slots<K, V>, h: K -> nat, k: K, v: V, p: nat)
    requires p < |s| && Probed(s, h) && Passed(s, h, k, p)
    requires s[At(Home(h, k, |s|), p, |s|)].None?
    ensures Probed(s[At(Home(h, k, |s|), p, |s|) := Some(Entry(k, v))], h)
  {
    var x := At(Home(h, k, |s|), p, |s|);
    var t := s[x := Some(Entry(k, v))];
    MissMeansAbsent(s, h, k, p);
    forall i: nat, q: nat |
      i < |t| && t[i].Some? && q < Distance(Home(h, t[i].value.key, |t|), i, |t|)
      ensures t[At(Home(h, t[i].value.key, |t|), q, |t|)].Some?
    {
      if i == x {
        assert q < p;
        assert s[At(Home(h, k, |s|), q, |s|)].Some?;
      } else {
        assert s[At(Home(h, s[i].value.key, |s|), q, |s|)].Some?;
      }
    }
  }

  /** Changing the value of an entry leaves every probe sequence as it was. */
  lemma UpdateKeepsProbed<K(!new), V(!new)>(s: Slots<K, V>, h: K -> nat, i: nat, v: V)
    requires i < |s| && s[i].Some? && Probed(s, h)
    ensures Probed(s[i := Some(Entry(s[i].value.key, v))], h)
  {
    var t := s[i := Some(Entry(s[i].value.key, v))];
    forall j: nat, q: nat |
      j < |t| && t[j].Some? && q < Distance(Home(h, t[j].value.key, |t|), j, |t|)
      ensures t[At(Home(h, t[j].value.key, |t|), q, |t|)].Some?
    {
      assert s[At(Home(h, s[j].value.key, |s|), q, |s|)].Some?;
    }
  }

  /** Number of taken cells. */
  function Used<K, V>(s: Slots<K, V>): nat {
    if s == [] then 0 else Used(s[..|s| - 1]) + (if s[|s| - 1].Some? then 1 else 0)
  }

  lemma {:induction false} UsedBounds<K, V>(s: Slots<K, V>)
    ensures Used(s) <= |s|
    ensures Used(s) == |s| <==> forall i: nat :: i < |s| ==> s[i].Some?
  {
    if s != [] {
      var r := s[..|s| - 1];
      UsedBounds(r);
      assert (forall i: nat :: i < |s| ==> s[i].Some?) <==>
             (forall i: nat :: i < |r| ==> r[i].Some?) && s[|s| - 1].Some? by {
        forall i: nat | i < |r| ensures r[i] == s[i] { }
      }
    }
  }

  lemma {:induction false} UsedInsert<K, V>(s: Slots<K, V>, i: nat, e: Entry<K, V>)
    requires i < |s|
    ensures Used(s[i := Some(e)]) == Used(s) + (if s[i].Some? then 0 else 1)
  {
    var t := s[i := Some(e)];
    var n := |s| - 1;
    if i == n {
      assert t[..n] == s[..n];
    } else {
      assert t[..n] == s[..n][i := Some(e)];
      UsedInsert(s[..n], i, e);
    }
  }

  /** The entries in index order, without the free cells between them. */
  function Listing<K, V>(s: Slots<K, V>): (r: seq<Entry<K, V>>)
    ensures |r| == Used(s)
  {
    if s == [] then []
    else Listing(s[..|s| - 1]) + (if s[|s| - 1].Some? then [s[|s| - 1].value] else [])
  }

  lemma {:induction false} ListingGrows<K, V>(s: Slots<K, V>, i: nat)
    requires i <= |s|
    ensures Used(s[..i]) <= Used(s) && Listing(s[..i]) == Listing(s)[..Used(s[..i])]
  {
    if i == |s| {
      assert s[..i] == s;
    } else {
      ListingGrows(s[..|s| - 1], i);
      assert s[..|s| - 1][..i] == s[..i];
    }
  }

  /** The table as a partial map, by membership. */
  ghost predicate Maps<K(!new), V(!new)>(s: Slots<K, V>, k: K, v: V) {
    exists i: nat :: i < |s| && s[i] == Some(Entry(k, v))
  }

  /** What a search may answer: where the key is, where it would go, or no room. */
  datatype Found = Hit(index: nat) | Free(index: nat) | Full

  /** A table of one profile, kept in an array that is never shrunk or rehashed. */
  class Table<K(==, !new), V(!new)> {
    const slots: array<Option<Entry<K, V>>>
    const hash: K -> nat

    ghost predicate Valid()
      reads slots
    {
      slots.Length > 0 && Probed(slots[..], hash)
    }

    constructor (capacity: nat, hash: K -> nat)
      requires capacity > 0
      ensures Valid() && fresh(slots) && slots.Length == capacity && this.hash == hash
      ensures forall i: nat :: i < capacity ==> slots[i].None?
    {
      slots := new Option<Entry<K, V>>[capacity](_ => None);
      this.hash := hash;
    }

    /** A probe for `k` passes other keys only and ends at the free cell `i`. */
    ghost predicate Ends(i: nat, k: K)
      reads slots
    {
      && i < slots.Length && slots[i].None?
      && exists p: nat :: p < slots.Length && Passed(slots[..], hash, k, p)
                          && At(Home(hash, k, slots.Length), p, slots.Length) == i
    }

    /** The probe loop every table of the program searches with. */
    method Locate(k: K) returns (r: Found)
      requires Valid()
      ensures r.Hit? ==> Holds(slots[..], r.index, k)
      ensures r.Free? ==> Ends(r.index, k) && Absent(slots[..], k)
      ensures r.Full? ==> Absent(slots[..], k) && forall i: nat :: i < slots.Length ==> slots[i].Some?
    {
      ghost var s := slots[..];
      var probe := 0;
      while probe < slots.Length
        invariant probe <= slots.Length && Passed(s, hash, k, probe)
      {
        var index := (hash(k) + probe) % slots.Length;
        ProbeIndex(hash(k), probe, slots.Length);
        match slots[index]
        case None =>
          MissMeansAbsent(s, hash, k, probe);
          return Free(index);
        case Some(e) =>
          if e.key == k {
            return Hit(index);
          }
        probe := probe + 1;
      }
      MissMeansAbsent(s, hash, k, probe);
      forall i: nat | i < |s| ensures s[i].Some? {
        assert At(Home(hash, k, |s|), Distance(Home(hash, k, |s|), i, |s|), |s|) == i;
      }
      return Full;
    }

    /** Fill the free cell a search for `k` ended at. */
    method Fill(i: nat, k: K, v: V)
      requires Valid() && Ends(i, k)
      modifies slots
      ensures Valid() && slots[..] == old(slots[..])[i := Some(Entry(k, v))]
    {
      ghost var p: nat :| p < slots.Length && Passed(slots[..], hash, k, p)
                          && At(Home(hash, k, slots.Length), p, slots.Length) == i;
      InsertKeepsProbed(slots[..], hash, k, v, p);
      slots[i] := Some(Entry(k, v));
      assert slots[..] == old(slots[..])[i := Some(Entry(k, v))];
    }

    /** Change the value stored for the key at `i`. */
    method Amend(i: nat, v: V)
      requires Valid() && i < slots.Length && slots[i].Some?
      modifies slots
      ensures Valid() && slots[..] == old(slots[..])[i := Some(Entry(old(slots[i]).value.key, v))]
    {
      UpdateKeepsProbed(slots[..], hash, i, v);
      slots[i] := Some(Entry(slots[i].value.key, v));
      assert slots[..] == old(slots[..])[i := Some(Entry(old(slots[i]).value.key, v))];
    }

    /** aggregate_at: the entry that `wanted` used cells come before. */
    method Nth(wanted: nat, count: nat) returns (r: Option<Entry<K, V>>)
      requires count == Used(slots[..])
      ensures r == if wanted < count then Some(Listing(slots[..])[wanted]) else None
    {
      if wanted >= count { return None; }
      var left: nat := wanted;
      for i := 0 to slots.Length
        invariant left + Used(slots[..i]) == wanted
      {
        assert slots[..i + 1][..i] == slots[..i];
        ListingGrows(slots[..], i + 1);
        assert slots[..][..i + 1] == slots[..i + 1];
        match slots[i]
        case Some(e) =>
          if left == 0 {
            assert Listing(slots[..i + 1])[wanted] == e;
            return Some(e);
          }
          left := left - 1;
        case None =>
      }
      assert slots[..slots.Length] == slots[..];
      return None;
    }
  }
}
