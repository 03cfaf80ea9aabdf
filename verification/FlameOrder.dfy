/** The drawing order of siblings in tools/pprof-flamegraph/main.go: larger values
    first, equal values by name. It is total on siblings, whose names differ, so the
    order in which a map yields them does not show. */
module FlameOrder {
  datatype Kid = Kid(name: string, value: nat)

  /** Byte-wise string comparison. */
  predicate StringLess(a: string, b: string) {
    if b == [] then false
    else if a == [] then true
    else a[0] < b[0] || (a[0] == b[0] && StringLess(a[1..], b[1..]))
  }

  lemma {:induction false} StringTotal(a: string, b: string)
    ensures StringLess(a, b) || StringLess(b, a) || a == b
  {
    if a != [] && b != [] && a[0] == b[0] {
      StringTotal(a[1..], b[1..]);
      if a[1..] == b[1..] {
        assert a == [a[0]] + a[1..] && b == [b[0]] + b[1..];
      }
    }
  }

  lemma {:induction false} StringAsymmetric(a: string, b: string)
    ensures !(StringLess(a, b) && StringLess(b, a))
  {
    if a != [] && b != [] {
      StringAsymmetric(a[1..], b[1..]);
    }
  }

  lemma {:induction false} StringTransitive(a: string, b: string, c: string)
    requires StringLess(a, b) && StringLess(b, c)
    ensures StringLess(a, c)
  {
    if a != [] && b != [] && c != [] && a[0] == b[0] == c[0] {
      StringTransitive(a[1..], b[1..], c[1..]);
    }
  }

  /** The comparison sortedChildren sorts by. */
  predicate Before(a: Kid, b: Kid) {
    if a.value != b.value then a.value > b.value else StringLess(a.name, b.name)
  }

  lemma BeforeIsOrder(a: Kid, b: Kid, c: Kid)
    ensures Before(a, b) || Before(b, a) || a == b
    ensures !(Before(a, b) && Before(b, a))
    ensures Before(a, b) && Before(b, c) ==> Before(a, c)
  {
    StringTotal(a.name, b.name);
    StringAsymmetric(a.name, b.name);
    if StringLess(a.name, b.name) && StringLess(b.name, c.name) {
      StringTransitive(a.name, b.name, c.name);
    }
  }

  ghost predicate Ordered(s: seq<Kid>) {
    forall i: nat, j: nat :: i < j < |s| ==> Before(s[i], s[j])
  }

  ghost predicate Lists(s: seq<Kid>, kids: set<Kid>) {
    forall k: Kid :: k in s <==> k in kids
  }

  /** Two ordered lists of the same siblings are the same list. */
  lemma {:induction false} OrderIsUnique(s: seq<Kid>, t: seq<Kid>, kids: set<Kid>)
    requires Ordered(s) && Ordered(t) && Lists(s, kids) && Lists(t, kids)
    ensures s == t
    decreases |s|
  {
    if |t| > 0 {
      assert t[0] in kids;
      assert t[0] in s;
    }
    if |s| > 0 {
      assert s[0] in kids;
      assert s[0] in t;
      SameFirst(s, t, kids);
      RestLists(s, kids);
      RestLists(t, kids);
      OrderIsUnique(s[1..], t[1..], kids - {s[0]});
      assert s == [s[0]] + s[1..] && t == [t[0]] + t[1..];
    }
  }

  lemma SameFirst(s: seq<Kid>, t: seq<Kid>, kids: set<Kid>)
    requires Ordered(s) && Ordered(t) && Lists(s, kids) && Lists(t, kids) && |s| > 0 && |t| > 0
    ensures s[0] == t[0]
  {
    assert s[0] in kids && t[0] in kids;
    var i: nat :| i < |t| && t[i] == s[0];
    var j: nat :| j < |s| && s[j] == t[0];
    BeforeIsOrder(s[0], t[0], t[0]);
  }

  lemma RestLists(s: seq<Kid>, kids: set<Kid>)
    requires Ordered(s) && Lists(s, kids) && |s| > 0
    ensures Ordered(s[1..]) && Lists(s[1..], kids - {s[0]})
  {
    forall k: Kid ensures k in s[1..] <==> k in kids - {s[0]} {
      if k in s[1..] {
        var i: nat :| i < |s[1..]| && s[1..][i] == k;
        assert s[i + 1] == k && Before(s[0], s[i + 1]);
        BeforeIsOrder(s[0], k, k);
      }
      if k in kids - {s[0]} {
        assert k in s;
        var i: nat :| i < |s| && s[i] == k;
        assert s[1..][i - 1] == k;
      }
    }
  }

  /** One sibling more, put where it belongs. */
  method Insert(s: seq<Kid>, k: Kid) returns (t: seq<Kid>)
    requires Ordered(s) && k !in s
    ensures Ordered(t) && forall x: Kid :: x in t <==> x in s || x == k
  {
    var i := 0;
    while i < |s| && Before(s[i], k)
      invariant i <= |s| && forall j: nat :: j < i ==> Before(s[j], k)
    {
      i := i + 1;
    }
    InsertKeepsOrder(s, k, i);
    t := s[..i] + [k] + s[i..];
  }

  lemma InsertKeepsOrder(s: seq<Kid>, k: Kid, i: nat)
    requires Ordered(s) && k !in s && i <= |s| && forall j: nat :: j < i ==> Before(s[j], k)
    requires i < |s| ==> !Before(s[i], k)
    ensures var t := s[..i] + [k] + s[i..]; Ordered(t) && forall x: Kid :: x in t <==> x in s || x == k
  {
    var t := s[..i] + [k] + s[i..];
    forall j: nat | i <= j < |s| ensures Before(k, s[j]) {
      BeforeIsOrder(k, s[i], s[j]);
    }
    assert s == s[..i] + s[i..];
  }

  /** Any siblings can be put in order. */
  lemma {:induction false} OrderExists(kids: set<Kid>) returns (s: seq<Kid>)
    ensures Ordered(s) && Lists(s, kids)
    decreases |kids|
  {
    if kids == {} {
      s := [];
    } else {
      var k :| k in kids;
      s := OrderExists(kids - {k});
      assert k !in s;
      var i := 0;
      while i < |s| && Before(s[i], k)
        invariant i <= |s| && forall j: nat :: j < i ==> Before(s[j], k)
      {
        i := i + 1;
      }
      InsertKeepsOrder(s, k, i);
      s := s[..i] + [k] + s[i..];
    }
  }
}
