/** Iteration in key order over sets, and sorting of texts. */
module Ordering {
  import opened Octets

  ghost predicate IsLeast(m: nat, s: set<nat>) { m in s && forall x :: x in s ==> m <= x }

  lemma {:induction false} LeastExists(s: set<nat>)
    requires s != {}
    ensures exists m :: IsLeast(m, s)
    decreases |s|
  {
    var x :| x in s;
    var rest := s - {x};
    assert forall y :: y in s ==> y == x || y in rest;
    if rest == {} {
      assert IsLeast(x, s);
    } else {
      LeastExists(rest);
      var m :| IsLeast(m, rest);
      assert IsLeast(if m < x then m else x, s);
    }
  }

  /** The elements of a set in the order in which a `std::set` or `std::map` is walked. Sessions
      are kept by pointer in the source; their ids stand for the pointer order. */
  ghost function Ordered(s: set<nat>): (q: seq<nat>)
    ensures |q| == |s| && (forall x :: x in q <==> x in s)
    decreases |s|
  {
    if s == {} then []
    else
      LeastExists(s);
      var m :| IsLeast(m, s);
      [m] + Ordered(s - {m})
  }

  lemma OrderedOf(m: nat, s: set<nat>)
    requires IsLeast(m, s)
    ensures Ordered(s) == [m] + Ordered(s - {m})
  {
    var first := Ordered(s)[0];
    assert IsLeast(first, s);
  }

  lemma {:induction false} OrderedAscends(s: set<nat>)
    ensures forall j, k :: 0 <= j < k < |Ordered(s)| ==> Ordered(s)[j] < Ordered(s)[k]
    decreases |s|
  {
    hide Ordered;
    if s != {} {
      LeastExists(s);
      var m :| IsLeast(m, s);
      OrderedOf(m, s);
      var rest := Ordered(s - {m});
      OrderedAscends(s - {m});
      forall j, k | 0 <= j < k < |Ordered(s)| ensures Ordered(s)[j] < Ordered(s)[k] {
        assert rest[k - 1] in rest;
      }
    }
  }

  method Walk(s: set<nat>) returns (q: seq<nat>)
    ensures q == Ordered(s)
  {
    hide Ordered;
    q := [];
    var rest := s;
    while rest != {}
      invariant q + Ordered(rest) == Ordered(s)
      decreases |rest|
    {
      var m := LeastOf(rest);
      OrderedOf(m, rest);
      q := q + [m];
      rest := rest - {m};
    }
  }

  method LeastOf(s: set<nat>) returns (m: nat)
    requires s != {}
    ensures IsLeast(m, s)
  {
    m :| m in s;
    var rest := s - {m};
    while rest != {}
      invariant m in s && rest <= s && forall x :: x in s && x !in rest ==> m <= x
      decreases |rest|
    {
      var x :| x in rest;
      if x < m { m := x; }
      rest := rest - {x};
    }
  }

  // ---- sorting ----

  function Insert(t: Text, q: seq<Text>): seq<Text>
  {
    if q == [] || LexLess(t, q[0]) then [t] + q else [q[0]] + Insert(t, q[1..])
  }

  /** `std::sort` on texts. */
  function Sort(q: seq<Text>): seq<Text>
  {
    if q == [] then [] else Insert(q[0], Sort(q[1..]))
  }

  ghost predicate IsSorted(q: seq<Text>) { forall i, j :: 0 <= i < j < |q| ==> !LexLess(q[j], q[i]) }

  lemma {:induction false} InsertElements(t: Text, q: seq<Text>)
    ensures multiset(Insert(t, q)) == multiset(q) + multiset{t}
    ensures forall x :: x in Insert(t, q) ==> x == t || x in q
  {
    if q != [] && !LexLess(t, q[0]) {
      InsertElements(t, q[1..]);
      assert q == [q[0]] + q[1..];
    }
  }

  ghost predicate NoneBelow(t: Text, q: seq<Text>) { forall x :: x in q ==> !LexLess(x, t) }

  lemma {:induction false} SortedCons(t: Text, q: seq<Text>)
    requires IsSorted(q) && NoneBelow(t, q)
    ensures IsSorted([t] + q)
  {
    var all := [t] + q;
    forall i, j | 0 <= i < j < |all| ensures !LexLess(all[j], all[i]) {
      assert all[j] == q[j - 1];
      if i > 0 { assert all[i] == q[i - 1]; }
    }
  }

  lemma {:induction false} InsertSorted(t: Text, q: seq<Text>)
    requires IsSorted(q)
    ensures IsSorted(Insert(t, q))
  {
    if q == [] {
    } else if LexLess(t, q[0]) {
      forall x | x in q ensures !LexLess(x, t) {
        if LexLess(x, t) {
          LexTransitive(x, t, q[0]);
          var j :| 0 <= j < |q| && q[j] == x;
          LexIrreflexive(q[0]);
        }
      }
      SortedCons(t, q);
    } else {
      InsertSorted(t, q[1..]);
      InsertElements(t, q[1..]);
      forall x | x in q[1..] ensures !LexLess(x, q[0]) {
        var j :| 1 <= j < |q| && q[j] == x;
      }
      SortedCons(q[0], Insert(t, q[1..]));
    }
  }

  /** Sorting yields the same texts, in order. */
  lemma {:induction false} SortSorts(q: seq<Text>)
    ensures IsSorted(Sort(q)) && multiset(Sort(q)) == multiset(q)
  {
    if q != [] {
      SortSorts(q[1..]);
      InsertSorted(q[0], Sort(q[1..]));
      InsertElements(q[0], Sort(q[1..]));
      assert q == [q[0]] + q[1..];
    }
  }

  lemma {:induction false} LeastFirst(q: seq<Text>, t: Text)
    requires q != [] && IsSorted(q) && t in q
    ensures !LexLess(t, q[0])
  {
    var j :| 0 <= j < |q| && q[j] == t;
    LexIrreflexive(q[0]);
  }

  lemma {:induction false} SortedTail(q: seq<Text>)
    requires q != [] && IsSorted(q)
    ensures IsSorted(q[1..])
  {
    hide LexLess;
  }

  /** There is only one sorted list of the same texts. */
  lemma {:induction false} SortedUnique(a: seq<Text>, b: seq<Text>)
    requires IsSorted(a) && IsSorted(b) && multiset(a) == multiset(b)
    ensures a == b
    decreases |a|
  {
    assert |a| == |multiset(a)| == |multiset(b)| == |b|;
    if a != [] {
      assert a[0] in multiset(b) && b[0] in multiset(a);
      LeastFirst(a, b[0]);
      LeastFirst(b, a[0]);
      LexTotal(a[0], b[0]);
      SortedTail(a);
      SortedTail(b);
      hide IsSorted, LexLess;
      assert a == [a[0]] + a[1..] && b == [b[0]] + b[1..];
      assert multiset(a[1..]) == multiset(a) - multiset{a[0]} && multiset(b[1..]) == multiset(b) - multiset{b[0]};
      SortedUnique(a[1..], b[1..]);
    }
  }
}
