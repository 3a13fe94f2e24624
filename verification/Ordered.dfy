/** Ordered traversal of a map's keys: the order in which a sorted map is iterated. */
module Ordered {
  import opened Types

  /** The keys come in strictly ascending order. */
  ghost predicate Increasing(s: seq<u64>) {
    forall i, j :: 0 <= i < j < |s| ==> s[i] < s[j]
  }

  ghost predicate IsLeast(m: u64, s: set<u64>) {
    m in s && forall y | y in s :: m <= y
  }

  lemma {:induction false} LeastExists(s: set<u64>) returns (m: u64)
    requires s != {}
    ensures IsLeast(m, s)
  {
    var x :| x in s;
    if s == {x} {
      m := x;
    } else {
      var rest := s - {x};
      assert s == rest + {x};
      m := LeastExists(rest);
      m := if x <= m then x else m;
    }
  }

  function Least(s: set<u64>): (m: u64)
    requires s != {}
    ensures m in s && forall y | y in s :: m <= y
  {
    assert exists m :: m in s && forall y | y in s :: m <= y by {
      var m := LeastExists(s);
      assert IsLeast(m, s);
    }
    var m :| m in s && forall y | y in s :: m <= y;
    m
  }

  /** The elements of a set in ascending order. */
  function Ascending(s: set<u64>): (r: seq<u64>)
    ensures |r| == |s|
    ensures forall x :: x in r <==> x in s
    ensures Increasing(r)
  {
    if s == {} then []
    else
      var m := Least(s);
      var rest := Ascending(s - {m});
      assert forall x :: x in s <==> x == m || x in s - {m};
      [m] + rest
  }

  /** The map with every value replaced, entry by entry in key order. */
  function Mapped<V, W>(m: map<u64, V>, f: V -> W): (r: map<u64, W>)
    ensures r.Keys == m.Keys && forall k | k in m :: r[k] == f(m[k])
    decreases |m|
  {
    if m == map[] then map[]
    else
      var k := Least(m.Keys);
      assert m == (m - {k})[k := m[k]];
      Mapped(m - {k}, f)[k := f(m[k])]
  }
}
