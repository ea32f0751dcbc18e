/** Shared value types. */
module Prelude {
  datatype Option<+T> = None | Some(value: T) {
    function GetOr(default: T): T {
      if Some? then value else default
    }
  }

  /** `sub` is the part of `s` whose elements satisfy `keep`, in order. */
  function Filter<T>(s: seq<T>, keep: T -> bool): seq<T> {
    if s == [] then []
    else Filter(s[..|s| - 1], keep) + (if keep(s[|s| - 1]) then [s[|s| - 1]] else [])
  }

  lemma {:induction false} FilterAppend<T>(s: seq<T>, t: seq<T>, keep: T -> bool)
    ensures Filter(s + t, keep) == Filter(s, keep) + Filter(t, keep)
  {
    if t == [] {
      assert s + t == s;
    } else {
      var last := |t| - 1;
      FilterAppend(s, t[..last], keep);
      assert (s + t)[..|s + t| - 1] == s + t[..last];
    }
  }

  lemma {:induction false} FilterMembers<T>(s: seq<T>, keep: T -> bool)
    ensures forall x :: x in Filter(s, keep) <==> x in s && keep(x)
    ensures |Filter(s, keep)| <= |s|
  {
    if s != [] {
      FilterMembers(s[..|s| - 1], keep);
      assert s == s[..|s| - 1] + [s[|s| - 1]];
    }
  }

  /** The sum of a map's values. */
  ghost function Total<K(!new)>(m: map<K, nat>): nat
    decreases m.Keys
  {
    if m == map[] then 0 else var k :| k in m; m[k] + Total(m - {k})
  }

  /** Any key may be taken first. */
  lemma {:induction false} TotalRemove<K(!new)>(m: map<K, nat>, k: K)
    requires k in m
    ensures Total(m) == m[k] + Total(m - {k})
    decreases m.Keys
  {
    var first :| first in m && Total(m) == m[first] + Total(m - {first});
    if first != k {
      TotalRemove(m - {first}, k);
      TotalRemove(m - {k}, first);
      assert m - {first} - {k} == m - {k} - {first};
    }
  }

  lemma TotalInsert<K(!new)>(m: map<K, nat>, k: K, n: nat)
    requires k !in m
    ensures Total(m[k := n]) == Total(m) + n
  {
    TotalRemove(m[k := n], k);
    assert m[k := n] - {k} == m;
  }

  lemma {:induction false} SmallerSet<T>(a: set<T>, b: set<T>)
    requires a <= b
    ensures |a| <= |b|
  {
    assert b == a + (b - a);
  }

  /** How often `x` occurs in `s`. */
  function Times<T(==)>(s: seq<T>, x: T): nat
    decreases |s|
  {
    if s == [] then 0 else Times(s[..|s| - 1], x) + (if s[|s| - 1] == x then 1 else 0)
  }

  lemma TimesAppend<T>(s: seq<T>, y: T, x: T)
    ensures Times(s + [y], x) == Times(s, x) + (if y == x then 1 else 0)
  {
    assert (s + [y])[..|s|] == s;
  }

  /** A non-empty finite set has an element of least rank. */
  lemma {:induction false} LeastExists<T(!new)>(s: set<T>, rank: T -> int) returns (x: T)
    requires s != {}
    ensures x in s && forall y :: y in s ==> rank(x) <= rank(y)
    decreases s
  {
    x :| x in s;
    if s != {x} {
      var other := LeastExists(s - {x}, rank);
      if rank(other) < rank(x) { x := other; }
    }
  }
}
