/** Per-character counters (the native engine's `HashMap<char, i32>` of hits
    and of errors) and their grand total. */
module Tally {

  /** `*m.entry(c).or_insert(0) += 1`: count one more `c`. */
  function Bump(m: map<char, int>, c: char): (r: map<char, int>)
    ensures r.Keys == m.Keys + {c}
    ensures r[c] == (if c in m then m[c] else 0) + 1
    ensures forall k :: k in m && k != c ==> r[k] == m[k]
  {
    m[c := (if c in m then m[c] else 0) + 1]
  }

  /** Sum of all counters. */
  ghost function Total(m: map<char, int>): int
    decreases |m|
  {
    if m == map[] then 0
    else
      var k :| k in m;
      m[k] + Total(m - {k})
  }

  /** The total does not depend on which key is taken out first. */
  lemma {:induction false} TotalRemove(m: map<char, int>, k: char)
    requires k in m
    ensures Total(m) == m[k] + Total(m - {k})
    decreases |m|
  {
    var j :| j in m && Total(m) == m[j] + Total(m - {j});
    if j != k {
      assert (m - {j}) - {k} == (m - {k}) - {j};
      TotalRemove(m - {j}, k);
      TotalRemove(m - {k}, j);
    }
  }

  /** Counting one character raises the total by exactly one. */
  lemma BumpTotal(m: map<char, int>, c: char)
    ensures Total(Bump(m, c)) == Total(m) + 1
  {
    var r := Bump(m, c);
    TotalRemove(r, c);
    if c in m {
      assert r - {c} == m - {c};
      TotalRemove(m, c);
    } else {
      assert r - {c} == m;
    }
  }
}
