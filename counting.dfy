// Word counters: the `collections.Counter` / frequency-dict update that every
// counting function of the plugin performs, and the sum of a counter.
module Counting {
  import opened Seqs

  /** One occurrence of `w` added to counter `m` (`m[w] = m.get(w, 0) + 1`). */
  function Increment(m: map<string, nat>, w: string): (r: map<string, nat>)
    ensures r.Keys == m.Keys + {w}
    ensures r[w] == (if w in m then m[w] else 0) + 1
    ensures forall v :: v in m && v != w ==> r[v] == m[v]
  {
    m[w := (if w in m then m[w] else 0) + 1]
  }

  /** The counter built by incrementing once per element, left to right. */
  function Tally(s: seq<string>): map<string, nat>
  {
    if s == [] then map[] else Increment(Tally(s[..|s| - 1]), s[|s| - 1])
  }

  /** Sum of all the counts of a counter. */
  ghost function Total(m: map<string, nat>): nat
    decreases |m.Keys|
  {
    if m == map[] then 0
    else
      var k :| k in m;
      m[k] + Total(m - {k})
  }

  /** The key set of the tally is the set of elements, and every count is the
      element's multiplicity. */
  lemma {:induction false} TallyCounts(s: seq<string>)
    ensures Tally(s).Keys == set x | x in s
    ensures forall w :: w in Tally(s) ==> Tally(s)[w] == multiset(s)[w]
  {
    if s != [] {
      var init, last := s[..|s| - 1], s[|s| - 1];
      TallyCounts(init);
      SplitLast(s);
      assert multiset(s) == multiset(init) + multiset{last};
      assert forall x :: x in s <==> x in init || x == last;
    }
  }

  /** Multiplicity of any value, whether it occurs or not. */
  lemma TallyCount(s: seq<string>, w: string)
    ensures (if w in Tally(s) then Tally(s)[w] else 0) == multiset(s)[w]
  {
    TallyCounts(s);
  }

  /** Every count is at least one. */
  lemma TallyPositive(s: seq<string>)
    ensures forall w :: w in Tally(s) ==> Tally(s)[w] >= 1
  {
    TallyCounts(s);
  }

  /** `Total` may peel off any key. */
  lemma {:induction false} TotalRemove(m: map<string, nat>, k: string)
    requires k in m
    ensures Total(m) == m[k] + Total(m - {k})
    decreases |m.Keys|
  {
    var j :| j in m && Total(m) == m[j] + Total(m - {j});
    if j != k {
      assert |(m - {j}).Keys| < |m.Keys| by {
        assert (m - {j}).Keys == m.Keys - {j};
      }
      TotalRemove(m - {j}, k);
      assert |(m - {k}).Keys| < |m.Keys| by {
        assert (m - {k}).Keys == m.Keys - {k};
      }
      TotalRemove(m - {k}, j);
      assert m - {j} - {k} == m - {k} - {j};
    }
  }

  /** Incrementing a counter adds one to its total. */
  lemma IncrementTotal(m: map<string, nat>, w: string)
    ensures Total(Increment(m, w)) == Total(m) + 1
  {
    var r := Increment(m, w);
    TotalRemove(r, w);
    if w in m {
      TotalRemove(m, w);
      assert r - {w} == m - {w};
    } else {
      assert r - {w} == m;
    }
  }

  /** The counts of a tally sum to the number of elements counted. */
  lemma {:induction false} TallyTotal(s: seq<string>)
    ensures Total(Tally(s)) == |s|
  {
    if s != [] {
      TallyTotal(s[..|s| - 1]);
      IncrementTotal(Tally(s[..|s| - 1]), s[|s| - 1]);
    }
  }

  /** Two sequences with the same elements, counted with multiplicity, have
      the same tally: the counter ignores order. */
  lemma TallyPermutation(a: seq<string>, b: seq<string>)
    requires multiset(a) == multiset(b)
    ensures Tally(a) == Tally(b)
  {
    TallyCounts(a);
    TallyCounts(b);
    assert forall x :: x in a <==> x in multiset(a);
    assert forall x :: x in b <==> x in multiset(b);
    assert Tally(a).Keys == Tally(b).Keys;
  }
}
