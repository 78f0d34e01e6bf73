/** Counting helpers: occurrences in a sequence and the total of a counter map. */
module Tally {

  /** How many times `x` occurs in `s`. */
  function Occ<T(==)>(s: seq<T>, x: T): nat
    decreases |s|
  {
    if s == [] then 0 else Occ(s[..|s| - 1], x) + (if s[|s| - 1] == x then 1 else 0)
  }

  /** A counter's value for `k`, with a missing key read as 0. */
  function Count0<K>(m: map<K, nat>, k: K): nat {
    if k in m then m[k] else 0
  }

  /** The total of all counts in a counter map. */
  ghost function MapSum<K>(m: map<K, nat>): nat
    decreases |m.Keys|
  {
    if m == map[] then 0 else var k :| k in m; m[k] + MapSum(m - {k})
  }

  /** MapSum does not depend on the key the definition happens to pick. */
  lemma {:induction false} MapSumRemove<K>(m: map<K, nat>, k: K)
    requires k in m
    ensures MapSum(m) == m[k] + MapSum(m - {k})
    decreases |m.Keys|
  {
    var j :| j in m && MapSum(m) == m[j] + MapSum(m - {j});
    if j != k {
      MapSumRemove(m - {j}, k);
      MapSumRemove(m - {k}, j);
      assert (m - {j}) - {k} == (m - {k}) - {j};
    }
  }

  /** Adding one to a counter adds one to the total. */
  lemma {:induction false} MapSumIncrement<K>(m: map<K, nat>, k: K)
    ensures MapSum(m[k := Count0(m, k) + 1]) == MapSum(m) + 1
  {
    var m' := m[k := Count0(m, k) + 1];
    MapSumRemove(m', k);
    assert m' - {k} == m - {k};
    if k in m {
      MapSumRemove(m, k);
    } else {
      assert m - {k} == m;
    }
  }

  /** A counter whose values are all 0 totals 0. */
  lemma {:induction false} MapSumZero<K>(m: map<K, nat>)
    requires forall k :: k in m ==> m[k] == 0
    ensures MapSum(m) == 0
    decreases |m.Keys|
  {
    if m != map[] {
      var k :| k in m;
      MapSumRemove(m, k);
      MapSumZero(m - {k});
    }
  }

  lemma OccSnoc<T>(s: seq<T>, v: T, x: T)
    ensures Occ(s + [v], x) == Occ(s, x) + (if v == x then 1 else 0)
  {
    assert (s + [v])[..|s|] == s;
  }

  /** At most |s| elements of `s` are `x` or `y` when the two differ. */
  lemma {:induction false} OccOfTwo<T>(s: seq<T>, x: T, y: T)
    requires x != y
    ensures Occ(s, x) + Occ(s, y) <= |s|
    decreases |s|
  {
    if s != [] {
      OccOfTwo(s[..|s| - 1], x, y);
    }
  }

  /** The counter a loop of `m[k] = m.get(k, 0) + 1` builds from `start`, one key at a time. */
  function Tallied<K>(start: map<K, nat>, keys: seq<K>): map<K, nat>
    decreases |keys|
  {
    if keys == [] then start
    else
      var m := Tallied(start, keys[..|keys| - 1]);
      var k := keys[|keys| - 1];
      m[k := Count0(m, k) + 1]
  }

  /**
   * The counter holds the start's keys and every counted key; each count
   * is the start's count plus the key's occurrences, and the total grows
   * by exactly the number of keys counted.
   */
  lemma {:induction false} TalliedSpec<K>(start: map<K, nat>, keys: seq<K>)
    ensures Tallied(start, keys).Keys == start.Keys + (set k | k in keys)
    ensures forall k :: Count0(Tallied(start, keys), k) == Count0(start, k) + Occ(keys, k)
    ensures MapSum(Tallied(start, keys)) == MapSum(start) + |keys|
    decreases |keys|
  {
    if keys != [] {
      var init := keys[..|keys| - 1];
      var last := keys[|keys| - 1];
      TalliedSpec(start, init);
      MapSumIncrement(Tallied(start, init), last);
      assert keys == init + [last];
      assert (set k | k in keys) == (set k | k in init) + {last};
    }
  }

  /** The distinct elements of a sequence: `set(s)`. */
  function Distinct<T>(s: seq<T>): set<T> {
    set x | x in s
  }

  /** A sequence has at most as many distinct elements as it is long, and at least one when non-empty. */
  lemma {:induction false} DistinctBounds<T>(s: seq<T>)
    ensures |Distinct(s)| <= |s|
    ensures s != [] ==> |Distinct(s)| >= 1
    decreases |s|
  {
    if s != [] {
      var init := s[..|s| - 1];
      DistinctBounds(init);
      assert s == init + [s[|s| - 1]];
      assert Distinct(s) == Distinct(init) + {s[|s| - 1]};
    }
  }

  /** Counting one more key of `keys` extends the counter of its prefix. */
  lemma TalliedNext<K>(start: map<K, nat>, keys: seq<K>, i: nat)
    requires i < |keys|
    ensures var m := Tallied(start, keys[..i]);
      Tallied(start, keys[..i + 1]) == m[keys[i] := Count0(m, keys[i]) + 1]
  {
    assert keys[..i + 1][..i] == keys[..i];
  }
}
