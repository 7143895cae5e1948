/**
 * Shared vocabulary of the plugin conflict mapper: severity levels, the
 * "name => list of plugins" usage dictionaries its detectors and analyzers
 * build, and PHP's stable `usort`/`uasort` used by its reports.
 */
module WpcmCommon {
  import opened Common

  /**
   * A severity as the reports write it. `Unrecognised` stands for any other
   * text a caller-supplied record may carry.
   */
  datatype Severity = Critical | High | Medium | Low | Unrecognised(text: string)

  /** `empty($s)` for an optional string: missing, `""` and `"0"` are empty. */
  predicate EmptyText(s: Option<string>)
  {
    s.None? || s.value == "" || s.value == "0"
  }

  // ---------------------------------------------------------------------
  // PHP numbers
  // ---------------------------------------------------------------------

  function Min(a: int, b: int): int
  {
    if a <= b then a else b
  }

  function MinReal(a: real, b: real): real
  {
    if a <= b then a else b
  }

  function MaxReal(a: real, b: real): real
  {
    if a >= b then a else b
  }

  /** PHP's `round($x)` for a non-negative value: halves round up. */
  function Round(x: real): (r: int)
    requires x >= 0.0
    ensures r as real - 0.5 <= x < r as real + 0.5
  {
    (x + 0.5).Floor
  }

  /** PHP's `round($x, 2)` for a non-negative value. */
  function Round2(x: real): (r: real)
    requires x >= 0.0
    ensures r - 0.005 <= x < r + 0.005
  {
    Round(x * 100.0) as real / 100.0
  }

  /** PHP's `round($x, 1)` for a non-negative value. */
  function Round1(x: real): (r: real)
    requires x >= 0.0
    ensures r - 0.05 <= x < r + 0.05
  {
    Round(x * 10.0) as real / 10.0
  }

  lemma RoundMonotone(x: real, y: real)
    requires 0.0 <= x <= y
    ensures Round(x) <= Round(y)
  {
  }

  /** Rounding to two places keeps a value in [0, 100]. */
  lemma Round2Range(x: real)
    requires 0.0 <= x <= 100.0
    ensures 0.0 <= Round2(x) <= 100.0
  {
    assert 0 <= Round(x * 100.0) <= 10000;
  }

  /** Taking whole points off commutes with rounding to two places. */
  lemma Round2Shift(x: real, n: nat)
    requires x >= n as real
    ensures Round2(x - n as real) == Round2(x) - n as real
  {
    assert (x - n as real) * 100.0 + 0.5 == (x * 100.0 + 0.5) - (100 * n) as real;
    assert Round((x - n as real) * 100.0) == Round(x * 100.0) - 100 * n;
  }

  /** An entry of a recursive directory walk: its path, whether it is a file, and `getExtension()`. */
  datatype DirEntry = DirEntry(path: string, isFile: bool, extension: string)

  /** `n` copies of `v`. */
  function Repeat<V>(v: V, n: nat): (r: seq<V>)
    ensures |r| == n && forall i :: 0 <= i < n ==> r[i] == v
  {
    if n == 0 then [] else Repeat(v, n - 1) + [v]
  }

  function IsKey<K(==)>(k: K): K -> bool
  {
    x => x == k
  }

  // ---------------------------------------------------------------------
  // Usage dictionaries: `$usage[$k][] = $v`, keys in first-insertion order
  // ---------------------------------------------------------------------

  type Groups<K, V> = seq<(K, seq<V>)>

  /** A PHP array never holds a key twice. */
  predicate DistinctKeys<K(==), V>(g: Groups<K, V>)
  {
    forall i, j :: 0 <= i < j < |g| ==> g[i].0 != g[j].0
  }

  /** `$usage[$k] ?? array()`. */
  function Lookup<K(==), V>(g: Groups<K, V>, k: K): seq<V>
  {
    if g == [] then [] else if g[0].0 == k then g[0].1 else Lookup(g[1..], k)
  }

  /**
   * `if (!isset($usage[$k])) $usage[$k] = array(); $usage[$k][] = $v;`:
   * appends to the list of `k` in place, or opens a new entry at the end.
   */
  function AddTo<K(==), V>(g: Groups<K, V>, k: K, v: V): Groups<K, V>
  {
    if g == [] then [(k, [v])]
    else if g[0].0 == k then [(k, g[0].1 + [v])] + g[1..]
    else [g[0]] + AddTo(g[1..], k, v)
  }

  lemma {:induction false} LookupAddTo<K, V>(g: Groups<K, V>, k: K, v: V, k2: K)
    ensures Lookup(AddTo(g, k, v), k2) == Lookup(g, k2) + (if k2 == k then [v] else [])
  {
    if g != [] && g[0].0 != k {
      LookupAddTo(g[1..], k, v, k2);
    }
  }

  lemma {:induction false} AddToKeys<K, V>(g: Groups<K, V>, k: K, v: V)
    ensures forall x :: x in Keys(AddTo(g, k, v)) <==> x in Keys(g) || x == k
  {
    if g != [] {
      AddToKeys(g[1..], k, v);
      assert Keys(g) == [g[0].0] + Keys(g[1..]);
      if g[0].0 != k {
        assert Keys(AddTo(g, k, v)) == [g[0].0] + Keys(AddTo(g[1..], k, v));
      } else {
        assert Keys(AddTo(g, k, v)) == Keys(g);
      }
    } else {
      assert Keys(AddTo(g, k, v)) == [k];
    }
  }

  lemma DistinctTail<K, V>(g: Groups<K, V>)
    requires DistinctKeys(g) && g != []
    ensures DistinctKeys(g[1..]) && g[0].0 !in Keys(g[1..])
  {
    var t := g[1..];
    forall i | 0 <= i < |t|
      ensures Keys(t)[i] != g[0].0
    {
      assert t[i] == g[i + 1];
    }
    forall i, j | 0 <= i < j < |t|
      ensures t[i].0 != t[j].0
    {
      assert t[i] == g[i + 1] && t[j] == g[j + 1];
    }
  }

  lemma DistinctCons<K, V>(e: (K, seq<V>), t: Groups<K, V>)
    requires DistinctKeys(t) && e.0 !in Keys(t)
    ensures DistinctKeys([e] + t)
  {
    var r := [e] + t;
    forall i, j | 0 <= i < j < |r|
      ensures r[i].0 != r[j].0
    {
      assert r[j] == t[j - 1];
      if i == 0 {
        assert Keys(t)[j - 1] == r[j].0;
      } else {
        assert r[i] == t[i - 1];
      }
    }
  }

  lemma {:induction false} AddToDistinct<K, V>(g: Groups<K, V>, k: K, v: V)
    requires DistinctKeys(g)
    ensures DistinctKeys(AddTo(g, k, v))
  {
    if g == [] {
    } else if g[0].0 != k {
      DistinctTail(g);
      AddToDistinct(g[1..], k, v);
      AddToKeys(g[1..], k, v);
      DistinctCons(g[0], AddTo(g[1..], k, v));
    } else {
      DistinctTail(g);
      DistinctCons((k, g[0].1 + [v]), g[1..]);
    }
  }

  /** In a dictionary without repeated keys, each entry is what its key reads. */
  lemma {:induction false} LookupEntry<K, V>(g: Groups<K, V>, i: int)
    requires DistinctKeys(g) && 0 <= i < |g|
    ensures Lookup(g, g[i].0) == g[i].1
  {
    if i > 0 {
      assert g[0].0 != g[i].0;
      LookupEntry(g[1..], i - 1);
    }
  }

  /** A key that is not in the dictionary reads as the empty list. */
  lemma {:induction false} LookupAbsent<K, V>(g: Groups<K, V>, k: K)
    requires k !in Keys(g)
    ensures Lookup(g, k) == []
  {
    if g != [] {
      assert Keys(g)[0] == g[0].0;
      assert Keys(g[1..]) == Keys(g)[1..];
      LookupAbsent(g[1..], k);
    }
  }

  /** The add loop over `ks`, skipping the keys `keep` rejects (`continue`). */
  function AddAll<K(==), V>(g: Groups<K, V>, ks: seq<K>, v: V, keep: K -> bool): Groups<K, V>
  {
    if ks == [] then g
    else
      var g0 := AddAll(g, ks[..|ks| - 1], v, keep);
      if keep(ks[|ks| - 1]) then AddTo(g0, ks[|ks| - 1], v) else g0
  }

  lemma {:induction false} LookupAddAll<K, V>(g: Groups<K, V>, ks: seq<K>, v: V, keep: K -> bool, k: K)
    ensures Lookup(AddAll(g, ks, v, keep), k) == Lookup(g, k) + Repeat(v, if keep(k) then CountIf(ks, IsKey(k)) else 0)
  {
    if ks != [] {
      var ks0 := ks[..|ks| - 1];
      LookupAddAll(g, ks0, v, keep, k);
      if keep(ks[|ks| - 1]) {
        LookupAddTo(AddAll(g, ks0, v, keep), ks[|ks| - 1], v, k);
      }
    }
  }

  lemma {:induction false} AddAllKeys<K, V>(g: Groups<K, V>, ks: seq<K>, v: V, keep: K -> bool)
    ensures DistinctKeys(g) ==> DistinctKeys(AddAll(g, ks, v, keep))
  {
    if ks != [] {
      AddAllKeys(g, ks[..|ks| - 1], v, keep);
      if DistinctKeys(g) && keep(ks[|ks| - 1]) {
        AddToDistinct(AddAll(g, ks[..|ks| - 1], v, keep), ks[|ks| - 1], v);
      }
    }
  }

  /** The loop that appends `v` under every kept key of `ks`, in order. */
  method AddEach<K(==), V>(g: Groups<K, V>, ks: seq<K>, v: V, keep: K -> bool) returns (r: Groups<K, V>)
    ensures r == AddAll(g, ks, v, keep)
  {
    r := g;
    var j := 0;
    while j < |ks|
      invariant 0 <= j <= |ks|
      invariant r == AddAll(g, ks[..j], v, keep)
    {
      assert ks[..j + 1][..j] == ks[..j];
      if keep(ks[j]) {
        r := AddTo(r, ks[j], v);
      }
      j := j + 1;
    }
    assert ks[..j] == ks;
  }

  function KeepAll<K>(): K -> bool
  {
    k => true
  }

  /** `array_unique`: the first occurrence of each element, in order. */
  function Unique<K(==)>(s: seq<K>): (r: seq<K>)
    ensures NoRepeats(r)
    ensures forall i :: 0 <= i < |s| ==> s[i] in r
    ensures forall i :: 0 <= i < |r| ==> r[i] in s
  {
    if s == [] then []
    else
      var init := s[..|s| - 1];
      var u := Unique(init);
      assert forall i :: 0 <= i < |init| ==> init[i] == s[i];
      if s[|s| - 1] in u then u else u + [s[|s| - 1]]
  }

  /**
   * The dictionary the nested loop `foreach ($ps as $p) foreach (items($p) as $k)
   * $usage[$k][] = owner($p);` builds, skipping the keys `keep` rejects.
   */
  function UsageOf<T, K(==), V>(ps: seq<T>, items: T -> seq<K>, owner: T -> V, keep: K -> bool): Groups<K, V>
  {
    if ps == [] then []
    else
      var last := ps[|ps| - 1];
      AddAll(UsageOf(ps[..|ps| - 1], items, owner, keep), items(last), owner(last), keep)
  }

  /** The owners of the elements whose items hold `k`, in input order, once per occurrence. */
  function Users<T, K(==), V>(ps: seq<T>, items: T -> seq<K>, owner: T -> V, k: K): seq<V>
  {
    if ps == [] then []
    else
      var last := ps[|ps| - 1];
      Users(ps[..|ps| - 1], items, owner, k) + Repeat(owner(last), CountIf(items(last), IsKey(k)))
  }

  /** What the dictionary holds for a key: its users if the key is kept, nothing otherwise. */
  lemma {:induction false} UsageMeaning<T, K, V>(ps: seq<T>, items: T -> seq<K>, owner: T -> V, keep: K -> bool, k: K)
    ensures DistinctKeys(UsageOf(ps, items, owner, keep))
    ensures Lookup(UsageOf(ps, items, owner, keep), k) == if keep(k) then Users(ps, items, owner, k) else []
  {
    if ps != [] {
      var last := ps[|ps| - 1];
      var prev := UsageOf(ps[..|ps| - 1], items, owner, keep);
      UsageMeaning(ps[..|ps| - 1], items, owner, keep, k);
      LookupAddAll(prev, items(last), owner(last), keep, k);
      AddAllKeys(prev, items(last), owner(last), keep);
    }
  }

  predicate NoRepeats<K(==)>(s: seq<K>)
  {
    forall i, j :: 0 <= i < j < |s| ==> s[i] != s[j]
  }

  lemma {:induction false} CountIfNoRepeats<K>(s: seq<K>, k: K)
    requires NoRepeats(s)
    ensures CountIf(s, IsKey(k)) == if k in s then 1 else 0
  {
    if s != [] {
      var init := s[..|s| - 1];
      assert NoRepeats(init);
      CountIfNoRepeats(init, k);
      assert s == init + [s[|s| - 1]];
      assert s[|s| - 1] !in init;
      assert IsKey(k)(s[|s| - 1]) == (s[|s| - 1] == k);
    }
  }

  lemma {:induction false} CountIfWitness<K>(s: seq<K>, k: K)
    requires CountIf(s, IsKey(k)) > 0
    ensures k in s
  {
    var init := s[..|s| - 1];
    if CountIf(init, IsKey(k)) > 0 {
      CountIfWitness(init, k);
    } else {
      assert IsKey(k)(s[|s| - 1]);
    }
  }

  function Uses<T, K(==)>(items: T -> seq<K>, k: K): T -> bool
  {
    p => k in items(p)
  }

  /**
   * With repeat-free item lists (as `array_unique` makes them), the users of
   * a key are exactly the elements that hold it, one each.
   */
  lemma {:induction false} UsersAreHolders<T, K, V>(ps: seq<T>, items: T -> seq<K>, owner: T -> V, k: K)
    requires forall i :: 0 <= i < |ps| ==> NoRepeats(items(ps[i]))
    ensures |Users(ps, items, owner, k)| == CountIf(ps, Uses(items, k))
    ensures forall n :: n in Users(ps, items, owner, k) <==> exists i :: 0 <= i < |ps| && k in items(ps[i]) && owner(ps[i]) == n
  {
    if ps != [] {
      var init := ps[..|ps| - 1];
      var last := ps[|ps| - 1];
      assert forall i :: 0 <= i < |init| ==> init[i] == ps[i];
      UsersAreHolders(init, items, owner, k);
      CountIfNoRepeats(items(last), k);
      assert Uses(items, k)(last) == (k in items(last));
      var r := Repeat(owner(last), CountIf(items(last), IsKey(k)));
      assert Users(ps, items, owner, k) == Users(init, items, owner, k) + r;
      forall n
        ensures n in Users(ps, items, owner, k) <==> exists i :: 0 <= i < |ps| && k in items(ps[i]) && owner(ps[i]) == n
      {
        if n in r {
          assert k in items(ps[|ps| - 1]) && owner(ps[|ps| - 1]) == n;
        }
        if exists i :: 0 <= i < |ps| && k in items(ps[i]) && owner(ps[i]) == n {
          var i :| 0 <= i < |ps| && k in items(ps[i]) && owner(ps[i]) == n;
          if i == |ps| - 1 {
            assert r[0] == n;
          }
        }
      }
    }
  }

  lemma {:induction false} UsersNonEmpty<T, K, V>(ps: seq<T>, items: T -> seq<K>, owner: T -> V, k: K)
    requires Users(ps, items, owner, k) != []
    ensures exists i :: 0 <= i < |ps| && k in items(ps[i])
  {
    var init := ps[..|ps| - 1];
    var last := ps[|ps| - 1];
    if Users(init, items, owner, k) != [] {
      UsersNonEmpty(init, items, owner, k);
      var i :| 0 <= i < |init| && k in items(init[i]);
      assert init[i] == ps[i];
    } else {
      assert CountIf(items(last), IsKey(k)) > 0;
      CountIfWitness(items(last), k);
    }
  }

  /** In a dictionary, an entry with more than one value exists for `k` iff `k` has more than one value. */
  lemma SharedIff<K, V>(u: Groups<K, V>, k: K)
    requires DistinctKeys(u)
    ensures (exists i :: 0 <= i < |u| && u[i].0 == k && |u[i].1| > 1) <==> |Lookup(u, k)| > 1
  {
    if exists i :: 0 <= i < |u| && u[i].0 == k && |u[i].1| > 1 {
      var i :| 0 <= i < |u| && u[i].0 == k && |u[i].1| > 1;
      LookupEntry(u, i);
    }
    if |Lookup(u, k)| > 1 {
      if k !in Keys(u) {
        LookupAbsent(u, k);
      }
      var i :| 0 <= i < |u| && Keys(u)[i] == k;
      LookupEntry(u, i);
    }
  }

  // ---------------------------------------------------------------------
  // Keyed records: `$m[$k] = $v` on an ordered PHP array
  // ---------------------------------------------------------------------

  /** `$m[$k] ?? null`. */
  function Find<K(==), V>(m: seq<(K, V)>, k: K): Option<V>
  {
    if m == [] then None else if m[0].0 == k then Some(m[0].1) else Find(m[1..], k)
  }

  /** `$m[$k] = $v`: replaces the entry of `k` where it stands, or appends one. */
  function Assign<K(==), V>(m: seq<(K, V)>, k: K, v: V): seq<(K, V)>
  {
    if m == [] then [(k, v)]
    else if m[0].0 == k then [(k, v)] + m[1..]
    else [m[0]] + Assign(m[1..], k, v)
  }

  lemma {:induction false} FindAssign<K, V>(m: seq<(K, V)>, k: K, v: V, k2: K)
    ensures Find(Assign(m, k, v), k2) == if k2 == k then Some(v) else Find(m, k2)
  {
    if m != [] && m[0].0 != k {
      FindAssign(m[1..], k, v, k2);
    }
  }

  /** A key finds an entry iff it is one of the keys. */
  lemma {:induction false} FindSome<K, V>(m: seq<(K, V)>, k: K)
    ensures Find(m, k).Some? <==> exists i :: 0 <= i < |m| && m[i].0 == k
  {
    if m != [] && m[0].0 != k {
      FindSome(m[1..], k);
      if Find(m, k).Some? {
        var i :| 0 <= i < |m[1..]| && m[1..][i].0 == k;
        assert m[i + 1].0 == k;
      } else {
        forall i | 0 <= i < |m|
          ensures m[i].0 != k
        {
          if i > 0 {
            assert m[i] == m[1..][i - 1];
          }
        }
      }
    }
  }

  // ---------------------------------------------------------------------
  // PHP 8's sort: stable, by a numeric key, smallest first
  // ---------------------------------------------------------------------

  /** Inserts `x`, which came before every element of `s`, ahead of the first element not smaller. */
  function InsertBy<T>(x: T, s: seq<T>, key: T -> real): seq<T>
  {
    if s == [] || key(x) <= key(s[0]) then [x] + s else [s[0]] + InsertBy(x, s[1..], key)
  }

  /** `usort` with a comparator `key(a) <=> key(b)`. */
  function SortBy<T>(s: seq<T>, key: T -> real): seq<T>
  {
    if s == [] then [] else InsertBy(s[0], SortBy(s[1..], key), key)
  }

  predicate SortedBy<T>(s: seq<T>, key: T -> real)
  {
    forall i, j :: 0 <= i < j < |s| ==> key(s[i]) <= key(s[j])
  }

  function KeyEquals<T>(key: T -> real, k: real): T -> bool
  {
    x => key(x) == k
  }

  lemma {:induction false} FilterCons<T>(x: T, s: seq<T>, p: T -> bool)
    ensures Filter([x] + s, p) == (if p(x) then [x] else []) + Filter(s, p)
  {
    FilterConcat([x], s, p);
    assert [x][..0] == [];
    assert Filter([x], p) == Filter([], p) + (if p(x) then [x] else []);
  }

  lemma {:induction false} InsertByMultiset<T>(x: T, s: seq<T>, key: T -> real)
    ensures multiset(InsertBy(x, s, key)) == multiset(s) + multiset{x}
  {
    if s != [] && key(x) > key(s[0]) {
      InsertByMultiset(x, s[1..], key);
      assert s == [s[0]] + s[1..];
    }
  }

  lemma SortedTail<T>(s: seq<T>, key: T -> real)
    requires SortedBy(s, key) && s != []
    ensures SortedBy(s[1..], key)
    ensures forall y :: y in s[1..] ==> key(s[0]) <= key(y)
  {
    var t := s[1..];
    forall i, j | 0 <= i < j < |t|
      ensures key(t[i]) <= key(t[j])
    {
      assert t[i] == s[i + 1] && t[j] == s[j + 1];
    }
    forall y | y in t
      ensures key(s[0]) <= key(y)
    {
      var m :| 0 <= m < |t| && t[m] == y;
      assert s[m + 1] == y;
    }
  }

  lemma SortedCons<T>(x: T, t: seq<T>, key: T -> real)
    requires SortedBy(t, key)
    requires forall y :: y in t ==> key(x) <= key(y)
    ensures SortedBy([x] + t, key)
  {
    var r := [x] + t;
    forall i, j | 0 <= i < j < |r|
      ensures key(r[i]) <= key(r[j])
    {
      assert r[j] == t[j - 1];
      if i > 0 {
        assert r[i] == t[i - 1];
      }
    }
  }

  lemma {:induction false} InsertBySorted<T>(x: T, s: seq<T>, key: T -> real)
    requires SortedBy(s, key)
    ensures SortedBy(InsertBy(x, s, key), key)
  {
    if s == [] {
    } else if key(x) <= key(s[0]) {
      SortedTail(s, key);
      SortedCons(x, s, key);
    } else {
      SortedTail(s, key);
      InsertBySorted(x, s[1..], key);
      InsertByMultiset(x, s[1..], key);
      var t := InsertBy(x, s[1..], key);
      forall y | y in t
        ensures key(s[0]) <= key(y)
      {
        assert y in multiset(t);
        assert y in multiset(s[1..]) || y == x;
      }
      SortedCons(s[0], t, key);
    }
  }

  lemma {:induction false} InsertByStable<T>(x: T, s: seq<T>, key: T -> real, k: real)
    ensures Filter(InsertBy(x, s, key), KeyEquals(key, k)) == (if key(x) == k then [x] else []) + Filter(s, KeyEquals(key, k))
  {
    var p := KeyEquals(key, k);
    if s == [] || key(x) <= key(s[0]) {
      assert InsertBy(x, s, key) == [x] + s;
      FilterCons(x, s, p);
    } else {
      var tail := s[1..];
      var t := InsertBy(x, tail, key);
      assert InsertBy(x, s, key) == [s[0]] + t;
      assert s == [s[0]] + tail;
      InsertByStable(x, tail, key, k);
      FilterCons(s[0], t, p);
      FilterCons(s[0], tail, p);
      var mine := if key(x) == k then [x] else [];
      if p(s[0]) {
        assert key(x) != k;
        assert Filter(InsertBy(x, s, key), p) == [s[0]] + Filter(tail, p);
      } else {
        assert Filter(InsertBy(x, s, key), p) == mine + Filter(tail, p);
      }
    }
  }

  /** The sort orders by key, keeps every element, and keeps equal keys in input order. */
  lemma {:induction false} SortByFacts<T>(s: seq<T>, key: T -> real)
    ensures SortedBy(SortBy(s, key), key)
    ensures multiset(SortBy(s, key)) == multiset(s)
    ensures forall k :: Filter(SortBy(s, key), KeyEquals(key, k)) == Filter(s, KeyEquals(key, k))
  {
    if s != [] {
      SortByFacts(s[1..], key);
      InsertBySorted(s[0], SortBy(s[1..], key), key);
      InsertByMultiset(s[0], SortBy(s[1..], key), key);
      assert s == [s[0]] + s[1..];
      forall k
        ensures Filter(SortBy(s, key), KeyEquals(key, k)) == Filter(s, KeyEquals(key, k))
      {
        InsertByStable(s[0], SortBy(s[1..], key), key, k);
        FilterCons(s[0], s[1..], KeyEquals(key, k));
      }
    }
  }
}
