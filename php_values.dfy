/**
 * PHP values as the Micropub code sees them: scalars and ordered arrays
 * whose entries are key/value pairs kept in insertion order. A PHP array
 * never holds a key twice; the operations here read and replace the first
 * entry with a given key, which is the same thing for such arrays.
 */
module PhpValues {
  import opened Common

  datatype Key = IntKey(n: int) | StrKey(s: string)

  datatype Value =
    | Null
    | Bool(b: bool)
    | Int(i: int)
    | Float(f: real)
    | Str(s: string)
    | Arr(entries: seq<(Key, Value)>)

  type PhpArray = seq<(Key, Value)>

  /** `$a[$k]`, or `None` when the key is absent. */
  function Get(a: PhpArray, k: Key): (r: Option<Value>)
  {
    if a == [] then None
    else if a[0].0 == k then Some(a[0].1)
    else Get(a[1..], k)
  }

  /** A key reads as some value iff an entry has that key, and the value read is the first such entry's. */
  lemma {:induction false} GetFound(a: PhpArray, k: Key)
    ensures Get(a, k).Some? <==> exists i :: 0 <= i < |a| && a[i].0 == k
    ensures Get(a, k).Some? ==> exists i :: 0 <= i < |a| && a[i] == (k, Get(a, k).value)
  {
    if a != [] && a[0].0 != k {
      GetFound(a[1..], k);
      assert forall i :: 1 <= i < |a| ==> a[i] == a[1..][i - 1];
      if Get(a, k).Some? {
        var i :| 0 <= i < |a[1..]| && a[1..][i] == (k, Get(a, k).value);
        assert a[i + 1] == (k, Get(a, k).value);
      }
    } else if a != [] {
      assert a[0] == (k, Get(a, k).value);
    }
  }

  /** `isset($v)` for a value that may be absent: present and not null. */
  predicate Present(o: Option<Value>)
  {
    o.Some? && !o.value.Null?
  }

  /** `isset($a[$k])`. */
  predicate IsSet(a: PhpArray, k: Key)
  {
    Present(Get(a, k))
  }

  /** The values of `a`, in order: what `foreach ($a as $v)` visits. */
  function Values(a: PhpArray): (r: seq<Value>)
    ensures |r| == |a| && forall i :: 0 <= i < |a| ==> r[i] == a[i].1
  {
    seq(|a|, i requires 0 <= i < |a| => a[i].1)
  }

  /** `$a[$k] = $v`: replaces the entry for `k` in place, or appends one. */
  function Put(a: PhpArray, k: Key, v: Value): (r: PhpArray)
  {
    if a == [] then [(k, v)]
    else if a[0].0 == k then [(k, v)] + a[1..]
    else [a[0]] + Put(a[1..], k, v)
  }

  /** Reading back what was written gives it; every other key reads as before. */
  lemma {:induction false} GetPut(a: PhpArray, k: Key, v: Value, k2: Key)
    ensures Get(Put(a, k, v), k) == Some(v)
    ensures k2 != k ==> Get(Put(a, k, v), k2) == Get(a, k2)
  {
    if a != [] && a[0].0 != k {
      GetPut(a[1..], k, v, k2);
    }
  }

  /** Writing to a key that is present keeps the key sequence. */
  lemma {:induction false} KeysPut(a: PhpArray, k: Key, v: Value)
    requires k in Keys(a)
    ensures Keys(Put(a, k, v)) == Keys(a)
  {
    var t := a[1..];
    assert a == [a[0]] + t;
    KeysCons(a[0], t);
    if a[0].0 != k {
      KeysPut(t, k, v);
      KeysCons(a[0], Put(t, k, v));
    } else {
      KeysCons((k, v), t);
    }
  }

  lemma KeysCons(x: (Key, Value), t: PhpArray)
    ensures Keys([x] + t) == [x.0] + Keys(t)
  {
    assert forall i :: 1 <= i < |t| + 1 ==> ([x] + t)[i] == t[i - 1];
  }

  /** A key that can be read is among the keys. */
  lemma KeyOfGet(a: PhpArray, k: Key)
    requires Get(a, k).Some?
    ensures k in Keys(a)
  {
    GetFound(a, k);
    var i :| 0 <= i < |a| && a[i].0 == k;
    assert Keys(a)[i] == k;
  }

  /** `array_map($f, $a)`: every value mapped, keys kept. */
  function MapValues(a: PhpArray, f: Value -> Value): (r: PhpArray)
    ensures |r| == |a|
    ensures forall i :: 0 <= i < |a| ==> r[i] == (a[i].0, f(a[i].1))
  {
    seq(|a|, i requires 0 <= i < |a| => (a[i].0, f(a[i].1)))
  }
}
