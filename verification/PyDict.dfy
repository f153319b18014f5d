/** Python's dict: a map together with the insertion order of its keys. */
module PyDict {

  datatype Dict<V> = Dict(keys: seq<string>, vals: map<string, V>) {

    /** Every key once, and a value for every key. */
    ghost predicate Valid() {
      && (forall i, j :: 0 <= i < j < |keys| ==> keys[i] != keys[j])
      && (forall k :: k in vals <==> k in keys)
    }

    /** `d[k] = v`: an old key keeps its place, a new one goes last. */
    function Put(k: string, v: V): Dict<V> {
      Dict(if k in vals then keys else keys + [k], vals[k := v])
    }

    /** `d.pop(k, None)` */
    function Remove(k: string): Dict<V> {
      Dict(Without(keys, k), vals - {k})
    }
  }

  function Empty<V>(): Dict<V> {
    Dict([], map[])
  }

  function Without(keys: seq<string>, k: string): (r: seq<string>)
    ensures forall x :: x in r <==> x in keys && x != k
  {
    if keys == [] then []
    else if keys[0] == k then Without(keys[1..], k)
    else [keys[0]] + Without(keys[1..], k)
  }

  lemma PutValid<V>(d: Dict<V>, k: string, v: V)
    requires d.Valid()
    ensures d.Put(k, v).Valid()
  {
  }

  /** The key list after a `Put`. */
  function WithKey(keys: seq<string>, k: string): seq<string> {
    if k in keys then keys else keys + [k]
  }

  lemma PutKeys<V>(d: Dict<V>, k: string, v: V)
    requires d.Valid()
    ensures d.Put(k, v).Valid() && d.Put(k, v).keys == WithKey(d.keys, k)
  {
  }

  /** The keys that satisfy `keep`, in order. */
  function Filter(keys: seq<string>, keep: string -> bool): (r: seq<string>)
    ensures forall x :: x in r <==> x in keys && keep(x)
  {
    if keys == [] then []
    else if keep(keys[0]) then [keys[0]] + Filter(keys[1..], keep)
    else Filter(keys[1..], keep)
  }

  lemma {:induction false} FilterWithout(keys: seq<string>, keep: string -> bool, k: string)
    ensures Without(Filter(keys, keep), k) == Filter(keys, x => keep(x) && x != k)
  {
    if keys != [] {
      FilterWithout(keys[1..], keep, k);
      if keep(keys[0]) {
        assert ([keys[0]] + Filter(keys[1..], keep))[1..] == Filter(keys[1..], keep);
      }
    }
  }

  lemma {:induction false} FilterSame(keys: seq<string>, p: string -> bool, q: string -> bool)
    requires forall k :: k in keys ==> p(k) == q(k)
    ensures Filter(keys, p) == Filter(keys, q)
  {
    if keys != [] {
      assert keys[0] in keys;
      FilterSame(keys[1..], p, q);
    }
  }

  lemma {:induction false} FilterAll(keys: seq<string>)
    ensures Filter(keys, x => true) == keys
  {
    if keys != [] { FilterAll(keys[1..]); }
  }

  /** Filtering keeps the order: it keeps every relation that holds between earlier and later keys. */
  lemma {:induction false} FilterKeepsOrder(keys: seq<string>, keep: string -> bool, i: nat, j: nat) returns (i': nat, j': nat)
    requires i < j < |Filter(keys, keep)|
    ensures i' < j' < |keys| && keys[i'] == Filter(keys, keep)[i] && keys[j'] == Filter(keys, keep)[j]
  {
    var rest := Filter(keys[1..], keep);
    if !keep(keys[0]) {
      i', j' := FilterKeepsOrder(keys[1..], keep, i, j);
      i', j' := i' + 1, j' + 1;
    } else if i > 0 {
      i', j' := FilterKeepsOrder(keys[1..], keep, i - 1, j - 1);
      i', j' := i' + 1, j' + 1;
    } else {
      assert rest[j - 1] in keys[1..];
      var k :| 0 <= k < |keys[1..]| && keys[1..][k] == rest[j - 1];
      i', j' := 0, k + 1;
    }
  }
}
