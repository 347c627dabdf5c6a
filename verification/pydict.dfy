/** Python dictionaries as the scripts use them: a hash map that remembers the
    order keys were first assigned in. Assigning to a present key replaces its
    value in place; assigning to a new key appends it. `results[a][r][s] = v`
    on nested `defaultdict`s is `Put2` on the account's entry. Every key in the
    scripts is a string. */
module PyDict {
  import opened Wrappers

  predicate NoDup<T(==)>(s: seq<T>) {
    forall i, j :: 0 <= i < j < |s| ==> s[i] != s[j]
  }

  datatype RawDict<+V> = RawDict(keys: seq<string>, vals: map<string, V>)

  /** Each key listed once, and exactly the keys of the map listed. */
  predicate WellFormed<V>(d: RawDict<V>) {
    && NoDup(d.keys)
    && (forall k :: k in d.vals ==> k in d.keys)
    && (forall k :: k in d.keys ==> k in d.vals)
  }

  type Dict<V> = d: RawDict<V> | WellFormed(d) witness RawDict([], map[])

  function Empty<V>(): Dict<V> {
    RawDict([], map[])
  }

  /** `d.get(k)` */
  function Get<V>(d: Dict<V>, k: string): (r: Option<V>)
    ensures r.Some? <==> k in d.keys
  {
    if k in d.vals then Some(d.vals[k]) else None
  }

  /** `d.get(k, default)` */
  function GetOr<V>(d: Dict<V>, k: string, default: V): V {
    Get(d, k).GetOr(default)
  }

  /** The key order after assigning `k`: unchanged when `k` is present,
      otherwise `k` appended. */
  function AddKey(ks: seq<string>, k: string): (r: seq<string>)
    ensures k in ks ==> r == ks
    ensures k !in ks ==> r == ks + [k]
    decreases |ks|
  {
    if |ks| == 0 then [k]
    else if ks[0] == k then ks
    else [ks[0]] + AddKey(ks[1..], k)
  }

  /** `d[k] = v` */
  function Put<V>(d: Dict<V>, k: string, v: V): (r: Dict<V>)
    ensures Get(r, k) == Some(v)
    ensures forall j :: j != k ==> Get(r, j) == Get(d, j)
    ensures r.keys == AddKey(d.keys, k)
  {
    RawDict(AddKey(d.keys, k), d.vals[k := v])
  }

  /** `d[k1][k2] = v`, where a missing `d[k1]` is first created empty. */
  function Put2<V>(d: Dict<Dict<V>>, k1: string, k2: string, v: V): Dict<Dict<V>> {
    Put(d, k1, Put(GetOr(d, k1, Empty()), k2, v))
  }

  /** `d.get(k1, {}).get(k2)` */
  function Get2<V>(d: Dict<Dict<V>>, k1: string, k2: string): Option<V> {
    Get(GetOr(d, k1, Empty()), k2)
  }

  /** Two dicts with the same key order and the same lookups are equal. */
  lemma Ext<V>(a: Dict<V>, b: Dict<V>)
    requires a.keys == b.keys
    requires forall k :: Get(a, k) == Get(b, k)
    ensures a == b
  {
    forall k | k in a.vals ensures a.vals[k] == b.vals[k] {
      assert Get(a, k) == Get(b, k);
    }
    assert a.vals == b.vals;
  }

  /** Storing the value a key already holds changes nothing. */
  lemma PutSame<V>(d: Dict<V>, k: string, v: V)
    requires Get(d, k) == Some(v)
    ensures Put(d, k, v) == d
  {
    assert d.vals[k := v] == d.vals;
  }

  lemma Put2Same<V>(d: Dict<Dict<V>>, k1: string, k2: string, v: V)
    requires Get2(d, k1, k2) == Some(v)
    ensures Put2(d, k1, k2, v) == d
  {
    var inner := GetOr(d, k1, Empty());
    assert k2 in inner.keys;
    PutSame(inner, k2, v);
    PutSame(d, k1, inner);
  }

  /** Dropping the head of a duplicate-free sequence. */
  lemma NoDupTail<T>(s: seq<T>)
    requires NoDup(s) && |s| > 0
    ensures NoDup(s[1..]) && s[0] !in s[1..]
    ensures forall x :: x in s <==> x == s[0] || x in s[1..]
  {
  }

  lemma SeqAssoc<T>(a: seq<T>, b: seq<T>, c: seq<T>)
    ensures (a + b) + c == a + (b + c)
  {
  }

  /** First-occurrence deduplication: the key order a dict ends up with when
      keys are assigned in the order of `s`. */
  function Dedup(s: seq<string>): (r: seq<string>)
    ensures NoDup(r)
    ensures forall x :: x in r <==> x in s
    decreases |s|
  {
    if |s| == 0 then []
    else
      var p := Dedup(s[..|s| - 1]);
      assert forall x :: x in s <==> x in s[..|s| - 1] || x == s[|s| - 1];
      if s[|s| - 1] in p then p else p + [s[|s| - 1]]
  }
}
