/** Python's `dict` with string keys: it remembers insertion order, an
    assignment to a present key keeps that key's position, an assignment to
    a new key appends it, and `pop` keeps the order of the others. */
module OrderedDict {

  predicate DistinctKeys(keys: seq<string>) {
    forall i, j :: 0 <= i < j < |keys| ==> keys[i] != keys[j]
  }

  datatype RawDict<V> = RawDict(keys: seq<string>, entries: map<string, V>)

  type Dict<V> = d: RawDict<V> | DistinctKeys(d.keys) && d.entries.Keys == (set k | k in d.keys)
    witness RawDict([], map[])

  /** Every key of a dict is an entry. */
  lemma KeysAreEntries<V>(d: Dict<V>)
    ensures forall k :: k in d.keys ==> k in d.entries
  {
  }

  function Empty<V>(): (d: Dict<V>)
    ensures d.keys == [] && d.entries == map[]
  {
    RawDict([], map[])
  }

  /** `d[k] = v`. */
  function Set<V>(d: Dict<V>, k: string, v: V): (r: Dict<V>)
    ensures r.entries == d.entries[k := v]
    ensures k in d.entries ==> r.keys == d.keys
    ensures k !in d.entries ==> r.keys == d.keys + [k]
  {
    if k in d.entries then RawDict(d.keys, d.entries[k := v])
    else
      var keys := d.keys + [k];
      assert k !in d.keys;
      RawDict(keys, d.entries[k := v])
  }

  /** Position of a present key. */
  function IndexOf(keys: seq<string>, k: string): (i: nat)
    requires k in keys
    ensures i < |keys| && keys[i] == k
    ensures forall j :: 0 <= j < i ==> keys[j] != k
  {
    if keys[0] == k then 0 else 1 + IndexOf(keys[1..], k)
  }

  /** `d.pop(k)` for a present key. */
  function Pop<V>(d: Dict<V>, k: string): (r: Dict<V>)
    requires k in d.entries
    ensures r.entries == d.entries - {k}
    ensures r.keys == d.keys[..IndexOf(d.keys, k)] + d.keys[IndexOf(d.keys, k) + 1..]
  {
    var i := IndexOf(d.keys, k);
    var keys := d.keys[..i] + d.keys[i + 1..];
    RemoveAtKeys(d.keys, i, keys);
    RawDict(keys, d.entries - {k})
  }

  lemma RemoveAtKeys(keys: seq<string>, i: nat, rest: seq<string>)
    requires DistinctKeys(keys) && i < |keys| && rest == keys[..i] + keys[i + 1..]
    ensures DistinctKeys(rest)
    ensures (set x | x in rest) == (set x | x in keys) - {keys[i]}
  {
    assert forall a :: 0 <= a < |rest| ==> rest[a] == if a < i then keys[a] else keys[a + 1];
    forall a, b | 0 <= a < b < |rest|
      ensures rest[a] != rest[b]
    {
      var a' := if a < i then a else a + 1;
      var b' := if b < i then b else b + 1;
      assert a' < b';
      assert rest[a] == keys[a'] && rest[b] == keys[b'];
    }
    forall x | x in rest
      ensures x in keys && x != keys[i]
    {
      var a :| 0 <= a < |rest| && rest[a] == x;
      var a' := if a < i then a else a + 1;
      assert keys[a'] == x && a' != i;
    }
    forall x | x in keys && x != keys[i]
      ensures x in rest
    {
      var a :| 0 <= a < |keys| && keys[a] == x;
      if a < i { assert rest[a] == x; } else { assert a > i; assert rest[a - 1] == x; }
    }
  }

  /** Dropping the first key keeps the rest distinct, and the first key does
      not occur among them. */
  lemma DistinctTail(keys: seq<string>)
    requires DistinctKeys(keys) && keys != []
    ensures DistinctKeys(keys[1..]) && keys[0] !in keys[1..]
  {
    forall i, j | 0 <= i < j < |keys[1..]| ensures keys[1..][i] != keys[1..][j] {
      assert keys[1..][i] == keys[i + 1] && keys[1..][j] == keys[j + 1];
    }
    forall i | 0 <= i < |keys[1..]| ensures keys[1..][i] != keys[0] {
      assert keys[1..][i] == keys[i + 1];
    }
  }
}
