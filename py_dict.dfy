/** Python's `dict[str, V]` with its insertion order: an association list
    whose keys are distinct. Assigning an existing key keeps its position;
    a new key goes to the end. */
module PyDict {
  import opened Results

  type Dict<V> = seq<(string, V)>

  predicate DistinctKeys<V>(d: Dict<V>)
  {
    forall i, j :: 0 <= i < j < |d| ==> d[i].0 != d[j].0
  }

  function KeySet<V>(d: Dict<V>): set<string>
  {
    set i | 0 <= i < |d| :: d[i].0
  }

  /** `d.keys()` in order. */
  function Keys<V>(d: Dict<V>): (ks: seq<string>)
    ensures |ks| == |d| && forall i :: 0 <= i < |d| ==> ks[i] == d[i].0
  {
    seq(|d|, i requires 0 <= i < |d| => d[i].0)
  }

  /** `d.values()` in order. */
  function Values<V>(d: Dict<V>): (vs: seq<V>)
    ensures |vs| == |d| && forall i :: 0 <= i < |d| ==> vs[i] == d[i].1
  {
    seq(|d|, i requires 0 <= i < |d| => d[i].1)
  }

  /** The keys of a non-empty dict: its first key and the keys of the rest;
      with distinct keys the first is not among the rest. */
  lemma KeySetCons<V>(d: Dict<V>)
    requires |d| > 0
    ensures KeySet(d) == {d[0].0} + KeySet(d[1..])
    ensures DistinctKeys(d) ==> DistinctKeys(d[1..]) && d[0].0 !in KeySet(d[1..])
  {
    forall x | x in KeySet(d) ensures x in {d[0].0} + KeySet(d[1..]) {
      var i :| 0 <= i < |d| && d[i].0 == x;
      if i > 0 { assert d[1..][i - 1].0 == x; }
    }
    forall x | x in KeySet(d[1..]) ensures x in KeySet(d) {
      var i :| 0 <= i < |d[1..]| && d[1..][i].0 == x;
      assert d[i + 1].0 == x;
    }
    if DistinctKeys(d) {
      forall i | 0 <= i < |d[1..]| ensures d[1..][i].0 != d[0].0 {
        assert d[1..][i] == d[i + 1];
      }
    }
  }

  /** The keys of a non-empty dict: the keys of all but its last entry and
      the last key; with distinct keys the last is not among the others. */
  lemma KeySetSnoc<V>(d: Dict<V>)
    requires |d| > 0
    ensures KeySet(d) == KeySet(d[..|d| - 1]) + {d[|d| - 1].0}
    ensures DistinctKeys(d) ==> DistinctKeys(d[..|d| - 1]) && d[|d| - 1].0 !in KeySet(d[..|d| - 1])
  {
    var n := |d| - 1;
    forall x | x in KeySet(d) ensures x in KeySet(d[..n]) + {d[n].0} {
      var i :| 0 <= i < |d| && d[i].0 == x;
      if i < n { assert d[..n][i].0 == x; }
    }
    forall x | x in KeySet(d[..n]) ensures x in KeySet(d) {
      var i :| 0 <= i < n && d[..n][i].0 == x;
      assert d[i].0 == x;
    }
    if DistinctKeys(d) {
      forall i | 0 <= i < n ensures d[..n][i].0 != d[n].0 {
        assert d[..n][i] == d[i];
      }
    }
  }

  /** `d.get(k)`. */
  function Get<V>(d: Dict<V>, k: string): (r: Option<V>)
    ensures r.Some? <==> k in KeySet(d)
  {
    if |d| == 0 then None
    else
      KeySetCons(d);
      if d[0].0 == k then Some(d[0].1) else Get(d[1..], k)
  }

  /** In a dict with distinct keys, the entry at position `i` is what `get` finds. */
  lemma {:induction false} GetAt<V>(d: Dict<V>, i: nat)
    requires DistinctKeys(d) && i < |d|
    ensures Get(d, d[i].0) == Some(d[i].1)
  {
    if i > 0 {
      GetAt(d[1..], i - 1);
    }
  }

  /** `d[k] = v`: the first entry with key `k` gets the value, or the pair is appended. */
  function Put<V>(d: Dict<V>, k: string, v: V): (r: Dict<V>)
    ensures |r| == if k in KeySet(d) then |d| else |d| + 1
  {
    if |d| == 0 then [(k, v)]
    else
      KeySetCons(d);
      if d[0].0 == k then [(k, v)] + d[1..]
      else [d[0]] + Put(d[1..], k, v)
  }

  /** After `d[k] = v`, `k` maps to `v` and every other key keeps its value. */
  lemma {:induction false} PutGet<V>(d: Dict<V>, k: string, v: V, k': string)
    ensures Get(Put(d, k, v), k') == if k' == k then Some(v) else Get(d, k')
  {
    if |d| > 0 && d[0].0 != k {
      PutGet(d[1..], k, v, k');
      assert Put(d, k, v)[1..] == Put(d[1..], k, v);
    }
  }

  /** The keys of `[x] + d`: the key of `x`, then those of `d`. */
  lemma KeysCons<V>(x: (string, V), d: Dict<V>)
    ensures Keys([x] + d) == [x.0] + Keys(d)
  {
    forall i | 0 <= i < |d| + 1 ensures Keys([x] + d)[i] == ([x.0] + Keys(d))[i] {
      if i > 0 {
        assert ([x] + d)[i] == d[i - 1];
      }
    }
  }

  /** Assigning an existing key keeps the order of keys. */
  lemma {:induction false} PutExistingKeepsKeys<V>(d: Dict<V>, k: string, v: V)
    requires k in KeySet(d)
    ensures Keys(Put(d, k, v)) == Keys(d)
  {
    KeySetCons(d);
    var r := Put(d, k, v);
    assert d == [d[0]] + d[1..];
    KeysCons(d[0], d[1..]);
    if d[0].0 == k {
      assert r == [(k, v)] + d[1..];
      KeysCons((k, v), d[1..]);
    } else {
      PutExistingKeepsKeys(d[1..], k, v);
      assert r == [d[0]] + Put(d[1..], k, v);
      KeysCons(d[0], Put(d[1..], k, v));
    }
  }

  /** Assigning a new key appends the pair. */
  lemma {:induction false} PutNewAppends<V>(d: Dict<V>, k: string, v: V)
    requires k !in KeySet(d)
    ensures Put(d, k, v) == d + [(k, v)]
  {
    if |d| > 0 {
      KeySetCons(d);
      PutNewAppends(d[1..], k, v);
      assert Put(d, k, v) == [d[0]] + Put(d[1..], k, v);
      assert d == [d[0]] + d[1..];
    }
  }

  /** Assigning an existing key keeps the order of keys; a new key is appended. */
  lemma PutOrder<V>(d: Dict<V>, k: string, v: V)
    ensures k in KeySet(d) ==> Keys(Put(d, k, v)) == Keys(d)
    ensures k !in KeySet(d) ==> Put(d, k, v) == d + [(k, v)]
  {
    if k in KeySet(d) {
      PutExistingKeepsKeys(d, k, v);
    } else {
      PutNewAppends(d, k, v);
    }
  }

  /** `d[k] = v` adds `k` to the keys and keeps them distinct. */
  lemma {:induction false} PutKeys<V>(d: Dict<V>, k: string, v: V)
    ensures KeySet(Put(d, k, v)) == KeySet(d) + {k}
    ensures DistinctKeys(d) ==> DistinctKeys(Put(d, k, v))
  {
    var r := Put(d, k, v);
    if |d| > 0 {
      KeySetCons(d);
      KeySetCons(r);
      if d[0].0 == k {
        assert r[1..] == d[1..];
      } else {
        PutKeys(d[1..], k, v);
        assert r[1..] == Put(d[1..], k, v);
        if DistinctKeys(d) {
          forall i, j | 0 <= i < j < |r| ensures r[i].0 != r[j].0 {
            if i == 0 {
              assert r[j].0 in KeySet(r[1..]) by { assert r[1..][j - 1] == r[j]; }
            } else {
              assert r[1..][i - 1] == r[i] && r[1..][j - 1] == r[j];
            }
          }
        }
      }
    } else {
      assert r == [(k, v)] && r[0].0 == k;
    }
  }

  /** `d.update(other)`: the entries of `other` put in its order. */
  function Update<V>(d: Dict<V>, other: Dict<V>): (r: Dict<V>)
    decreases |other|
  {
    if |other| == 0 then d
    else Update(Put(d, other[0].0, other[0].1), other[1..])
  }

  /** `d.update(other)` keeps distinct keys and has the keys of both. */
  lemma {:induction false} UpdateKeys<V>(d: Dict<V>, other: Dict<V>)
    ensures KeySet(Update(d, other)) == KeySet(d) + KeySet(other)
    ensures DistinctKeys(d) ==> DistinctKeys(Update(d, other))
    decreases |other|
  {
    if |other| > 0 {
      PutKeys(d, other[0].0, other[0].1);
      UpdateKeys(Put(d, other[0].0, other[0].1), other[1..]);
      KeySetCons(other);
    }
  }

  /** After `d.update(other)` a key of `other` maps to `other`'s value (the
      later one wins) and any other key keeps `d`'s. */
  lemma {:induction false} UpdateGet<V>(d: Dict<V>, other: Dict<V>, k: string)
    requires DistinctKeys(other)
    ensures Get(Update(d, other), k) == if k in KeySet(other) then Get(other, k) else Get(d, k)
    decreases |other|
  {
    if |other| > 0 {
      var d' := Put(d, other[0].0, other[0].1);
      KeySetCons(other);
      UpdateGet(d', other[1..], k);
      PutGet(d, other[0].0, other[0].1, k);
      if k != other[0].0 && k in KeySet(other[1..]) {
        var i :| 0 <= i < |other[1..]| && other[1..][i].0 == k;
        GetAt(other[1..], i);
        GetAt(other, i + 1);
      }
    }
  }

  /** A dict with distinct keys has as many entries as keys. */
  lemma {:induction false} SizeIsKeyCount<V>(d: Dict<V>)
    requires DistinctKeys(d)
    ensures |KeySet(d)| == |d|
  {
    if |d| > 0 {
      KeySetCons(d);
      SizeIsKeyCount(d[1..]);
    }
  }

  /** The dict as a map (the JSON object it is written as). */
  function ToMap<V>(d: Dict<V>): (m: map<string, V>)
    ensures m.Keys == KeySet(d)
    ensures forall k :: k in m ==> Get(d, k) == Some(m[k])
  {
    map k | k in KeySet(d) :: Get(d, k).value
  }

  /** `get` after appending an entry: an earlier entry for the key wins. */
  lemma {:induction false} GetSnoc<V>(d: Dict<V>, k: string, v: V, k': string)
    ensures Get(d + [(k, v)], k') == if k' in KeySet(d) then Get(d, k') else if k' == k then Some(v) else None
  {
    if |d| > 0 {
      KeySetCons(d);
      assert (d + [(k, v)])[1..] == d[1..] + [(k, v)];
      GetSnoc(d[1..], k, v, k');
    } else {
      assert KeySet(d) == {};
      assert (d + [(k, v)])[1..] == [];
    }
  }

  /** The map of a dict grown by one entry: the new key is added, an
      existing key keeps its value. */
  lemma ToMapSnoc<V>(d: Dict<V>, k: string, v: V)
    ensures ToMap(d + [(k, v)]) == if k in KeySet(d) then ToMap(d) else ToMap(d)[k := v]
  {
    KeySetSnoc(d + [(k, v)]);
    assert (d + [(k, v)])[..|d|] == d;
    forall k' | k' in KeySet(d + [(k, v)])
      ensures Get(d + [(k, v)], k') == if k' in KeySet(d) then Get(d, k') else Some(v)
    {
      GetSnoc(d, k, v, k');
    }
  }
}
