/** Python's `dict` with string keys: entries kept in insertion order, assignment to an existing
    key replaces its value in place, assignment to a new key appends it. */
module PyDict {
  import opened Wrappers

  type Dict<V> = seq<(string, V)>

  function Keys<V>(d: Dict<V>): (ks: seq<string>)
    ensures |ks| == |d|
    ensures forall i :: 0 <= i < |d| ==> ks[i] == d[i].0
    decreases |d|
  {
    if d == [] then [] else [d[0].0] + Keys(d[1..])
  }

  predicate UniqueKeys<V>(d: Dict<V>) {
    forall i, j :: 0 <= i < j < |d| ==> d[i].0 != d[j].0
  }

  /** `d.get(k)`: the value stored under `k`, if any. */
  function Get<V>(d: Dict<V>, k: string): (r: Option<V>)
    ensures r.Some? <==> k in Keys(d)
    decreases |d|
  {
    if d == [] then None else if d[0].0 == k then Some(d[0].1) else Get(d[1..], k)
  }

  /** Overwrites the value of the first entry whose key is `k`. */
  function Replace<V>(d: Dict<V>, k: string, v: V): (r: Dict<V>)
    ensures Keys(r) == Keys(d)
    decreases |d|
  {
    if d == [] then []
    else if d[0].0 == k then [(k, v)] + d[1..]
    else [d[0]] + Replace(d[1..], k, v)
  }

  /** `d[k] = v`: an existing key keeps its place, a new key goes to the end. */
  function Set<V>(d: Dict<V>, k: string, v: V): (r: Dict<V>)
    ensures Keys(r) == if k in Keys(d) then Keys(d) else Keys(d) + [k]
  {
    if k in Keys(d) then Replace(d, k, v) else KeysAppend(d, k, v); d + [(k, v)]
  }

  lemma KeysAppend<V>(d: Dict<V>, k: string, v: V)
    ensures Keys(d + [(k, v)]) == Keys(d) + [k]
  {
    var r := d + [(k, v)];
    assert |Keys(r)| == |Keys(d) + [k]|;
    forall i | 0 <= i < |r| ensures Keys(r)[i] == (Keys(d) + [k])[i] { }
  }

  lemma KeysPrefix<V>(d: Dict<V>, n: nat)
    requires n <= |d|
    ensures Keys(d[..n]) == Keys(d)[..n]
  {
    assert |Keys(d[..n])| == |Keys(d)[..n]|;
    forall i | 0 <= i < n ensures Keys(d[..n])[i] == Keys(d)[..n][i] { }
  }

  /** Looking a key up in a dict with one more entry at its end. */
  lemma {:induction false} GetAppend<V>(d: Dict<V>, k: string, v: V, q: string)
    ensures Get(d + [(k, v)], q) == if q in Keys(d) then Get(d, q) else if q == k then Some(v) else None
    decreases |d|
  {
    if d != [] {
      assert Keys(d) == [d[0].0] + Keys(d[1..]);
      assert (d + [(k, v)])[1..] == d[1..] + [(k, v)];
      GetAppend(d[1..], k, v, q);
    }
  }

  lemma {:induction false} ReplaceGet<V>(d: Dict<V>, k: string, v: V, q: string)
    ensures Get(Replace(d, k, v), q) == if q == k && k in Keys(d) then Some(v) else Get(d, q)
    decreases |d|
  {
    if d != [] && d[0].0 != k {
      assert Keys(d) == [d[0].0] + Keys(d[1..]);
      ReplaceGet(d[1..], k, v, q);
    }
  }

  /** After `d[k] = v`, `k` holds `v` and every other key keeps its value. */
  lemma SetGet<V>(d: Dict<V>, k: string, v: V, q: string)
    ensures Get(Set(d, k, v), q) == if q == k then Some(v) else Get(d, q)
  {
    if k in Keys(d) {
      ReplaceGet(d, k, v, q);
    } else {
      GetAppend(d, k, v, q);
    }
  }

  /** `d[k] = v` keeps the keys of a dict distinct. */
  lemma SetUnique<V>(d: Dict<V>, k: string, v: V)
    requires UniqueKeys(d)
    ensures UniqueKeys(Set(d, k, v))
  {
    var r := Set(d, k, v);
    forall i, j | 0 <= i < j < |r| ensures r[i].0 != r[j].0 {
      assert Keys(r)[i] == r[i].0 && Keys(r)[j] == r[j].0;
    }
  }

  /** Every `d[k] = v` of `updates`, performed in order. */
  function Merge<V>(d: Dict<V>, updates: Dict<V>): Dict<V>
    decreases |updates|
  {
    if updates == [] then d else Merge(Set(d, updates[0].0, updates[0].1), updates[1..])
  }

  /** The value the last update of `k` in `updates` writes, if any. */
  function LastWrite<V>(updates: Dict<V>, k: string): (r: Option<V>)
    ensures r.Some? <==> k in Keys(updates)
    decreases |updates|
  {
    if updates == [] then None
    else
      var later := LastWrite(updates[1..], k);
      if later.Some? then later else if updates[0].0 == k then Some(updates[0].1) else None
  }

  /** After a merge the library update wins on every key it writes; every other key keeps its value. */
  lemma {:induction false} MergeGet<V>(d: Dict<V>, updates: Dict<V>, k: string)
    ensures Get(Merge(d, updates), k) == if k in Keys(updates) then LastWrite(updates, k) else Get(d, k)
    decreases |updates|
  {
    if updates != [] {
      MergeGet(Set(d, updates[0].0, updates[0].1), updates[1..], k);
      SetGet(d, updates[0].0, updates[0].1, k);
      assert Keys(updates) == [updates[0].0] + Keys(updates[1..]);
    }
  }

  /** A merge keeps the position of every existing key and appends the new ones behind them. */
  lemma {:induction false} MergeKeysPrefix<V>(d: Dict<V>, updates: Dict<V>)
    ensures |Keys(d)| <= |Keys(Merge(d, updates))|
    ensures Keys(Merge(d, updates))[..|d|] == Keys(d)
    ensures forall k :: k in Keys(Merge(d, updates)) <==> k in Keys(d) || k in Keys(updates)
    decreases |updates|
  {
    if updates != [] {
      var d' := Set(d, updates[0].0, updates[0].1);
      MergeKeysPrefix(d', updates[1..]);
      assert Keys(updates) == [updates[0].0] + Keys(updates[1..]);
      assert Keys(d')[..|d|] == Keys(d);
    }
  }

  /** Merging updates whose keys are all present already leaves the key order unchanged. */
  lemma {:induction false} MergeKeysCovered<V>(d: Dict<V>, updates: Dict<V>)
    requires forall k :: k in Keys(updates) ==> k in Keys(d)
    ensures Keys(Merge(d, updates)) == Keys(d)
    decreases |updates|
  {
    if updates != [] {
      var d' := Set(d, updates[0].0, updates[0].1);
      assert Keys(updates) == [updates[0].0] + Keys(updates[1..]);
      MergeKeysCovered(d', updates[1..]);
    }
  }

  /** Entry `i` holds the first occurrence of its key. */
  predicate FirstAt<V>(d: Dict<V>, i: int)
    requires 0 <= i < |d|
  {
    forall j :: 0 <= j < i ==> d[j].0 != d[i].0
  }

  /** A lookup finds the first occurrence of a key. */
  lemma {:induction false} GetFirst<V>(d: Dict<V>, i: nat)
    requires i < |d| && FirstAt(d, i)
    ensures Get(d, d[i].0) == Some(d[i].1)
    decreases i
  {
    if i > 0 {
      assert d[0].0 != d[i].0;
      assert d[1..][i - 1] == d[i];
      assert FirstAt(d[1..], i - 1) by {
        forall j | 0 <= j < i - 1 ensures d[1..][j].0 != d[1..][i - 1].0 {
          assert d[1..][j] == d[j + 1];
        }
      }
      GetFirst(d[1..], i - 1);
    }
  }

  /** Assigning to a key that is already present replaces its first occurrence where it stands. */
  lemma {:induction false} ReplacePositional<V>(d: Dict<V>, k: string, v: V)
    ensures |Replace(d, k, v)| == |d|
    ensures forall i :: 0 <= i < |d| ==>
      Replace(d, k, v)[i] == if FirstAt(d, i) && d[i].0 == k then (k, v) else d[i]
    decreases |d|
  {
    var r := Replace(d, k, v);
    if d == [] {
    } else if d[0].0 == k {
      forall i | 0 < i < |d| ensures !(FirstAt(d, i) && d[i].0 == k) {
        if d[i].0 == k { assert d[0].0 == d[i].0; }
      }
    } else {
      ReplacePositional(d[1..], k, v);
      forall i | 0 < i < |d|
        ensures (FirstAt(d, i) && d[i].0 == k) == (FirstAt(d[1..], i - 1) && d[1..][i - 1].0 == k)
      {
        assert d[1..][i - 1] == d[i];
        if d[i].0 == k {
          if FirstAt(d, i) {
            forall j | 0 <= j < i - 1 ensures d[1..][j].0 != d[1..][i - 1].0 {
              assert d[1..][j] == d[j + 1];
            }
          }
          if FirstAt(d[1..], i - 1) {
            forall j | 0 <= j < i ensures d[j].0 != d[i].0 {
              if j > 0 { assert d[1..][j - 1] == d[j]; }
            }
          }
        }
      }
      assert r == [d[0]] + Replace(d[1..], k, v);
    }
  }

  /** Merging updates whose keys are all present already rewrites, in place, the first
      occurrence of each key they write, with the last value they write for it. */
  lemma {:induction false} MergePositional<V>(d: Dict<V>, updates: Dict<V>)
    requires forall k :: k in Keys(updates) ==> k in Keys(d)
    ensures |Merge(d, updates)| == |d|
    ensures forall i :: 0 <= i < |d| ==>
      Merge(d, updates)[i] ==
        if FirstAt(d, i) && d[i].0 in Keys(updates) then (d[i].0, LastWrite(updates, d[i].0).value) else d[i]
    decreases |updates|
  {
    if updates != [] {
      var k := updates[0].0;
      var d' := Set(d, k, updates[0].1);
      assert Keys(updates) == [k] + Keys(updates[1..]);
      ReplacePositional(d, k, updates[0].1);
      assert Keys(d') == Keys(d);
      MergePositional(d', updates[1..]);
      forall i | 0 <= i < |d| ensures FirstAt(d', i) == FirstAt(d, i) {
        assert forall j :: 0 <= j < |d| ==> d'[j].0 == Keys(d')[j] == Keys(d)[j] == d[j].0;
      }
    }
  }

  /** Applying the same updates twice gives the same dict as applying them once. */
  lemma MergeIdempotent<V>(d: Dict<V>, updates: Dict<V>)
    ensures Merge(Merge(d, updates), updates) == Merge(d, updates)
  {
    var once := Merge(d, updates);
    MergeKeysPrefix(d, updates);
    MergePositional(once, updates);
    forall i | 0 <= i < |once| && FirstAt(once, i) && once[i].0 in Keys(updates)
      ensures once[i].1 == LastWrite(updates, once[i].0).value
    {
      GetFirst(once, i);
      MergeGet(d, updates, once[i].0);
    }
  }

  lemma {:induction false} ReplaceSame<V>(d: Dict<V>, k: string, v: V)
    requires Get(d, k) == Some(v)
    ensures Replace(d, k, v) == d
    decreases |d|
  {
    if d[0].0 != k {
      ReplaceSame(d[1..], k, v);
      assert d == [d[0]] + d[1..];
    } else {
      assert d == [(k, v)] + d[1..];
    }
  }

  /** Assigning the value a key already holds changes nothing. */
  lemma SetSame<V>(d: Dict<V>, k: string, v: V)
    requires Get(d, k) == Some(v)
    ensures Set(d, k, v) == d
  {
    ReplaceSame(d, k, v);
  }

  lemma {:induction false} ReplaceTwice<V>(d: Dict<V>, k: string, a: V, b: V)
    ensures Replace(Replace(d, k, a), k, b) == Replace(d, k, b)
    decreases |d|
  {
    if d != [] && d[0].0 != k {
      ReplaceTwice(d[1..], k, a, b);
    }
  }

  lemma ReplaceAppended<V>(d: Dict<V>, k: string, a: V, b: V)
    requires k !in Keys(d)
    ensures Replace(d + [(k, a)], k, b) == d + [(k, b)]
  {
    var e := d + [(k, a)];
    ReplacePositional(e, k, b);
    forall i | 0 <= i < |e| ensures Replace(e, k, b)[i] == (d + [(k, b)])[i] {
      if i < |d| {
        assert e[i].0 == Keys(d)[i];
      } else {
        forall j | 0 <= j < i ensures e[j].0 != e[i].0 {
          assert e[j].0 == Keys(d)[j];
        }
      }
    }
  }

  /** Assigning a key twice leaves only the second value. */
  lemma SetSet<V>(d: Dict<V>, k: string, a: V, b: V)
    ensures Set(Set(d, k, a), k, b) == Set(d, k, b)
  {
    if k in Keys(d) {
      ReplaceTwice(d, k, a, b);
    } else {
      KeysAppend(d, k, a);
      ReplaceAppended(d, k, a, b);
    }
  }
}
