/**
  The Python `dict` that `main` in obdii/obdii_data.py fills with one entry
  per signal (`bolt_state`): a sequence of key/value entries kept in
  insertion order, each key at most once. Assigning to a key already present
  replaces its value where it stands; a new key goes at the end.
*/
module Dict {
  type Entries<V> = seq<(string, V)>

  /** The keys present; every entry's key is among them. */
  function Keys<V>(d: Entries<V>): (ks: set<string>)
    ensures forall j :: 0 <= j < |d| ==> d[j].0 in ks
    decreases |d|
  {
    if d == [] then {} else
      var rest := Keys(d[1..]);
      assert forall j :: 1 <= j < |d| ==> d[j] == d[1..][j - 1];
      {d[0].0} + rest
  }

  /** The keys of the first `i` entries are the first key and the keys of
      the next `i - 1`. */
  lemma KeysOfPrefix<V>(d: Entries<V>, i: nat)
    requires 0 < i <= |d|
    ensures Keys(d[..i]) == {d[0].0} + Keys(d[1..][..i - 1])
  {
    assert d[..i][1..] == d[1..][..i - 1];
  }

  /** No key occurs twice. */
  predicate UniqueKeys<V>(d: Entries<V>)
  {
    d == [] || (d[0].0 !in Keys(d[1..]) && UniqueKeys(d[1..]))
  }

  /** `d[k] = v`: the key set gains `k`, the pair `(k, v)` is stored, a new
      key is appended, and every entry afterwards is either the new pair or
      an entry kept from `d`. */
  function Put<V>(d: Entries<V>, k: string, v: V): (r: Entries<V>)
    ensures Keys(r) == Keys(d) + {k}
    ensures (k, v) in r
    ensures k !in Keys(d) ==> r == d + [(k, v)]
    ensures forall i :: 0 <= i < |r| ==> r[i] == (k, v) || r[i] in d
    decreases |d|
  {
    if d == [] then [(k, v)]
    else if d[0].0 == k then
      assert ([(k, v)] + d[1..])[1..] == d[1..];
      [(k, v)] + d[1..]
    else
      var rest := Put(d[1..], k, v);
      assert ([d[0]] + rest)[1..] == rest;
      assert k !in Keys(d) ==> [d[0]] + rest == d + [(k, v)] by {
        if k !in Keys(d) { assert d == [d[0]] + d[1..]; }
      }
      [d[0]] + rest
  }

  /** Assigning to a key never creates a duplicate key, and afterwards the
      one entry for `k` holds `v`: reading `d[k]` gives the new value. */
  lemma {:induction false} PutKeepsKeysUnique<V>(d: Entries<V>, k: string, v: V)
    requires UniqueKeys(d)
    ensures UniqueKeys(Put(d, k, v))
    ensures forall i :: 0 <= i < |Put(d, k, v)| && Put(d, k, v)[i].0 == k ==> Put(d, k, v)[i].1 == v
    decreases |d|
  {
    if d != [] && d[0].0 != k {
      PutKeepsKeysUnique(d[1..], k, v);
      assert Put(d, k, v)[1..] == Put(d[1..], k, v);
    } else if d != [] {
      assert Put(d, k, v)[1..] == d[1..];
      forall i | 0 < i < |d| ensures d[i].0 != k {
        assert d[1..][i - 1] == d[i];
      }
    }
  }

  /** Assigning to one key keeps every entry of the other keys. */
  lemma {:induction false} PutKeepsOthers<V>(d: Entries<V>, k: string, v: V, x: string, y: V)
    requires (x, y) in d && x != k
    ensures (x, y) in Put(d, k, v)
    decreases |d|
  {
    if d[0] != (x, y) {
      assert (x, y) in d[1..] by {
        var j :| 0 <= j < |d| && d[j] == (x, y);
        assert d[1..][j - 1] == d[j];
      }
      if d[0].0 != k {
        PutKeepsOthers(d[1..], k, v, x, y);
        assert Put(d, k, v) == [d[0]] + Put(d[1..], k, v);
      } else {
        assert Put(d, k, v) == [(k, v)] + d[1..];
      }
    } else {
      assert Put(d, k, v)[0] == d[0];
    }
  }

  /** Assigning to a key already present keeps the entries' order and
      changes only that key's value, which becomes `v`. */
  lemma {:induction false} PutPresentKeepsOrder<V>(d: Entries<V>, k: string, v: V)
    requires k in Keys(d)
    ensures |Put(d, k, v)| == |d|
    ensures forall i :: 0 <= i < |d| ==> Put(d, k, v)[i].0 == d[i].0
    ensures forall i :: 0 <= i < |d| && d[i].0 != k ==> Put(d, k, v)[i] == d[i]
    ensures forall i :: 0 <= i < |d| && d[i].0 == k && d[i].0 !in Keys(d[..i]) ==> Put(d, k, v)[i] == (k, v)
    decreases |d|
  {
    forall i | 0 < i < |d| ensures Keys(d[..i]) == {d[0].0} + Keys(d[1..][..i - 1]) {
      KeysOfPrefix(d, i);
    }
    if d[0].0 != k {
      PutPresentKeepsOrder(d[1..], k, v);
      assert Put(d, k, v) == [d[0]] + Put(d[1..], k, v);
    }
  }

  /** In a dict with each key once, as every Python dict is, assigning to a
      present key replaces its entry in place: the entry where `k` stood
      becomes `(k, v)` and every other entry stays where it was. */
  lemma PutPresentReplaces<V>(d: Entries<V>, k: string, v: V)
    requires UniqueKeys(d) && k in Keys(d)
    ensures |Put(d, k, v)| == |d|
    ensures forall i :: 0 <= i < |d| && d[i].0 == k ==> Put(d, k, v)[i] == (k, v)
    ensures forall i :: 0 <= i < |d| && d[i].0 != k ==> Put(d, k, v)[i] == d[i]
  {
    PutPresentKeepsOrder(d, k, v);
    PutKeepsKeysUnique(d, k, v);
  }
}
