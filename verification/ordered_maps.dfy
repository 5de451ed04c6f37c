/**
 * Python's `dict` with string keys: a map that remembers the order in which
 * its keys were first inserted. Assigning to an existing key replaces the
 * value and keeps the key's position.
 */
module OrderedMaps {
  import opened Wrappers

  datatype RawDict<V> = RawDict(keys: seq<string>, entries: map<string, V>)

  /** The keys are distinct and are exactly the map's domain. */
  ghost predicate WellFormed<V>(d: RawDict<V>)
  {
    && (forall i, j :: 0 <= i < j < |d.keys| ==> d.keys[i] != d.keys[j])
    && (forall k :: k in d.entries <==> k in d.keys)
  }

  type Dict<V> = d: RawDict<V> | WellFormed(d) witness RawDict([], map[])

  function Empty<V>(): (r: Dict<V>)
    ensures r.keys == [] && r.entries == map[]
  {
    RawDict([], map[])
  }

  /** `d[k] = v`. */
  function Put<V>(d: Dict<V>, k: string, v: V): (r: Dict<V>)
    ensures r.entries == d.entries[k := v]
    ensures k in d.entries ==> r.keys == d.keys
    ensures k !in d.entries ==> r.keys == d.keys + [k]
  {
    if k in d.entries then RawDict(d.keys, d.entries[k := v])
    else RawDict(d.keys + [k], d.entries[k := v])
  }

  /** `d.get(k)`. */
  function Get<V>(d: Dict<V>, k: string): (r: Option<V>)
    ensures r.Some? <==> k in d.entries
    ensures r.Some? ==> r.value == d.entries[k]
  {
    if k in d.entries then Some(d.entries[k]) else None
  }

  /** `list(d.values())`. */
  function Values<V>(d: Dict<V>): (r: seq<V>)
    ensures |r| == |d.keys|
    ensures forall i :: 0 <= i < |d.keys| ==> r[i] == d.entries[d.keys[i]]
  {
    seq(|d.keys|, i requires 0 <= i < |d.keys| => d.entries[d.keys[i]])
  }

  /** Assigning each pair in turn, as a loop of `d[k] = v` does. */
  function PutAll<V>(d: Dict<V>, items: seq<(string, V)>): Dict<V>
    decreases |items|
  {
    if items == [] then d
    else Put(PutAll(d, items[..|items| - 1]), items[|items| - 1].0, items[|items| - 1].1)
  }

  /** The dictionary made of the first `n` entries of `d`, in order. */
  function Take<V>(d: Dict<V>, n: nat): (r: Dict<V>)
    requires n <= |d.keys|
    ensures r.keys == d.keys[..n]
    ensures forall k :: k in r.entries ==> k in d.entries && r.entries[k] == d.entries[k]
  {
    RawDict(d.keys[..n], map k | k in d.keys[..n] :: d.entries[k])
  }

  /** Assigning one more pair after a run of assignments. */
  lemma PutAllSnoc<V>(d: Dict<V>, items: seq<(string, V)>, k: string, v: V)
    ensures PutAll(d, items + [(k, v)]) == Put(PutAll(d, items), k, v)
  {
    assert (items + [(k, v)])[..|items|] == items;
  }

  /** Assigning a list of pairs: the keys are those of `d` and of the pairs, and the last pair for a key wins. */
  lemma PutAllLastWins<V>(d: Dict<V>, items: seq<(string, V)>, k: string)
    ensures k in PutAll(d, items).entries <==> k in d.entries || exists i :: 0 <= i < |items| && items[i].0 == k
    ensures forall i :: 0 <= i < |items| && items[i].0 == k
                        && (forall j :: i < j < |items| ==> items[j].0 != k)
                        ==> PutAll(d, items).entries[k] == items[i].1
  {
    PutAllKeys(d, items, k);
    forall i | 0 <= i < |items| && items[i].0 == k && (forall j :: i < j < |items| ==> items[j].0 != k)
      ensures PutAll(d, items).entries[k] == items[i].1
    {
      PutAllLast(d, items, k, i);
    }
  }

  lemma {:induction false} PutAllKeys<V>(d: Dict<V>, items: seq<(string, V)>, k: string)
    ensures k in PutAll(d, items).entries <==> k in d.entries || exists i :: 0 <= i < |items| && items[i].0 == k
    decreases |items|
  {
    if items != [] {
      var n := |items| - 1;
      PutAllKeys(d, items[..n], k);
      if exists i :: 0 <= i < |items| && items[i].0 == k {
        var i :| 0 <= i < |items| && items[i].0 == k;
        if i < n { assert items[..n][i].0 == k; }
      }
      if exists i :: 0 <= i < n && items[..n][i].0 == k {
        var i :| 0 <= i < n && items[..n][i].0 == k;
        assert items[i].0 == k;
      }
    }
  }

  lemma {:induction false} PutAllLast<V>(d: Dict<V>, items: seq<(string, V)>, k: string, i: nat)
    requires i < |items| && items[i].0 == k
    requires forall j :: i < j < |items| ==> items[j].0 != k
    ensures k in PutAll(d, items).entries && PutAll(d, items).entries[k] == items[i].1
    decreases |items|
  {
    var n := |items| - 1;
    var prev := PutAll(d, items[..n]);
    assert PutAll(d, items).entries == prev.entries[items[n].0 := items[n].1];
    if i < n {
      forall j | i < j < n ensures items[..n][j].0 != k {
        assert items[..n][j] == items[j];
      }
      assert items[..n][i] == items[i];
      PutAllLast(d, items[..n], k, i);
    }
  }

  /** Copying the first `n` entries of `d`, in order, into an empty dictionary. */
  method CopyFirst<V>(d: Dict<V>, n: nat) returns (r: Dict<V>)
    requires n <= |d.keys|
    ensures r == Take(d, n)
  {
    r := Empty();
    TakeNone(d, r);
    for i := 0 to n
      invariant r == Take(d, i)
    {
      TakeNext(d, i);
      r := Put(r, d.keys[i], d.entries[d.keys[i]]);
    }
  }

  /** A dictionary without keys is the empty prefix of any dictionary. */
  lemma TakeNone<V>(d: Dict<V>, e: Dict<V>)
    requires e.keys == []
    ensures e == Take(d, 0)
  {
    assert e.entries == map[];
  }

  /** Extending a prefix of `d` by its next key gives the next prefix. */
  lemma TakeNext<V>(d: Dict<V>, n: nat)
    requires n < |d.keys|
    ensures Put(Take(d, n), d.keys[n], d.entries[d.keys[n]]) == Take(d, n + 1)
  {
    assert d.keys[n] !in d.keys[..n];
    assert d.keys[..n + 1] == d.keys[..n] + [d.keys[n]];
  }

  /** Applying `f` to every value, keeping the keys and their order. */
  function MapValues<V, W>(d: Dict<V>, f: V -> W): (r: Dict<W>)
    ensures r.keys == d.keys
    ensures forall k :: k in d.entries ==> k in r.entries && r.entries[k] == f(d.entries[k])
  {
    RawDict(d.keys, map k | k in d.entries :: f(d.entries[k]))
  }

  /** Every value of `PutAll(d, items)` was already in `d` under its key or comes from a pair for that key. */
  lemma PutAllValues<V>(d: Dict<V>, items: seq<(string, V)>)
    ensures forall k :: k in PutAll(d, items).entries ==>
      (k in d.entries && PutAll(d, items).entries[k] == d.entries[k])
      || exists i :: 0 <= i < |items| && items[i] == (k, PutAll(d, items).entries[k])
  {
    forall k | k in PutAll(d, items).entries
      ensures (k in d.entries && PutAll(d, items).entries[k] == d.entries[k])
        || exists i :: 0 <= i < |items| && items[i] == (k, PutAll(d, items).entries[k])
    {
      PutAllValue(d, items, k);
    }
  }

  lemma {:induction false} PutAllValue<V>(d: Dict<V>, items: seq<(string, V)>, k: string)
    requires k in PutAll(d, items).entries
    ensures (k in d.entries && PutAll(d, items).entries[k] == d.entries[k])
      || exists i :: 0 <= i < |items| && items[i] == (k, PutAll(d, items).entries[k])
    decreases |items|
  {
    if items != [] {
      var n := |items| - 1;
      var prev := PutAll(d, items[..n]);
      assert PutAll(d, items).entries == prev.entries[items[n].0 := items[n].1];
      if k == items[n].0 {
        assert items[n] == (k, PutAll(d, items).entries[k]);
      } else {
        PutAllValue(d, items[..n], k);
        if !(k in d.entries && prev.entries[k] == d.entries[k]) {
          var i :| 0 <= i < n && items[..n][i] == (k, prev.entries[k]);
          assert items[i] == items[..n][i];
        }
      }
    }
  }
}
