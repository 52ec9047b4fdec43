/** A Python `dict`: a map together with the order in which its keys were
    first inserted. Assigning to a present key replaces its value and keeps
    its place; assigning to a new key appends it. */
module OrderedDict {

  datatype Dict<K, V> = Dict(keys: seq<K>, entries: map<K, V>)

  /** Keys are listed once each, and exactly the mapped keys are listed. */
  predicate Valid<K, V>(d: Dict<K, V>) {
    && (forall i, j :: 0 <= i < j < |d.keys| ==> d.keys[i] != d.keys[j])
    && d.entries.Keys == (set k | k in d.keys)
  }

  /** `d[k] = v`. */
  function Insert<K, V>(d: Dict<K, V>, k: K, v: V): (r: Dict<K, V>)
    requires Valid(d)
    ensures Valid(r)
    ensures r.entries == d.entries[k := v]
    ensures |d.keys| <= |r.keys| <= |d.keys| + 1
  {
    if k in d.entries then Dict(d.keys, d.entries[k := v])
    else Dict(d.keys + [k], d.entries[k := v])
  }

  /** An assignment keeps every present key in its place; a new key is
      appended last, and only a new key lengthens the key list. */
  lemma InsertKeyOrder<K, V>(d: Dict<K, V>, k: K, v: V)
    requires Valid(d)
    ensures Insert(d, k, v).keys[..|d.keys|] == d.keys
    ensures k in d.entries <==> |Insert(d, k, v).keys| == |d.keys|
    ensures k !in d.entries ==> Insert(d, k, v).keys[|d.keys|] == k
  {
  }

  /** `{k: v for (k, v) in ps}`: the pairs assigned one after another. */
  function FromPairs<K, V>(ps: seq<(K, V)>): (d: Dict<K, V>)
    ensures Valid(d)
    ensures |d.keys| <= |ps|
    decreases |ps|
  {
    if |ps| == 0 then Dict([], map[])
    else Insert(FromPairs(ps[..|ps| - 1]), ps[|ps| - 1].0, ps[|ps| - 1].1)
  }

  /** The keys of the pairs, in order, duplicates included. */
  function Firsts<K, V>(ps: seq<(K, V)>): (ks: seq<K>)
    ensures |ks| == |ps|
    ensures forall i :: 0 <= i < |ps| ==> ks[i] == ps[i].0
  {
    seq(|ps|, i requires 0 <= i < |ps| => ps[i].0)
  }

  /** Position of the first occurrence of `x`. */
  function FirstIndex<K(==)>(xs: seq<K>, x: K): (n: nat)
    requires x in xs
    ensures n < |xs| && xs[n] == x
    ensures forall j :: 0 <= j < n ==> xs[j] != x
    decreases |xs|
  {
    if xs[0] == x then 0 else 1 + FirstIndex(xs[1..], x)
  }

  /** Position of the last occurrence of `x`. */
  function LastIndex<K(==)>(xs: seq<K>, x: K): (n: nat)
    requires x in xs
    ensures n < |xs| && xs[n] == x
    ensures forall j :: n < j < |xs| ==> xs[j] != x
    decreases |xs|
  {
    if xs[|xs| - 1] == x then |xs| - 1 else LastIndex(xs[..|xs| - 1], x)
  }

  /** The dict lists exactly the keys of the pairs. */
  lemma {:induction false} FromPairsKeySet<K, V>(ps: seq<(K, V)>)
    ensures forall k :: k in FromPairs(ps).keys <==> k in Firsts(ps)
    decreases |ps|
  {
    if |ps| > 0 {
      var init := ps[..|ps| - 1];
      FromPairsKeySet(init);
      assert Firsts(ps) == Firsts(init) + [ps[|ps| - 1].0];
    }
  }

  /** The dict lists its keys in the order of their first occurrence among
      the pairs. */
  lemma {:induction false} FromPairsOrder<K, V>(ps: seq<(K, V)>)
    ensures forall k :: k in FromPairs(ps).keys ==> k in Firsts(ps)
    ensures forall i, j :: 0 <= i < j < |FromPairs(ps).keys| ==>
      FirstIndex(Firsts(ps), FromPairs(ps).keys[i]) < FirstIndex(Firsts(ps), FromPairs(ps).keys[j])
    decreases |ps|
  {
    FromPairsKeySet(ps);
    if |ps| > 0 {
      var init := ps[..|ps| - 1];
      var last := ps[|ps| - 1];
      FromPairsOrder(init);
      FromPairsKeySet(init);
      var d0, d := FromPairs(init), FromPairs(ps);
      var f0, f := Firsts(init), Firsts(ps);
      assert f == f0 + [last.0];
      if last.0 in d0.entries {
        assert d.keys == d0.keys;
        forall i | 0 <= i < |d.keys|
          ensures FirstIndex(f, d.keys[i]) == FirstIndex(f0, d.keys[i])
        {
          FirstIndexPrefix(f0, [last.0], d.keys[i]);
        }
      } else {
        AppendedKeyComesLast(f0, last.0, d0.keys);
      }
    }
  }

  /** Appending a new key `x` to key lists `ks` drawn from `f0` keeps their
      first-occurrence order in `f0 + [x]`, with `x` last. */
  lemma AppendedKeyComesLast<K>(f0: seq<K>, x: K, ks: seq<K>)
    requires x !in f0
    requires forall k :: k in ks ==> k in f0
    requires forall i, j :: 0 <= i < j < |ks| ==> FirstIndex(f0, ks[i]) < FirstIndex(f0, ks[j])
    ensures forall i, j :: 0 <= i < j < |ks + [x]| ==>
      FirstIndex(f0 + [x], (ks + [x])[i]) < FirstIndex(f0 + [x], (ks + [x])[j])
  {
    var f, d := f0 + [x], ks + [x];
    assert FirstIndex(f, x) == |f0|;
    forall i | 0 <= i < |ks|
      ensures FirstIndex(f, d[i]) == FirstIndex(f0, ks[i])
    {
      FirstIndexPrefix(f0, [x], ks[i]);
    }
  }

  /** The first occurrence of an element of `xs` is unaffected by what is
      appended after `xs`. */
  lemma FirstIndexPrefix<K>(xs: seq<K>, ys: seq<K>, x: K)
    requires x in xs
    ensures FirstIndex(xs + ys, x) == FirstIndex(xs, x)
  {
    assert (xs + ys)[FirstIndex(xs, x)] == x;
  }

  /** Every key holds the value of the last pair that carries it. */
  lemma {:induction false} FromPairsLookup<K, V>(ps: seq<(K, V)>)
    ensures forall k :: k in FromPairs(ps).entries ==>
      k in Firsts(ps) && FromPairs(ps).entries[k] == ps[LastIndex(Firsts(ps), k)].1
    decreases |ps|
  {
    if |ps| > 0 {
      var init := ps[..|ps| - 1];
      var last := ps[|ps| - 1];
      FromPairsLookup(init);
      var d0, d := FromPairs(init), FromPairs(ps);
      var f0, f := Firsts(init), Firsts(ps);
      assert f == f0 + [last.0];
      forall k | k in d.entries
        ensures k in f && d.entries[k] == ps[LastIndex(f, k)].1
      {
        if k == last.0 {
          assert f[|f| - 1] == k;
        } else {
          assert k in d0.entries;
          assert f[..|f| - 1] == f0;
          assert ps[LastIndex(f0, k)] == init[LastIndex(f0, k)];
        }
      }
    }
  }

  /** When all keys differ, the dict lists the keys exactly in pair order. */
  lemma {:induction false} FromPairsDistinct<K, V>(ps: seq<(K, V)>)
    requires forall i, j :: 0 <= i < j < |ps| ==> ps[i].0 != ps[j].0
    ensures FromPairs(ps).keys == Firsts(ps)
    decreases |ps|
  {
    if |ps| > 0 {
      var init := ps[..|ps| - 1];
      FromPairsDistinct(init);
      FromPairsKeySet(init);
      assert Firsts(ps) == Firsts(init) + [ps[|ps| - 1].0];
      assert ps[|ps| - 1].0 !in Firsts(init);
    }
  }
}
