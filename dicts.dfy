/**
 * A Python `dict` from string keys to integers. Python keeps a dict's keys in
 * the order they were first assigned, and iterating `items()` follows that
 * order, so a dict is modelled as its list of entries.
 */
module Dicts {
  import opened Wrappers

  type Dict = seq<(string, int)>

  /** The keys in iteration order. */
  function Keys(d: Dict): (ks: seq<string>)
    ensures |ks| == |d|
    ensures forall i :: 0 <= i < |d| ==> ks[i] == d[i].0
  {
    if |d| == 0 then [] else [d[0].0] + Keys(d[1..])
  }

  /** `d.get(k)`: the value stored under `k`, or None when `k` is not a key. */
  function Get(d: Dict, k: string): (r: Option<int>)
    ensures r.None? <==> k !in Keys(d)
    ensures r.Some? ==> (k, r.value) in d
  {
    if |d| == 0 then None
    else if d[0].0 == k then Some(d[0].1)
    else Get(d[1..], k)
  }

  /** `d[k] = v`: an existing key keeps its place and takes the new value, a new key goes last. */
  function Set(d: Dict, k: string, v: int): (r: Dict)
    ensures |r| == if k in Keys(d) then |d| else |d| + 1
  {
    if |d| == 0 then [(k, v)]
    else if d[0].0 == k then [(k, v)] + d[1..]
    else [d[0]] + Set(d[1..], k, v)
  }

  /** No key occurs in two entries, as in every dict Python builds. */
  predicate DistinctKeys(d: Dict)
  {
    forall i, j :: 0 <= i < j < |d| ==> d[i].0 != d[j].0
  }

  /** In a dict without repeated keys, each entry is what a lookup of its key finds. */
  lemma {:induction false} GetDistinct(d: Dict, k: string, v: int)
    requires DistinctKeys(d) && (k, v) in d
    ensures Get(d, k) == Some(v)
  {
    if d[0] != (k, v) {
      assert d[0].0 != k by {
        var i :| 0 <= i < |d| && d[i] == (k, v);
        assert i > 0;
      }
      assert (k, v) in d[1..];
      GetDistinct(d[1..], k, v);
    }
  }

  /** Assignment never repeats a key. */
  lemma {:induction false} SetDistinct(d: Dict, k: string, v: int)
    requires DistinctKeys(d)
    ensures DistinctKeys(Set(d, k, v))
  {
    var r := Set(d, k, v);
    SetKeys(d, k, v);
    var ks := Keys(d);
    forall i, j | 0 <= i < j < |r|
      ensures r[i].0 != r[j].0
    {
      assert Keys(r)[i] == r[i].0 && Keys(r)[j] == r[j].0;
      if k in ks {
        assert ks[i] == d[i].0 && ks[j] == d[j].0;
      } else if j < |d| {
        assert ks[i] == d[i].0 && ks[j] == d[j].0;
      } else {
        assert Keys(r)[j] == k;
        assert ks[i] == d[i].0;
      }
    }
  }

  /** After `d[k] = v`, looking up `k` gives `v` and no other key's value changes. */
  lemma {:induction false} SetGet(d: Dict, k: string, v: int)
    ensures Get(Set(d, k, v), k) == Some(v)
    ensures forall j :: j != k ==> Get(Set(d, k, v), j) == Get(d, j)
  {
    if |d| > 0 && d[0].0 != k {
      var r := Set(d, k, v);
      SetGet(d[1..], k, v);
      assert r[0] == d[0] && r[1..] == Set(d[1..], k, v);
    }
  }

  /** After `d[k] = v`, the key order is the old one, with `k` added last if it is new. */
  lemma {:induction false} SetKeys(d: Dict, k: string, v: int)
    ensures Keys(Set(d, k, v)) == if k in Keys(d) then Keys(d) else Keys(d) + [k]
  {
    var r := Set(d, k, v);
    if |d| == 0 {
    } else if d[0].0 == k {
      assert r[1..] == d[1..];
      assert Keys(d) == [k] + Keys(d[1..]);
    } else {
      var rest := Set(d[1..], k, v);
      SetKeys(d[1..], k, v);
      assert r[0] == d[0] && r[1..] == rest;
      assert Keys(r) == [d[0].0] + Keys(rest);
      assert Keys(d) == [d[0].0] + Keys(d[1..]);
    }
  }

  /** Assigning a key the dict does not have appends the new entry. */
  lemma {:induction false} SetNew(d: Dict, k: string, v: int)
    requires k !in Keys(d)
    ensures Set(d, k, v) == d + [(k, v)]
  {
    if |d| > 0 {
      assert Keys(d) == [d[0].0] + Keys(d[1..]);
      SetNew(d[1..], k, v);
      assert d == [d[0]] + d[1..];
    }
  }
}
