/**
 * Python dictionaries as insertion-ordered lists of (key, value) pairs.
 * Iteration order is observable in the core (first match on a reverse lookup,
 * order of placeholder substitution), so the order is kept explicitly.
 */
module Dicts {
  import opened Wrappers

  /** Both dictionaries of the core map strings to strings. */
  type Dict = seq<(string, string)>

  /** The keys, in insertion order (`list(d)`). */
  function Keys(d: Dict): seq<string> {
    seq(|d|, i requires 0 <= i < |d| => d[i].0)
  }

  /** No key appears twice: the shape every Python dict has. */
  predicate UniqueKeys(d: Dict) {
    forall i, j :: 0 <= i < j < |d| ==> d[i].0 != d[j].0
  }

  /** `d.get(k)`. */
  function Get(d: Dict, k: string): (r: Option<string>)
    ensures r.None? <==> k !in Keys(d)
  {
    if d == [] then None
    else if d[0].0 == k then
      assert Keys(d)[0] == k;
      Some(d[0].1)
    else
      assert Keys(d) == [d[0].0] + Keys(d[1..]);
      Get(d[1..], k)
  }

  /** `d[k] = v`: an existing key keeps its position and takes the new value; a new key goes last. */
  function Put(d: Dict, k: string, v: string): Dict {
    if d == [] then [(k, v)]
    else if d[0].0 == k then [(k, v)] + d[1..]
    else [d[0]] + Put(d[1..], k, v)
  }

  /** `del d[k]` (on a dict with unique keys: the one entry for `k` goes, the rest keep their order). */
  function Remove(d: Dict, k: string): Dict {
    if d == [] then []
    else if d[0].0 == k then d[1..]
    else [d[0]] + Remove(d[1..], k)
  }

  /**
   * `next((key for key, value in d.items() if value == v), None)`: the first key,
   * in iteration order, whose value is `v`.
   */
  function KeyOf(d: Dict, v: string): (r: Option<string>)
    ensures r.None? <==> forall i :: 0 <= i < |d| ==> d[i].1 != v
    ensures r.Some? ==> exists i ::
      && 0 <= i < |d| && d[i] == (r.value, v)
      && forall j :: 0 <= j < i ==> d[j].1 != v
  {
    if d == [] then None
    else if d[0].1 == v then
      assert d[0] == (d[0].0, v);
      Some(d[0].0)
    else
      var r := KeyOf(d[1..], v);
      assert r.Some? ==> exists i ::
        && 0 <= i < |d| && d[i] == (r.value, v)
        && forall j :: 0 <= j < i ==> d[j].1 != v by {
        if r.Some? {
          var i :| 0 <= i < |d| - 1 && d[1..][i] == (r.value, v)
            && forall j :: 0 <= j < i ==> d[1..][j].1 != v;
          assert d[i + 1] == (r.value, v);
          forall j | 0 <= j < i + 1 ensures d[j].1 != v {
            if j > 0 { assert d[j] == d[1..][j - 1]; }
          }
        }
      }
      assert r.None? ==> forall i :: 0 <= i < |d| ==> d[i].1 != v by {
        if r.None? {
          forall i | 0 <= i < |d| ensures d[i].1 != v {
            if i > 0 { assert d[i] == d[1..][i - 1]; }
          }
        }
      }
      r
  }

  /** The reverse lookup answers the key of the first entry holding `v`. */
  lemma KeyOfFirst(d: Dict, v: string, i: nat)
    requires i < |d| && d[i].1 == v && forall j :: 0 <= j < i ==> d[j].1 != v
    ensures KeyOf(d, v) == Some(d[i].0)
  {
    var i' :| 0 <= i' < |d| && d[i'] == (KeyOf(d, v).value, v) && forall j :: 0 <= j < i' ==> d[j].1 != v;
    assert i' == i;
  }

  /** After `d[k] = v`, `k` reads `v` and every other key reads what it read before. */
  lemma {:induction false} GetPut(d: Dict, k: string, v: string, j: string)
    ensures Get(Put(d, k, v), j) == if j == k then Some(v) else Get(d, j)
  {
    if d != [] && d[0].0 != k {
      GetPut(d[1..], k, v, j);
    }
  }

  /** `d[k] = v` keeps the key order and appends `k` only when it is new. */
  lemma {:induction false} KeysPut(d: Dict, k: string, v: string)
    ensures Keys(Put(d, k, v)) == if k in Keys(d) then Keys(d) else Keys(d) + [k]
  {
    if d == [] {
      assert Keys(d) == [] && Keys(Put(d, k, v)) == [k];
    } else if d[0].0 == k {
      assert Keys(d)[0] == k && Keys(Put(d, k, v)) == Keys(d);
    } else {
      KeysPut(d[1..], k, v);
      assert Keys(d) == [d[0].0] + Keys(d[1..]);
      assert Keys(Put(d, k, v)) == [d[0].0] + Keys(Put(d[1..], k, v));
    }
  }

  /** Unique keys stay unique under `d[k] = v`. */
  lemma PutUnique(d: Dict, k: string, v: string)
    requires UniqueKeys(d)
    ensures UniqueKeys(Put(d, k, v))
  {
    var e := Put(d, k, v);
    KeysPut(d, k, v);
    assert Keys(e) == if k in Keys(d) then Keys(d) else Keys(d) + [k];
    forall i, j | 0 <= i < j < |e| ensures e[i].0 != e[j].0 {
      assert e[i].0 == Keys(e)[i] && e[j].0 == Keys(e)[j];
      if j < |d| {
        assert Keys(d)[i] == d[i].0 && Keys(d)[j] == d[j].0;
      } else {
        assert Keys(d)[i] == d[i].0;
      }
    }
  }

  /** On unique keys, `del d[k]` drops exactly `k`. */
  lemma {:induction false} GetRemove(d: Dict, k: string, j: string)
    requires UniqueKeys(d)
    ensures Get(Remove(d, k), j) == if j == k then None else Get(d, j)
  {
    if d != [] {
      assert UniqueKeys(d[1..]);
      if d[0].0 == k {
        if j == k {
          assert Remove(d, k) == d[1..];
          assert forall i :: 0 <= i < |d| - 1 ==> Keys(d[1..])[i] == d[i + 1].0;
          assert k !in Keys(d[1..]);
        }
      } else {
        GetRemove(d[1..], k, j);
      }
    }
  }

  /** The entries left by `del d[k]` are those of `d` without `k`, in their old order. */
  lemma {:induction false} RemoveAt(d: Dict, k: string, i: nat)
    requires i < |d| && d[i].0 == k && forall j :: 0 <= j < i ==> d[j].0 != k
    ensures Remove(d, k) == d[..i] + d[i + 1..]
  {
    if i > 0 {
      RemoveAt(d[1..], k, i - 1);
      assert d[1..][..i - 1] == d[1..i];
      assert d[1..][i..] == d[i + 1..];
      assert d[..i] == [d[0]] + d[1..i];
    }
  }

  /** `del d[k]` keeps keys unique. */
  lemma {:induction false} RemoveUnique(d: Dict, k: string)
    requires UniqueKeys(d)
    ensures UniqueKeys(Remove(d, k))
    ensures forall x :: x in Keys(Remove(d, k)) ==> x in Keys(d)
  {
    if d != [] {
      assert UniqueKeys(d[1..]);
      if d[0].0 != k {
        RemoveUnique(d[1..], k);
        var r := Remove(d[1..], k);
        assert Keys(d) == [d[0].0] + Keys(d[1..]);
        assert Keys([d[0]] + r) == [d[0].0] + Keys(r);
        assert forall i :: 0 <= i < |d| - 1 ==> Keys(d[1..])[i] == d[i + 1].0;
        assert d[0].0 !in Keys(r);
        forall i, j | 0 <= i < j < |[d[0]] + r| ensures ([d[0]] + r)[i].0 != ([d[0]] + r)[j].0 {
          if i == 0 {
            assert ([d[0]] + r)[j].0 == Keys(r)[j - 1];
          }
        }
      } else {
        assert Keys(d) == [d[0].0] + Keys(d[1..]);
      }
    }
  }
}
