/**
 * Python dictionaries as ordered association lists. Python keeps a dict's keys
 * in insertion order, and both the search parameters and the query strings
 * built from them depend on that order.
 */
module Dicts {
  import opened Wrappers

  type Dict<V> = seq<(string, V)>

  /** `d.get(k)`: the value stored under `k`, if any. */
  function Get<V>(d: Dict<V>, k: string): (r: Option<V>)
    ensures r.None? <==> forall i :: 0 <= i < |d| ==> d[i].0 != k
    ensures r.Some? ==> (k, r.value) in d
  {
    if d == [] then None else if d[0].0 == k then Some(d[0].1) else Get(d[1..], k)
  }

  /** `d[k] = v`: an existing key keeps its position, a new key goes last. */
  function Set<V>(d: Dict<V>, k: string, v: V): (r: Dict<V>)
    ensures Get(r, k) == Some(v)
    ensures forall k' :: k' != k ==> Get(r, k') == Get(d, k')
    ensures Get(d, k).Some? ==> |r| == |d|
    ensures forall i :: 0 <= i < |r| ==> r[i].0 == k || Get(d, r[i].0).Some?
  {
    if d == [] then [(k, v)]
    else if d[0].0 == k then [(k, v)] + d[1..]
    else [d[0]] + Set(d[1..], k, v)
  }

  lemma TailUnique<V>(d: Dict<V>)
    requires d != [] && UniqueKeys(d)
    ensures UniqueKeys(d[1..])
    ensures Get(d[1..], d[0].0).None?
  {
    forall i, j | 0 <= i < j < |d[1..]| ensures d[1..][i].0 != d[1..][j].0 {
      assert d[1..][i] == d[i + 1] && d[1..][j] == d[j + 1];
    }
    forall i | 0 <= i < |d[1..]| ensures d[1..][i].0 != d[0].0 {
      assert d[1..][i] == d[i + 1];
    }
  }

  /** Setting a key keeps every key of a dictionary unique. */
  lemma {:induction false} SetUnique<V>(d: Dict<V>, k: string, v: V)
    requires UniqueKeys(d)
    ensures UniqueKeys(Set(d, k, v))
    decreases |d|
  {
    if d != [] {
      TailUnique(d);
      var r := Set(d, k, v);
      if d[0].0 == k {
        forall i, j | 0 <= i < j < |r| ensures r[i].0 != r[j].0 {
          assert r[j] == d[j];
        }
      } else {
        var rest := Set(d[1..], k, v);
        SetUnique(d[1..], k, v);
        forall i, j | 0 <= i < j < |r| ensures r[i].0 != r[j].0 {
          if i == 0 {
            assert r[j] == rest[j - 1];
          } else {
            assert r[i] == rest[i - 1] && r[j] == rest[j - 1];
          }
        }
      }
    }
  }

  /** `d.pop(k, None)` without its return value: `k` is gone, nothing else moves. */
  function Remove<V>(d: Dict<V>, k: string): (r: Dict<V>)
    ensures Get(r, k) == None
    ensures forall k' :: k' != k ==> Get(r, k') == Get(d, k')
  {
    if d == [] then [] else if d[0].0 == k then Remove(d[1..], k) else [d[0]] + Remove(d[1..], k)
  }

  /** The value the LAST pair with key `k` gives: what `dict(pairs)` keeps. */
  function LastValue<V>(ps: seq<(string, V)>, k: string): Option<V> {
    if ps == [] then None
    else
      var later := LastValue(ps[1..], k);
      if later.Some? then later else if ps[0].0 == k then Some(ps[0].1) else None
  }

  /** `d |= dict(ps)` (and `d | dict(ps)`): later pairs win. */
  function Update<V>(d: Dict<V>, ps: seq<(string, V)>): (r: Dict<V>)
    ensures forall k :: Get(r, k) == (if LastValue(ps, k).Some? then LastValue(ps, k) else Get(d, k))
    decreases |ps|
  {
    if ps == [] then d else Update(Set(d, ps[0].0, ps[0].1), ps[1..])
  }

  lemma {:induction false} UpdateUnique<V>(d: Dict<V>, ps: seq<(string, V)>)
    requires UniqueKeys(d)
    ensures UniqueKeys(Update(d, ps))
    decreases |ps|
  {
    if ps != [] {
      SetUnique(d, ps[0].0, ps[0].1);
      UpdateUnique(Set(d, ps[0].0, ps[0].1), ps[1..]);
    }
  }

  /** `dict(ps)`. */
  function FromPairs<V>(ps: seq<(string, V)>): Dict<V> {
    Update([], ps)
  }

  predicate UniqueKeys<V>(d: Dict<V>) {
    forall i, j :: 0 <= i < j < |d| ==> d[i].0 != d[j].0
  }

  /** In a dictionary literal with distinct keys, a key reads back its pair's value. */
  lemma {:induction false} GetOfMember<V>(d: Dict<V>, k: string, v: V)
    requires UniqueKeys(d) && (k, v) in d
    ensures Get(d, k) == Some(v)
    decreases |d|
  {
    if d[0] != (k, v) {
      assert (k, v) in d[1..];
      assert UniqueKeys(d[1..]) by {
        forall i, j | 0 <= i < j < |d[1..]| ensures d[1..][i].0 != d[1..][j].0 {
          assert d[1..][i] == d[i + 1] && d[1..][j] == d[j + 1];
        }
      }
      GetOfMember(d[1..], k, v);
    }
  }

  /** A key reads back the value of its first pair. */
  lemma {:induction false} GetAt<V>(d: Dict<V>, i: nat, k: string)
    requires i < |d| && d[i].0 == k
    requires forall j :: 0 <= j < i ==> d[j].0 != k
    ensures Get(d, k) == Some(d[i].1)
    decreases i
  {
    if i > 0 {
      assert d[1..][i - 1] == d[i];
      GetAt(d[1..], i - 1, k);
    }
  }

  /** In a real dictionary every key occurs once, so the first and the last
      pair with a key are the same pair. */
  lemma {:induction false} LastValueOfUniqueKeys<V>(d: Dict<V>, k: string)
    requires UniqueKeys(d)
    ensures LastValue(d, k) == Get(d, k)
    decreases |d|
  {
    if d != [] {
      assert UniqueKeys(d[1..]) by {
        forall i, j | 0 <= i < j < |d[1..]| ensures d[1..][i].0 != d[1..][j].0 {
          assert d[1..][i] == d[i + 1] && d[1..][j] == d[j + 1];
        }
      }
      LastValueOfUniqueKeys(d[1..], k);
      if d[0].0 == k {
        assert forall i :: 0 <= i < |d[1..]| ==> d[1..][i].0 != k by {
          forall i | 0 <= i < |d[1..]| ensures d[1..][i].0 != k {
            assert d[1..][i] == d[i + 1];
          }
        }
      }
    }
  }
}
