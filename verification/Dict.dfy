/**
 * Python dictionaries: finite maps that remember insertion order. Assigning to
 * a present key keeps its place, a new key goes last, `pop` removes.
 */
module Dict {
  import opened Common

  type Dict<V> = seq<(string, V)>

  function Get<V>(d: Dict<V>, k: string): Option<V> {
    if d == [] then None else if d[0].0 == k then Some(d[0].1) else Get(d[1..], k)
  }

  predicate Has<V>(d: Dict<V>, k: string) { Get(d, k).Some? }

  function Put<V>(d: Dict<V>, k: string, v: V): Dict<V> {
    if d == [] then [(k, v)] else if d[0].0 == k then [(k, v)] + d[1..] else [d[0]] + Put(d[1..], k, v)
  }

  function Remove<V>(d: Dict<V>, k: string): Dict<V> {
    if d == [] then [] else if d[0].0 == k then Remove(d[1..], k) else [d[0]] + Remove(d[1..], k)
  }

  /** No key occurs twice. */
  ghost predicate IsDict<V>(d: Dict<V>) {
    d != [] ==> !Has(d[1..], d[0].0) && IsDict(d[1..])
  }

  lemma {:induction false} GetPut<V>(d: Dict<V>, k: string, v: V, j: string)
    ensures Get(Put(d, k, v), j) == if j == k then Some(v) else Get(d, j)
  {
    if d != [] && d[0].0 != k {
      GetPut(d[1..], k, v, j);
    }
  }

  lemma {:induction false} GetRemove<V>(d: Dict<V>, k: string, j: string)
    ensures Get(Remove(d, k), j) == if j == k then None else Get(d, j)
  {
    if d != [] {
      GetRemove(d[1..], k, j);
      assert ([d[0]] + Remove(d[1..], k))[1..] == Remove(d[1..], k);
    }
  }

  lemma {:induction false} PutIsDict<V>(d: Dict<V>, k: string, v: V)
    requires IsDict(d)
    ensures IsDict(Put(d, k, v))
  {
    if d != [] && d[0].0 != k {
      PutIsDict(d[1..], k, v);
      GetPut(d[1..], k, v, d[0].0);
    }
  }

  lemma {:induction false} RemoveIsDict<V>(d: Dict<V>, k: string)
    requires IsDict(d)
    ensures IsDict(Remove(d, k))
  {
    if d != [] {
      RemoveIsDict(d[1..], k);
      GetRemove(d[1..], k, d[0].0);
      assert ([d[0]] + Remove(d[1..], k))[1..] == Remove(d[1..], k);
    }
  }

  lemma {:induction false} GetFound<V>(d: Dict<V>, k: string) returns (i: nat)
    requires Has(d, k)
    ensures i < |d| && d[i] == (k, Get(d, k).value)
  {
    if d[0].0 == k {
      i := 0;
    } else {
      i := GetFound(d[1..], k);
      i := i + 1;
    }
  }

  lemma {:induction false} GetAt<V>(d: Dict<V>, i: nat)
    requires IsDict(d) && i < |d|
    ensures Get(d, d[i].0) == Some(d[i].1)
  {
    if i > 0 {
      GetAt(d[1..], i - 1);
    }
  }

  lemma {:induction false} HasAt<V>(d: Dict<V>, i: nat)
    requires i < |d|
    ensures Has(d, d[i].0)
  {
    if i > 0 {
      HasAt(d[1..], i - 1);
    }
  }

  lemma {:induction false} KeysDistinct<V>(d: Dict<V>, i: nat, j: nat)
    requires IsDict(d) && i < j < |d|
    ensures d[i].0 != d[j].0
  {
    if i > 0 {
      KeysDistinct(d[1..], i - 1, j - 1);
    } else {
      HasAt(d[1..], j - 1);
    }
  }
}
