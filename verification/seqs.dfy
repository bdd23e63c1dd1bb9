/** Sequence helpers with Python's semantics: `list.index`, slicing with negative
    bounds, and insertion-ordered dictionaries. */
module Seqs {
  import opened Wrappers

  /** Position of the first occurrence of `x`, as `list.index` finds it; `None`
      where Python raises `ValueError`. */
  function IndexOf<T(==)>(s: seq<T>, x: T): (r: Option<nat>)
    ensures r.Some? ==> r.value < |s| && s[r.value] == x && x !in s[..r.value]
    ensures r.None? <==> x !in s
  {
    if |s| == 0 then None
    else if s[0] == x then Some(0)
    else
      match IndexOf(s[1..], x)
      case None => None
      case Some(i) =>
        assert s[..i + 1] == [s[0]] + s[1..][..i];
        Some(i + 1)
  }

  /** A slice bound `i` of a sequence of length `n` after Python's normalisation:
      a negative bound counts from the end, and the result is clamped to `0..n`. */
  function SliceBound(i: int, n: nat): (b: nat)
    ensures b <= n
    ensures 0 <= i <= n ==> b == i
    ensures i < 0 && n + i >= 0 ==> b == n + i
    ensures i < 0 && n + i < 0 ==> b == 0
    ensures i > n ==> b == n
  {
    if i < 0 then (if i + n < 0 then 0 else i + n)
    else if i > n then n
    else i
  }

  /** Python's `s[lo:hi]`. */
  function PySlice<T>(s: seq<T>, lo: int, hi: int): (r: seq<T>)
    ensures |r| <= |s|
  {
    var a := SliceBound(lo, |s|);
    var b := SliceBound(hi, |s|);
    if a < b then s[a..b] else []
  }

  /** Concatenation of a sequence of sequences. */
  function Flatten<T>(ss: seq<seq<T>>): seq<T>
  {
    if |ss| == 0 then [] else ss[0] + Flatten(ss[1..])
  }

  lemma {:induction false} FlattenAppend<T>(xs: seq<seq<T>>, ys: seq<seq<T>>)
    ensures Flatten(xs + ys) == Flatten(xs) + Flatten(ys)
  {
    if |xs| == 0 {
      assert xs + ys == ys;
    } else {
      assert (xs + ys)[1..] == xs[1..] + ys;
      FlattenAppend(xs[1..], ys);
    }
  }

  /** `n` copies of `x`; Python's `for _ in range(n)` runs `max(n, 0)` times. */
  function Repeat<T>(x: T, n: int): (r: seq<T>)
    ensures |r| == if n < 0 then 0 else n
    ensures forall i :: 0 <= i < |r| ==> r[i] == x
  {
    if n <= 0 then [] else [x] + Repeat(x, n - 1)
  }

  /** Python dictionaries keep insertion order and hold every key once. */
  predicate KeysUnique<V>(d: seq<(string, V)>)
  {
    forall i, j :: 0 <= i < j < |d| ==> d[i].0 != d[j].0
  }

  type Dict<V> = d: seq<(string, V)> | KeysUnique(d) witness []

  /** `d.get(key)`, `None` where the key is absent. */
  function Lookup<V>(d: Dict<V>, key: string): (r: Option<V>)
    ensures r.Some? <==> exists i :: 0 <= i < |d| && d[i].0 == key
    ensures r.Some? ==> forall i :: 0 <= i < |d| && d[i].0 == key ==> d[i].1 == r.value
  {
    if |d| == 0 then None
    else if d[0].0 == key then Some(d[0].1)
    else
      var tail: Dict<V> := d[1..];
      var r := Lookup(tail, key);
      assert forall i :: 1 <= i < |d| ==> d[i] == tail[i - 1];
      r
  }

  /** `d.get(key, default)`. */
  function Get<V>(d: Dict<V>, key: string, default: V): V
  {
    match Lookup(d, key)
    case Some(v) => v
    case None => default
  }
}
