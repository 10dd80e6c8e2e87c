/** `_chunks` of the parallel metrics helpers: a list cut into at most `k`
    consecutive slices of equal length `m = ceil(len / k)`, the last one
    possibly shorter, for handing to `k` workers. */
module Chunking {
  import opened Wrappers

  function Concat<T>(ss: seq<seq<T>>): seq<T>
    decreases |ss|
  {
    if ss == [] then [] else ss[0] + Concat(ss[1..])
  }

  /** `[lst[i:i+m] for i in range(0, len(lst), m)]` for a positive step:
      slices of `m` elements from the front, the last one what is left. */
  function Slices<T>(lst: seq<T>, m: nat): seq<seq<T>>
    requires m >= 1
    decreases |lst|
  {
    if lst == [] then []
    else if |lst| <= m then [lst]
    else [lst[..m]] + Slices(lst[m..], m)
  }

  /** `_chunks(lst, k)`: a worker count below one counts as one; an empty
      list makes the step `m` zero, which `range` rejects (`None`). */
  function Chunks<T>(lst: seq<T>, k: int): (r: Option<seq<seq<T>>>)
    ensures r.None? <==> lst == []
  {
    var k' := if k < 1 then 1 else k;
    var m := (|lst| + k' - 1) / k';
    if m == 0 then None else Some(Slices(lst, m))
  }

  /** The step `m`: the smallest length such that `k'` slices cover the
      list. */
  function ChunkSize(n: nat, k: int): nat {
    var k' := if k < 1 then 1 else k;
    (n + k' - 1) / k'
  }

  /** The slices put back together are the list. */
  lemma {:induction false} SlicesConcat<T>(lst: seq<T>, m: nat)
    requires m >= 1
    ensures Concat(Slices(lst, m)) == lst
    decreases |lst|
  {
    if lst != [] && |lst| > m {
      SlicesConcat(lst[m..], m);
      assert lst == lst[..m] + lst[m..];
    } else if lst != [] {
      assert Concat([lst]) == lst + Concat([]);
    }
  }

  /** Every slice is non-empty, every slice but the last has exactly `m`
      elements and the last at most `m`; so all slices but the last take
      up less than the list. */
  lemma {:induction false} SlicesLengths<T>(lst: seq<T>, m: nat)
    requires m >= 1
    ensures forall i :: 0 <= i < |Slices(lst, m)| ==> 1 <= |Slices(lst, m)[i]| <= m
    ensures forall i :: 0 <= i < |Slices(lst, m)| - 1 ==> |Slices(lst, m)[i]| == m
    ensures lst != [] ==> (|Slices(lst, m)| - 1) * m < |lst|
    decreases |lst|
  {
    if lst != [] && |lst| > m {
      var r := Slices(lst, m);
      var rr := Slices(lst[m..], m);
      SlicesLengths(lst[m..], m);
      assert r == [lst[..m]] + rr;
      forall i | 1 <= i < |r|
        ensures r[i] == rr[i - 1]
      {
      }
      assert (|r| - 1) * m == (|rr| - 1) * m + m;
    }
  }

  lemma MulLess(a: int, b: int, m: int)
    requires m >= 1 && a * m < b * m
    ensures a < b
  {
  }

  /** `ceil(n / k') * k'` covers `n`. */
  lemma ChunkSizeCovers(n: nat, k: int)
    ensures var k' := if k < 1 then 1 else k; ChunkSize(n, k) * k' >= n
    ensures n >= 1 ==> ChunkSize(n, k) >= 1
  {
    var k' := if k < 1 then 1 else k;
    var m := (n + k' - 1) / k';
    assert n + k' - 1 == m * k' + (n + k' - 1) % k';
  }

  /** `_chunks` on a non-empty list: the chunks put back together are the
      list, there are at most `max(1, k)` of them, none is empty, and all
      but the last have `m = ceil(len / max(1, k))` elements. */
  lemma ChunksShape<T>(lst: seq<T>, k: int)
    requires lst != []
    ensures var k' := if k < 1 then 1 else k;
      var m := ChunkSize(|lst|, k);
      var r := Chunks(lst, k);
      && r.Some? && m >= 1
      && Concat(r.value) == lst
      && 1 <= |r.value| <= k'
      && (forall i :: 0 <= i < |r.value| ==> 1 <= |r.value[i]| <= m)
      && (forall i :: 0 <= i < |r.value| - 1 ==> |r.value[i]| == m)
  {
    var k' := if k < 1 then 1 else k;
    var m := ChunkSize(|lst|, k);
    ChunkSizeCovers(|lst|, k);
    SlicesConcat(lst, m);
    SlicesLengths(lst, m);
    var r := Slices(lst, m);
    assert r != [] && r[0] == (if |lst| <= m then lst else lst[..m]);
    MulLess(|r| - 1, k', m);
  }
}
