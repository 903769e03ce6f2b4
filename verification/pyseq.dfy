/** The Python list semantics the adapter relies on: slices with negative or
    out-of-range bounds, `zip`, `sum` and flattening. */
module PySeq {

  function Min(a: int, b: int): int { if a <= b then a else b }

  function Max(a: int, b: int): int { if a >= b then a else b }

  /** The index a Python slice bound `k` denotes in a list of length `n`:
      a negative bound counts from the end, and any bound clamps to `0..n`. */
  function SliceBound(n: nat, k: int): (b: nat)
    ensures b <= n
  {
    if k >= 0 then Min(k, n) else Max(n + k, 0)
  }

  /** Python's `s[k:]`. */
  function DropFrom<T>(s: seq<T>, k: int): (r: seq<T>)
    ensures |r| <= |s|
    ensures 0 <= k ==> |r| == |s| - Min(k, |s|)
    ensures k < 0 ==> |r| == Min(-k, |s|)
    ensures forall i :: 0 <= i < |r| ==> r[i] == s[|s| - |r| + i]
  {
    s[SliceBound(|s|, k)..]
  }

  /** Python's `s[i:j]`. */
  function Slice<T>(s: seq<T>, i: int, j: int): (r: seq<T>)
    ensures 0 <= i <= j <= |s| ==> r == s[i..j]
    ensures |s| <= i ==> r == []
  {
    var a := SliceBound(|s|, i);
    var b := SliceBound(|s|, j);
    if a <= b then s[a..b] else []
  }

  /** Python's `zip(a, b)`: it stops at the shorter of the two. */
  function Zip<A, B>(a: seq<A>, b: seq<B>): (r: seq<(A, B)>)
    ensures |r| == Min(|a|, |b|)
    ensures forall i :: 0 <= i < |r| ==> r[i] == (a[i], b[i])
  {
    seq(Min(|a|, |b|), i requires 0 <= i < Min(|a|, |b|) => (a[i], b[i]))
  }

  /** Python's `sum`, over exact reals. */
  function Sum(s: seq<real>): real
  {
    if |s| == 0 then 0.0 else s[0] + Sum(s[1..])
  }

  lemma {:induction false} SumConcat(a: seq<real>, b: seq<real>)
    ensures Sum(a + b) == Sum(a) + Sum(b)
  {
    if |a| == 0 {
      assert a + b == b;
    } else {
      assert (a + b)[1..] == a[1..] + b;
      SumConcat(a[1..], b);
    }
  }

  /** Flattening a list of lists, in order. */
  function Concat<T>(ss: seq<seq<T>>): seq<T>
  {
    if |ss| == 0 then [] else ss[0] + Concat(ss[1..])
  }

  lemma {:induction false} ConcatAppend<T>(ss: seq<seq<T>>, ts: seq<seq<T>>)
    ensures Concat(ss + ts) == Concat(ss) + Concat(ts)
  {
    if |ss| == 0 {
      assert ss + ts == ts;
    } else {
      assert (ss + ts)[1..] == ss[1..] + ts;
      ConcatAppend(ss[1..], ts);
    }
  }

  /** `[f(x) for x in xs]`. */
  function MapSeq<A, B>(f: A -> B, xs: seq<A>): (r: seq<B>)
    ensures |r| == |xs|
    ensures forall i :: 0 <= i < |xs| ==> r[i] == f(xs[i])
  {
    seq(|xs|, i requires 0 <= i < |xs| => f(xs[i]))
  }

  lemma MapSeqAppend<A, B>(f: A -> B, xs: seq<A>, ys: seq<A>)
    ensures MapSeq(f, xs + ys) == MapSeq(f, xs) + MapSeq(f, ys)
  {
  }

  /** Mapping a flattened list is flattening the mapped parts. */
  lemma {:induction false} MapSeqConcat<A, B>(f: A -> B, ss: seq<seq<A>>, parts: seq<seq<B>>)
    requires |parts| == |ss|
    requires forall i :: 0 <= i < |ss| ==> parts[i] == MapSeq(f, ss[i])
    ensures MapSeq(f, Concat(ss)) == Concat(parts)
  {
    if |ss| > 0 {
      MapSeqConcat(f, ss[1..], parts[1..]);
      MapSeqAppend(f, ss[0], Concat(ss[1..]));
    }
  }

  /** Summing a flattened list is summing the sums of its parts. */
  lemma {:induction false} SumOfConcat(ss: seq<seq<real>>)
    ensures Sum(Concat(ss)) == Sum(MapSeq(Sum, ss))
  {
    if |ss| > 0 {
      SumOfConcat(ss[1..]);
      assert MapSeq(Sum, ss)[1..] == MapSeq(Sum, ss[1..]);
      SumConcat(ss[0], Concat(ss[1..]));
    }
  }
}
