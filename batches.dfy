/** Splitting an ordered list of rows into page-sized batches. Both scripts
    cut their input with `data.slice(start, start + k)` at starts 0, k, 2k,
    ...; Chunks is the value such a loop builds, and the lemmas below say
    what it means: the batches put back together are the input, every
    batch but the last is full, and there are ceil(n / k) of them. */
module Batches {

  function Min(a: int, b: int): int { if a <= b then a else b }

  /** `data.slice(lo, hi)` for 0 <= lo <= hi: an end past the data is
      clamped to its length, a start past it gives the empty list. */
  function Slice<T>(data: seq<T>, lo: nat, hi: nat): seq<T>
    requires lo <= hi
  {
    if lo >= |data| then [] else data[lo..Min(hi, |data|)]
  }

  /** A slice holds the elements from lo on, as many as lie both before hi
      and inside the data. */
  lemma SliceContents<T>(data: seq<T>, lo: nat, hi: nat)
    requires lo <= hi
    ensures |Slice(data, lo, hi)| == (if lo >= |data| then 0 else Min(hi, |data|) - lo)
    ensures forall i :: 0 <= i < |Slice(data, lo, hi)| ==> Slice(data, lo, hi)[i] == data[lo + i]
  {
  }

  /** The number of batches of size k needed for n items, ceil(n / k). */
  function CeilDiv(n: nat, k: nat): (r: nat)
    requires k >= 1
    ensures n == 0 ==> r == 0
    ensures n > 0 ==> (r - 1) * k < n <= r * k
  {
    DivBounds(n + k - 1, k);
    (n + k - 1) / k
  }

  /** Euclidean division by a positive divisor rounds down. */
  lemma DivBounds(a: nat, k: nat)
    requires k >= 1
    ensures (a / k) * k <= a < (a / k + 1) * k
  {
  }

  /** The quotient is the only q with q * k <= a < (q + 1) * k. */
  lemma DivUnique(a: int, k: int, q: int)
    requires k >= 1
    requires q * k <= a < (q + 1) * k
    ensures a / k == q
  {
    var d := a / k;
    assert d * k <= a < (d + 1) * k;
    if d < q {
      MulLe(d + 1, q, k);
    } else if d > q {
      MulLe(q + 1, d, k);
    }
  }

  lemma MulPred(p: int, k: int)
    ensures p * k == (p - 1) * k + k
  {
  }

  /** Multiplying by a non-negative number keeps an order. */
  lemma MulLe(a: int, b: int, k: int)
    requires a <= b && k >= 0
    ensures a * k <= b * k
  {
    assert b * k - a * k == (b - a) * k;
  }

  /** Consecutive batches of k items in order, the last possibly shorter. */
  function Chunks<T>(data: seq<T>, k: nat): (pages: seq<seq<T>>)
    requires k >= 1
    decreases |data|
  {
    if |data| == 0 then []
    else [data[..Min(k, |data|)]] + Chunks(data[Min(k, |data|)..], k)
  }

  /** Concatenation of a list of batches. */
  function Flatten<T>(pages: seq<seq<T>>): seq<T> {
    if pages == [] then [] else pages[0] + Flatten(pages[1..])
  }

  /** Putting the batches back together gives the input exactly. */
  lemma {:induction false} FlattenChunks<T>(data: seq<T>, k: nat)
    requires k >= 1
    ensures Flatten(Chunks(data, k)) == data
    decreases |data|
  {
    if |data| > 0 {
      var m := Min(k, |data|);
      FlattenChunks(data[m..], k);
      assert data == data[..m] + data[m..];
    }
  }

  /** Every batch but the last holds exactly k items and the last one is
      not empty; there are ceil(n / k) batches, none for empty input. */
  lemma {:induction false} ChunkSizes<T>(data: seq<T>, k: nat)
    requires k >= 1
    ensures |Chunks(data, k)| == CeilDiv(|data|, k)
    ensures forall p :: 0 <= p < |Chunks(data, k)| - 1 ==> |Chunks(data, k)[p]| == k
    ensures |Chunks(data, k)| > 0 ==> 0 < |Chunks(data, k)[|Chunks(data, k)| - 1]| <= k
    decreases |data|
  {
    var pages := Chunks(data, k);
    if |data| > k {
      var rest := data[k..];
      ChunkSizes(rest, k);
      assert pages == [data[..k]] + Chunks(rest, k);
      var c := CeilDiv(|rest|, k);
      MulPred(c, k);
      MulPred(c + 1, k);
      BatchCount(|data|, k, c + 1);
    } else if |data| > 0 {
      BatchCount(|data|, k, 1);
    }
  }

  /** Batch p is the slice of the input from p * k, as the scripts cut it. */
  lemma ChunkAt<T>(data: seq<T>, k: nat, p: nat)
    requires k >= 1
    requires p < |Chunks(data, k)|
    ensures 0 <= p * k < |data|
    ensures Chunks(data, k)[p] == Slice(data, p * k, p * k + k)
  {
    ChunkFrom(data, k, p);
  }

  /** Batch p runs from p * k to the next multiple of k or the end. */
  lemma {:induction false} ChunkFrom<T>(data: seq<T>, k: nat, p: nat)
    requires k >= 1
    requires p < |Chunks(data, k)|
    ensures 0 <= p * k < |data|
    ensures Chunks(data, k)[p] == data[p * k..Min(p * k + k, |data|)]
    decreases p
  {
    var m := Min(k, |data|);
    if p == 0 {
      assert Chunks(data, k)[0] == data[..m];
    } else {
      var rest := data[m..];
      assert Chunks(data, k)[p] == Chunks(rest, k)[p - 1];
      ChunkFrom(rest, k, p - 1);
      assert m == k;
      var prev := (p - 1) * k;
      MulPred(p, k);
      MulLe(0, p - 1, k);
      assert p * k == prev + k;
      var hi := Min(prev + k, |rest|);
      DropSlice(data, k, prev, hi);
      assert k + hi == Min(p * k + k, |data|);
    }
  }

  lemma DropSlice<T>(data: seq<T>, m: nat, a: nat, b: nat)
    requires m <= |data| && a <= b <= |data| - m
    ensures data[m..][a..b] == data[m + a..m + b]
  {
  }

  /** A loop that has cut c batches, the last of which started before the
      end, and has nothing left, has cut ceil(n / k) of them. */
  lemma BatchCount(n: nat, k: nat, c: nat)
    requires k >= 1
    requires c == 0 ==> n == 0
    requires c > 0 ==> (c - 1) * k < n <= c * k
    ensures c == CeilDiv(n, k)
  {
    if c > 0 {
      DivUnique(n + k - 1, k, c);
    }
  }
}
