/**
 * The index arithmetic of `CausalSelfAttention`: the assertion on the head count, the
 * `split` of the fused query/key/value projection along the channel axis, and the
 * `view(B, T, nh, hs).transpose(1, 2)` / `transpose(1, 2).contiguous().view(B, T, C)`
 * pair that moves heads into and out of the batch dimension.
 *
 * Tensors are contiguous row-major buffers: a (B, T, C) tensor is a flat sequence
 * whose element (b, t, c) sits at `(b * T + t) * C + c`. The attention kernel that
 * runs between the split and the merge is not modelled.
 */
module Attention {
  import opened Common
  import opened Arith

  /** An element position in a (batch, position, channel) tensor. */
  datatype Idx3 = Idx3(b: nat, t: nat, c: nat)

  /** An element position in a (batch, head, position, offset-within-head) tensor. */
  datatype Idx4 = Idx4(b: nat, h: nat, t: nat, d: nat)

  predicate In3(i: Idx3, B: nat, T: nat, C: nat) {
    i.b < B && i.t < T && i.c < C
  }

  predicate In4(j: Idx4, B: nat, nh: nat, T: nat, hs: nat) {
    j.b < B && j.h < nh && j.t < T && j.d < hs
  }

  // ---------------------------------------------------------------------------
  // Configuration check (the assertion in `CausalSelfAttention.__init__`)
  // ---------------------------------------------------------------------------

  /**
   * The per-head width `C // n_head`, after the constructor's assertion that the
   * embedding width divides evenly. `%` by a zero head count raises ZeroDivisionError.
   */
  function HeadSize(nEmbd: nat, nHead: nat): (r: Result<nat>)
    ensures r.Ok? <==> nHead > 0 && nEmbd % nHead == 0
    ensures r.Ok? ==> r.value * nHead == nEmbd
    ensures r.Err? ==> r.error == (if nHead == 0 then ZeroDivision else AssertionFailed)
  {
    if nHead == 0 then Err(ZeroDivision)
    else if nEmbd % nHead != 0 then Err(AssertionFailed)
    else Ok(nEmbd / nHead)
  }

  // ---------------------------------------------------------------------------
  // Row-major layouts
  // ---------------------------------------------------------------------------

  function Flat3(i: Idx3, T: nat, C: nat): nat {
    (i.b * T + i.t) * C + i.c
  }

  function Flat4(j: Idx4, nh: nat, T: nat, hs: nat): nat {
    ((j.b * nh + j.h) * T + j.t) * hs + j.d
  }

  function Unflat3(k: nat, T: nat, C: nat): Idx3
    requires T > 0 && C > 0
  {
    Idx3(k / C / T, k / C % T, k % C)
  }

  function Unflat4(k: nat, nh: nat, T: nat, hs: nat): Idx4
    requires nh > 0 && T > 0 && hs > 0
  {
    Idx4(k / hs / T / nh, k / hs / T % nh, k / hs % T, k % hs)
  }

  /** An in-bounds (b, t, c) lands inside the buffer, and reading the offset back gives (b, t, c). */
  lemma Flat3RoundTrip(i: Idx3, B: nat, T: nat, C: nat)
    requires In3(i, B, T, C)
    ensures Flat3(i, T, C) < B * T * C
    ensures Unflat3(Flat3(i, T, C), T, C) == i
  {
    PairBound(i.b, i.t, B, T);
    PairBound(i.b * T + i.t, i.c, B * T, C);
    PairDivMod(i.b * T + i.t, i.c, C);
    PairDivMod(i.b, i.t, T);
  }

  /** Every offset of a (B, T, C) buffer is the layout of exactly one in-bounds (b, t, c). */
  lemma Unflat3RoundTrip(k: nat, B: nat, T: nat, C: nat)
    requires k < B * T * C
    ensures T > 0 && C > 0
    ensures In3(Unflat3(k, T, C), B, T, C)
    ensures Flat3(Unflat3(k, T, C), T, C) == k
  {
    Unpair(k, B * T, C);
    Unpair(k / C, B, T);
  }

  lemma Flat4RoundTrip(j: Idx4, B: nat, nh: nat, T: nat, hs: nat)
    requires In4(j, B, nh, T, hs)
    ensures Flat4(j, nh, T, hs) < B * nh * T * hs
    ensures Unflat4(Flat4(j, nh, T, hs), nh, T, hs) == j
  {
    var bh := j.b * nh + j.h;
    var bht := bh * T + j.t;
    PairBound(j.b, j.h, B, nh);
    PairBound(bh, j.t, B * nh, T);
    PairBound(bht, j.d, B * nh * T, hs);
    PairDivMod(bht, j.d, hs);
    PairDivMod(bh, j.t, T);
    PairDivMod(j.b, j.h, nh);
    assert Flat4(j, nh, T, hs) == bht * hs + j.d;
  }

  lemma Unflat4RoundTrip(k: nat, B: nat, nh: nat, T: nat, hs: nat)
    requires k < B * nh * T * hs
    ensures nh > 0 && T > 0 && hs > 0
    ensures In4(Unflat4(k, nh, T, hs), B, nh, T, hs)
    ensures Flat4(Unflat4(k, nh, T, hs), nh, T, hs) == k
  {
    Unpair(k, B * nh * T, hs);
    Unpair(k / hs, B * nh, T);
    Unpair(k / hs / T, B, nh);
  }

  // ---------------------------------------------------------------------------
  // Head split and merge on indices
  // ---------------------------------------------------------------------------

  /** Where `view(B, T, nh, hs).transpose(1, 2)` puts element (b, t, c): head `c / hs`, offset `c % hs`. */
  function SplitIndex(i: Idx3, hs: nat): Idx4
    requires hs > 0
  {
    Idx4(i.b, i.c / hs, i.t, i.c % hs)
  }

  /** Where `transpose(1, 2).view(B, T, C)` puts element (b, h, t, d): channel `h * hs + d`. */
  function MergeIndex(j: Idx4, hs: nat): Idx3 {
    Idx3(j.b, j.t, j.h * hs + j.d)
  }

  /** Splitting an in-bounds (b, t, c) gives an in-bounds head index, and merging it back restores (b, t, c). */
  lemma MergeAfterSplit(i: Idx3, B: nat, T: nat, nh: nat, hs: nat)
    requires In3(i, B, T, nh * hs)
    ensures hs > 0
    ensures In4(SplitIndex(i, hs), B, nh, T, hs)
    ensures MergeIndex(SplitIndex(i, hs), hs) == i
  {
    Unpair(i.c, nh, hs);
  }

  /** Merging an in-bounds head index gives an in-bounds channel, and splitting it back restores the head index. */
  lemma SplitAfterMerge(j: Idx4, B: nat, nh: nat, T: nat, hs: nat)
    requires In4(j, B, nh, T, hs)
    ensures In3(MergeIndex(j, hs), B, T, nh * hs)
    ensures SplitIndex(MergeIndex(j, hs), hs) == j
  {
    PairBound(j.h, j.d, nh, hs);
    PairDivMod(j.h, j.d, hs);
  }

  // ---------------------------------------------------------------------------
  // Head split and merge on contiguous buffers
  // ---------------------------------------------------------------------------

  lemma SplitSourceInBounds(k: nat, B: nat, T: nat, nh: nat, hs: nat)
    requires k < B * nh * T * hs
    ensures nh > 0 && T > 0 && hs > 0
    ensures Flat3(MergeIndex(Unflat4(k, nh, T, hs), hs), T, nh * hs) < B * T * (nh * hs)
  {
    Unflat4RoundTrip(k, B, nh, T, hs);
    SplitAfterMerge(Unflat4(k, nh, T, hs), B, nh, T, hs);
    Flat3RoundTrip(MergeIndex(Unflat4(k, nh, T, hs), hs), B, T, nh * hs);
  }

  lemma MergeSourceInBounds(k: nat, B: nat, T: nat, nh: nat, hs: nat)
    requires k < B * T * (nh * hs)
    ensures T > 0 && hs > 0
    ensures Flat4(SplitIndex(Unflat3(k, T, nh * hs), hs), nh, T, hs) < B * nh * T * hs
  {
    Unflat3RoundTrip(k, B, T, nh * hs);
    MergeAfterSplit(Unflat3(k, T, nh * hs), B, T, nh, hs);
    Flat4RoundTrip(SplitIndex(Unflat3(k, T, nh * hs), hs), B, nh, T, hs);
  }

  /**
   * `x.view(B, T, nh, hs).transpose(1, 2)` materialised contiguously: the (B, nh, T, hs)
   * buffer whose element at (b, h, t, d) is the input's element at (b, t, h * hs + d).
   */
  function SplitHeads<X>(x: seq<X>, B: nat, T: nat, nh: nat, hs: nat): (y: seq<X>)
    requires |x| == B * T * (nh * hs)
    ensures |y| == B * nh * T * hs
  {
    seq(B * nh * T * hs, k requires 0 <= k < B * nh * T * hs =>
      SplitSourceInBounds(k, B, T, nh, hs);
      x[Flat3(MergeIndex(Unflat4(k, nh, T, hs), hs), T, nh * hs)])
  }

  /**
   * `y.transpose(1, 2).contiguous().view(B, T, C)`: the (B, T, nh * hs) buffer whose
   * element at (b, t, c) is head `c / hs`'s element at (b, t, c % hs).
   */
  function MergeHeads<X>(y: seq<X>, B: nat, T: nat, nh: nat, hs: nat): (x: seq<X>)
    requires |y| == B * nh * T * hs
    ensures |x| == B * T * (nh * hs)
  {
    Reassociate(B, T, nh, hs);
    seq(B * T * (nh * hs), k requires 0 <= k < B * T * (nh * hs) =>
      MergeSourceInBounds(k, B, T, nh, hs);
      y[Flat4(SplitIndex(Unflat3(k, T, nh * hs), hs), nh, T, hs)])
  }

  /** Head `h` of the split tensor at (b, t, d) holds the input's channel `h * hs + d` at (b, t). */
  lemma SplitHeadsAt<X>(x: seq<X>, B: nat, T: nat, nh: nat, hs: nat, j: Idx4)
    requires |x| == B * T * (nh * hs)
    requires In4(j, B, nh, T, hs)
    ensures Flat4(j, nh, T, hs) < |SplitHeads(x, B, T, nh, hs)|
    ensures Flat3(MergeIndex(j, hs), T, nh * hs) < |x|
    ensures SplitHeads(x, B, T, nh, hs)[Flat4(j, nh, T, hs)] == x[Flat3(MergeIndex(j, hs), T, nh * hs)]
  {
    Flat4RoundTrip(j, B, nh, T, hs);
    SplitAfterMerge(j, B, nh, T, hs);
    Flat3RoundTrip(MergeIndex(j, hs), B, T, nh * hs);
  }

  /** The merged tensor at (b, t, c) holds head `c / hs`'s element at (b, t, c % hs). */
  lemma MergeHeadsAt<X>(y: seq<X>, B: nat, T: nat, nh: nat, hs: nat, i: Idx3)
    requires |y| == B * nh * T * hs
    requires In3(i, B, T, nh * hs)
    ensures hs > 0
    ensures Flat3(i, T, nh * hs) < |MergeHeads(y, B, T, nh, hs)|
    ensures Flat4(SplitIndex(i, hs), nh, T, hs) < |y|
    ensures MergeHeads(y, B, T, nh, hs)[Flat3(i, T, nh * hs)] == y[Flat4(SplitIndex(i, hs), nh, T, hs)]
  {
    Flat3RoundTrip(i, B, T, nh * hs);
    MergeAfterSplit(i, B, T, nh, hs);
    Flat4RoundTrip(SplitIndex(i, hs), B, nh, T, hs);
  }

  /** Merging the heads of a split tensor gives back the original (B, T, C) tensor. */
  lemma MergeSplitHeads<X>(x: seq<X>, B: nat, T: nat, nh: nat, hs: nat)
    requires |x| == B * T * (nh * hs)
    ensures MergeHeads(SplitHeads(x, B, T, nh, hs), B, T, nh, hs) == x
  {
    var y := SplitHeads(x, B, T, nh, hs);
    var x' := MergeHeads(y, B, T, nh, hs);
    forall k | 0 <= k < |x|
      ensures x'[k] == x[k]
    {
      Unflat3RoundTrip(k, B, T, nh * hs);
      var i := Unflat3(k, T, nh * hs);
      MergeHeadsAt(y, B, T, nh, hs, i);
      MergeAfterSplit(i, B, T, nh, hs);
      SplitHeadsAt(x, B, T, nh, hs, SplitIndex(i, hs));
    }
  }

  /** Splitting the heads of a merged tensor gives back the original (B, nh, T, hs) tensor. */
  lemma SplitMergeHeads<X>(y: seq<X>, B: nat, T: nat, nh: nat, hs: nat)
    requires |y| == B * nh * T * hs
    ensures SplitHeads(MergeHeads(y, B, T, nh, hs), B, T, nh, hs) == y
  {
    var x := MergeHeads(y, B, T, nh, hs);
    var y' := SplitHeads(x, B, T, nh, hs);
    forall k | 0 <= k < |y|
      ensures y'[k] == y[k]
    {
      Unflat4RoundTrip(k, B, nh, T, hs);
      var j := Unflat4(k, nh, T, hs);
      SplitHeadsAt(x, B, T, nh, hs, j);
      SplitAfterMerge(j, B, nh, T, hs);
      MergeHeadsAt(y, B, T, nh, hs, MergeIndex(j, hs));
    }
  }

  // ---------------------------------------------------------------------------
  // qkv.split(n_embd, dim=2)
  // ---------------------------------------------------------------------------

  /** Chunk `n` (0 = query, 1 = key, 2 = value) takes channels `n * C .. n * C + C` of the fused projection. */
  function ChunkIndex(i: Idx3, C: nat, n: nat): Idx3 {
    Idx3(i.b, i.t, n * C + i.c)
  }

  lemma ChunkSourceInBounds(k: nat, B: nat, T: nat, C: nat, n: nat)
    requires n < 3 && k < B * T * C
    ensures T > 0 && C > 0
    ensures In3(ChunkIndex(Unflat3(k, T, C), C, n), B, T, 3 * C)
    ensures Flat3(ChunkIndex(Unflat3(k, T, C), C, n), T, 3 * C) < B * T * (3 * C)
  {
    Unflat3RoundTrip(k, B, T, C);
    PairBound(n, Unflat3(k, T, C).c, 3, C);
    Flat3RoundTrip(ChunkIndex(Unflat3(k, T, C), C, n), B, T, 3 * C);
  }

  /** Chunk `n` of `qkv.split(C, dim=2)` on a (B, T, 3C) buffer, as a contiguous (B, T, C) buffer. */
  function Chunk<X>(qkv: seq<X>, B: nat, T: nat, C: nat, n: nat): (r: seq<X>)
    requires n < 3 && |qkv| == B * T * (3 * C)
    ensures |r| == B * T * C
  {
    seq(B * T * C, k requires 0 <= k < B * T * C =>
      ChunkSourceInBounds(k, B, T, C, n);
      qkv[Flat3(ChunkIndex(Unflat3(k, T, C), C, n), T, 3 * C)])
  }

  /** Query, key and value, each split into heads, as `forward` computes them before the kernel. */
  function HeadViews<X>(qkv: seq<X>, B: nat, T: nat, nh: nat, hs: nat): (r: (seq<X>, seq<X>, seq<X>))
    requires |qkv| == B * T * (3 * (nh * hs))
    ensures |r.0| == |r.1| == |r.2| == B * nh * T * hs
  {
    var C := nh * hs;
    (SplitHeads(Chunk(qkv, B, T, C, 0), B, T, nh, hs),
     SplitHeads(Chunk(qkv, B, T, C, 1), B, T, nh, hs),
     SplitHeads(Chunk(qkv, B, T, C, 2), B, T, nh, hs))
  }

  /**
   * Where element (b, h, t, d) of the query (n = 0), key (1) or value (2) head view
   * sits in the fused projection: channel `n * C + h * hs + d` at (b, t).
   */
  function FusedIndex(j: Idx4, T: nat, nh: nat, hs: nat, n: nat): nat {
    Flat3(ChunkIndex(MergeIndex(j, hs), nh * hs, n), T, 3 * (nh * hs))
  }

  /** Each head view reads its element from the fused projection at `FusedIndex`. */
  lemma HeadViewsAt<X>(qkv: seq<X>, B: nat, T: nat, nh: nat, hs: nat, j: Idx4)
    requires |qkv| == B * T * (3 * (nh * hs))
    requires In4(j, B, nh, T, hs)
    ensures Flat4(j, nh, T, hs) < |HeadViews(qkv, B, T, nh, hs).0|
    ensures forall n :: n < 3 ==> FusedIndex(j, T, nh, hs, n) < |qkv|
    ensures HeadViews(qkv, B, T, nh, hs).0[Flat4(j, nh, T, hs)] == qkv[FusedIndex(j, T, nh, hs, 0)]
    ensures HeadViews(qkv, B, T, nh, hs).1[Flat4(j, nh, T, hs)] == qkv[FusedIndex(j, T, nh, hs, 1)]
    ensures HeadViews(qkv, B, T, nh, hs).2[Flat4(j, nh, T, hs)] == qkv[FusedIndex(j, T, nh, hs, 2)]
  {
    var C := nh * hs;
    var i := MergeIndex(j, hs);
    SplitAfterMerge(j, B, nh, T, hs);
    Flat3RoundTrip(i, B, T, C);
    forall n: nat | n < 3
      ensures FusedIndex(j, T, nh, hs, n) < |qkv|
      ensures Chunk(qkv, B, T, C, n)[Flat3(i, T, C)] == qkv[FusedIndex(j, T, nh, hs, n)]
    {
      ChunkSourceInBounds(Flat3(i, T, C), B, T, C, n);
    }
    SplitHeadsAt(Chunk(qkv, B, T, C, 0), B, T, nh, hs, j);
    SplitHeadsAt(Chunk(qkv, B, T, C, 1), B, T, nh, hs, j);
    SplitHeadsAt(Chunk(qkv, B, T, C, 2), B, T, nh, hs, j);
  }
}
