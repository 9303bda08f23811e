/**
 * `DataLoaderLite`: a cursor over an immutable token corpus that hands out
 * (inputs, targets) batches of shape (B, T). Process `process_rank` of
 * `num_processes` starts at stride `process_rank` and then reads every
 * `num_processes`-th stride, wrapping back to its start when the next read would
 * run past the end of the corpus.
 *
 * Reading `input.txt` and tokenising it are not modelled: the corpus is a
 * constructor argument.
 */
module DataLoader {
  import opened Common
  import opened Arith

  /** Two (B, T) integer tensors, as rows; `targets` is `inputs` shifted one token along the corpus. */
  datatype Batch = Batch(inputs: seq<seq<int>>, targets: seq<seq<int>>)

  function Min(a: nat, b: nat): nat {
    if a <= b then a else b
  }

  // ---------------------------------------------------------------------------
  // Python slicing and Tensor.view, as used by next_batch
  // ---------------------------------------------------------------------------

  /** `s[lo:hi]` for non-negative bounds: both bounds clamp to the length; empty when `lo >= hi`. */
  function Slice(s: seq<int>, lo: nat, hi: nat): (r: seq<int>)
    ensures |r| == if lo < hi && lo < |s| then Min(hi, |s|) - lo else 0
    ensures forall i :: 0 <= i < |r| ==> r[i] == s[lo + i]
  {
    if lo < hi && lo < |s| then s[lo..Min(hi, |s|)] else []
  }

  /** `buf[:-1]`: all but the last element; empty stays empty. */
  function DropLast(buf: seq<int>): seq<int> {
    if buf == [] then [] else buf[..|buf| - 1]
  }

  /** `buf[1:]`: all but the first element; empty stays empty. */
  function DropFirst(buf: seq<int>): seq<int> {
    if buf == [] then [] else buf[1..]
  }

  /** `rows` has the shape (B, T). */
  predicate IsShape(rows: seq<seq<int>>, B: nat, T: nat) {
    |rows| == B && forall r :: 0 <= r < |rows| ==> |rows[r]| == T
  }

  /** The rows of a row-major (B, T) view of `flat`: `B` consecutive runs of `T` elements. */
  function Rows(flat: seq<int>, B: nat, T: nat): (rows: seq<seq<int>>)
    requires |flat| == B * T
    ensures |rows| == B
    decreases B
  {
    if B == 0 then []
    else
      RowShift(B, 0, T);
      [flat[..T]] + Rows(flat[T..], B - 1, T)
  }

  /** The contiguous buffer behind a tensor's rows: their concatenation. */
  function Flatten(rows: seq<seq<int>>): seq<int> {
    if rows == [] then [] else rows[0] + Flatten(rows[1..])
  }

  /** Viewing a buffer as (B, T) and flattening the view gives the buffer back, and the view has shape (B, T). */
  lemma {:induction false} FlattenRows(flat: seq<int>, B: nat, T: nat)
    requires |flat| == B * T
    ensures IsShape(Rows(flat, B, T), B, T)
    ensures Flatten(Rows(flat, B, T)) == flat
    decreases B
  {
    if B > 0 {
      RowShift(B, 0, T);
      FlattenRows(flat[T..], B - 1, T);
      assert flat == flat[..T] + flat[T..];
    }
  }

  /** A (B, T) tensor's element at row `r`, column `c` is its flat element `r * T + c`. */
  lemma {:induction false} FlattenAt(rows: seq<seq<int>>, B: nat, T: nat, r: nat, c: nat)
    requires IsShape(rows, B, T) && r < B && c < T
    ensures |Flatten(rows)| == B * T
    ensures r * T + c < B * T
    ensures Flatten(rows)[r * T + c] == rows[r][c]
    decreases B
  {
    FlattenLength(rows, B, T);
    PairBound(r, c, B, T);
    if r > 0 {
      FlattenAt(rows[1..], B - 1, T, r - 1, c);
      RowShift(r, c, T);
    }
  }

  lemma {:induction false} FlattenLength(rows: seq<seq<int>>, B: nat, T: nat)
    requires IsShape(rows, B, T)
    ensures |Flatten(rows)| == B * T
    decreases B
  {
    if B > 0 {
      FlattenLength(rows[1..], B - 1, T);
      RowShift(B, 0, T);
    }
  }

  /** `flat.view(B, T)`: fails unless the element count is exactly `B * T`. */
  function View(flat: seq<int>, B: nat, T: nat): (r: Result<seq<seq<int>>>)
    ensures r.Ok? <==> |flat| == B * T
    ensures r.Err? ==> r.error == ShapeInvalid
  {
    if |flat| != B * T then Err(ShapeInvalid) else Ok(Rows(flat, B, T))
  }

  /**
   * `batch` is the (B, T) window of the corpus starting at `p`, and its targets are
   * the same window one token later.
   */
  predicate IsWindow(batch: Batch, tokens: seq<int>, p: nat, B: nat, T: nat) {
    && IsShape(batch.inputs, B, T)
    && IsShape(batch.targets, B, T)
    && (B > 0 && T > 0 ==>
          && p + B * T + 1 <= |tokens|
          && Flatten(batch.inputs) == tokens[p..p + B * T]
          && Flatten(batch.targets) == tokens[p + 1..p + B * T + 1])
  }

  /**
   * The window sliced by `next_batch` has `B * T` tokens once its last token is
   * dropped exactly when the whole `B * T + 1` read fits (or the batch is empty).
   */
  lemma WindowLength(tokens: seq<int>, p: nat, B: nat, T: nat)
    ensures var buf := Slice(tokens, p, p + B * T + 1);
            |DropLast(buf)| == |DropFirst(buf)|
            && (|DropLast(buf)| == B * T <==> B == 0 || T == 0 || p + B * T + 1 <= |tokens|)
  {
    ZeroProduct(B, T);
  }

  /** Viewing the two halves of a window that fits as (B, T) gives exactly that window. */
  lemma WindowRows(tokens: seq<int>, p: nat, B: nat, T: nat)
    requires B == 0 || T == 0 || p + B * T + 1 <= |tokens|
    ensures var buf := Slice(tokens, p, p + B * T + 1);
            |DropLast(buf)| == B * T && |DropFirst(buf)| == B * T
            && IsWindow(Batch(Rows(DropLast(buf), B, T), Rows(DropFirst(buf), B, T)), tokens, p, B, T)
  {
    var n := B * T;
    var buf := Slice(tokens, p, p + n + 1);
    ZeroProduct(B, T);
    if n == 0 {
      assert |DropLast(buf)| == 0 && |DropFirst(buf)| == 0;
    } else {
      WindowHalves(tokens, p, n);
    }
    ViewIsWindow(tokens, p, B, T, DropLast(buf), DropFirst(buf));
  }

  /** Viewing the two halves of a window as (B, T) gives a window batch. */
  lemma ViewIsWindow(tokens: seq<int>, p: nat, B: nat, T: nat, x: seq<int>, y: seq<int>)
    requires |x| == B * T && |y| == B * T
    requires B > 0 && T > 0 ==> p + B * T + 1 <= |tokens| && x == tokens[p..p + B * T] && y == tokens[p + 1..p + B * T + 1]
    ensures IsWindow(Batch(Rows(x, B, T), Rows(y, B, T)), tokens, p, B, T)
  {
    FlattenRows(x, B, T);
    FlattenRows(y, B, T);
  }

  /** A window of `n + 1` tokens that fits, without its last and without its first token. */
  lemma WindowHalves(tokens: seq<int>, p: nat, n: nat)
    requires 0 < n && p + n + 1 <= |tokens|
    ensures DropLast(Slice(tokens, p, p + n + 1)) == tokens[p..p + n]
    ensures DropFirst(Slice(tokens, p, p + n + 1)) == tokens[p + 1..p + n + 1]
  {
    assert Slice(tokens, p, p + n + 1) == tokens[p..p + n + 1];
  }


  /** Row `r`, column `c` of a window's inputs is corpus token `p + r*T + c`; its target is the token after. */
  lemma WindowAt(batch: Batch, tokens: seq<int>, p: nat, B: nat, T: nat, r: nat, c: nat)
    requires IsWindow(batch, tokens, p, B, T) && r < B && c < T
    ensures p + r * T + c + 1 < |tokens|
    ensures batch.inputs[r][c] == tokens[p + r * T + c]
    ensures batch.targets[r][c] == tokens[p + r * T + c + 1]
  {
    FlattenAt(batch.inputs, B, T, r, c);
    FlattenAt(batch.targets, B, T, r, c);
  }

  /**
   * The language-modelling shift: along the flat (row-major) order, every target is
   * the input one position later.
   */
  lemma TargetsAreShiftedInputs(batch: Batch, tokens: seq<int>, p: nat, B: nat, T: nat)
    requires IsWindow(batch, tokens, p, B, T)
    ensures |Flatten(batch.inputs)| == |Flatten(batch.targets)| == B * T
    ensures forall i :: 0 <= i < B * T - 1 ==> Flatten(batch.targets)[i] == Flatten(batch.inputs)[i + 1]
  {
    FlattenLength(batch.inputs, B, T);
    FlattenLength(batch.targets, B, T);
  }

  /**
   * What `next_batch` reads at cursor `p`: the slice `tokens[p : p+B*T+1]`, with
   * `buf[:-1].view(B, T)` as inputs and `buf[1:].view(B, T)` as targets.
   */
  function ReadWindow(tokens: seq<int>, p: nat, B: nat, T: nat): (r: Result<Batch>)
    ensures r.Ok? <==> B == 0 || T == 0 || p + B * T + 1 <= |tokens|
    ensures r.Err? ==> r.error == ShapeInvalid
    ensures r.Ok? ==> IsWindow(r.value, tokens, p, B, T)
  {
    var buf := Slice(tokens, p, p + B * T + 1);
    WindowLength(tokens, p, B, T);
    var x := View(DropLast(buf), B, T);
    var y := View(DropFirst(buf), B, T);
    if x.Err? || y.Err? then Err(ShapeInvalid)
    else
      WindowRows(tokens, p, B, T);
      Ok(Batch(x.value, y.value))
  }

  // ---------------------------------------------------------------------------
  // The cursor
  // ---------------------------------------------------------------------------

  // Below, `bt` is the window size `B * T`.

  /**
   * The cursor after one successful `next_batch`: advance one interleaved stride, or
   * reset to the rank's start. Unless it reset, a whole further stride (and the
   * target token after it) still lies in the corpus past the new cursor.
   */
  function NextPosition(p: nat, bt: nat, rank: nat, N: nat, len: nat): (r: nat)
    ensures r == bt * rank || (r == p + bt * N && r + bt * N + 1 <= len)
  {
    var advanced := p + bt * N;
    if advanced + bt * N + 1 > len then bt * rank else advanced
  }

  /** The cursor after `n` successful calls starting from `p`. */
  function PositionAfter(n: nat, p: nat, bt: nat, rank: nat, N: nat, len: nat): nat {
    if n == 0 then p else NextPosition(PositionAfter(n - 1, p, bt, rank, N, len), bt, rank, N, len)
  }

  /**
   * If the rank's first window fits in the corpus, a cursor whose window fits
   * moves to a cursor whose window fits: no read ever runs past the end.
   */
  lemma NextPositionInBounds(p: nat, bt: nat, rank: nat, N: nat, len: nat)
    requires bt * rank + bt + 1 <= len
    requires p + bt + 1 <= len
    ensures NextPosition(p, bt, rank, N, len) + bt + 1 <= len
  {
    if N > 0 {
      MulMonotone(1, N, bt);
    }
  }

  /** ... and so, by induction, does the cursor after any number of calls. */
  lemma {:induction false} ReadsStayInBounds(n: nat, p: nat, bt: nat, rank: nat, N: nat, len: nat)
    requires bt * rank + bt + 1 <= len
    requires p + bt + 1 <= len
    ensures PositionAfter(n, p, bt, rank, N, len) + bt + 1 <= len
  {
    if n > 0 {
      ReadsStayInBounds(n - 1, p, bt, rank, N, len);
      NextPositionInBounds(PositionAfter(n - 1, p, bt, rank, N, len), bt, rank, N, len);
    }
  }

  /**
   * The cursor stays on the rank's lattice: `bt*rank + k * (bt*N)` moves to stride
   * `k + 1`, or back to stride 0 on a wrap, which happens exactly when a second
   * stride would run past the end.
   */
  lemma NextPositionOnLattice(k: nat, bt: nat, rank: nat, N: nat, len: nat)
    ensures var p := bt * rank + k * (bt * N);
            var wraps := p + bt * N + bt * N + 1 > len;
            && NextPosition(p, bt, rank, N, len) == (if wraps then bt * rank else p + bt * N)
            && (!wraps ==> p + bt * N == bt * rank + (k + 1) * (bt * N))
  {
    var S := bt * N;
    assert (k + 1) * S == k * S + S;
  }

  /**
   * Two different ranks never read overlapping input windows: their cursors, at
   * any stride counts, are at least one window apart.
   */
  lemma RankWindowsDisjoint(bt: nat, N: nat, r1: nat, r2: nat, k1: nat, k2: nat)
    requires bt > 0 && r1 < N && r2 < N && r1 != r2
    ensures var o1 := bt * r1 + k1 * (bt * N);
            var o2 := bt * r2 + k2 * (bt * N);
            o1 + bt <= o2 || o2 + bt <= o1
  {
    var m1, m2 := k1 * N + r1, k2 * N + r2;
    PairDivMod(k1, r1, N);
    PairDivMod(k2, r2, N);
    assert m1 != m2;
    StrideOffset(bt, N, r1, k1);
    StrideOffset(bt, N, r2, k2);
    if m1 < m2 {
      MulMonotone(m1 + 1, m2, bt);
    } else {
      MulMonotone(m2 + 1, m1, bt);
    }
  }

  /** Within a single-process epoch the cursor after `j` calls is `j * bt`. */
  lemma {:induction false} SingleProcessPrefix(j: nat, bt: nat, len: nat)
    requires j * bt + bt + 1 <= len
    ensures PositionAfter(j, 0, bt, 0, 1, len) == j * bt
  {
    if j > 0 {
      assert (j - 1) * bt + bt == j * bt;
      SingleProcessPrefix(j - 1, bt, len);
    }
  }

  /**
   * With one process, a corpus of `len` tokens holds `m = (len - 1) / bt` full
   * windows: the first `m` calls read at `0, bt, ..., (m-1)*bt`, and after the
   * `m`-th call the cursor is back at 0.
   */
  lemma SingleProcessEpoch(bt: nat, len: nat)
    requires bt > 0 && bt + 1 <= len
    ensures var m := (len - 1) / bt;
            && m >= 1
            && (forall j :: 0 <= j < m ==> PositionAfter(j, 0, bt, 0, 1, len) == j * bt)
            && PositionAfter(m, 0, bt, 0, 1, len) == 0
  {
    var m := (len - 1) / bt;
    Unpair(len - 1, len, bt);
    assert m * bt <= len - 1 < m * bt + bt;
    if m == 0 {
      assert false;
    }
    forall j | 0 <= j < m
      ensures PositionAfter(j, 0, bt, 0, 1, len) == j * bt
    {
      RowEnd(j, m, bt);
      SingleProcessPrefix(j, bt, len);
    }
    assert (m - 1) * bt + bt == m * bt;
    SingleProcessPrefix(m - 1, bt, len);
  }

  // ---------------------------------------------------------------------------
  // The loader object
  // ---------------------------------------------------------------------------

  class DataLoaderLite {
    const B: nat
    const T: nat
    const processRank: nat
    const numProcesses: nat
    const tokens: seq<int>
    var currentPosition: nat
    /** How many interleaved strides the cursor is past the rank's start. */
    ghost var strides: nat

    /** The cursor is always on this rank's lattice of start offsets. */
    ghost predicate Valid()
      reads this
    {
      currentPosition == B * T * processRank + strides * (B * T * numProcesses)
    }

    /** The rank's first read fits in the corpus. */
    predicate CorpusFits() {
      B * T * processRank + B * T + 1 <= |tokens|
    }

    /** The next read fits in the corpus. */
    predicate WindowFits()
      reads this
    {
      currentPosition + B * T + 1 <= |tokens|
    }

    constructor (B: nat, T: nat, processRank: nat, numProcesses: nat, tokens: seq<int>)
      ensures Valid()
      ensures this.B == B && this.T == T && this.tokens == tokens
      ensures this.processRank == processRank && this.numProcesses == numProcesses
      ensures currentPosition == B * T * processRank && strides == 0
      ensures CorpusFits() ==> WindowFits()
    {
      this.B := B;
      this.T := T;
      this.processRank := processRank;
      this.numProcesses := numProcesses;
      this.tokens := tokens;
      currentPosition := B * T * processRank;
      strides := 0;
    }

    /**
     * Slice `B*T + 1` tokens at the cursor, view all but the last as the inputs and
     * all but the first as the targets, then advance or reset the cursor. A short
     * window makes `view` raise before the cursor moves.
     */
    method NextBatch() returns (r: Result<Batch>)
      requires Valid()
      modifies this`currentPosition, this`strides
      ensures Valid()
      ensures r.Ok? <==> B == 0 || T == 0 || old(currentPosition) + B * T + 1 <= |tokens|
      ensures r.Err? ==> r.error == ShapeInvalid && currentPosition == old(currentPosition)
      ensures r.Ok? ==> IsWindow(r.value, tokens, old(currentPosition), B, T)
      ensures r.Ok? ==> currentPosition == NextPosition(old(currentPosition), B * T, processRank, numProcesses, |tokens|)
      ensures CorpusFits() && old(WindowFits()) ==> r.Ok? && WindowFits()
    {
      r := ReadWindow(tokens, currentPosition, B, T);
      if r.Ok? {
        Advance();
      }
    }

    /**
     * The cursor update at the end of `next_batch`: move one interleaved stride,
     * and if the window after that would run past the end, go back to the
     * rank's start.
     */
    method Advance()
      requires Valid()
      modifies this`currentPosition, this`strides
      ensures Valid()
      ensures currentPosition == NextPosition(old(currentPosition), B * T, processRank, numProcesses, |tokens|)
      ensures CorpusFits() && old(WindowFits()) ==> WindowFits()
    {
      ghost var p := currentPosition;
      NextPositionOnLattice(strides, B * T, processRank, numProcesses, |tokens|);
      if CorpusFits() && WindowFits() {
        NextPositionInBounds(p, B * T, processRank, numProcesses, |tokens|);
      }
      var bt: nat := B * T;
      var stride: nat := bt * numProcesses;
      currentPosition := currentPosition + stride;
      if currentPosition + stride + 1 > |tokens| {
        currentPosition := bt * processRank;
        strides := 0;
      } else {
        strides := strides + 1;
      }
    }
  }

  /**
   * A single process with B = 4, T = 16 over a corpus of 1000 tokens: the first
   * batch is tokens 0..64 and 1..65 as (4, 16) rows, and the cursor moves to 64.
   */
  method FirstBatchOfSmallCorpus(tokens: seq<int>) returns (batch: Batch, position: nat)
    requires |tokens| == 1000
    ensures IsWindow(batch, tokens, 0, 4, 16)
    ensures position == 64
  {
    var loader := new DataLoaderLite(4, 16, 0, 1, tokens);
    var r := loader.NextBatch();
    batch, position := r.value, loader.currentPosition;
  }
}
