/**
 * The training script's top level: the gradient-accumulation bookkeeping and the
 * step loop. The loss of the model on a micro-batch is a parameter (`forward`):
 * its numerics, the backward pass, clipping and the AdamW update are not modelled.
 */
module Training {
  import opened Common
  import opened Arith
  import opened DataLoader
  import opened Optim
  import opened Schedule

  /** `total_batch_size`: 2**19 tokens per optimizer step. */
  const TotalBatchSize: nat := 524288

  /**
   * `grad_accum_steps = total_batch_size // (B*T)` after
   * `assert total_batch_size % (B*T) == 0`; the `%` raises first when `B*T` is zero.
   * It exists exactly when `B*T` is a positive divisor of the total, and then that
   * many micro-batches of `B*T` tokens make up the total.
   */
  function GradAccumSteps(totalBatchSize: nat, B: nat, T: nat): (r: Result<nat>)
    ensures r.Ok? <==> B * T > 0 && totalBatchSize % (B * T) == 0
    ensures r.Err? ==> r.error == (if B * T == 0 then ZeroDivision else AssertionFailed)
    ensures r.Ok? ==> r.value * (B * T) == totalBatchSize
  {
    ZeroProduct(B, T);
    if B == 0 || T == 0 then Err(ZeroDivision)
    else if totalBatchSize % (B * T) != 0 then Err(AssertionFailed)
    else Ok(totalBatchSize / (B * T))
  }

  /** The run's constants give 8192 micro-steps of 4 x 16 tokens. */
  lemma ConfiguredGradAccumSteps()
    ensures GradAccumSteps(TotalBatchSize, 4, 16) == Ok(8192)
  {
  }

  /**
   * `tokens_processed = B * T * grad_accum_steps * ddp_world_size`: when
   * `grad_accum_steps` was derived from a total batch size, each step processes
   * that total on every process.
   */
  function TokensProcessed(B: nat, T: nat, gradAccumSteps: nat, worldSize: nat): (r: nat)
    ensures forall total: nat :: GradAccumSteps(total, B, T) == Ok(gradAccumSteps) ==> r == total * worldSize
  {
    B * T * gradAccumSteps * worldSize
  }

  // ---------------------------------------------------------------------------
  // Loss accumulation
  // ---------------------------------------------------------------------------

  /** The micro-batch losses of one step, added up. */
  function LossSum(forward: (nat, Batch) -> real, step: nat, batches: seq<Batch>): real {
    if |batches| == 0 then 0.0
    else LossSum(forward, step, batches[..|batches| - 1]) + forward(step, batches[|batches| - 1])
  }

  /** The mean micro-batch loss of one step (0.0 for a step without micro-batches). */
  function MeanLoss(forward: (nat, Batch) -> real, step: nat, batches: seq<Batch>): real {
    if |batches| == 0 then 0.0 else LossSum(forward, step, batches) / |batches| as real
  }

  /**
   * `loss_accum` after the given micro-batches: each loss divided by
   * `grad_accum_steps`, added in order. It is the sum of those losses over
   * `grad_accum_steps`.
   */
  function AccumulatedLoss(forward: (nat, Batch) -> real, step: nat, batches: seq<Batch>, gradAccumSteps: nat): (r: real)
    requires |batches| <= gradAccumSteps
    ensures gradAccumSteps > 0 ==> r == LossSum(forward, step, batches) / gradAccumSteps as real
  {
    if |batches| == 0 then 0.0
    else
      var init, last := batches[..|batches| - 1], batches[|batches| - 1];
      DivideSum(LossSum(forward, step, init), forward(step, last), gradAccumSteps as real);
      AccumulatedLoss(forward, step, init, gradAccumSteps) + forward(step, last) / gradAccumSteps as real
  }

  /** One more micro-step adds its scaled loss to `loss_accum`. */
  lemma AccumulateOne(forward: (nat, Batch) -> real, step: nat, batches: seq<Batch>, b: Batch, g: nat)
    requires |batches| < g
    ensures AccumulatedLoss(forward, step, batches + [b], g)
      == AccumulatedLoss(forward, step, batches, g) + forward(step, b) / g as real
  {
    assert (batches + [b])[..|batches|] == batches;
  }

  /** Dividing each term by `g` is dividing the sum by `g`. */
  lemma DivideSum(a: real, b: real, g: real)
    requires g != 0.0
    ensures a / g + b / g == (a + b) / g
  {
    var x, y, z := a / g, b / g, (a + b) / g;
    assert x * g == a && y * g == b && z * g == a + b;
    assert (x + y - z) * g == 0.0;
  }

  /** After all `grad_accum_steps` micro-steps, `loss_accum` is the mean micro-batch loss. */
  lemma AccumulatedLossIsMean(forward: (nat, Batch) -> real, step: nat, batches: seq<Batch>)
    ensures AccumulatedLoss(forward, step, batches, |batches|) == MeanLoss(forward, step, batches)
  {
  }

  // ---------------------------------------------------------------------------
  // The step loop
  // ---------------------------------------------------------------------------

  /** What one optimizer step reports: its loss, learning rate and token count. */
  datatype StepReport = StepReport(step: nat, loss: real, lr: real, tokensProcessed: nat)

  /**
   * The `n`-th read of a loader that started at `start` lies in the corpus, so that
   * `next_batch` succeeds on it (the condition under which `ReadWindow` is `Ok`).
   */
  predicate ReadFits(loader: DataLoaderLite, start: nat, n: nat) {
    loader.B == 0 || loader.T == 0 ||
    PositionAfter(n, start, loader.B * loader.T, loader.processRank, loader.numProcesses, |loader.tokens|)
      + loader.B * loader.T + 1 <= |loader.tokens|
  }

  /** The window the loader's `n`-th read covers. */
  predicate IsNthWindow(loader: DataLoaderLite, start: nat, n: nat, batch: Batch) {
    IsWindow(batch, loader.tokens, PositionAfter(n, start, loader.B * loader.T, loader.processRank,
      loader.numProcesses, |loader.tokens|), loader.B, loader.T)
  }

  /** `batches` are the windows of the reads numbered `n0`, `n0 + 1`, ... */
  ghost predicate WindowsFrom(loader: DataLoaderLite, start: nat, n0: nat, batches: seq<Batch>) {
    if |batches| == 0 then true
    else
      WindowsFrom(loader, start, n0, batches[..|batches| - 1]) &&
      IsNthWindow(loader, start, n0 + |batches| - 1, batches[|batches| - 1])
  }

  lemma {:induction false} WindowsFromAt(loader: DataLoaderLite, start: nat, n0: nat, batches: seq<Batch>, m: nat)
    requires WindowsFrom(loader, start, n0, batches) && m < |batches|
    ensures IsNthWindow(loader, start, n0 + m, batches[m])
  {
    if m < |batches| - 1 {
      WindowsFromAt(loader, start, n0, batches[..|batches| - 1], m);
    }
  }

  lemma WindowsFromSnoc(loader: DataLoaderLite, start: nat, n0: nat, batches: seq<Batch>, b: Batch)
    requires WindowsFrom(loader, start, n0, batches)
    requires IsNthWindow(loader, start, n0 + |batches|, b)
    ensures WindowsFrom(loader, start, n0, batches + [b])
  {
    assert (batches + [b])[..|batches|] == batches;
  }

  /**
   * When the rank's first window fits and the run starts at a cursor whose window
   * fits, every read of the run fits: the loader never raises.
   */
  lemma EveryReadFits(loader: DataLoaderLite, start: nat, n: nat)
    requires loader.CorpusFits() && start + loader.B * loader.T + 1 <= |loader.tokens|
    ensures ReadFits(loader, start, n)
  {
    ReadsStayInBounds(n, start, loader.B * loader.T, loader.processRank, loader.numProcesses, |loader.tokens|);
  }

  /** When every step read its `g` windows, every one of the `|batches| * g` reads fitted. */
  lemma AllReadsFit(loader: DataLoaderLite, start: nat, g: nat, batches: seq<seq<Batch>>)
    requires forall s :: 0 <= s < |batches| ==> |batches[s]| == g
    requires forall s, m :: 0 <= s < |batches| && 0 <= m < g ==>
      IsNthWindow(loader, start, s * g + m, batches[s][m])
    ensures forall n :: 0 <= n < |batches| * g ==> ReadFits(loader, start, n)
  {
    forall n | 0 <= n < |batches| * g
      ensures ReadFits(loader, start, n)
    {
      Unpair(n, |batches|, g);
      var s, m := n / g, n % g;
      assert IsNthWindow(loader, start, s * g + m, batches[s][m]);
    }
  }

  /** The window read at the cursor of read `n` is read `n`'s window, and the cursor then moves on to read `n + 1`. */
  lemma NextRead(loader: DataLoaderLite, start: nat, n: nat, p: nat, batch: Batch)
    requires p == PositionAfter(n, start, loader.B * loader.T, loader.processRank, loader.numProcesses,
      |loader.tokens|)
    requires IsWindow(batch, loader.tokens, p, loader.B, loader.T)
    ensures IsNthWindow(loader, start, n, batch)
    ensures PositionAfter(n + 1, start, loader.B * loader.T, loader.processRank, loader.numProcesses, |loader.tokens|)
         == NextPosition(PositionAfter(n, start, loader.B * loader.T, loader.processRank, loader.numProcesses,
              |loader.tokens|), loader.B * loader.T, loader.processRank, loader.numProcesses, |loader.tokens|)
  {
  }

  /**
   * One pass of the micro-step loop: read the next batch and add its loss, divided
   * by `grad_accum_steps`, into `loss_accum`. A failing read leaves everything as it was.
   */
  method MicroStep(loader: DataLoaderLite, step: nat, g: nat, forward: (nat, Batch) -> real,
                   ghost start: nat, ghost n0: nat, lossAccum: real, ghost current: seq<Batch>)
    returns (lossAccum': real, ok: bool, ghost current': seq<Batch>)
    requires loader.Valid() && |current| < g
    requires loader.currentPosition == PositionAfter(n0 + |current|, start, loader.B * loader.T,
      loader.processRank, loader.numProcesses, |loader.tokens|)
    requires WindowsFrom(loader, start, n0, current)
    requires lossAccum == AccumulatedLoss(forward, step, current, g)
    modifies loader`currentPosition, loader`strides
    ensures loader.Valid()
    ensures ok ==> |current'| == |current| + 1 && current'[..|current|] == current
    ensures !ok ==> current' == current && !ReadFits(loader, start, n0 + |current|)
    ensures loader.currentPosition == PositionAfter(n0 + |current'|, start, loader.B * loader.T,
      loader.processRank, loader.numProcesses, |loader.tokens|)
    ensures WindowsFrom(loader, start, n0, current')
    ensures lossAccum' == AccumulatedLoss(forward, step, current', g)
  {
    ghost var p := loader.currentPosition;
    var r := loader.NextBatch();
    if r.Err? {
      return lossAccum, false, current;
    }
    NextRead(loader, start, n0 + |current|, p, r.value);
    AccumulateOne(forward, step, current, r.value, g);
    WindowsFromSnoc(loader, start, n0, current, r.value);
    lossAccum' := lossAccum + forward(step, r.value) / g as real;
    ok, current' := true, current + [r.value];
  }

  /**
   * The micro-step loop of one step: `grad_accum_steps` calls of `next_batch`, each
   * loss divided by `grad_accum_steps` and added into `loss_accum`. `n0` counts the
   * loader's successful reads before the step. A failing `next_batch` (the view
   * raises) ends the step with `ok == false`; `current` holds the batches read.
   */
  method AccumulateStep(loader: DataLoaderLite, step: nat, g: nat, forward: (nat, Batch) -> real,
                        ghost start: nat, ghost n0: nat)
    returns (lossAccum: real, ok: bool, ghost current: seq<Batch>)
    requires loader.Valid()
    requires loader.currentPosition == PositionAfter(n0, start, loader.B * loader.T, loader.processRank,
      loader.numProcesses, |loader.tokens|)
    modifies loader`currentPosition, loader`strides
    ensures loader.Valid()
    ensures |current| <= g && (ok <==> |current| == g)
    ensures WindowsFrom(loader, start, n0, current)
    ensures !ok ==> !ReadFits(loader, start, n0 + |current|)
    ensures ok ==> lossAccum == MeanLoss(forward, step, current)
    ensures loader.currentPosition == PositionAfter(n0 + |current|, start, loader.B * loader.T,
      loader.processRank, loader.numProcesses, |loader.tokens|)
  {
    lossAccum, ok, current := 0.0, true, [];
    var micro := 0;
    while micro < g
      invariant micro <= g && |current| == micro
      invariant loader.Valid()
      invariant loader.currentPosition == PositionAfter(n0 + |current|, start, loader.B * loader.T,
        loader.processRank, loader.numProcesses, |loader.tokens|)
      invariant WindowsFrom(loader, start, n0, current)
      invariant lossAccum == AccumulatedLoss(forward, step, current, g)
    {
      lossAccum, ok, current := MicroStep(loader, step, g, forward, start, n0, lossAccum, current);
      if !ok {
        return;
      }
      micro := micro + 1;
    }
    AccumulatedLossIsMean(forward, step, current);
  }

  /**
   * What completed step `s` leaves behind: the `g` windows of the reads numbered
   * `s * g` to `s * g + g - 1`, and a report holding their mean loss, the scheduled
   * rate and the token count.
   */
  ghost predicate StepRecord(loader: DataLoaderLite, start: nat, sched: LrConfig, cos: real -> real,
                             forward: (nat, Batch) -> real, g: nat, worldSize: nat,
                             s: nat, report: StepReport, micro: seq<Batch>)
  {
    && |micro| == g
    && WindowsFrom(loader, start, ReadsAfter(s, g), micro)
    && GetLr(sched, cos, s).Ok?
    && report == StepReport(s, MeanLoss(forward, s, micro), GetLr(sched, cos, s).value,
         TokensProcessed(loader.B, loader.T, g, worldSize))
  }

  /** Steps `0 .. |log| - 1` completed: step `s` is reported by `log[s]` and read `batches[s]`. */
  ghost predicate Completed(loader: DataLoaderLite, start: nat, sched: LrConfig, cos: real -> real,
                            forward: (nat, Batch) -> real, g: nat, worldSize: nat,
                            log: seq<StepReport>, batches: seq<seq<Batch>>)
    decreases |log|
  {
    && |log| == |batches|
    && (|log| > 0 ==>
          && Completed(loader, start, sched, cos, forward, g, worldSize, log[..|log| - 1], batches[..|log| - 1])
          && StepRecord(loader, start, sched, cos, forward, g, worldSize, |log| - 1, log[|log| - 1], batches[|log| - 1]))
  }

  lemma {:induction false} CompletedAt(loader: DataLoaderLite, start: nat, sched: LrConfig, cos: real -> real,
                                       forward: (nat, Batch) -> real, g: nat, worldSize: nat,
                                       log: seq<StepReport>, batches: seq<seq<Batch>>, s: nat)
    requires Completed(loader, start, sched, cos, forward, g, worldSize, log, batches) && s < |log|
    ensures StepRecord(loader, start, sched, cos, forward, g, worldSize, s, log[s], batches[s])
    decreases |log|
  {
    if s < |log| - 1 {
      CompletedAt(loader, start, sched, cos, forward, g, worldSize, log[..|log| - 1], batches[..|log| - 1], s);
    }
  }

  lemma CompletedSnoc(loader: DataLoaderLite, start: nat, sched: LrConfig, cos: real -> real,
                      forward: (nat, Batch) -> real, g: nat, worldSize: nat,
                      log: seq<StepReport>, batches: seq<seq<Batch>>, report: StepReport, micro: seq<Batch>)
    requires Completed(loader, start, sched, cos, forward, g, worldSize, log, batches)
    requires StepRecord(loader, start, sched, cos, forward, g, worldSize, |log|, report, micro)
    ensures Completed(loader, start, sched, cos, forward, g, worldSize, log + [report], batches + [micro])
  {
    assert (log + [report])[..|log|] == log;
    assert (batches + [micro])[..|log|] == batches;
  }

  /** The records of steps `0 .. |log| - 1`, spelled out: step `s` read windows `s * g` to `s * g + g - 1`. */
  lemma RecordsAt(loader: DataLoaderLite, start: nat, sched: LrConfig, cos: real -> real,
                  forward: (nat, Batch) -> real, g: nat, worldSize: nat,
                  log: seq<StepReport>, batches: seq<seq<Batch>>)
    requires Completed(loader, start, sched, cos, forward, g, worldSize, log, batches)
    ensures forall s :: 0 <= s < |log| ==>
      |batches[s]| == g &&
      (forall m :: 0 <= m < g ==> IsNthWindow(loader, start, s * g + m, batches[s][m])) &&
      GetLr(sched, cos, s).Ok? &&
      log[s] == StepReport(s, MeanLoss(forward, s, batches[s]), GetLr(sched, cos, s).value,
        TokensProcessed(loader.B, loader.T, g, worldSize))
  {
    forall s | 0 <= s < |log|
      ensures StepRecord(loader, start, sched, cos, forward, g, worldSize, s, log[s], batches[s])
    {
      CompletedAt(loader, start, sched, cos, forward, g, worldSize, log, batches, s);
    }
    forall s, m | 0 <= s < |log| && 0 <= m < g
      ensures IsNthWindow(loader, start, s * g + m, batches[s][m])
    {
      ReadsAfterIsProduct(s, g);
      WindowsFromAt(loader, start, ReadsAfter(s, g), batches[s], m);
    }
  }

  /** The reads done by `steps` complete steps of `g` micro-steps, counted step by step. */
  function ReadsAfter(steps: nat, g: nat): nat {
    if steps == 0 then 0 else ReadsAfter(steps - 1, g) + g
  }

  lemma {:induction false} ReadsAfterIsProduct(steps: nat, g: nat)
    ensures ReadsAfter(steps, g) == steps * g
  {
    if steps > 0 {
      ReadsAfterIsProduct(steps - 1, g);
      assert steps * g == (steps - 1) * g + g;
    }
  }

  /** A read in an unfinished step comes before the last read of the run. */
  lemma ReadInRun(step: nat, k: nat, maxSteps: nat, g: nat)
    requires step < maxSteps && k < g
    ensures ReadsAfter(step, g) + k < ReadsAfter(maxSteps, g)
  {
    ReadsAfterIsProduct(step, g);
    ReadsAfterIsProduct(maxSteps, g);
    PairBound(step, k, maxSteps, g);
  }

  /** When steps `0 .. |log| - 1` completed, each of their reads fitted in the corpus. */
  lemma CompletedReadsFit(loader: DataLoaderLite, start: nat, sched: LrConfig, cos: real -> real,
                          forward: (nat, Batch) -> real, g: nat, worldSize: nat,
                          log: seq<StepReport>, batches: seq<seq<Batch>>)
    requires Completed(loader, start, sched, cos, forward, g, worldSize, log, batches)
    ensures forall n :: 0 <= n < ReadsAfter(|log|, g) ==> ReadFits(loader, start, n)
  {
    RecordsAt(loader, start, sched, cos, forward, g, worldSize, log, batches);
    AllReadsFit(loader, start, g, batches);
    ReadsAfterIsProduct(|log|, g);
  }

  /** Read `n` is the first read of a loader started at `start` that runs past the end of the corpus. */
  ghost predicate FirstFailingRead(loader: DataLoaderLite, start: nat, n: nat) {
    !ReadFits(loader, start, n) && forall k :: 0 <= k < n ==> ReadFits(loader, start, k)
  }

  /**
   * A run from `start` stopped in step `s`: one of that step's reads is the first
   * read of the run that does not fit, and the cursor `pos` is still at it.
   */
  ghost predicate StoppedInStep(loader: DataLoaderLite, start: nat, g: nat, s: nat, pos: nat) {
    exists n :: ReadsAfter(s, g) <= n < ReadsAfter(s + 1, g) && FirstFailingRead(loader, start, n) &&
      pos == PositionAfter(n, start, loader.B * loader.T, loader.processRank, loader.numProcesses, |loader.tokens|)
  }

  /** Reads whose windows were read fitted in the corpus. */
  lemma WindowsFit(loader: DataLoaderLite, start: nat, n0: nat, batches: seq<Batch>)
    requires WindowsFrom(loader, start, n0, batches)
    ensures forall k :: n0 <= k < n0 + |batches| ==> ReadFits(loader, start, k)
  {
    forall k | n0 <= k < n0 + |batches|
      ensures ReadFits(loader, start, k)
    {
      WindowsFromAt(loader, start, n0, batches, k - n0);
      assert IsNthWindow(loader, start, k, batches[k - n0]);
    }
  }

  /**
   * When steps `0 .. |log| - 1` completed and the step after them read `current`
   * and then failed, that failing read is the first of the run that does not fit.
   */
  lemma FirstFailure(loader: DataLoaderLite, start: nat, sched: LrConfig, cos: real -> real,
                     forward: (nat, Batch) -> real, g: nat, worldSize: nat,
                     log: seq<StepReport>, batches: seq<seq<Batch>>, current: seq<Batch>)
    requires Completed(loader, start, sched, cos, forward, g, worldSize, log, batches)
    requires WindowsFrom(loader, start, ReadsAfter(|log|, g), current)
    requires !ReadFits(loader, start, ReadsAfter(|log|, g) + |current|)
    ensures FirstFailingRead(loader, start, ReadsAfter(|log|, g) + |current|)
  {
    CompletedReadsFit(loader, start, sched, cos, forward, g, worldSize, log, batches);
    WindowsFit(loader, start, ReadsAfter(|log|, g), current);
  }

  /**
   * ... so, with the cursor still at that read, the run stopped in step `|log|`, and
   * when that step is one of the run's, not every read of the run fits.
   */
  lemma FailureIsFirst(loader: DataLoaderLite, start: nat, sched: LrConfig, cos: real -> real,
                       forward: (nat, Batch) -> real, g: nat, worldSize: nat,
                       log: seq<StepReport>, batches: seq<seq<Batch>>, n0: nat, current: seq<Batch>, pos: nat)
    requires Completed(loader, start, sched, cos, forward, g, worldSize, log, batches)
    requires |log| < sched.maxSteps && n0 == ReadsAfter(|log|, g)
    requires |current| < g && WindowsFrom(loader, start, n0, current)
    requires !ReadFits(loader, start, n0 + |current|)
    requires pos == PositionAfter(n0 + |current|, start, loader.B * loader.T, loader.processRank,
      loader.numProcesses, |loader.tokens|)
    ensures StoppedInStep(loader, start, g, |log|, pos)
    ensures !forall n :: 0 <= n < ReadsAfter(sched.maxSteps, g) ==> ReadFits(loader, start, n)
  {
    var n := n0 + |current|;
    FirstFailure(loader, start, sched, cos, forward, g, worldSize, log, batches, current);
    assert ReadsAfter(|log|, g) <= n < ReadsAfter(|log| + 1, g);
    ReadInRun(|log|, |current|, sched.maxSteps, g);
  }

  /**
   * One iteration of `for step in range(max_steps)`: the accumulated micro-steps,
   * then `lr = get_lr(step)` written into every parameter group. A failing
   * `next_batch` raises out of the step before the rate is set.
   */
  method TrainStep(loader: DataLoaderLite, opt: AdamW, sched: LrConfig, cos: real -> real,
                   step: nat, g: nat, worldSize: nat, forward: (nat, Batch) -> real,
                   ghost start: nat, ghost n0: nat)
    returns (r: Result<StepReport>, ghost current: seq<Batch>)
    requires loader.Valid() && step < sched.maxSteps && n0 == ReadsAfter(step, g)
    requires loader.currentPosition == PositionAfter(n0, start, loader.B * loader.T, loader.processRank,
      loader.numProcesses, |loader.tokens|)
    modifies loader`currentPosition, loader`strides, opt.paramGroups
    ensures loader.Valid()
    ensures r.Err? ==> r.error == ShapeInvalid && opt.paramGroups[..] == old(opt.paramGroups[..])
    ensures r.Err? ==> |current| < g && n0 + |current| < ReadsAfter(sched.maxSteps, g)
    ensures r.Err? ==> WindowsFrom(loader, start, n0, current) && !ReadFits(loader, start, n0 + |current|)
    ensures r.Err? ==> loader.currentPosition == PositionAfter(n0 + |current|, start, loader.B * loader.T,
      loader.processRank, loader.numProcesses, |loader.tokens|)
    ensures r.Ok? ==> StepRecord(loader, start, sched, cos, forward, g, worldSize, step, r.value, current)
    ensures r.Ok? ==> opt.paramGroups[..] == WithLr(old(opt.paramGroups[..]), r.value.lr)
    ensures r.Ok? ==> n0 + g == ReadsAfter(step + 1, g)
    ensures r.Ok? ==> loader.currentPosition == PositionAfter(n0 + g, start, loader.B * loader.T,
      loader.processRank, loader.numProcesses, |loader.tokens|)
  {
    var lossAccum, ok;
    lossAccum, ok, current := AccumulateStep(loader, step, g, forward, start, n0);
    if !ok {
      ReadInRun(step, |current|, sched.maxSteps, g);
      return Err(ShapeInvalid), current;
    }
    GetLrDefinedBeforeMaxSteps(sched, cos, step);
    var lr := GetLr(sched, cos, step).value;
    opt.SetLr(lr);
    r := Ok(StepReport(step, lossAccum, lr, TokensProcessed(loader.B, loader.T, g, worldSize)));
  }

  /**
   * The parameter groups after the steps reported in `log`: the groups the run
   * started with, with every rate the last step's (as they were, before any step).
   */
  function GroupsAfter(groups: seq<ParamGroup>, log: seq<StepReport>): seq<ParamGroup> {
    if |log| == 0 then groups else WithLr(groups, log[|log| - 1].lr)
  }

  /**
   * Steps rewrite only the rates: before any step the groups are as they started,
   * and after some steps every group has the last step's rate.
   */
  lemma GroupsAfterSpec(groups: seq<ParamGroup>, log: seq<StepReport>)
    ensures OnlyLrChanged(groups, GroupsAfter(groups, log))
    ensures |log| == 0 ==> GroupsAfter(groups, log) == groups
    ensures |log| > 0 ==> AllLr(GroupsAfter(groups, log), log[|log| - 1].lr)
  {
  }

  /** One more step rewrites every rate to that step's. */
  lemma GroupsAfterSnoc(groups: seq<ParamGroup>, log: seq<StepReport>, report: StepReport)
    ensures GroupsAfter(groups, log + [report]) == WithLr(GroupsAfter(groups, log), report.lr)
  {
    if |log| > 0 {
      WithLrTwice(groups, log[|log| - 1].lr, report.lr);
    }
  }

  /**
   * The training loop: `max_steps` steps in order. A failing step stops the run
   * with `ok == false`; `log` has one entry per completed step and `batches` the
   * micro-batches each completed step read.
   */
  method Train(loader: DataLoaderLite, opt: AdamW, sched: LrConfig, cos: real -> real,
               gradAccumSteps: nat, worldSize: nat, forward: (nat, Batch) -> real)
    returns (log: seq<StepReport>, ok: bool, ghost batches: seq<seq<Batch>>)
    requires loader.Valid()
    modifies loader`currentPosition, loader`strides, opt.paramGroups
    ensures loader.Valid()
    ensures ok <==> forall n :: 0 <= n < ReadsAfter(sched.maxSteps, gradAccumSteps) ==>
      ReadFits(loader, old(loader.currentPosition), n)
    ensures ok ==> |log| == sched.maxSteps
    ensures ok ==> loader.currentPosition == PositionAfter(ReadsAfter(sched.maxSteps, gradAccumSteps),
      old(loader.currentPosition), loader.B * loader.T, loader.processRank, loader.numProcesses, |loader.tokens|)
    ensures |log| <= sched.maxSteps && |batches| == |log|
    ensures Completed(loader, old(loader.currentPosition), sched, cos, forward, gradAccumSteps, worldSize, log, batches)
    ensures !ok ==> |log| < sched.maxSteps
    ensures !ok ==> StoppedInStep(loader, old(loader.currentPosition), gradAccumSteps, |log|, loader.currentPosition)
    ensures opt.paramGroups[..] == GroupsAfter(old(opt.paramGroups[..]), log)
  {
    ghost var start, groups0 := loader.currentPosition, opt.paramGroups[..];
    var g := gradAccumSteps;
    log, ok, batches := [], true, [];
    var step := 0;
    ghost var done: nat := 0;
    while step < sched.maxSteps
      invariant step <= sched.maxSteps && |log| == step
      invariant done == ReadsAfter(step, g)
      invariant loader.Valid()
      invariant loader.currentPosition == PositionAfter(done, start, loader.B * loader.T, loader.processRank,
        loader.numProcesses, |loader.tokens|)
      invariant Completed(loader, start, sched, cos, forward, g, worldSize, log, batches)
      invariant opt.paramGroups[..] == GroupsAfter(groups0, log)
    {
      var r, current := TrainStep(loader, opt, sched, cos, step, g, worldSize, forward, start, done);
      if r.Err? {
        FailureIsFirst(loader, start, sched, cos, forward, g, worldSize, log, batches, done, current,
                       loader.currentPosition);
        return log, false, batches;
      }
      GroupsAfterSnoc(groups0, log, r.value);
      CompletedSnoc(loader, start, sched, cos, forward, g, worldSize, log, batches, r.value, current);
      log := log + [r.value];
      batches := batches + [current];
      step, done := step + 1, done + g;
    }
    CompletedReadsFit(loader, start, sched, cos, forward, g, worldSize, log, batches);
  }
}
