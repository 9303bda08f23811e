# GPT-2 training script, discrete core

A Dafny model of the control and index logic of `notebooks/train_gpt2.py`: the
`DataLoaderLite` batch cursor, the head split and merge in
`CausalSelfAttention.forward`, the parameter grouping of
`GPT.configure_optimizers`, the learning-rate schedule `get_lr`, the
gradient-accumulation arithmetic, and the training loop that ties them together.
Sizes and positions are unbounded integers. Learning rates and losses are `real`
numbers, so the model does not capture the script's floating-point rounding.

| file | models |
|---|---|
| `Common.dfy` | the errors the script can raise (`view` shape error, `ZeroDivisionError`, `AssertionError`) and a `Result` type |
| `Arith.dfy` | facts about mixed-radix numbers `q * m + r`, the arithmetic behind row-major layouts and the loader's strides |
| `Attention.dfy` | the head-size assertion, `qkv.split`, and `view(B, T, nh, hs).transpose(1, 2)` and its inverse, as index maps on contiguous buffers |
| `DataLoader.dfy` | Python slicing, `view(B, T)`, and `DataLoaderLite` as a class whose `currentPosition` field `NextBatch` updates in place |
| `Optim.dfy` | the decay / no-decay partition, and `AdamW` as a class holding the `param_groups` array whose `lr` the loop overwrites |
| `Schedule.dfy` | `get_lr` over `real`, with the cosine as a parameter |
| `Training.dfy` | `grad_accum_steps`, `tokens_processed`, the `loss_accum` micro-step loop and the `for step in range(max_steps)` loop |

The loader is specified by pure functions: `ReadWindow` gives the window read at a
cursor, and `NextPosition` / `PositionAfter` give where the cursor goes. The class
invariant `Valid` keeps the cursor on the rank's lattice of start offsets,
`B*T*process_rank + k * (B*T*num_processes)`.

The training loop is proved against a record of the run. `Completed` says that
step `s` read the loader's reads `s*g .. s*g + g - 1`, where `g` is
`grad_accum_steps`. It also says that step `s` reported the mean loss of those
batches, `get_lr(s)` and the per-step token count. `Train` either completes every
step, or stops in step `len(log)`: that step holds the run's first read that does
not fit in the corpus, and the cursor is left where that read was attempted. The
optimizer's groups then carry the last completed step's rate, or are unchanged if
no step completed. Reading past the corpus is the only failure the loop model
has: the forward pass is assumed not to raise, and a run with zero micro-steps per
step is not modelled as failing (see "Left out").

## Model

| member | source | states |
|---|---|---|
| `Attention.HeadSize` | notebooks/train_gpt2.py:14 | the head size exists iff `n_head > 0` and `n_embd % n_head == 0`, and then `hs * n_head == n_embd`; a zero head count raises `ZeroDivisionError`, otherwise the assertion fails |
| `Attention.Flat3RoundTrip` | notebooks/train_gpt2.py:25-35 | an in-bounds `(b, t, c)` lands inside the `(B, T, C)` buffer and is recovered from its offset |
| `Attention.Unflat3RoundTrip` | notebooks/train_gpt2.py:25-35 | every offset of a `(B, T, C)` buffer is the layout of exactly one in-bounds `(b, t, c)` |
| `Attention.Flat4RoundTrip` | notebooks/train_gpt2.py:31-35 | an in-bounds `(b, h, t, d)` lands inside the `(B, nh, T, hs)` buffer and is recovered from its offset |
| `Attention.Unflat4RoundTrip` | notebooks/train_gpt2.py:31-35 | every offset of a `(B, nh, T, hs)` buffer is the layout of exactly one in-bounds `(b, h, t, d)` |
| `Attention.MergeAfterSplit` | notebooks/train_gpt2.py:31-35 | `(b, t, c)` goes to head `c / hs`, offset `c % hs`, which is in bounds, and merging it back gives `(b, t, c)` |
| `Attention.SplitAfterMerge` | notebooks/train_gpt2.py:31-35 | head `h`, offset `d` goes to channel `h * hs + d < C`, and splitting it back gives `(b, h, t, d)`; with `MergeAfterSplit` the index map is a bijection |
| `Attention.SplitHeads` | notebooks/train_gpt2.py:31-33 | the split tensor has the `(B, nh, T, hs)` element count of the `(B, T, C)` input |
| `Attention.MergeHeads` | notebooks/train_gpt2.py:35 | the merged tensor has the `(B, T, nh * hs)` element count of the head tensor |
| `Attention.SplitHeadsAt` | notebooks/train_gpt2.py:31-33 | element `(b, h, t, d)` of the split tensor is the input's element `(b, t, h * hs + d)` |
| `Attention.MergeHeadsAt` | notebooks/train_gpt2.py:35 | element `(b, t, c)` of the merged tensor is head `c / hs`'s element `(b, t, c % hs)` |
| `Attention.MergeSplitHeads` | notebooks/train_gpt2.py:31-35 | merging the heads of a split tensor gives back the input |
| `Attention.SplitMergeHeads` | notebooks/train_gpt2.py:31-35 | splitting the heads of a merged tensor gives back the head tensor |
| `Attention.ChunkSourceInBounds` | notebooks/train_gpt2.py:30 | chunk `n` of `qkv.split(C, dim=2)` reads channel `n * C + c` of the `(B, T, 3C)` projection, which is in bounds |
| `Attention.Chunk` | notebooks/train_gpt2.py:30 | each of the three chunks has the `(B, T, C)` element count |
| `Attention.HeadViews` | notebooks/train_gpt2.py:29-33 | query, key and value head views all have the `(B, nh, T, hs)` element count |
| `Attention.HeadViewsAt` | notebooks/train_gpt2.py:30-33 | element `(b, h, t, d)` of the query, key and value views is channel `h * hs + d`, `C + h * hs + d` or `2C + h * hs + d` of the fused projection at `(b, t)` |
| `DataLoader.Slice` | notebooks/train_gpt2.py:272 | `tokens[lo:hi]` clamps both bounds to the length, is empty when `lo >= hi`, and holds `tokens[lo + i]` at `i` |
| `DataLoader.FlattenRows` | notebooks/train_gpt2.py:273-274 | `view(B, T)` of a `B*T` buffer has shape `(B, T)`, and flattening it gives the buffer back |
| `DataLoader.Rows` | notebooks/train_gpt2.py:273-274 | `view(B, T)` splits a buffer into `B` rows |
| `DataLoader.WindowHalves` | notebooks/train_gpt2.py:272-274 | when the read fits, `buf[:-1]` is the `B*T` tokens at the cursor and `buf[1:]` the `B*T` tokens one later |
| `DataLoader.ViewIsWindow` | notebooks/train_gpt2.py:273-274 | viewing those two halves as `(B, T)` gives the window at the cursor and its shift |
| `DataLoader.FlattenLength` | notebooks/train_gpt2.py:273-274 | a `(B, T)` tensor holds `B*T` elements |
| `DataLoader.FlattenAt` | notebooks/train_gpt2.py:273-274 | element `(r, c)` of a `(B, T)` tensor is flat element `r*T + c`, which is below `B*T` |
| `DataLoader.View` | notebooks/train_gpt2.py:273-274 | `view(B, T)` succeeds iff the buffer has exactly `B*T` elements, and raises the shape error otherwise |
| `DataLoader.WindowLength` | notebooks/train_gpt2.py:272-274 | `buf[:-1]` and `buf[1:]` have equal length, which is `B*T` iff the `B*T + 1` read fits in the corpus or the batch is empty |
| `DataLoader.WindowRows` | notebooks/train_gpt2.py:272-274 | when the read fits, the viewed halves are exactly the window at the cursor and the window one token later |
| `DataLoader.WindowAt` | notebooks/train_gpt2.py:272-274 | `x[r][c]` is corpus token `p + r*T + c` and `y[r][c]` is the token after it |
| `DataLoader.TargetsAreShiftedInputs` | notebooks/train_gpt2.py:272-274 | along the flat order every target is the next input: `y[i] == x[i + 1]` for `i < B*T - 1` |
| `DataLoader.ReadWindow` | notebooks/train_gpt2.py:271-274 | the read succeeds iff `B*T == 0` or `p + B*T + 1 <= len(tokens)`; on success it is the `(B, T)` window at `p` and its shift, otherwise the shape error |
| `DataLoader.NextPosition` | notebooks/train_gpt2.py:276-279 | the cursor either resets to `B*T*process_rank`, or advances by `B*T*num_processes` to a cursor past which a further stride and its target token still fit in the corpus |
| `DataLoader.NextPositionInBounds` | notebooks/train_gpt2.py:276-279 | if the rank's first window fits, a cursor whose window fits moves to a cursor whose window fits |
| `DataLoader.ReadsStayInBounds` | notebooks/train_gpt2.py:269-279 | under the same condition, the cursor after any number of calls still has a window that fits |
| `DataLoader.NextPositionOnLattice` | notebooks/train_gpt2.py:276-279 | from stride `k` of the rank's lattice the cursor moves to stride `k + 1`, or back to the rank's start exactly when `p + 2*B*T*num_processes + 1 > len(tokens)` |
| `DataLoader.RankWindowsDisjoint` | notebooks/train_gpt2.py:269-279 | cursors of two different ranks, at any stride counts, are at least one window apart, so no two ranks read the same input window |
| `DataLoader.SingleProcessPrefix` | notebooks/train_gpt2.py:269-279 | with one process the `j`-th call starts at `j*B*T` while those windows fit |
| `DataLoader.SingleProcessEpoch` | notebooks/train_gpt2.py:269-279 | with one process an epoch is `m = (len - 1) / (B*T)` windows at `0, B*T, ..., (m-1)*B*T`, after which the cursor is back at 0 |
| `DataLoader.DataLoaderLite.constructor` | notebooks/train_gpt2.py:255-269 | the loader keeps `B`, `T`, rank, process count and corpus, and starts at `B*T*process_rank` on its lattice |
| `DataLoader.DataLoaderLite.NextBatch` | notebooks/train_gpt2.py:270-280 | succeeds iff the read fits, returns the window at the old cursor, moves the cursor to `NextPosition`, keeps the lattice invariant, and leaves the cursor alone when `view` raises; once the first window and the current window fit, the next window fits too |
| `DataLoader.DataLoaderLite.Advance` | notebooks/train_gpt2.py:276-279 | the in-place cursor update: advance one interleaved stride or reset to the rank's start, keeping the cursor on the lattice; when the rank's first window fits, a cursor whose window fits keeps one that fits |
| `DataLoader.FirstBatchOfSmallCorpus` | notebooks/train_gpt2.py:270-284 | with `B = 4`, `T = 16`, one process and 1000 tokens, the first batch is tokens `0..64` and `1..65`, and the cursor moves to 64 |
| `Optim.Filter` | notebooks/train_gpt2.py:194-199 | a list comprehension keeps exactly the elements that satisfy the condition |
| `Optim.FilterPartition` | notebooks/train_gpt2.py:198-199 | filtering by a condition and by its negation loses and duplicates nothing (multiset union) |
| `Optim.FilterPartitionNumel` | notebooks/train_gpt2.py:198-205 | the element counts of the two halves add up to the whole |
| `Optim.OptimGroups` | notebooks/train_gpt2.py:193-203 | group 0 holds exactly the requires-grad tensors of rank 2 or more, with `weight_decay`; group 1 holds the rest, with `0.0`; together they are the trainable parameters as a multiset, with the same element count |
| `Optim.GroupsDisjoint` | notebooks/train_gpt2.py:198-203 | no parameter is in both groups |
| `Optim.FilterAppend` | notebooks/train_gpt2.py:198-199 | filtering a concatenation gives the filtered parts concatenated, so a comprehension keeps its input's order |
| `Optim.WithLr` | notebooks/train_gpt2.py:348-349 | the `for param_group` loop's result: every group's `lr` is the new rate and nothing else in the groups changes |
| `Optim.WithLrUnique` | notebooks/train_gpt2.py:348-349 | any groups that differ from the old ones only in `lr`, and all have rate `lr`, are exactly `WithLr` of the old ones |
| `Optim.WithLrTwice` | notebooks/train_gpt2.py:348-349 | setting the rate twice is the same as setting the second rate once |
| `Optim.AdamW.constructor` | notebooks/train_gpt2.py:213 | every group gets the given `lr`, `betas` and `eps`, and keeps its parameters and weight decay |
| `Optim.AdamW.SetLr` | notebooks/train_gpt2.py:348-349 | every group's `lr` becomes `lr` and nothing else in the groups changes |
| `Optim.ConfigureOptimizers` | notebooks/train_gpt2.py:191-214 | two groups: the partition of `OptimGroups`, with the learning rate, `betas=(0.9, 0.95)` and `eps=1e-8` |
| `Schedule.GetLr` | notebooks/train_gpt2.py:314-325 | `get_lr` fails iff `it == warmup_steps == max_steps`, and then with `ZeroDivisionError`; the assertion on `decay_ratio` never fires |
| `Schedule.GetLrDefinedBeforeMaxSteps` | notebooks/train_gpt2.py:328-347 | every step the loop runs gets a learning rate |
| `Schedule.WarmupRate` | notebooks/train_gpt2.py:316-317 | a warmup step gets `max_lr * (it+1) / warmup_steps`, which is in `(0, max_lr]` |
| `Schedule.WarmupIncreasing` | notebooks/train_gpt2.py:316-317 | warmup rates strictly increase |
| `Schedule.FloorAfterMaxSteps` | notebooks/train_gpt2.py:319-320 | after `max_steps`, and past warmup, the rate is `min_lr` |
| `Schedule.DecayRatio` | notebooks/train_gpt2.py:322-323 | when `warmup_steps < max_steps`, `decay_ratio` is in `[0, 1]`, and is 0 at the first decay step and 1 at `max_steps` |
| `Schedule.DecayBranch` | notebooks/train_gpt2.py:322-325 | a decay-phase step gets the cosine interpolation at its `decay_ratio` |
| `Schedule.CosineRateBounds` | notebooks/train_gpt2.py:324-325 | with a cosine in `[-1, 1]` the interpolation lies in `[min_lr, max_lr]` |
| `Schedule.DecayRate` | notebooks/train_gpt2.py:322-325 | with a cosine in `[-1, 1]` every decay-phase rate lies in `[min_lr, max_lr]` |
| `Schedule.RateBounds` | notebooks/train_gpt2.py:314-325 | with `0 < min_lr <= max_lr`, every rate `get_lr` returns is in `(0, max_lr]` |
| `Schedule.ConfiguredSchedule` | notebooks/train_gpt2.py:309-325 | the run's `max_lr = 6e-4`, `min_lr = 6e-5`, 10 warmup steps and 50 steps: `get_lr` never fails, step 0 gets `6e-5` and step 9 reaches `6e-4` |
| `Schedule.FirstStepRate` | notebooks/train_gpt2.py:316-317 | step 0 gets `max_lr / warmup_steps` |
| `Schedule.WarmupEndsAtPeak` | notebooks/train_gpt2.py:316-317 | the last warmup step reaches `max_lr` |
| `Schedule.DecayStartsAtPeak` | notebooks/train_gpt2.py:322-325 | with `cos(0) = 1` the first decay step is also `max_lr`: no jump between warmup and decay |
| `Schedule.ContinuousAtMaxSteps` | notebooks/train_gpt2.py:319-325 | with `cos(pi) = -1` the rate at `max_steps` is `min_lr`, and so is the floor right after it |
| `Schedule.DecayNonIncreasing` | notebooks/train_gpt2.py:322-325 | with a cosine that does not increase on `[0, pi]`, the decay-phase rate does not increase |
| `Training.GradAccumSteps` | notebooks/train_gpt2.py:286-287 | `grad_accum_steps` exists iff `B*T` is a positive divisor of `total_batch_size`, and then `grad_accum_steps * B * T == total_batch_size`; otherwise it fails with `ZeroDivisionError` when `B*T == 0` and with the assertion's `AssertionError` when `B*T` does not divide the total |
| `Training.ConfiguredGradAccumSteps` | notebooks/train_gpt2.py:282-287 | the run's `2**19`, `B = 4`, `T = 16` give 8192 micro-steps |
| `Training.TokensProcessed` | notebooks/train_gpt2.py:355 | for every `total_batch_size` whose `grad_accum_steps` is the one given, `tokens_processed == total_batch_size * ddp_world_size` |
| `Training.AccumulateOne` | notebooks/train_gpt2.py:337-338 | each micro-step adds its loss divided by `grad_accum_steps` to `loss_accum` |
| `Training.AccumulatedLoss` | notebooks/train_gpt2.py:331-338 | `loss_accum` is the sum of the losses so far divided by `grad_accum_steps` |
| `Training.AccumulatedLossIsMean` | notebooks/train_gpt2.py:331-338 | after all micro-steps `loss_accum` is the mean micro-batch loss |
| `Training.EveryReadFits` | notebooks/train_gpt2.py:269-279 | if the rank's first window fits and the run starts at a cursor whose window fits, every read of the run fits, so no step raises |
| `Training.NextRead` | notebooks/train_gpt2.py:333 | the window read at the cursor of read `n` is read `n`'s window, and the cursor then moves to read `n + 1`'s |
| `Training.MicroStep` | notebooks/train_gpt2.py:333-338 | one micro-step reads the next window and adds its scaled loss; a failing read changes nothing and shows that read does not fit |
| `Training.AccumulateStep` | notebooks/train_gpt2.py:331-338 | the micro-step loop reads the next `grad_accum_steps` windows in order and ends with `loss_accum` equal to their mean loss, or stops at the first read that does not fit |
| `Training.RecordsAt` | notebooks/train_gpt2.py:328-349 | for every completed step `s`: it read the windows of reads `s*g .. s*g + g - 1`, and reported their mean loss, `get_lr(s)` and the token count |
| `Training.ReadsAfterIsProduct` | notebooks/train_gpt2.py:328-333 | `steps` complete steps of `grad_accum_steps` micro-steps make `steps * grad_accum_steps` reads |
| `Training.CompletedReadsFit` | notebooks/train_gpt2.py:328-333 | every read of every completed step fitted in the corpus |
| `Training.WindowsFit` | notebooks/train_gpt2.py:333 | every read whose window a micro-step loop obtained fitted in the corpus |
| `Training.FirstFailure` | notebooks/train_gpt2.py:328-333 | a read that fails after the completed steps and the current step's successful reads is the run's first failing read |
| `Training.FailureIsFirst` | notebooks/train_gpt2.py:328-333 | such a failure lies in step `len(log)`, is the run's first failing read, and shows that not every read of the run fits |
| `Training.GroupsAfterSpec` | notebooks/train_gpt2.py:348-349 | after a run, only learning rates have changed in the groups: they are unchanged if no step completed, and otherwise carry the last completed step's rate |
| `Training.GroupsAfterSnoc` | notebooks/train_gpt2.py:348-349 | completing one more step sets the groups' rate to that step's rate |
| `Training.TrainStep` | notebooks/train_gpt2.py:329-349 | one step either records its windows, mean loss, `get_lr(step)` and token count, sets every group's `lr` to `get_lr(step)` and leaves the cursor `g` reads further on, or raises at the first of its reads that does not fit, with the reads before it done, the cursor left at the failing read and the optimizer untouched |
| `Training.Train` | notebooks/train_gpt2.py:328-349 | the run completes all `max_steps` steps iff every one of its `max_steps * grad_accum_steps` reads fits; the log records each completed step; a run that stops does so in step `len(log)`, at the run's first read that does not fit, with the cursor left at that read; the groups are `GroupsAfter` the log: unchanged if no step completed, otherwise at the last completed step's rate |

## Left out

- Tensor numerics: the attention kernel, the MLP, layer norms, embeddings, the loss, weight initialisation. The loss of a micro-batch is a function parameter, `forward(step, batch)`.
- `loss.backward()`, `clip_grad_norm_`, `optimizer.step()` and `optimizer.zero_grad()`. These are library internals; only the `lr` written into `param_groups` is modelled.
- The `fused_available` / `use_fused` probe of `configure_optimizers`. The flag is computed but never passed to the optimizer.
- Reading `input.txt` and tiktoken encoding, which are I/O and a foreign tokenizer. The corpus is a constructor argument of the loader.
- `from_pretrained`, `torch.compile`, device selection, seeding, timing, `tokens_per_sec` and every `print`.
- The commented-out sampling code.
- Distributed setup and the process group. Ranks are modelled only through `process_rank` and `num_processes` of the loader and `ddp_world_size` in the token count.
- `require_backward_grad_sync`, which only affects gradient synchronisation.
- Training.AccumulatedLoss: losses and their sums are `real`. The float32 (under bfloat16 autocast) rounding of `loss_accum += loss.detach()` is not modelled.
- Training.Train: reports each process's own mean loss. The `all_reduce` average across processes (line 344) is not modelled.
- Training.Train: assumes the forward pass never raises. `GPT.forward` asserts `T <= block_size` (line 115, with `block_size = 1024` by default at line 72), so the model's run completes for `T > 1024` where the script's first `model(x, y)` (line 336) raises `AssertionError`. The script's `T = 16` meets the assertion.
- Training.TrainStep: assumes the forward pass never raises, as for `Train`; a step fails only at a read that does not fit.
- Training.Train: does not model `grad_accum_steps == 0`, which `GradAccumSteps` gives for a total of 0. There `loss_accum` stays the float `0.0`, and step 0 sets its rate and then raises `AttributeError` at `loss_accum.item()` (line 358), or at `dist.all_reduce` (line 344) under DDP. The model instead completes every step and reports a loss of 0. The script's value is 8192.
- Training.TrainStep: with `grad_accum_steps == 0` the step completes with a loss of 0, where the script raises after setting the rate (lines 344, 358).
- Training.Train: an exception in `next_batch` ends the run with `ok == false` and the completed steps' log. In the script it propagates out of the loop and ends the process.
- Schedule.GetLr: floating-point rounding is not modelled. Rates are `real`, `math.cos` is a parameter, and `math.pi` is a rational constant. The lemmas that need the cosine's shape state it as a requirement (`CosBounded`, `CosNonIncreasing`, `cos(0) = 1`, `cos(pi) = -1`).
- DataLoader.DataLoaderLite.constructor: does not model the `ZeroDivisionError` that the epoch-count `print` (line 267) raises when `B*T == 0`. The model's constructor accepts such a loader, and `NextBatch` then returns empty batches, as `next_batch` itself would.
- Attention.SplitHeads: PyTorch's `view` and `transpose` are strided views that share storage with their input. The model materialises them as contiguous buffers, so aliasing between a tensor and its views is not captured.
- Optim.OptimGroups: takes the parameters as a list. The name-keyed dictionaries of lines 193-194 are not modelled; `named_parameters()` already yields each name once.
- Sizes and positions are unbounded naturals. The script's values (int64 token ids, Python integers) never wrap.
