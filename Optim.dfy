/**
 * `GPT.configure_optimizers`: the requires-grad parameters are split into a
 * weight-decayed group (tensors of rank 2 or more: matmul weights and embeddings)
 * and a group without decay (biases and layer-norm gains), and an AdamW optimizer
 * is built over the two groups. The optimizer's update rule is not modelled; its
 * `param_groups` are, because the training loop rewrites their `lr` in place.
 */
module Optim {

  /** A named parameter tensor: its shape and whether it requires a gradient. */
  datatype Param = Param(name: string, shape: seq<nat>, requiresGrad: bool)
  {
    /** `p.dim()` */
    function Dim(): nat { |shape| }

    /** `p.numel()` */
    function Numel(): nat { Product(shape) }
  }

  function Product(s: seq<nat>): nat {
    if |s| == 0 then 1 else s[0] * Product(s[1..])
  }

  /** Total number of scalars in a list of tensors: `sum(p.numel() for p in ps)`. */
  function NumelSum(ps: seq<Param>): nat {
    if |ps| == 0 then 0 else ps[0].Numel() + NumelSum(ps[1..])
  }

  predicate RequiresGrad(p: Param) { p.requiresGrad }

  /** Rank 2 or more: decayed. */
  predicate Decays(p: Param) { p.Dim() >= 2 }

  /** Rank below 2: not decayed. */
  predicate KeepsNoDecay(p: Param) { p.Dim() < 2 }

  /** A list comprehension `[p for p in ps if keep(p)]`: the kept elements, in order. */
  function Filter(ps: seq<Param>, keep: Param -> bool): (r: seq<Param>)
    ensures |r| <= |ps|
    ensures forall p :: p in r <==> p in ps && keep(p)
  {
    if |ps| == 0 then []
    else if keep(ps[0]) then [ps[0]] + Filter(ps[1..], keep)
    else Filter(ps[1..], keep)
  }

  /**
   * Filtering keeps the list's order: filtering a concatenation concatenates the
   * filtered parts, so a kept element precedes every kept element after it.
   */
  lemma {:induction false} FilterAppend(a: seq<Param>, b: seq<Param>, keep: Param -> bool)
    ensures Filter(a + b, keep) == Filter(a, keep) + Filter(b, keep)
  {
    if |a| == 0 {
      assert a + b == b;
    } else {
      var ab := a + b;
      assert ab[0] == a[0] && ab[1..] == a[1..] + b;
      FilterAppend(a[1..], b, keep);
      if keep(a[0]) {
        assert Filter(ab, keep) == [a[0]] + Filter(a[1..], keep) + Filter(b, keep);
      }
    }
  }

  /** Splitting a list by a predicate and its negation loses and duplicates nothing. */
  lemma {:induction false} FilterPartition(ps: seq<Param>, keep: Param -> bool, drop: Param -> bool)
    requires forall p :: drop(p) == !keep(p)
    ensures multiset(Filter(ps, keep)) + multiset(Filter(ps, drop)) == multiset(ps)
  {
    if |ps| > 0 {
      FilterPartition(ps[1..], keep, drop);
      assert ps == [ps[0]] + ps[1..];
      assert multiset(ps) == multiset{ps[0]} + multiset(ps[1..]);
    }
  }

  /** ... and so the two halves' element counts add up to the whole. */
  lemma {:induction false} FilterPartitionNumel(ps: seq<Param>, keep: Param -> bool, drop: Param -> bool)
    requires forall p :: drop(p) == !keep(p)
    ensures NumelSum(Filter(ps, keep)) + NumelSum(Filter(ps, drop)) == NumelSum(ps)
  {
    if |ps| > 0 {
      FilterPartitionNumel(ps[1..], keep, drop);
      var rest := if keep(ps[0]) then Filter(ps[1..], keep) else Filter(ps[1..], drop);
      assert ([ps[0]] + rest)[1..] == rest;
    }
  }

  /** One dictionary of `optim_groups`: its parameter list and weight decay. */
  datatype GroupSpec = GroupSpec(params: seq<Param>, weightDecay: real)

  /** `param_dict` after dropping the parameters that do not require a gradient. */
  function Trainable(named: seq<Param>): seq<Param> {
    Filter(named, RequiresGrad)
  }

  /**
   * `optim_groups`: the decayed group with `weight_decay`, then the others with 0.0.
   * Together the two lists hold each trainable parameter exactly once.
   */
  function OptimGroups(named: seq<Param>, weightDecay: real): (groups: seq<GroupSpec>)
    ensures |groups| == 2
    ensures groups[0].weightDecay == weightDecay && groups[1].weightDecay == 0.0
    ensures forall p :: p in groups[0].params <==> p in named && p.requiresGrad && p.Dim() >= 2
    ensures forall p :: p in groups[1].params <==> p in named && p.requiresGrad && p.Dim() < 2
    ensures multiset(groups[0].params) + multiset(groups[1].params) == multiset(Trainable(named))
    ensures NumelSum(groups[0].params) + NumelSum(groups[1].params) == NumelSum(Trainable(named))
  {
    var trainable := Trainable(named);
    FilterPartition(trainable, Decays, KeepsNoDecay);
    FilterPartitionNumel(trainable, Decays, KeepsNoDecay);
    [GroupSpec(Filter(trainable, Decays), weightDecay),
     GroupSpec(Filter(trainable, KeepsNoDecay), 0.0)]
  }

  /** No parameter is in both groups. */
  lemma GroupsDisjoint(named: seq<Param>, weightDecay: real, p: Param)
    ensures !(p in OptimGroups(named, weightDecay)[0].params && p in OptimGroups(named, weightDecay)[1].params)
  {
  }

  /** A parameter group as held by the optimizer: the group's entries plus the optimizer defaults. */
  datatype ParamGroup = ParamGroup(params: seq<Param>, weightDecay: real, lr: real, betas: (real, real), eps: real)

  /** `betas=(0.9, 0.95)` */
  const Betas: (real, real) := (0.9, 0.95)

  /** `eps=1e-8` */
  const Eps: real := 0.00000001

  /** `after` is `before` with at most the learning rates rewritten. */
  ghost predicate OnlyLrChanged(before: seq<ParamGroup>, after: seq<ParamGroup>) {
    |before| == |after| && forall i :: 0 <= i < |after| ==> after[i] == before[i].(lr := after[i].lr)
  }

  /** Every group's learning rate is `lr`. */
  ghost predicate AllLr(groups: seq<ParamGroup>, lr: real) {
    forall i :: 0 <= i < |groups| ==> groups[i].lr == lr
  }

  /** `groups` with every learning rate set to `lr`. */
  function WithLr(groups: seq<ParamGroup>, lr: real): (r: seq<ParamGroup>)
    ensures OnlyLrChanged(groups, r) && AllLr(r, lr)
  {
    seq(|groups|, i requires 0 <= i < |groups| => groups[i].(lr := lr))
  }

  /** Rewriting only the rates, all to `lr`, can only give `WithLr(before, lr)`. */
  lemma WithLrUnique(before: seq<ParamGroup>, after: seq<ParamGroup>, lr: real)
    requires OnlyLrChanged(before, after) && AllLr(after, lr)
    ensures after == WithLr(before, lr)
  {
  }

  /** Setting the rate twice keeps the second rate. */
  lemma WithLrTwice(groups: seq<ParamGroup>, lr: real, lr': real)
    ensures WithLr(WithLr(groups, lr), lr') == WithLr(groups, lr')
  {
  }

  /** The optimizer state the script touches: `param_groups`, whose `lr` the training loop overwrites. */
  class AdamW {
    const paramGroups: array<ParamGroup>

    /** `torch.optim.AdamW(groups, lr=lr, betas=betas, eps=eps)`: each group gets the defaults. */
    constructor(groups: seq<GroupSpec>, lr: real, betas: (real, real), eps: real)
      ensures fresh(paramGroups)
      ensures paramGroups.Length == |groups|
      ensures forall i :: 0 <= i < |groups| ==>
        paramGroups[i] == ParamGroup(groups[i].params, groups[i].weightDecay, lr, betas, eps)
    {
      paramGroups := new ParamGroup[|groups|](
        i requires 0 <= i < |groups| => ParamGroup(groups[i].params, groups[i].weightDecay, lr, betas, eps));
    }

    /** Every group's learning rate is `lr`. */
    ghost predicate LrIs(lr: real)
      reads paramGroups
    {
      AllLr(paramGroups[..], lr)
    }

    /** `for param_group in optimizer.param_groups: param_group['lr'] = lr` */
    method SetLr(lr: real)
      modifies paramGroups
      ensures forall i :: 0 <= i < paramGroups.Length ==> paramGroups[i] == old(paramGroups[i]).(lr := lr)
      ensures LrIs(lr)
      ensures OnlyLrChanged(old(paramGroups[..]), paramGroups[..])
      ensures paramGroups[..] == WithLr(old(paramGroups[..]), lr)
    {
      for i := 0 to paramGroups.Length
        invariant forall j :: 0 <= j < i ==> paramGroups[j] == old(paramGroups[j]).(lr := lr)
        invariant forall j :: i <= j < paramGroups.Length ==> paramGroups[j] == old(paramGroups[j])
      {
        paramGroups[i] := paramGroups[i].(lr := lr);
      }
    }
  }

  /** `configure_optimizers(weight_decay, learning_Rate, device)` */
  method ConfigureOptimizers(named: seq<Param>, weightDecay: real, learningRate: real) returns (opt: AdamW)
    ensures fresh(opt.paramGroups)
    ensures opt.paramGroups.Length == 2
    ensures opt.LrIs(learningRate)
    ensures forall i :: 0 <= i < 2 ==>
      opt.paramGroups[i].params == OptimGroups(named, weightDecay)[i].params &&
      opt.paramGroups[i].weightDecay == OptimGroups(named, weightDecay)[i].weightDecay &&
      opt.paramGroups[i].betas == Betas && opt.paramGroups[i].eps == Eps
  {
    var groups := OptimGroups(named, weightDecay);
    opt := new AdamW(groups, learningRate, Betas, Eps);
  }
}
