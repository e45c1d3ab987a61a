/**
 The closed form of the pipeline collapse: intermediate step `i` gets a hint
 exactly when its value is not a simple literal and the next element (the
 next step, or the final value after the last step) ends on another line;
 the final value gets a hint exactly when it ends on another line than the
 last step. Hints come in step order with the final value's last.
 */
module PipelineCollapse {
  import opened Optional
  import opened Types
  import opened InlayHints
  import InlayHintsProperties

  /** The printer session before step `k` is printed: every earlier step's type has been printed. */
  function StateBefore<S>(env: Env<S>, s0: S, steps: seq<Assignment>, k: nat): S
    requires k <= |steps|
    decreases k
  {
    if k == 0 then s0 else env.printer.printType(StateBefore(env, s0, steps, k - 1), steps[k - 1].value.ty).1
  }

  function StepLine<S>(env: Env<S>, steps: seq<Assignment>, i: nat): nat
    requires i < |steps|
  {
    env.line(steps[i].location.end)
  }

  /** The line the element after step `i` ends on. */
  function NextLine<S>(env: Env<S>, steps: seq<Assignment>, finally: Expr, i: nat): nat
    requires i < |steps|
  {
    if i + 1 < |steps| then StepLine(env, steps, i + 1) else env.line(finally.location.end)
  }

  predicate StepHinted<S>(env: Env<S>, steps: seq<Assignment>, finally: Expr, i: nat)
    requires i < |steps|
  {
    !IsSimpleLit(steps[i].value) && StepLine(env, steps, i) != NextLine(env, steps, finally, i)
  }

  predicate FinalHinted<S>(env: Env<S>, steps: seq<Assignment>, finally: Expr)
    requires |steps| > 0
  {
    StepLine(env, steps, |steps| - 1) != env.line(finally.location.end)
  }

  /** The hint step `i` would get: its type as printed in turn, anchored at the step's end. */
  function StepHint<S>(env: Env<S>, s0: S, steps: seq<Assignment>, i: nat): InlayHint
    requires i < |steps|
  {
    DefaultInlayHint(steps[i].location.end, env.printer.printType(StateBefore(env, s0, steps, i), steps[i].value.ty).0)
  }

  function Candidate<S>(env: Env<S>, s0: S, steps: seq<Assignment>, i: nat): Option<InlayHint>
    requires i < |steps|
  {
    if IsSimpleLit(steps[i].value) then None else Some(StepHint(env, s0, steps, i))
  }

  /** The steps below `n` that get a hint, in increasing order. */
  function HintedSteps<S>(env: Env<S>, steps: seq<Assignment>, finally: Expr, n: nat): (idx: seq<nat>)
    requires n <= |steps|
    ensures |idx| <= n
    ensures forall j | 0 <= j < |idx| :: idx[j] < n && StepHinted(env, steps, finally, idx[j])
    ensures forall a, b | 0 <= a < b < |idx| :: idx[a] < idx[b]
    ensures forall i: nat | i < n && StepHinted(env, steps, finally, i) :: i in idx
    decreases n
  {
    if n == 0 then []
    else HintedSteps(env, steps, finally, n - 1) + (if StepHinted(env, steps, finally, n - 1) then [n - 1] else [])
  }

  function HintsAt<S>(env: Env<S>, s0: S, steps: seq<Assignment>, idx: seq<nat>): (hs: seq<InlayHint>)
    requires forall j | 0 <= j < |idx| :: idx[j] < |steps|
    ensures |hs| == |idx|
  {
    seq(|idx|, j requires 0 <= j < |idx| => StepHint(env, s0, steps, idx[j]))
  }

  lemma HintsAtSnoc<S>(env: Env<S>, s0: S, steps: seq<Assignment>, finally: Expr, n: nat)
    requires n < |steps|
    ensures HintsAt(env, s0, steps, HintedSteps(env, steps, finally, n + 1))
            == HintsAt(env, s0, steps, HintedSteps(env, steps, finally, n))
               + (if StepHinted(env, steps, finally, n) then [StepHint(env, s0, steps, n)] else [])
  {
  }

  /**
   The loop's state after step `k - 1`: that step pending, the hints of the
   hinted steps before it pushed, and every step up to it printed.
   */
  function AfterStep<S>(env: Env<S>, s0: S, steps: seq<Assignment>, finally: Expr, h0: seq<InlayHint>, k: nat)
    : (Option<Pending>, Visitor<S>)
    requires 1 <= k <= |steps|
  {
    (Some(Pending(StepLine(env, steps, k - 1), Candidate(env, s0, steps, k - 1))),
     Visitor(h0 + HintsAt(env, s0, steps, HintedSteps(env, steps, finally, k - 1)), StateBefore(env, s0, steps, k)))
  }

  /** One turn of the loop: the pending hint of step `k - 1` is pushed exactly when that step is hinted. */
  lemma CollapseOneStep<S>(env: Env<S>, s0: S, steps: seq<Assignment>, finally: Expr, h0: seq<InlayHint>, k: nat)
    requires 1 <= k < |steps|
    ensures var a := AfterStep(env, s0, steps, finally, h0, k);
            var b := AfterStep(env, s0, steps, finally, h0, k + 1);
            CollapseSteps(env, steps, k, a.0, a.1) == CollapseSteps(env, steps, k + 1, b.0, b.1)
  {
    var before := HintsAt(env, s0, steps, HintedSteps(env, steps, finally, k - 1));
    var pushed := if StepHinted(env, steps, finally, k - 1) then [StepHint(env, s0, steps, k - 1)] else [];
    HintsAtSnoc(env, s0, steps, finally, k - 1);
    assert k + 1 - 1 == k;
    var a := AfterStep(env, s0, steps, finally, h0, k);
    var b := AfterStep(env, s0, steps, finally, h0, k + 1);
    assert b.1.hints == h0 + (before + pushed);
    InlayHintsProperties.SeqAssoc(h0, before, pushed);
    CollapseTurn(env, s0, steps, finally, k, a.0, a.1, b.0, b.1);
  }

  lemma CollapseTurn<S>(env: Env<S>, s0: S, steps: seq<Assignment>, finally: Expr, k: nat,
                        prev: Option<Pending>, v: Visitor<S>, next: Option<Pending>, w: Visitor<S>)
    requires 1 <= k < |steps|
    requires prev == Some(Pending(StepLine(env, steps, k - 1), Candidate(env, s0, steps, k - 1)))
    requires v.printer == StateBefore(env, s0, steps, k)
    requires next == Some(Pending(StepLine(env, steps, k), Candidate(env, s0, steps, k)))
    requires w == Visitor(v.hints + (if StepHinted(env, steps, finally, k - 1) then [StepHint(env, s0, steps, k - 1)] else []),
                          StateBefore(env, s0, steps, k + 1))
    ensures CollapseSteps(env, steps, k, prev, v) == CollapseSteps(env, steps, k + 1, next, w)
  {
    assert v.hints + [] == v.hints;
  }

  /** The loop's state after step `k - 1`, in closed form, carried to the end of the loop. */
  lemma {:induction false} CollapseFromStep<S>(env: Env<S>, s0: S, steps: seq<Assignment>, finally: Expr,
                                               h0: seq<InlayHint>, k: nat, prev: Option<Pending>, v: Visitor<S>)
    requires 1 <= k <= |steps|
    requires (prev, v) == AfterStep(env, s0, steps, finally, h0, k)
    ensures CollapseSteps(env, steps, k, prev, v) == AfterStep(env, s0, steps, finally, h0, |steps|)
    decreases |steps| - k
  {
    if k < |steps| {
      CollapseOneStep(env, s0, steps, finally, h0, k);
      var b := AfterStep(env, s0, steps, finally, h0, k + 1);
      CollapseFromStep(env, s0, steps, finally, h0, k + 1, b.0, b.1);
    }
  }

  /**
   The pipeline's own hints, in closed form: the hinted steps in order, each
   labelled with its bare printed type at its end, then the final value's
   hint if it is hinted; earlier hints are kept in front.
   */
  lemma PipelineHintsClosedForm<S>(env: Env<S>, v: Visitor<S>, pl: Pipeline)
    requires env.config.pipelines
    ensures var steps := Steps(pl);
            var sN := StateBefore(env, v.printer, steps, |steps|);
            var stepHints := HintsAt(env, v.printer, steps, HintedSteps(env, steps, pl.finally, |steps|));
            var (text, s') := env.printer.printType(sN, pl.finally.ty);
            PipelineHints(env, v, pl)
            == if FinalHinted(env, steps, pl.finally)
               then Visitor(v.hints + stepHints + [DefaultInlayHint(pl.finally.location.end, text)], s')
               else Visitor(v.hints + stepHints, sN)
  {
    var steps := Steps(pl);
    var n := |steps|;
    var s0 := v.printer;
    CollapseAll(env, v, steps, pl.finally);
    var last := AfterStep(env, s0, steps, pl.finally, v.hints, n);
    assert PipelineHints(env, v, pl) == FlushFinal(env, last.0, pl.finally, last.1);
    HintsAtSnoc(env, s0, steps, pl.finally, n - 1);
    var before := HintsAt(env, s0, steps, HintedSteps(env, steps, pl.finally, n - 1));
    assert last.1.hints == v.hints + before;
    assert v.hints + before == v.hints + before + [];
  }

  /** The whole loop, from no pending step to the state after the last step. */
  lemma CollapseAll<S>(env: Env<S>, v: Visitor<S>, steps: seq<Assignment>, finally: Expr)
    requires |steps| > 0
    ensures CollapseSteps(env, steps, 0, None, v) == AfterStep(env, v.printer, steps, finally, v.hints, |steps|)
  {
    var s0 := v.printer;
    assert v.hints + HintsAt(env, s0, steps, HintedSteps(env, steps, finally, 0)) == v.hints;
    var a := AfterStep(env, s0, steps, finally, v.hints, 1);
    assert a.1 == Visitor(v.hints, StateBefore(env, s0, steps, 1));
    assert CollapseSteps(env, steps, 0, None, v) == CollapseSteps(env, steps, 1, a.0, a.1);
    CollapseFromStep(env, s0, steps, finally, v.hints, 1, a.0, a.1);
  }

  /** Step `i` is among the hinted steps exactly when the per-step rule says so. */
  lemma StepHintedIff<S>(env: Env<S>, steps: seq<Assignment>, finally: Expr, i: nat)
    requires i < |steps|
    ensures i in HintedSteps(env, steps, finally, |steps|) <==> StepHinted(env, steps, finally, i)
  {
  }

  /** A step whose value is a literal (an int, float or string) never gets a hint of its own. */
  lemma LiteralStepNeverHinted<S>(env: Env<S>, steps: seq<Assignment>, finally: Expr, i: nat)
    requires i < |steps| && IsSimpleLit(steps[i].value)
    ensures i !in HintedSteps(env, steps, finally, |steps|)
  {
    StepHintedIff(env, steps, finally, i);
  }

  /** The pipeline adds at most one hint per step plus one for the final value. */
  lemma PipelineHintCount<S>(env: Env<S>, v: Visitor<S>, pl: Pipeline)
    ensures |PipelineHints(env, v, pl).hints| <= |v.hints| + |pl.assignments| + 2
  {
    if env.config.pipelines {
      PipelineHintsClosedForm(env, v, pl);
    }
  }
}
