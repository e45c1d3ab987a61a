/**
 What the hint generator promises: which hints each site produces, that the
 walk only ever appends, that a named function's hints do not depend on
 anything before it, and the closed form of the pipeline collapse.
 */
module InlayHintsProperties {
  import opened Optional
  import opened Types
  import opened InlayHints

  // ---------------------------------------------------------------------
  // Parameter hints
  // ---------------------------------------------------------------------

  /** The parameters `UnannotatedIndices` names, taken in order, are exactly `Unannotated`. */
  lemma {:induction false} UnannotatedInOrder(args: seq<Arg>)
    ensures var idx := UnannotatedIndices(args, |args|);
            && |Unannotated(args)| == |idx|
            && forall j | 0 <= j < |idx| :: Unannotated(args)[j] == args[idx[j]]
  {
    UnannotatedPrefix(args, |args|);
    assert args[..|args|] == args;
  }

  lemma {:induction false} UnannotatedPrefix(args: seq<Arg>, n: nat)
    requires n <= |args|
    ensures var idx := UnannotatedIndices(args, n);
            var us := Unannotated(args[..n]);
            && |us| == |idx|
            && forall j | 0 <= j < |idx| :: us[j] == args[idx[j]]
    decreases n
  {
    if n > 0 {
      UnannotatedPrefix(args, n - 1);
      var a := args[n - 1];
      var idx0 := UnannotatedIndices(args, n - 1);
      var us0 := Unannotated(args[..n - 1]);
      var tail := if a.annotated then [] else [a];
      assert Unannotated([a]) == tail by {
        assert [a][1..] == [];
      }
      assert Unannotated(args[..n]) == us0 + tail by {
        PrefixSnoc(args, n);
        UnannotatedAppend(args[..n - 1], [a]);
      }
      assert UnannotatedIndices(args, n) == idx0 + (if a.annotated then [] else [n - 1]);
      PickSnoc(args, idx0, us0, n - 1, !a.annotated);
    }
  }

  /** Picking one more position from `xs` extends the picked elements by the element there. */
  lemma PickSnoc<T>(xs: seq<T>, idx0: seq<nat>, ys0: seq<T>, i: nat, take: bool)
    requires i < |xs| && |ys0| == |idx0|
    requires forall j | 0 <= j < |idx0| :: idx0[j] < |xs| && ys0[j] == xs[idx0[j]]
    ensures var idx := idx0 + (if take then [i] else []);
            var ys := ys0 + (if take then [xs[i]] else []);
            && |ys| == |idx|
            && forall j | 0 <= j < |idx| :: idx[j] < |xs| && ys[j] == xs[idx[j]]
  {
  }

  lemma PrefixSnoc<T>(xs: seq<T>, n: nat)
    requires 0 < n <= |xs|
    ensures xs[..n] == xs[..n - 1] + [xs[n - 1]]
  {
  }

  lemma {:induction false} UnannotatedAppend(xs: seq<Arg>, ys: seq<Arg>)
    ensures Unannotated(xs + ys) == Unannotated(xs) + Unannotated(ys)
    decreases |xs|
  {
    if |xs| == 0 {
      assert xs + ys == ys;
    } else {
      assert (xs + ys)[0] == xs[0];
      assert (xs + ys)[1..] == xs[1..] + ys;
      UnannotatedAppend(xs[1..], ys);
      SeqAssoc(if xs[0].annotated then [] else [xs[0]], Unannotated(xs[1..]), Unannotated(ys));
    }
  }

  /** The printer session after the types of the first `k` of `us` are printed, starting from `s0`. */
  function ArgSessionBefore<S>(env: Env<S>, s0: S, us: seq<Arg>, k: nat): S
    requires k <= |us|
    decreases k
  {
    if k == 0 then s0 else env.printer.printType(ArgSessionBefore(env, s0, us, k - 1), us[k - 1].ty).1
  }

  /**
   The hint for the k-th of the unannotated parameters `us`: `: T` right
   after it, no left padding, `T` printed with the session the parameters
   before it left behind.
   */
  function ParamHint<S>(env: Env<S>, s0: S, us: seq<Arg>, k: nat): InlayHint
    requires k < |us|
  {
    InlayHint(us[k].location.end, ": " + env.printer.printType(ArgSessionBefore(env, s0, us, k), us[k].ty).0,
              Some(TypeKind), Some(false), None)
  }

  function ParamHints<S>(env: Env<S>, s0: S, us: seq<Arg>): seq<InlayHint> {
    seq(|us|, k requires 0 <= k < |us| => ParamHint(env, s0, us, k))
  }

  /** Parameter hints come in the order the parameters are written and print with the session they leave. */
  lemma {:induction false} PushArgsHints<S>(env: Env<S>, v: Visitor<S>, args: seq<Arg>)
    ensures var us := Unannotated(args);
            PushArgs(env, v, args) == Visitor(v.hints + ParamHints(env, v.printer, us), ArgSessionBefore(env, v.printer, us, |us|))
    decreases args
  {
    if |args| == 0 {
      assert ParamHints(env, v.printer, []) == [];
      assert v.hints + [] == v.hints;
    } else {
      var a := args[0];
      var v1 := PushBindingAnnotation(env, v, a.ty, a.annotated, a.location);
      assert PushArgs(env, v, args) == PushArgs(env, v1, args[1..]);
      PushArgsHints(env, v1, args[1..]);
      var rest := Unannotated(args[1..]);
      UnannotatedCons(args);
      if a.annotated {
        assert v1 == v && Unannotated(args) == rest;
      } else {
        PushFirstArg(env, v, a, rest);
      }
    }
  }

  lemma UnannotatedCons(args: seq<Arg>)
    requires |args| > 0
    ensures Unannotated(args) == (if args[0].annotated then [] else [args[0]]) + Unannotated(args[1..])
  {
  }

  /** The step of `PushArgsHints` for an unannotated first parameter `a`. */
  lemma PushFirstArg<S>(env: Env<S>, v: Visitor<S>, a: Arg, rest: seq<Arg>)
    requires !a.annotated
    ensures var v1 := PushBindingAnnotation(env, v, a.ty, a.annotated, a.location);
            var us := [a] + rest;
            Visitor(v1.hints + ParamHints(env, v1.printer, rest), ArgSessionBefore(env, v1.printer, rest, |rest|))
            == Visitor(v.hints + ParamHints(env, v.printer, us), ArgSessionBefore(env, v.printer, us, |us|))
  {
    var us := [a] + rest;
    var v1 := PushBindingAnnotation(env, v, a.ty, a.annotated, a.location);
    ParamHintsCons(env, v.printer, a, rest);
    ArgSessionShift(env, v.printer, a, rest, |rest|);
    assert v1.hints == v.hints + [ParamHint(env, v.printer, us, 0)];
    SeqAssoc(v.hints, [ParamHint(env, v.printer, us, 0)], ParamHints(env, v1.printer, rest));
  }

  lemma {:induction false} ArgSessionShift<S>(env: Env<S>, s0: S, a: Arg, rest: seq<Arg>, k: nat)
    requires k <= |rest|
    ensures ArgSessionBefore(env, s0, [a] + rest, k + 1)
            == ArgSessionBefore(env, env.printer.printType(s0, a.ty).1, rest, k)
    decreases k
  {
    if k > 0 {
      ArgSessionShift(env, s0, a, rest, k - 1);
      assert ([a] + rest)[k] == rest[k - 1];
    }
  }

  lemma ParamHintsCons<S>(env: Env<S>, s0: S, a: Arg, rest: seq<Arg>)
    ensures ParamHints(env, s0, [a] + rest)
            == [ParamHint(env, s0, [a] + rest, 0)] + ParamHints(env, env.printer.printType(s0, a.ty).1, rest)
  {
    var us := [a] + rest;
    var s1 := env.printer.printType(s0, a.ty).1;
    forall k | 1 <= k < |us|
      ensures ParamHint(env, s0, us, k) == ParamHint(env, s1, rest, k - 1)
    {
      ArgSessionShift(env, s0, a, rest, k - 1);
      assert us[k] == rest[k - 1];
    }
  }

  // ---------------------------------------------------------------------
  // The walk only appends, and what it appends does not depend on the hints before
  // ---------------------------------------------------------------------

  function Shift<S>(h: seq<InlayHint>, w: Visitor<S>): Visitor<S> {
    Visitor(h + w.hints, w.printer)
  }

  lemma ShiftShift<S>(h: seq<InlayHint>, a: seq<InlayHint>, w: Visitor<S>)
    ensures Shift(h, Shift(a, w)) == Shift(h + a, w)
  {
    assert h + (a + w.hints) == (h + a) + w.hints;
  }

  lemma PushBindingAnnotationFrame<S>(env: Env<S>, h: seq<InlayHint>, s: S, ty: Type, annotated: bool, span: Span)
    ensures PushBindingAnnotation(env, Visitor(h, s), ty, annotated, span)
            == Shift(h, PushBindingAnnotation(env, Visitor([], s), ty, annotated, span))
  {
  }

  lemma PushReturnAnnotationFrame<S>(env: Env<S>, h: seq<InlayHint>, s: S, ty: Type, annotated: bool, span: Span)
    ensures PushReturnAnnotation(env, Visitor(h, s), ty, annotated, span)
            == Shift(h, PushReturnAnnotation(env, Visitor([], s), ty, annotated, span))
  {
  }

  lemma {:induction false} PushArgsFrame<S>(env: Env<S>, h: seq<InlayHint>, s: S, args: seq<Arg>)
    ensures PushArgs(env, Visitor(h, s), args) == Shift(h, PushArgs(env, Visitor([], s), args))
    decreases args
  {
    if |args| > 0 {
      var a := args[0];
      PushBindingAnnotationFrame(env, h, s, a.ty, a.annotated, a.location);
      var w := PushBindingAnnotation(env, Visitor([], s), a.ty, a.annotated, a.location);
      PushArgsFrame(env, h + w.hints, w.printer, args[1..]);
      PushArgsFrame(env, w.hints, w.printer, args[1..]);
      ShiftShift(h, w.hints, PushArgs(env, Visitor([], w.printer), args[1..]));
    }
  }

  lemma {:induction false} VisitExprFrame<S>(env: Env<S>, h: seq<InlayHint>, s: S, e: Expr)
    ensures VisitExpr(env, Visitor(h, s), e) == Shift(h, VisitExpr(env, Visitor([], s), e))
    decreases e, 0
  {
    match e
    case SimpleLiteral(_, _) =>
    case Node(_, _, children) => VisitExprsFrame(env, h, s, children);
    case FnLiteral(_, ty, kind, args, body, returnAnnotated) =>
      VisitFnLiteralFrame(env, h, s, ty, kind, args, body, returnAnnotated);
    case PipelineExpr(_, _, pl) => VisitPipelineFrame(env, h, s, pl);
  }

  lemma {:induction false} VisitExprsFrame<S>(env: Env<S>, h: seq<InlayHint>, s: S, es: seq<Expr>)
    ensures VisitExprs(env, Visitor(h, s), es) == Shift(h, VisitExprs(env, Visitor([], s), es))
    decreases es, 0
  {
    if |es| > 0 {
      VisitExprFrame(env, h, s, es[0]);
      var w := VisitExpr(env, Visitor([], s), es[0]);
      VisitExprsFrame(env, h + w.hints, w.printer, es[1..]);
      VisitExprsFrame(env, w.hints, w.printer, es[1..]);
      ShiftShift(h, w.hints, VisitExprs(env, Visitor([], w.printer), es[1..]));
    }
  }

  lemma {:induction false} VisitAssignmentFrame<S>(env: Env<S>, h: seq<InlayHint>, s: S, a: Assignment)
    ensures VisitAssignment(env, Visitor(h, s), a) == Shift(h, VisitAssignment(env, Visitor([], s), a))
    decreases a, 0
  {
    VisitExprFrame(env, h, s, a.value);
  }

  lemma {:induction false} VisitAssignmentsFrame<S>(env: Env<S>, h: seq<InlayHint>, s: S, as_: seq<Assignment>)
    ensures VisitAssignments(env, Visitor(h, s), as_) == Shift(h, VisitAssignments(env, Visitor([], s), as_))
    decreases as_
  {
    if |as_| > 0 {
      VisitAssignmentFrame(env, h, s, as_[0]);
      var w := VisitAssignment(env, Visitor([], s), as_[0]);
      VisitAssignmentsFrame(env, h + w.hints, w.printer, as_[1..]);
      VisitAssignmentsFrame(env, w.hints, w.printer, as_[1..]);
      ShiftShift(h, w.hints, VisitAssignments(env, Visitor([], w.printer), as_[1..]));
    }
  }

  lemma {:induction false} VisitFnLiteralFrame<S>(env: Env<S>, h: seq<InlayHint>, s: S, ty: Type, kind: FunctionLiteralKind,
                                                  args: seq<Arg>, body: seq<Expr>, returnAnnotated: bool)
    ensures VisitFnLiteral(env, Visitor(h, s), ty, kind, args, body, returnAnnotated)
            == Shift(h, VisitFnLiteral(env, Visitor([], s), ty, kind, args, body, returnAnnotated))
    decreases body, 1
  {
    VisitExprsFrame(env, h, s, body);
    var w1 := VisitExprs(env, Visitor([], s), body);
    if kind.Anonymous? {
      var ret := if FnTypes(ty).Some? then Some(FnTypes(ty).value.1) else None;
      PushSignatureFrame(env, h + w1.hints, w1.printer, args, ret, returnAnnotated, kind.head);
      PushSignatureFrame(env, w1.hints, w1.printer, args, ret, returnAnnotated, kind.head);
      ShiftShift(h, w1.hints, PushSignature(env, Visitor([], w1.printer), args, ret, returnAnnotated, kind.head));
    }
  }

  lemma PushSignatureFrame<S>(env: Env<S>, h: seq<InlayHint>, s: S, args: seq<Arg>, ret: Option<Type>,
                              returnAnnotated: bool, span: Span)
    ensures PushSignature(env, Visitor(h, s), args, ret, returnAnnotated, span)
            == Shift(h, PushSignature(env, Visitor([], s), args, ret, returnAnnotated, span))
  {
    var w1 := if env.config.parameterTypes then PushArgs(env, Visitor([], s), args) else Visitor([], s);
    if env.config.parameterTypes {
      PushArgsFrame(env, h, s, args);
    } else {
      assert h + [] == h;
    }
    if env.config.returnTypes && ret.Some? {
      PushReturnAnnotationFrame(env, h + w1.hints, w1.printer, ret.value, returnAnnotated, span);
      PushReturnAnnotationFrame(env, w1.hints, w1.printer, ret.value, returnAnnotated, span);
      ShiftShift(h, w1.hints, PushReturnAnnotation(env, Visitor([], w1.printer), ret.value, returnAnnotated, span));
    }
  }

  lemma {:induction false} VisitPipelineFrame<S>(env: Env<S>, h: seq<InlayHint>, s: S, pl: Pipeline)
    ensures VisitPipeline(env, Visitor(h, s), pl) == Shift(h, VisitPipeline(env, Visitor([], s), pl))
    decreases pl
  {
    VisitAssignmentFrame(env, h, s, pl.first);
    var w1 := VisitAssignment(env, Visitor([], s), pl.first);
    VisitAssignmentsFrame(env, h + w1.hints, w1.printer, pl.assignments);
    VisitAssignmentsFrame(env, w1.hints, w1.printer, pl.assignments);
    var a2 := VisitAssignments(env, Visitor([], w1.printer), pl.assignments);
    ShiftShift(h, w1.hints, a2);
    var w2 := Shift(w1.hints, a2);
    VisitExprFrame(env, h + w2.hints, w2.printer, pl.finally);
    VisitExprFrame(env, w2.hints, w2.printer, pl.finally);
    var a3 := VisitExpr(env, Visitor([], w2.printer), pl.finally);
    ShiftShift(h, w2.hints, a3);
    var w3 := Shift(w2.hints, a3);
    PipelineHintsFrame(env, h + w3.hints, w3.printer, pl);
    PipelineHintsFrame(env, w3.hints, w3.printer, pl);
    ShiftShift(h, w3.hints, PipelineHints(env, Visitor([], w3.printer), pl));
  }

  lemma PipelineHintsFrame<S>(env: Env<S>, h: seq<InlayHint>, s: S, pl: Pipeline)
    ensures PipelineHints(env, Visitor(h, s), pl) == Shift(h, PipelineHints(env, Visitor([], s), pl))
  {
    if env.config.pipelines {
      CollapseStepsFrame(env, h, s, Steps(pl), 0, None);
      var c := CollapseSteps(env, Steps(pl), 0, None, Visitor([], s));
      FlushFinalFrame(env, h + c.1.hints, c.1.printer, c.0, pl.finally);
      FlushFinalFrame(env, c.1.hints, c.1.printer, c.0, pl.finally);
      ShiftShift(h, c.1.hints, FlushFinal(env, c.0, pl.finally, Visitor([], c.1.printer)));
    }
  }

  lemma {:induction false} CollapseStepsFrame<S>(env: Env<S>, h: seq<InlayHint>, s: S, steps: seq<Assignment>, k: nat,
                                                 prev: Option<Pending>)
    requires k <= |steps|
    ensures var c := CollapseSteps(env, steps, k, prev, Visitor([], s));
            CollapseSteps(env, steps, k, prev, Visitor(h, s)) == (c.0, Shift(h, c.1))
    decreases |steps| - k
  {
    if k < |steps| {
      var thisLine := env.line(steps[k].location.end);
      var pushed := if prev.Some? && prev.value.line != thisLine && prev.value.hint.Some?
                    then [prev.value.hint.value] else [];
      var (text, s') := env.printer.printType(s, steps[k].value.ty);
      var pending := Pending(thisLine, if IsSimpleLit(steps[k].value) then None
                                       else Some(DefaultInlayHint(steps[k].location.end, text)));
      assert h + [] == h;
      assert CollapseSteps(env, steps, k, prev, Visitor(h, s))
             == CollapseSteps(env, steps, k + 1, Some(pending), Visitor(h + pushed, s'));
      assert CollapseSteps(env, steps, k, prev, Visitor([], s))
             == CollapseSteps(env, steps, k + 1, Some(pending), Visitor([] + pushed, s'));
      assert [] + pushed == pushed;
      CollapseStepsFrame(env, h + pushed, s', steps, k + 1, Some(pending));
      CollapseStepsFrame(env, pushed, s', steps, k + 1, Some(pending));
      var c' := CollapseSteps(env, steps, k + 1, Some(pending), Visitor([], s'));
      var c := CollapseSteps(env, steps, k, prev, Visitor([], s));
      assert c == (c'.0, Shift(pushed, c'.1));
      ShiftShift(h, pushed, c'.1);
    } else {
      assert h + [] == h;
    }
  }

  lemma FlushFinalFrame<S>(env: Env<S>, h: seq<InlayHint>, s: S, prev: Option<Pending>, finally: Expr)
    ensures FlushFinal(env, prev, finally, Visitor(h, s)) == Shift(h, FlushFinal(env, prev, finally, Visitor([], s)))
  {
    if prev.Some? && env.line(finally.location.end) != prev.value.line {
      var pushed := if prev.value.hint.Some? then [prev.value.hint.value] else [];
      var (text, s') := env.printer.printType(s, finally.ty);
      var last := [DefaultInlayHint(finally.location.end, text)];
      assert FlushFinal(env, prev, finally, Visitor(h, s)) == Visitor(h + pushed + last, s');
      assert FlushFinal(env, prev, finally, Visitor([], s)) == Visitor([] + pushed + last, s');
      assert h + pushed + last == h + ([] + pushed + last);
    }
  }

  // ---------------------------------------------------------------------
  // Named and anonymous functions
  // ---------------------------------------------------------------------

  /** A named function's hints start from a fresh printer, whatever came before. */
  lemma VisitFunctionFrame<S>(env: Env<S>, v: Visitor<S>, f: Function)
    ensures VisitFunction(env, v, f) == Shift(v.hints, VisitFunction(env, Visitor([], env.printer.initial), f))
  {
    var s := env.printer.initial;
    VisitExprsFrame(env, v.hints, s, f.body);
    var w1 := VisitExprs(env, Visitor([], s), f.body);
    var ret := Some(f.returnType);
    PushSignatureFrame(env, v.hints + w1.hints, w1.printer, f.arguments, ret, f.returnAnnotated, f.location);
    PushSignatureFrame(env, w1.hints, w1.printer, f.arguments, ret, f.returnAnnotated, f.location);
    ShiftShift(v.hints, w1.hints, PushSignature(env, Visitor([], w1.printer), f.arguments, ret, f.returnAnnotated, f.location));
  }

  /** The hints a named function adds are the same whatever hints and printer session came before. */
  lemma VisitFunctionIgnoresEarlierState<S>(env: Env<S>, v1: Visitor<S>, v2: Visitor<S>, f: Function)
    ensures VisitFunction(env, v1, f).hints[|v1.hints|..] == VisitFunction(env, v2, f).hints[|v2.hints|..]
  {
    VisitFunctionFrame(env, v1, f);
    VisitFunctionFrame(env, v2, f);
    var w := VisitFunction(env, Visitor([], env.printer.initial), f);
    assert (v1.hints + w.hints)[|v1.hints|..] == w.hints;
    assert (v2.hints + w.hints)[|v2.hints|..] == w.hints;
  }

  /**
   A named function's hints: the body's (printed from a fresh session), then
   one `: T` per unannotated parameter in order if parameter hints are on,
   then one `-> T` at the end of the function's head if return hints are on
   and no return annotation is written; each type is printed with the
   session the hints before it left behind.
   */
  lemma VisitFunctionOrder<S>(env: Env<S>, v: Visitor<S>, f: Function)
    ensures var body := VisitExprs(env, Visitor([], env.printer.initial), f.body);
            var us := if env.config.parameterTypes then Unannotated(f.arguments) else [];
            var sp := ArgSessionBefore(env, body.printer, us, |us|);
            var ret := if env.config.returnTypes && !f.returnAnnotated
                       then [InlayHint(f.location.end, "-> " + env.printer.printType(sp, f.returnType).0,
                                       Some(TypeKind), Some(true), None)]
                       else [];
            VisitFunction(env, v, f).hints == v.hints + body.hints + ParamHints(env, body.printer, us) + ret
  {
    var s := env.printer.initial;
    VisitExprsFrame(env, v.hints, s, f.body);
    var w1 := VisitExprs(env, v.(printer := s), f.body);
    PushSignatureOrder(env, w1, f.arguments, Some(f.returnType), f.returnAnnotated, f.location);
  }

  /**
   A signature appends one parameter hint per unannotated parameter (if
   enabled), then a return hint at the end of the span (if enabled, known
   and unannotated), printing each type with the session the hints before
   it left behind, and hands on the session after the last.
   */
  lemma {:induction false} PushSignatureOrder<S>(env: Env<S>, v: Visitor<S>, args: seq<Arg>, ret: Option<Type>,
                              returnAnnotated: bool, span: Span)
    ensures var us := if env.config.parameterTypes then Unannotated(args) else [];
            var sp := ArgSessionBefore(env, v.printer, us, |us|);
            var params := v.hints + ParamHints(env, v.printer, us);
            PushSignature(env, v, args, ret, returnAnnotated, span)
            == if env.config.returnTypes && ret.Some? && !returnAnnotated
               then Visitor(params + [InlayHint(span.end, "-> " + env.printer.printType(sp, ret.value).0,
                                                Some(TypeKind), Some(true), None)],
                            env.printer.printType(sp, ret.value).1)
               else Visitor(params, sp)
  {
    if env.config.parameterTypes {
      PushArgsHints(env, v, args);
    } else {
      assert v.hints + ParamHints(env, v.printer, []) == v.hints;
    }
  }

  /** The hints a named function gets on its own. */
  function FunctionHints<S>(env: Env<S>, f: Function): seq<InlayHint> {
    VisitFunction(env, Visitor([], env.printer.initial), f).hints
  }

  /** A module's hints are the concatenation of each function's hints, in order. */
  function ModuleHints<S>(env: Env<S>, fs: seq<Function>): seq<InlayHint>
    decreases fs
  {
    if |fs| == 0 then [] else FunctionHints(env, fs[0]) + ModuleHints(env, fs[1..])
  }

  lemma SeqAssoc<T>(a: seq<T>, b: seq<T>, c: seq<T>)
    ensures (a + b) + c == a + (b + c)
  {
  }

  lemma VisitFunctionAppends<S>(env: Env<S>, v: Visitor<S>, f: Function)
    ensures VisitFunction(env, v, f).hints == v.hints + FunctionHints(env, f)
  {
    VisitFunctionFrame(env, v, f);
  }

  lemma {:induction false} VisitFunctionsConcatenates<S>(env: Env<S>, v: Visitor<S>, fs: seq<Function>)
    ensures VisitFunctions(env, v, fs).hints == v.hints + ModuleHints(env, fs)
    decreases fs
  {
    if |fs| == 0 {
      assert v.hints + [] == v.hints;
    } else {
      var w := VisitFunction(env, v, fs[0]);
      assert VisitFunctions(env, v, fs) == VisitFunctions(env, w, fs[1..]);
      VisitFunctionAppends(env, v, fs[0]);
      VisitFunctionsConcatenates(env, w, fs[1..]);
      SeqAssoc(v.hints, FunctionHints(env, fs[0]), ModuleHints(env, fs[1..]));
    }
  }

  lemma GetInlayHintsIsConcatenation<S>(env: Env<S>, fs: seq<Function>)
    ensures GetInlayHints(env, fs) == ModuleHints(env, fs)
  {
    VisitFunctionsConcatenates(env, Visitor([], env.printer.initial), fs);
  }

  /**
   A function literal: the body's hints come first; only an anonymous `fn`
   adds parameter hints and a return hint, the latter at the end of its head;
   the printer session is the one in use, not a fresh one.
   */
  lemma VisitFnLiteralHints<S>(env: Env<S>, v: Visitor<S>, ty: Type, kind: FunctionLiteralKind,
                              args: seq<Arg>, body: seq<Expr>, returnAnnotated: bool)
    ensures var r := VisitFnLiteral(env, v, ty, kind, args, body, returnAnnotated);
            var b := VisitExprs(env, v, body);
            var us := if kind.Anonymous? && env.config.parameterTypes then Unannotated(args) else [];
            var sp := ArgSessionBefore(env, b.printer, us, |us|);
            var ret := if kind.Anonymous? && env.config.returnTypes && FnTypes(ty).Some? && !returnAnnotated
                       then [InlayHint(kind.head.end, "-> " + env.printer.printType(sp, FnTypes(ty).value.1).0,
                                       Some(TypeKind), Some(true), None)]
                       else [];
            && (!kind.Anonymous? ==> r == b)
            && r.hints == b.hints + ParamHints(env, b.printer, us) + ret
  {
    var b := VisitExprs(env, v, body);
    if kind.Anonymous? {
      var ret := if FnTypes(ty).Some? then Some(FnTypes(ty).value.1) else None;
      PushSignatureOrder(env, b, args, ret, returnAnnotated, kind.head);
    } else {
      assert b.hints + ParamHints(env, b.printer, []) + [] == b.hints;
    }
  }

  /** An anonymous `fn` with an empty body prints its return type with the session already in use. */
  lemma AnonymousFnUsesCurrentSession<S>(env: Env<S>, v: Visitor<S>, ty: Type, head: Span, args: seq<Arg>)
    requires !env.config.parameterTypes && env.config.returnTypes && FnTypes(ty).Some?
    ensures VisitFnLiteral(env, v, ty, Anonymous(head), args, [], false).hints
            == v.hints + [InlayHint(head.end, "-> " + env.printer.printType(v.printer, FnTypes(ty).value.1).0,
                                    Some(TypeKind), Some(true), None)]
  {
  }
}
