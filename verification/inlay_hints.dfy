/**
 The inlay-hint generator: walks a type-checked module and collects the
 type hints an editor shows for unannotated parameters, unannotated return
 types and the intermediate values of pipelines.

 Its collaborators are abstract parameters of the walk:
 - `line` maps a source byte offset to the line it falls on;
 - `printer` is the declaration printer used for hint labels, a session
   state `S` with a fresh state and a printing function that threads it.
 A hint's position is kept as the byte offset it is anchored at; turning it
 into an editor position is left to the protocol layer.
 */
module InlayHints {
  import opened Optional
  import opened Types

  datatype Span = Span(start: nat, end: nat)

  datatype Config = Config(parameterTypes: bool, returnTypes: bool, pipelines: bool)

  /** The protocol's hint kinds; every hint this generator makes is a type hint. */
  datatype InlayHintKind = TypeKind

  datatype InlayHint = InlayHint(
    position: nat,
    text: string,
    kind: Option<InlayHintKind>,
    paddingLeft: Option<bool>,
    paddingRight: Option<bool>
  )

  datatype TypePrinter<!S> = TypePrinter(initial: S, printType: (S, Type) -> (string, S))

  datatype Env<!S> = Env(config: Config, line: nat -> nat, printer: TypePrinter<S>)

  /** The walk's state: hints collected so far and the current printer session. */
  datatype Visitor<S> = Visitor(hints: seq<InlayHint>, printer: S)

  datatype FunctionLiteralKind = Capture | Anonymous(head: Span) | Use

  datatype Arg = Arg(ty: Type, annotated: bool, location: Span)

  /**
   Expressions, reduced to what the hint generator distinguishes: simple
   literals (ints, floats, strings), function literals, pipelines, and every
   other expression as a node whose sub-expressions are visited in order.
   */
  datatype Expr =
    | SimpleLiteral(location: Span, ty: Type)
    | Node(location: Span, ty: Type, children: seq<Expr>)
    | FnLiteral(location: Span, ty: Type, kind: FunctionLiteralKind, args: seq<Arg>, body: seq<Expr>, returnAnnotated: bool)
    | PipelineExpr(location: Span, ty: Type, pipeline: Pipeline)

  /** `first |> assignments[0] |> ... |> finally`: the intermediate steps and the final value. */
  datatype Pipeline = Pipeline(first: Assignment, assignments: seq<Assignment>, finally: Expr)

  datatype Assignment = Assignment(location: Span, value: Expr)

  datatype Function = Function(location: Span, arguments: seq<Arg>, body: seq<Expr>, returnType: Type, returnAnnotated: bool)

  /**
   Ints, floats and strings: a pipeline step that is one of them gets no
   hint of its own. Which expressions are literals is decided by the syntax
   tree, which is not part of this model; here it is the constructor.
   */
  predicate IsSimpleLit(e: Expr) {
    e.SimpleLiteral?
  }

  /** The intermediate steps of a pipeline, first value included. */
  function Steps(pl: Pipeline): (steps: seq<Assignment>)
    ensures |steps| == |pl.assignments| + 1 && steps[0] == pl.first
    ensures forall k | 1 <= k < |steps| :: steps[k] == pl.assignments[k - 1]
  {
    [pl.first] + pl.assignments
  }

  /** A type hint showing `text` at `offset`, padded on the left only. */
  function DefaultInlayHint(offset: nat, text: string): (h: InlayHint)
    ensures h.position == offset && h.text == text
    ensures h.kind == Some(TypeKind) && h.paddingLeft == Some(true) && h.paddingRight.None?
  {
    InlayHint(offset, text, Some(TypeKind), Some(true), None)
  }

  /**
   The parameters with no type annotation, in order (`UnannotatedIndices`
   names their positions; `InlayHintsProperties.UnannotatedInOrder` ties the two).
   */
  function Unannotated(args: seq<Arg>): (rs: seq<Arg>)
    ensures |rs| <= |args|
    ensures forall k | 0 <= k < |rs| :: !rs[k].annotated && rs[k] in args
    ensures forall i | 0 <= i < |args| && !args[i].annotated :: args[i] in rs
  {
    if |args| == 0 then []
    else (if args[0].annotated then [] else [args[0]]) + Unannotated(args[1..])
  }

  predicate UnannotatedAt(args: seq<Arg>, i: nat) {
    i < |args| && !args[i].annotated
  }

  /** The positions `i < n` of the parameters with no type annotation, ascending. */
  function UnannotatedIndices(args: seq<Arg>, n: nat): (idx: seq<nat>)
    requires n <= |args|
    ensures forall j | 0 <= j < |idx| :: idx[j] < n && UnannotatedAt(args, idx[j])
    ensures forall j, j' | 0 <= j < j' < |idx| :: idx[j] < idx[j']
    ensures forall i: nat | i < n && UnannotatedAt(args, i) :: i in idx
    decreases n
  {
    if n == 0 then []
    else UnannotatedIndices(args, n - 1) + (if args[n - 1].annotated then [] else [n - 1])
  }

  /** A `: T` hint after an unannotated binding; nothing when an annotation is written. */
  function PushBindingAnnotation<S>(env: Env<S>, v: Visitor<S>, ty: Type, annotated: bool, span: Span): (r: Visitor<S>)
    ensures annotated ==> r == v
    ensures !annotated ==>
              && |r.hints| == |v.hints| + 1 && r.hints[..|v.hints|] == v.hints
              && r.hints[|v.hints|] == InlayHint(span.end, ": " + env.printer.printType(v.printer, ty).0,
                                                 Some(TypeKind), Some(false), None)
              && r.printer == env.printer.printType(v.printer, ty).1
  {
    if annotated then v
    else
      var (text, s) := env.printer.printType(v.printer, ty);
      var hint := DefaultInlayHint(span.end, ": " + text).(paddingLeft := Some(false));
      Visitor(v.hints + [hint], s)
  }

  /** A `-> T` hint after an unannotated function head; nothing when an annotation is written. */
  function PushReturnAnnotation<S>(env: Env<S>, v: Visitor<S>, ty: Type, annotated: bool, span: Span): (r: Visitor<S>)
    ensures annotated ==> r == v
    ensures !annotated ==>
              && |r.hints| == |v.hints| + 1 && r.hints[..|v.hints|] == v.hints
              && r.hints[|v.hints|] == InlayHint(span.end, "-> " + env.printer.printType(v.printer, ty).0,
                                                 Some(TypeKind), Some(true), None)
              && r.printer == env.printer.printType(v.printer, ty).1
  {
    if annotated then v
    else
      var (text, s) := env.printer.printType(v.printer, ty);
      Visitor(v.hints + [DefaultInlayHint(span.end, "-> " + text)], s)
  }

  /** One `: T` hint per unannotated parameter, in parameter order. */
  function PushArgs<S>(env: Env<S>, v: Visitor<S>, args: seq<Arg>): (r: Visitor<S>)
    ensures |r.hints| == |v.hints| + |Unannotated(args)| && r.hints[..|v.hints|] == v.hints
    decreases args
  {
    if |args| == 0 then v
    else
      var v1 := PushBindingAnnotation(env, v, args[0].ty, args[0].annotated, args[0].location);
      var r := PushArgs(env, v1, args[1..]);
      assert r.hints[..|v.hints|] == v.hints by {
        assert r.hints[..|v1.hints|][..|v.hints|] == v1.hints[..|v.hints|];
      }
      r
  }

  function VisitExpr<S>(env: Env<S>, v: Visitor<S>, e: Expr): (r: Visitor<S>)
    ensures v.hints <= r.hints
    decreases e, 0
  {
    match e
    case SimpleLiteral(_, _) => v
    case Node(_, _, children) => VisitExprs(env, v, children)
    case FnLiteral(_, ty, kind, args, body, returnAnnotated) =>
      VisitFnLiteral(env, v, ty, kind, args, body, returnAnnotated)
    case PipelineExpr(_, _, pl) => VisitPipeline(env, v, pl)
  }

  function VisitExprs<S>(env: Env<S>, v: Visitor<S>, es: seq<Expr>): (r: Visitor<S>)
    ensures v.hints <= r.hints
    decreases es, 0
  {
    if |es| == 0 then v else VisitExprs(env, VisitExpr(env, v, es[0]), es[1..])
  }

  function VisitAssignments<S>(env: Env<S>, v: Visitor<S>, as_: seq<Assignment>): (r: Visitor<S>)
    ensures v.hints <= r.hints
    decreases as_
  {
    if |as_| == 0 then v else VisitAssignments(env, VisitAssignment(env, v, as_[0]), as_[1..])
  }

  function VisitAssignment<S>(env: Env<S>, v: Visitor<S>, a: Assignment): (r: Visitor<S>)
    ensures v.hints <= r.hints
    decreases a, 0
  {
    VisitExpr(env, v, a.value)
  }

  /**
   A function literal: its body is visited with the current printer (no
   reset); only an anonymous `fn` gets parameter hints and a return hint,
   the latter anchored at the end of its head.
   */
  function VisitFnLiteral<S>(env: Env<S>, v: Visitor<S>, ty: Type, kind: FunctionLiteralKind,
                             args: seq<Arg>, body: seq<Expr>, returnAnnotated: bool): (r: Visitor<S>)
    ensures v.hints <= r.hints
    decreases body, 1
  {
    var v1 := VisitExprs(env, v, body);
    match kind
    case Anonymous(head) =>
      var ret := if FnTypes(ty).Some? then Some(FnTypes(ty).value.1) else None;
      PushSignature(env, v1, args, ret, returnAnnotated, head)
    case _ => v1
  }

  /**
   The hints of a signature: one per unannotated parameter if parameter
   hints are on, then the return hint if return hints are on and the
   return type is known.
   */
  function PushSignature<S>(env: Env<S>, v: Visitor<S>, args: seq<Arg>, ret: Option<Type>,
                            returnAnnotated: bool, span: Span): (r: Visitor<S>)
    ensures v.hints <= r.hints
  {
    var v1 := if env.config.parameterTypes then PushArgs(env, v, args) else v;
    if env.config.returnTypes && ret.Some? then PushReturnAnnotation(env, v1, ret.value, returnAnnotated, span)
    else v1
  }

  /** A pipeline: every step and the final value are visited first, then the pipeline's own hints. */
  function VisitPipeline<S>(env: Env<S>, v: Visitor<S>, pl: Pipeline): (r: Visitor<S>)
    ensures v.hints <= r.hints
    ensures !env.config.pipelines ==>
              r == VisitExpr(env, VisitAssignments(env, VisitAssignment(env, v, pl.first), pl.assignments), pl.finally)
    decreases pl
  {
    var v1 := VisitAssignment(env, v, pl.first);
    var v2 := VisitAssignments(env, v1, pl.assignments);
    var v3 := VisitExpr(env, v2, pl.finally);
    PipelineHints(env, v3, pl)
  }

  /** The latest step seen: the line it ends on and its hint, none for a simple literal. */
  datatype Pending = Pending(line: nat, hint: Option<InlayHint>)

  /** The pipeline's own hints, if enabled: intermediate steps collapsed by line, then the final value. */
  function PipelineHints<S>(env: Env<S>, v: Visitor<S>, pl: Pipeline): (r: Visitor<S>)
    ensures v.hints <= r.hints
    ensures !env.config.pipelines ==> r == v
  {
    if !env.config.pipelines then v
    else
      var (prev, v1) := CollapseSteps(env, Steps(pl), 0, None, v);
      FlushFinal(env, prev, pl.finally, v1)
  }

  /**
   The loop over the steps from `k` on. A step's pending hint is pushed
   only when the next step ends on a different line; a later step on the
   same line supersedes it. Every step's type is printed, literal or not.
   */
  function CollapseSteps<S>(env: Env<S>, steps: seq<Assignment>, k: nat, prev: Option<Pending>, v: Visitor<S>)
    : (r: (Option<Pending>, Visitor<S>))
    requires k <= |steps|
    ensures v.hints <= r.1.hints
    ensures k < |steps| ==> r.0.Some? && r.0.value.line == env.line(steps[|steps| - 1].location.end)
    decreases |steps| - k
  {
    if k == |steps| then (prev, v)
    else
      var assign := steps[k];
      var thisLine := env.line(assign.location.end);
      var v1 := if prev.Some? && prev.value.line != thisLine && prev.value.hint.Some?
                then v.(hints := v.hints + [prev.value.hint.value]) else v;
      var (text, s) := env.printer.printType(v1.printer, assign.value.ty);
      var thisHint := DefaultInlayHint(assign.location.end, text);
      var pending := Pending(thisLine, if IsSimpleLit(assign.value) then None else Some(thisHint));
      CollapseSteps(env, steps, k + 1, Some(pending), v1.(printer := s))
  }

  /**
   After the loop: when the final value ends on another line than the last
   step, the pending hint is pushed and the final value is hinted (even a
   literal); otherwise neither is.
   */
  function FlushFinal<S>(env: Env<S>, prev: Option<Pending>, finally: Expr, v: Visitor<S>): (r: Visitor<S>)
    ensures v.hints <= r.hints
    ensures prev.Some? && env.line(finally.location.end) == prev.value.line ==> r == v
    ensures prev.None? ==> r == v
    ensures prev.Some? && env.line(finally.location.end) != prev.value.line ==>
              && |r.hints| == |v.hints| + (if prev.value.hint.Some? then 2 else 1)
              && r.hints[|r.hints| - 1].position == finally.location.end
    ensures prev.Some? && env.line(finally.location.end) != prev.value.line ==>
              var printed := env.printer.printType(v.printer, finally.ty);
              var pushed := if prev.value.hint.Some? then [prev.value.hint.value] else [];
              && r.hints == v.hints + pushed + [InlayHint(finally.location.end, printed.0, Some(TypeKind), Some(true), None)]
              && r.printer == printed.1
  {
    match prev
    case None => v
    case Some(Pending(prevLine, prevHint)) =>
      var thisLine := env.line(finally.location.end);
      if thisLine != prevLine then
        var v1 := if prevHint.Some? then v.(hints := v.hints + [prevHint.value]) else v;
        var (text, s) := env.printer.printType(v1.printer, finally.ty);
        Visitor(v1.hints + [DefaultInlayHint(finally.location.end, text)], s)
      else v
  }

  /**
   A named function: the printer session is reset, the body is visited,
   then come the parameter hints and the return hint, each if enabled.
   */
  function VisitFunction<S>(env: Env<S>, v: Visitor<S>, f: Function): (r: Visitor<S>)
    ensures v.hints <= r.hints
  {
    var v0 := v.(printer := env.printer.initial);
    var v1 := VisitExprs(env, v0, f.body);
    PushSignature(env, v1, f.arguments, Some(f.returnType), f.returnAnnotated, f.location)
  }

  function VisitFunctions<S>(env: Env<S>, v: Visitor<S>, fs: seq<Function>): (r: Visitor<S>)
    ensures v.hints <= r.hints
    decreases fs
  {
    if |fs| == 0 then v else VisitFunctions(env, VisitFunction(env, v, fs[0]), fs[1..])
  }

  /** All hints of a module, given as its functions, in traversal order (not sorted by position). */
  function GetInlayHints<S>(env: Env<S>, functions: seq<Function>): (hints: seq<InlayHint>)
    ensures |functions| == 0 ==> hints == []
    ensures |functions| > 0 ==>
              VisitFunction(env, Visitor([], env.printer.initial), functions[0]).hints <= hints
  {
    VisitFunctions(env, Visitor([], env.printer.initial), functions).hints
  }
}
