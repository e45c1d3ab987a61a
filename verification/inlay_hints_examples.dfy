/**
 Worked pipelines and functions. Offsets map to lines by tens (offsets 0-9
 are line 0, 10-19 line 1, ...). The type printer renders every type as
 `Int`, except in `LetteringEnv`, whose session changes on every print.
 */
module InlayHintsExamples {
  import opened Optional
  import opened Types
  import opened InlayHints
  import Letters

  const IntT: Type := Named("Int", "gleam", "", Public, [])

  function ByTens(offset: nat): nat { offset / 10 }

  function Env(config: Config): Env<nat> {
    InlayHints.Env(config, ByTens, TypePrinter(0, (s: nat, t: Type) => ("Int", s)))
  }

  const AllOn := Config(true, true, true)

  function Call(start: nat, end: nat): Expr { Node(Span(start, end), IntT, []) }

  function Step(start: nat, end: nat): Assignment { Assignment(Span(start, end), Call(start, end)) }

  function LiteralStep(start: nat, end: nat): Assignment {
    Assignment(Span(start, end), SimpleLiteral(Span(start, end), IntT))
  }

  function IntHint(offset: nat): InlayHint { DefaultInlayHint(offset, "Int") }

  /** The collapse loop over steps ending at offsets 3, 7 and 14 (lines 0, 0, 1). */
  lemma ThreeStepsCollapse(env: Env<nat>, pl: Pipeline)
    requires env == Env(AllOn)
    requires pl.first == Step(0, 3) && pl.assignments == [Step(4, 7), Step(11, 14)]
    ensures CollapseSteps(env, Steps(pl), 0, None, Visitor([], 0)) == (Some(Pending(1, Some(IntHint(14)))), Visitor([IntHint(7)], 0))
  {
    var steps := Steps(pl);
    assert steps == [Step(0, 3), Step(4, 7), Step(11, 14)];
    var last := Some(Pending(1, Some(IntHint(14))));
    assert env.line(14) == 1 && env.line(7) == 0 && env.line(3) == 0;
    assert env.printer.printType(0, IntT) == ("Int", 0);
    assert [] + [IntHint(7)] == [IntHint(7)];
    assert CollapseSteps(env, steps, 3, last, Visitor([IntHint(7)], 0)) == (last, Visitor([IntHint(7)], 0));
    assert CollapseSteps(env, steps, 2, Some(Pending(0, Some(IntHint(7)))), Visitor([], 0)) == (last, Visitor([IntHint(7)], 0));
    assert CollapseSteps(env, steps, 1, Some(Pending(0, Some(IntHint(3)))), Visitor([], 0)) == (last, Visitor([IntHint(7)], 0));
  }

  /** Steps 1 and 2 end on line 0 and step 3 on line 1; the final value is on line 1 too. */
  lemma FinalOnLastStepLine()
    ensures VisitPipeline(Env(AllOn), Visitor([], 0), Pipeline(Step(0, 3), [Step(4, 7), Step(11, 14)], Call(15, 18))).hints
            == [IntHint(7)]
  {
    var env := Env(AllOn);
    var pl := Pipeline(Step(0, 3), [Step(4, 7), Step(11, 14)], Call(15, 18));
    ThreeStepsCollapse(env, pl);
  }

  /** The same steps with the final value on line 2: step 3 is flushed and the final value hinted. */
  lemma FinalOnOwnLine()
    ensures VisitPipeline(Env(AllOn), Visitor([], 0), Pipeline(Step(0, 3), [Step(4, 7), Step(11, 14)], Call(20, 25))).hints
            == [IntHint(7), IntHint(14), IntHint(25)]
  {
    var env := Env(AllOn);
    var pl := Pipeline(Step(0, 3), [Step(4, 7), Step(11, 14)], Call(20, 25));
    ThreeStepsCollapse(env, pl);
  }

  /** A literal step is never hinted, even alone on its line; a literal final value on its own line is. */
  lemma LiteralStepsNotHinted()
    ensures VisitPipeline(Env(AllOn), Visitor([], 0),
                          Pipeline(LiteralStep(0, 3), [LiteralStep(10, 13)], SimpleLiteral(Span(20, 22), IntT))).hints
            == [IntHint(22)]
  {
    var env := Env(AllOn);
    var pl := Pipeline(LiteralStep(0, 3), [LiteralStep(10, 13)], SimpleLiteral(Span(20, 22), IntT));
    var steps := Steps(pl);
    assert CollapseSteps(env, steps, 2, Some(Pending(1, None)), Visitor([], 0)) == (Some(Pending(1, None)), Visitor([], 0));
    assert CollapseSteps(env, steps, 1, Some(Pending(0, None)), Visitor([], 0)) == (Some(Pending(1, None)), Visitor([], 0));
    assert CollapseSteps(env, steps, 0, None, Visitor([], 0)) == (Some(Pending(1, None)), Visitor([], 0));
  }

  /** With pipeline hints switched off, the same pipeline gets none. */
  lemma PipelinesOff()
    ensures VisitPipeline(Env(Config(true, true, false)), Visitor([], 0),
                          Pipeline(Step(0, 3), [Step(4, 7), Step(11, 14)], Call(20, 25))).hints
            == []
  {
  }

  /** A function `fn f(a, b: Int)` with no return annotation: one parameter hint, then the return hint. */
  lemma FunctionHints()
    ensures GetInlayHints(Env(AllOn),
                          [Function(Span(0, 20), [Arg(IntT, false, Span(5, 6)), Arg(IntT, true, Span(8, 14))], [], IntT, false)])
            == [InlayHint(6, ": Int", Some(TypeKind), Some(false), None), InlayHint(20, "-> Int", Some(TypeKind), Some(true), None)]
  {
    var env := Env(AllOn);
    var args := [Arg(IntT, false, Span(5, 6)), Arg(IntT, true, Span(8, 14))];
    var f := Function(Span(0, 20), args, [], IntT, false);
    var paramHint := InlayHint(6, ": Int", Some(TypeKind), Some(false), None);
    assert env.printer.printType(0, IntT) == ("Int", 0);
    assert ": " + "Int" == ": Int" && "-> " + "Int" == "-> Int";
    assert PushBindingAnnotation(env, Visitor([], 0), IntT, false, Span(5, 6)) == Visitor([paramHint], 0);
    assert PushArgs(env, Visitor([], 0), args[1..]) == Visitor([], 0);
    assert PushArgs(env, Visitor([paramHint], 0), args[1..]) == Visitor([paramHint], 0);
    assert PushArgs(env, Visitor([], 0), args) == Visitor([paramHint], 0);
    assert VisitFunction(env, Visitor([], 0), f).hints
           == [paramHint, InlayHint(20, "-> Int", Some(TypeKind), Some(true), None)];
    assert [f][1..] == [];
    assert VisitFunctions(env, Visitor([], 0), [f]) == VisitFunction(env, Visitor([], 0), f);
  }

  /** A printer whose session is a counter: each print shows the counter's letter name and advances it. */
  function LetterPrint(s: nat, t: Type): (string, nat) {
    (Letters.LetterName(s), s + 1)
  }

  function LetteringEnv(): Env<nat> {
    InlayHints.Env(AllOn, ByTens, TypePrinter(0, LetterPrint))
  }

  /**
   `fn f(x, y)` without annotations, printed with a session that changes on
   every print: the parameters' labels and then the return label use the
   sessions in turn.
   */
  lemma FunctionHintsThreadSession()
    ensures GetInlayHints(LetteringEnv(),
                          [Function(Span(0, 20), [Arg(IntT, false, Span(5, 6)), Arg(IntT, false, Span(8, 9))], [], IntT, false)])
            == [InlayHint(6, ": a", Some(TypeKind), Some(false), None),
                InlayHint(9, ": b", Some(TypeKind), Some(false), None),
                InlayHint(20, "-> c", Some(TypeKind), Some(true), None)]
  {
    var env := LetteringEnv();
    var args := [Arg(IntT, false, Span(5, 6)), Arg(IntT, false, Span(8, 9))];
    var f := Function(Span(0, 20), args, [], IntT, false);
    var ha := InlayHint(6, ": a", Some(TypeKind), Some(false), None);
    var hb := InlayHint(9, ": b", Some(TypeKind), Some(false), None);
    var hc := InlayHint(20, "-> c", Some(TypeKind), Some(true), None);
    Letters.LetterNameExamples();
    assert Letters.LetterName(1) == "b" && Letters.LetterName(2) == "c";
    assert env.printer.printType(0, IntT) == ("a", 1);
    assert env.printer.printType(1, IntT) == ("b", 2);
    assert env.printer.printType(2, IntT) == ("c", 3);
    assert ": " + "a" == ": a" && ": " + "b" == ": b" && "-> " + "c" == "-> c";
    assert args[1..][1..] == [];
    assert PushArgs(env, Visitor([ha], 1), args[1..]) == Visitor([ha, hb], 2);
    assert PushArgs(env, Visitor([], 0), args) == Visitor([ha, hb], 2);
    assert VisitFunction(env, Visitor([], 0), f).hints == [ha, hb, hc];
    assert [f][1..] == [];
    assert VisitFunctions(env, Visitor([], 0), [f]) == VisitFunction(env, Visitor([], 0), f);
  }
}
