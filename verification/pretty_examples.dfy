/** The expected outputs of the unit tests in Gleam's `pretty.rs`, and further worked examples, proved of the model. */
module PrettyExamples {
  import opened Optional
  import opened Types
  import opened Pretty
  import opened PrettyProperties

  function Simple(name: string, moduleName: string): Type {
    Named(name, moduleName, "whatever", Public, [])
  }

  function IntType(): Type { Simple("Int", "gleam") }

  function MyType(moduleName: string): Type { Named("MyType", moduleName, "some_package", Public, []) }

  /** A two-element argument list, unfolded. */
  lemma PrintArgsOfTwo(p: Printer, a: Type, b: Type)
    ensures var (x, p1) := Print(p, a);
            var (y, p2) := Print(p1, b);
            PrintArgs(p, [a, b]) == (x + ", " + y, p2)
  {
    assert [a, b][0] == a && [a, b][1..] == [b];
  }

  /** The bare cases of Gleam's `pretty_print_test`: a named type and a link to it. */
  lemma PrettyPrintNamedCases()
    ensures Print(NewPrinter(), Simple("Int", "whatever")).0 == "Int"
    ensures Print(NewPrinter(), Var(Link(Simple("Int", "whatever")))).0 == "Int"
  {
    FirstPrintRecordsModule(NewPrinter(), Simple("Int", "whatever"));
  }

  /** A named type applied to two arguments, from Gleam's `pretty_print_test`. */
  lemma PrettyPrintAppliedCase()
    ensures Print(NewPrinter(), Named("Pair", "themodule", "whatever", Public,
              [Simple("Int", "whatever"), Simple("Bool", "whatever")])).0 == "Pair(Int, Bool)"
  {
    var p := NewPrinter();
    var intT := Simple("Int", "whatever");
    var boolT := Simple("Bool", "whatever");
    var head := PrintNamedHead(p, "Pair", "themodule");
    var pair := p.(printedTypes := map["Pair" := "themodule"]);
    assert head == NamedHead("Pair", true, pair);
    PairArguments(pair, intT, boolT);
  }

  /** `Int, Bool` printed into a session that has printed only `Pair`. */
  lemma PairArguments(pair: Printer, intT: Type, boolT: Type)
    requires pair == NewPrinter().(printedTypes := map["Pair" := "themodule"])
    requires intT == Simple("Int", "whatever") && boolT == Simple("Bool", "whatever")
    ensures PrintArgs(pair, [intT, boolT]).0 == "Int, Bool"
  {
    FirstPrintRecordsModule(pair, intT);
    var q := Print(pair, intT).1;
    assert q.context.None? && "Bool" !in q.printedTypes;
    FirstPrintRecordsModule(q, boolT);
    PrintArgsOfTwo(pair, intT, boolT);
  }

  /** A function type, from Gleam's `pretty_print_test`: the return type is printed after the arguments. */
  lemma PrettyPrintFunctionCase()
    ensures Print(NewPrinter(), Fn([Simple("Int", "whatever"), Simple("Bool", "whatever")],
              Simple("Bool", "whatever"))).0 == "fn(Int, Bool) -> Bool"
  {
    var p := NewPrinter();
    var intT := Simple("Int", "whatever");
    var boolT := Simple("Bool", "whatever");
    FirstPrintRecordsModule(p, intT);
    var q := Print(p, intT).1;
    assert q.context.None? && "Bool" !in q.printedTypes;
    FirstPrintRecordsModule(q, boolT);
    var q' := Print(q, boolT).1;
    PrintArgsOfTwo(p, intT, boolT);
    assert q'.printedTypes["Bool"] == "whatever";
    SameModuleStaysBare(q', boolT);
  }

  /** Variables are lettered in order of discovery, whatever their ids, unbound or generic alike. */
  lemma PrettyPrintVariableCases()
    ensures Print(NewPrinter(), Var(Unbound(2231))).0 == "a"
    ensures Print(NewPrinter(), Fn([Var(Unbound(78))], Var(Unbound(2)))).0 == "fn(a) -> b"
    ensures Print(NewPrinter(), Fn([Var(Generic(78))], Var(Generic(2)))).0 == "fn(a) -> b"
  {
    Letters.LetterNameExamples();
    assert Letters.LetterName(1) == "b";
    var p := NewPrinter();
    var q := PrintArgs(p, [Var(Unbound(78))]).1;
    assert q.uid == 1 && 2 !in q.names;
    var q' := PrintArgs(p, [Var(Generic(78))]).1;
    assert q'.uid == 1 && 2 !in q'.names;
  }

  /** The cases of Gleam's `function_test` that fit on one line. */
  lemma FunctionTestCases()
    ensures Print(NewPrinter(), Fn([], IntType())).0 == "fn() -> Int"
    ensures Print(NewPrinter(), Fn([IntType(), IntType(), IntType()], IntType())).0 == "fn(Int, Int, Int) -> Int"
  {
    var p := NewPrinter();
    FirstPrintRecordsModule(p, IntType());
    var r := Print(p, IntType()).1;
    SameModuleStaysBare(r, IntType());
    assert [IntType(), IntType(), IntType()][1..] == [IntType(), IntType()];
    assert [IntType(), IntType()][1..] == [IntType()];
    PrintArgsOfTwo(r, IntType(), IntType());
  }

  /** Gleam's qualification tests of qualified and renamed imports: each under the context of module `my_module`. */
  lemma QualificationTestCases()
    ensures Print(WithImportsContext(NewPrinter(), "my_module", [Import("external_module", None, [])]),
              MyType("external_module")).0 == "external_module.MyType"
    ensures Print(WithImportsContext(NewPrinter(), "my_module", []), MyType("external_module")).0
              == "external_module.MyType"
    ensures Print(WithImportsContext(NewPrinter(), "my_module", [Import("external_module", Some("renamed_module"), [])]),
              MyType("external_module")).0 == "renamed_module.MyType"
    ensures Print(WithImportsContext(NewPrinter(), "my_module", [Import("my_module", Some("renamed_module"), [])]),
              MyType("my_module")).0 == "MyType"
    ensures Print(WithImportsContext(NewPrinter(), "my_module", []), IntType()).0 == "Int"
  {
  }

  /** Gleam's qualification tests of types imported unqualified, under the context of module `my_module`. */
  lemma UnqualifiedImportTestCases()
    ensures Print(WithImportsContext(NewPrinter(), "my_module",
              [Import("external_module", None, [UnqualifiedImport("MyType", None)])]),
              MyType("external_module")).0 == "MyType"
    ensures Print(WithImportsContext(NewPrinter(), "my_module",
              [Import("external_module", None, [UnqualifiedImport("MyType", Some("RenamedType"))])]),
              MyType("external_module")).0 == "RenamedType"
  {
  }

  /** Without a context: a name printed from module A, then from module B, then from A again. */
  lemma ClashExample()
    ensures var (first, p1) := Print(NewPrinter(), Simple("Name", "a"));
            var (second, p2) := Print(p1, Simple("Name", "b"));
            var (third, _) := Print(p2, Simple("Name", "a"));
            first == "Name" && second == "b.Name" && third == "Name"
  {
  }

  /**
   Printing twice can differ when a type's name looks like a variable
   letter: the variable's letter is recorded as printed from no module,
   so the second print of the type `a` from module `m` is qualified.
   */
  lemma PrintTwiceDiffersForLetterLikeTypeNames()
    ensures var t := Tuple([Simple("a", "m"), Var(Unbound(0))]);
            var (first, p1) := Print(NewPrinter(), t);
            first == "#(a, a)" && Print(p1, t).0 == "#(m.a, a)"
  {
    Letters.LetterNameExamples();
    var t := Tuple([Simple("a", "m"), Var(Unbound(0))]);
    var p := NewPrinter();
    var p0 := Print(p, t.elems[0]).1;
    assert p0.names == map[] && p0.uid == 0;
    var p1 := Print(p, t).1;
    assert p1.names[0] == "a" && p1.printedTypes["a"] == "";
    assert Print(p1, t.elems[0]).0 == "m.a";
    var p2 := Print(p1, t.elems[0]).1;
    assert p2.names[0] == "a";
  }

  /**
   The other condition of `PrintTwiceSameText`: every type name here is
   capitalised, but a name seeded through `with_names` is `Int`. Recording
   it as a module-less printed type makes the second print qualify `Int`.
   */
  lemma PrintTwiceDiffersForTypeLikeVariableNames()
    ensures var p := WithNames(NewPrinter(), map[1 := "Int"]);
            var t := Tuple([IntType(), Var(Generic(1))]);
            var (first, p1) := Print(p, t);
            first == "#(Int, Int)" && Print(p1, t).0 == "#(gleam.Int, Int)"
  {
    var p := WithNames(NewPrinter(), map[1 := "Int"]);
    var t := Tuple([IntType(), Var(Generic(1))]);
    var p0 := Print(p, t.elems[0]).1;
    assert p0.names == map[1 := "Int"] && p0.printedTypes == map["Int" := "gleam"];
    var p1 := Print(p, t).1;
    assert p1.names[1] == "Int" && p1.printedTypes["Int"] == "";
    assert Print(p1, t.elems[0]).0 == "gleam.Int";
    var p2 := Print(p1, t.elems[0]).1;
    assert p2.names[1] == "Int";
  }
}
