/**
 What the type printer promises: variable naming, qualification with and
 without an import context, transparency of links, and the stability of
 printed text within one session.
 */
module PrettyProperties {
  import opened Optional
  import opened Types
  import opened Letters
  import opened Pretty

  // ---------------------------------------------------------------------
  // Variable naming
  // ---------------------------------------------------------------------

  /** Asking again for an already-named variable changes nothing at all. */
  lemma GenericTypeVarIdempotent(p: Printer, id: nat)
    ensures var (n1, p1) := GenericTypeVar(p, id);
            GenericTypeVar(p1, id) == (n1, p1)
  {
    var (n1, p1) := GenericTypeVar(p, id);
    assert p1.printedTypes[n1 := ""] == p1.printedTypes;
  }

  /** Names fixed up front with `WithNames` are returned as they are, without using the counter. */
  lemma SeededNamesUsedAsIs(p: Printer, names: map<nat, string>, id: nat)
    requires id in names
    ensures var (n, q) := GenericTypeVar(WithNames(p, names), id);
            n == names[id] && q.uid == p.uid && q.names == names && q.printedTypes[n] == ""
  {
  }

  /**
   The names of a session that was not seeded: each is the letter name of a
   counter value already used, and no two variables share one.
   */
  ghost predicate SessionNames(p: Printer) {
    && (forall id | id in p.names :: IsLetterName(p.names[id]) && LetterNameValue(p.names[id]) < p.uid)
    && (forall id1, id2 | id1 in p.names && id2 in p.names && id1 != id2 :: p.names[id1] != p.names[id2])
  }

  lemma NewPrinterSessionNames()
    ensures SessionNames(NewPrinter())
  {
  }

  /** A newly named variable gets a name no other variable has. */
  lemma GenericTypeVarFreshName(p: Printer, id: nat)
    requires SessionNames(p)
    ensures var (n, q) := GenericTypeVar(p, id);
            && SessionNames(q)
            && (id !in p.names ==> forall other | other in p.names :: p.names[other] != n)
  {
    var (n, q) := GenericTypeVar(p, id);
    if id !in p.names {
      LetterNameValueOfLetterName(p.uid);
      forall other | other in p.names
        ensures p.names[other] != n
      {
        assert LetterNameValue(p.names[other]) < p.uid;
      }
    }
  }

  lemma {:induction false} PrintKeepsSessionNames(p: Printer, t: Type)
    requires SessionNames(p)
    ensures SessionNames(Print(p, t).1)
    decreases t
  {
    match t
    case Named(name, moduleName, _, _, args) =>
      var h := PrintNamedHead(p, name, moduleName);
      if h.keepsArgs && |args| > 0 {
        PrintArgsKeepSessionNames(h.printer, args);
      }
    case Fn(args, retrn) =>
      PrintArgsKeepSessionNames(p, args);
      PrintKeepsSessionNames(PrintArgs(p, args).1, retrn);
    case Var(v) =>
      PrintTypeVarKeepsSessionNames(p, v);
    case Tuple(elems) =>
      PrintArgsKeepSessionNames(p, elems);
  }

  lemma {:induction false} PrintTypeVarKeepsSessionNames(p: Printer, v: TypeVar)
    requires SessionNames(p)
    ensures SessionNames(PrintTypeVar(p, v).1)
    decreases v
  {
    match v
    case Link(linked) => PrintKeepsSessionNames(p, linked);
    case Unbound(id) => GenericTypeVarFreshName(p, id);
    case Generic(id) => GenericTypeVarFreshName(p, id);
  }

  lemma {:induction false} PrintArgsKeepSessionNames(p: Printer, ts: seq<Type>)
    requires SessionNames(p)
    ensures SessionNames(PrintArgs(p, ts).1)
    decreases ts
  {
    if |ts| > 0 {
      PrintKeepsSessionNames(p, ts[0]);
      if |ts| > 1 {
        PrintArgsKeepSessionNames(Print(p, ts[0]).1, ts[1..]);
      }
    }
  }

  // ---------------------------------------------------------------------
  // Links and variable kinds are invisible
  // ---------------------------------------------------------------------

  /** No link and no unbound variable anywhere in `t`: only generic variables remain. */
  predicate NormalForm(t: Type)
    decreases t
  {
    match t
    case Named(_, _, _, _, args) => AllNormalForm(args)
    case Fn(args, retrn) => AllNormalForm(args) && NormalForm(retrn)
    case Var(tv) => tv.Generic?
    case Tuple(elems) => AllNormalForm(elems)
  }

  predicate AllNormalForm(ts: seq<Type>)
    decreases ts
  {
    |ts| == 0 || (NormalForm(ts[0]) && AllNormalForm(ts[1..]))
  }

  /** `t` with every link followed and every unbound variable read as generic. */
  function Normalise(t: Type): (r: Type)
    ensures !(r.Var? && r.typeVar.Link?)
    ensures NormalForm(r)
    decreases t
  {
    match t
    case Named(name, moduleName, packageName, publicity, args) =>
      Named(name, moduleName, packageName, publicity, NormaliseAll(args))
    case Fn(args, retrn) => Fn(NormaliseAll(args), Normalise(retrn))
    case Var(Link(linked)) => Normalise(linked)
    case Var(Unbound(id)) => Var(Generic(id))
    case Var(Generic(id)) => Var(Generic(id))
    case Tuple(elems) => Tuple(NormaliseAll(elems))
  }

  function NormaliseAll(ts: seq<Type>): (rs: seq<Type>)
    ensures |rs| == |ts|
    ensures AllNormalForm(rs)
    decreases ts
  {
    if |ts| == 0 then [] else
      var rs := [Normalise(ts[0])] + NormaliseAll(ts[1..]);
      assert rs[1..] == NormaliseAll(ts[1..]);
      rs
  }

  /** A type already in normal form is left as it is, so `Normalise` is idempotent. */
  lemma {:induction false} NormaliseFixesNormalForm(t: Type)
    requires NormalForm(t)
    ensures Normalise(t) == t
    decreases t
  {
    match t
    case Named(_, _, _, _, args) => NormaliseAllFixesNormalForm(args);
    case Fn(args, retrn) =>
      NormaliseAllFixesNormalForm(args);
      NormaliseFixesNormalForm(retrn);
    case Var(_) =>
    case Tuple(elems) => NormaliseAllFixesNormalForm(elems);
  }

  lemma {:induction false} NormaliseAllFixesNormalForm(ts: seq<Type>)
    requires AllNormalForm(ts)
    ensures NormaliseAll(ts) == ts
    decreases ts
  {
    if |ts| > 0 {
      NormaliseFixesNormalForm(ts[0]);
      NormaliseAllFixesNormalForm(ts[1..]);
      assert [ts[0]] + ts[1..] == ts;
    }
  }

  /** Printing never shows links, nor whether a variable is unbound or generic. */
  lemma {:induction false} PrintIgnoresLinksAndVariableKind(p: Printer, t: Type)
    ensures Print(p, t) == Print(p, Normalise(t))
    decreases t
  {
    match t
    case Named(name, moduleName, _, _, args) =>
      var h := PrintNamedHead(p, name, moduleName);
      if h.keepsArgs && |args| > 0 {
        PrintArgsIgnoreLinksAndVariableKind(h.printer, args);
      }
    case Fn(args, retrn) =>
      PrintArgsIgnoreLinksAndVariableKind(p, args);
      PrintIgnoresLinksAndVariableKind(PrintArgs(p, args).1, retrn);
    case Var(Link(linked)) =>
      PrintIgnoresLinksAndVariableKind(p, linked);
    case Var(_) =>
    case Tuple(elems) =>
      PrintArgsIgnoreLinksAndVariableKind(p, elems);
  }

  lemma {:induction false} PrintArgsIgnoreLinksAndVariableKind(p: Printer, ts: seq<Type>)
    ensures PrintArgs(p, ts) == PrintArgs(p, NormaliseAll(ts))
    decreases ts
  {
    if |ts| > 0 {
      var ns := NormaliseAll(ts);
      assert ns[0] == Normalise(ts[0]) && ns[1..] == NormaliseAll(ts[1..]);
      PrintIgnoresLinksAndVariableKind(p, ts[0]);
      if |ts| > 1 {
        PrintArgsIgnoreLinksAndVariableKind(Print(p, ts[0]).1, ts[1..]);
      }
    }
  }

  /** The two arms of `type_var_doc`, as single facts. */
  lemma LinkAndVariableKind(p: Printer, t: Type, id: nat)
    ensures Print(p, Var(Link(t))) == Print(p, t)
    ensures Print(p, Var(Unbound(id))) == Print(p, Var(Generic(id)))
  {
  }

  // ---------------------------------------------------------------------
  // Qualification under an import context
  // ---------------------------------------------------------------------

  /** Prelude types and types of the context's own module print bare, arguments kept. */
  lemma PreludeAndOwnModuleBare(p: Printer, t: Type)
    requires p.context.Some? && t.Named?
    requires t.moduleName == Prelude || t.moduleName == p.context.value.moduleName
    ensures |t.args| == 0 ==> Print(p, t) == (t.name, p)
    ensures |t.args| > 0 ==> Print(p, t).0 == t.name + "(" + PrintArgs(p, t.args).0 + ")"
  {
  }

  lemma FirstImportUnique(imports: seq<Import>, moduleName: string, i: int, k: int)
    requires FirstImportOf(imports, moduleName, i) && FirstImportOf(imports, moduleName, k)
    ensures i == k
  {
  }

  lemma FirstUnqualifiedUnique(us: seq<UnqualifiedImport>, name: string, j: int, k: int)
    requires FirstUnqualifiedOf(us, name, j) && FirstUnqualifiedOf(us, name, k)
    ensures j == k
  {
  }

  /**
   A type the first import of its module lists unqualified prints as that
   entry's local name (or its own name), ignoring the module alias; the
   argument list is dropped and the session is unchanged.
   */
  lemma UnqualifiedImportPrintsLocalName(p: Printer, t: Type, i: nat, j: nat)
    requires p.context.Some? && t.Named?
    requires t.moduleName != Prelude && t.moduleName != p.context.value.moduleName
    requires FirstImportOf(p.context.value.imports, t.moduleName, i)
    requires FirstUnqualifiedOf(p.context.value.imports[i].unqualifiedTypes, t.name, j)
    ensures Print(p, t) == (p.context.value.imports[i].unqualifiedTypes[j].asName.UnwrapOr(t.name), p)
  {
    var imports := p.context.value.imports;
    var found := FindImport(imports, t.moduleName);
    var i' :| 0 <= i' < |imports| && imports[i'] == found.value && FirstImportOf(imports, t.moduleName, i');
    FirstImportUnique(imports, t.moduleName, i, i');
    var us := imports[i].unqualifiedTypes;
    var u := FindUnqualified(us, t.name);
    var j' :| 0 <= j' < |us| && us[j'] == u.value && FirstUnqualifiedOf(us, t.name, j');
    FirstUnqualifiedUnique(us, t.name, j, j');
  }

  /** An imported module's types are qualified by the import's alias, or else by the module itself. */
  lemma ImportedModuleQualified(p: Printer, t: Type, i: nat)
    requires p.context.Some? && t.Named? && |t.args| == 0
    requires t.moduleName != Prelude && t.moduleName != p.context.value.moduleName
    requires FirstImportOf(p.context.value.imports, t.moduleName, i)
    requires forall j | 0 <= j < |p.context.value.imports[i].unqualifiedTypes| ::
               p.context.value.imports[i].unqualifiedTypes[j].name != t.name
    ensures Print(p, t) == (p.context.value.imports[i].renaming.UnwrapOr(t.moduleName) + "." + t.name, p)
  {
    var imports := p.context.value.imports;
    var found := FindImport(imports, t.moduleName);
    var i' :| 0 <= i' < |imports| && imports[i'] == found.value && FirstImportOf(imports, t.moduleName, i');
    FirstImportUnique(imports, t.moduleName, i, i');
  }

  /** A type from a module that is not imported is qualified by the module's own name. */
  lemma UnimportedModuleQualified(p: Printer, t: Type)
    requires p.context.Some? && t.Named? && |t.args| == 0
    requires t.moduleName != Prelude && t.moduleName != p.context.value.moduleName
    requires forall i | 0 <= i < |p.context.value.imports| :: p.context.value.imports[i].moduleName != t.moduleName
    ensures Print(p, t) == (t.moduleName + "." + t.name, p)
  {
  }

  /** An import aliased with a discard name does not rename: its types are qualified by the module. */
  lemma DiscardedAliasQualifiesByModule(p: Printer, t: Type, i: AstImport, currentModule: string)
    requires t.Named? && |t.args| == 0
    requires i.moduleName == t.moduleName && i.asName.Some? && i.asName.value.Discard?
    requires forall k | 0 <= k < |i.unqualifiedTypes| :: i.unqualifiedTypes[k].name != t.name
    requires t.moduleName != Prelude && t.moduleName != currentModule
    ensures Print(WithImportsContext(p, currentModule, [ImportFromAst(i)]), t).0 == t.moduleName + "." + t.name
  {
    var q := WithImportsContext(p, currentModule, [ImportFromAst(i)]);
    ImportedModuleQualified(q, t, 0);
  }

  /** The local name an unqualified import gives a type, if the context has one for it. */
  ghost predicate UnqualifiedImportApplies(p: Printer, t: Type)
    requires t.Named?
  {
    && p.context.Some?
    && t.moduleName != Prelude
    && t.moduleName != p.context.value.moduleName
    && exists i | 0 <= i < |p.context.value.imports| ::
         && FirstImportOf(p.context.value.imports, t.moduleName, i)
         && exists j | 0 <= j < |p.context.value.imports[i].unqualifiedTypes| ::
              p.context.value.imports[i].unqualifiedTypes[j].name == t.name
  }

  /**
   Unless an unqualified import applies, arguments are printed after the
   constructor, in parentheses, continuing the session the constructor left.
   */
  lemma NamedArgumentList(p: Printer, t: Type)
    requires t.Named? && |t.args| > 0 && !UnqualifiedImportApplies(p, t)
    ensures var (head, q) := Print(p, Named(t.name, t.moduleName, t.packageName, t.publicity, []));
            var (args, q') := PrintArgs(q, t.args);
            Print(p, t) == (head + "(" + args + ")", q')
  {
    HeadDropsArgsOnlyForUnqualifiedImport(p, t);
  }

  /** The only head that drops the argument list is an unqualified import's local name. */
  lemma HeadDropsArgsOnlyForUnqualifiedImport(p: Printer, t: Type)
    requires t.Named?
    ensures !PrintNamedHead(p, t.name, t.moduleName).keepsArgs ==> UnqualifiedImportApplies(p, t)
  {
    if !PrintNamedHead(p, t.name, t.moduleName).keepsArgs {
      var ctx := p.context.value;
      var found := FindImport(ctx.imports, t.moduleName);
      var i :| 0 <= i < |ctx.imports| && ctx.imports[i] == found.value && FirstImportOf(ctx.imports, t.moduleName, i);
      var u := FindUnqualified(found.value.unqualifiedTypes, t.name);
      var j :| 0 <= j < |found.value.unqualifiedTypes| && found.value.unqualifiedTypes[j] == u.value
               && FirstUnqualifiedOf(found.value.unqualifiedTypes, t.name, j);
      assert ctx.imports[i].unqualifiedTypes[j].name == t.name;
    }
  }

  // ---------------------------------------------------------------------
  // Clash detection without a context
  // ---------------------------------------------------------------------

  /** The first print of a name is bare and records the module it came from. */
  lemma FirstPrintRecordsModule(p: Printer, t: Type)
    requires p.context.None? && t.Named? && |t.args| == 0
    requires t.name !in p.printedTypes
    ensures Print(p, t) == (t.name, p.(printedTypes := p.printedTypes[t.name := t.moduleName]))
  {
  }

  /** A later print from the recorded module is bare and leaves the session unchanged. */
  lemma SameModuleStaysBare(p: Printer, t: Type)
    requires p.context.None? && t.Named? && |t.args| == 0
    requires t.name in p.printedTypes && p.printedTypes[t.name] == t.moduleName
    ensures Print(p, t) == (t.name, p)
  {
    assert p.printedTypes[t.name := t.moduleName] == p.printedTypes;
  }

  /** A later print from another module is qualified and keeps the first module recorded. */
  lemma OtherModuleQualified(p: Printer, t: Type)
    requires p.context.None? && t.Named? && |t.args| == 0
    requires t.name in p.printedTypes && p.printedTypes[t.name] != t.moduleName
    ensures Print(p, t) == (t.moduleName + "." + t.name, p)
  {
  }

  /** Without a context, a name is printed bare exactly when printing it bare would not clash. */
  lemma BareIffNoClash(p: Printer, name: string, moduleName: string)
    requires p.context.None?
    ensures PrintNamedHead(p, name, moduleName).text == name <==> !NameClashesIfUnqualified(p, name, moduleName)
  {
  }

  /** A qualified name is the module name, then one dot, then the type name, and nothing else. */
  lemma QualifyTypeNameParts(moduleName: string, typeName: string)
    ensures var r := QualifyTypeName(moduleName, typeName);
            && |r| == |moduleName| + 1 + |typeName|
            && r[..|moduleName|] == moduleName && r[|moduleName|] == '.' && r[|moduleName| + 1..] == typeName
  {
  }

  /**
   A qualified name gives back its module and its type name, as long as the
   module name has no dot (Gleam module paths are separated by `/`).
   */
  lemma QualifyTypeNameInjective(m1: string, n1: string, m2: string, n2: string)
    requires '.' !in m1 && '.' !in m2
    requires QualifyTypeName(m1, n1) == QualifyTypeName(m2, n2)
    ensures m1 == m2 && n1 == n2
  {
    QualifyTypeNameParts(m1, n1);
    QualifyTypeNameParts(m2, n2);
  }

  // ---------------------------------------------------------------------
  // Printing the same type twice in one session gives the same text
  // ---------------------------------------------------------------------

  /** A string that could be a variable name: it starts with a lower-case letter. */
  predicate LooksLikeVariable(s: string) {
    |s| > 0 && IsLetter(s[0])
  }

  ghost predicate VariableNamesLookLikeVariables(p: Printer) {
    forall id | id in p.names :: LooksLikeVariable(p.names[id])
  }

  /** No named type in `t` has a name that could be mistaken for a variable name. */
  ghost predicate TypeNamesDistinctFromVariables(t: Type)
    decreases t
  {
    match t
    case Named(name, _, _, _, args) => !LooksLikeVariable(name) && TypeNamesDistinctFromVariablesAll(args)
    case Fn(args, retrn) => TypeNamesDistinctFromVariablesAll(args) && TypeNamesDistinctFromVariables(retrn)
    case Var(Link(linked)) => TypeNamesDistinctFromVariables(linked)
    case Var(_) => true
    case Tuple(elems) => TypeNamesDistinctFromVariablesAll(elems)
  }

  ghost predicate TypeNamesDistinctFromVariablesAll(ts: seq<Type>)
    decreases ts
  {
    |ts| > 0 ==> TypeNamesDistinctFromVariables(ts[0]) && TypeNamesDistinctFromVariablesAll(ts[1..])
  }

  /** `q` is a later state of the session `p`: same context, and every decision recorded in `p` still stands. */
  ghost predicate Extends(p: Printer, q: Printer) {
    && q.context == p.context
    && KeepsNames(p, q)
    && forall n | n in p.printedTypes && !LooksLikeVariable(n) ::
         n in q.printedTypes && q.printedTypes[n] == p.printedTypes[n]
  }

  lemma ExtendsTransitive(p: Printer, q: Printer, r: Printer)
    requires Extends(p, q) && Extends(q, r)
    ensures Extends(p, r)
  {
  }

  lemma HeadExtends(p: Printer, name: string, moduleName: string)
    ensures Extends(p, PrintNamedHead(p, name, moduleName).printer)
  {
  }

  lemma {:induction false} PrintExtends(p: Printer, t: Type)
    requires VariableNamesLookLikeVariables(p)
    ensures Extends(p, Print(p, t).1) && VariableNamesLookLikeVariables(Print(p, t).1)
    decreases t
  {
    match t
    case Named(name, moduleName, _, _, args) =>
      var h := PrintNamedHead(p, name, moduleName);
      HeadExtends(p, name, moduleName);
      if h.keepsArgs && |args| > 0 {
        PrintArgsExtend(h.printer, args);
        ExtendsTransitive(p, h.printer, PrintArgs(h.printer, args).1);
      }
    case Fn(args, retrn) =>
      PrintArgsExtend(p, args);
      var p1 := PrintArgs(p, args).1;
      PrintExtends(p1, retrn);
      ExtendsTransitive(p, p1, Print(p1, retrn).1);
    case Var(v) =>
      PrintTypeVarExtends(p, v);
    case Tuple(elems) =>
      PrintArgsExtend(p, elems);
  }

  lemma {:induction false} PrintTypeVarExtends(p: Printer, v: TypeVar)
    requires VariableNamesLookLikeVariables(p)
    ensures Extends(p, PrintTypeVar(p, v).1) && VariableNamesLookLikeVariables(PrintTypeVar(p, v).1)
    decreases v
  {
    match v
    case Link(linked) => PrintExtends(p, linked);
    case Unbound(id) =>
    case Generic(id) =>
  }

  lemma {:induction false} PrintArgsExtend(p: Printer, ts: seq<Type>)
    requires VariableNamesLookLikeVariables(p)
    ensures Extends(p, PrintArgs(p, ts).1) && VariableNamesLookLikeVariables(PrintArgs(p, ts).1)
    decreases ts
  {
    if |ts| > 0 {
      PrintExtends(p, ts[0]);
      var p1 := Print(p, ts[0]).1;
      if |ts| > 1 {
        PrintArgsExtend(p1, ts[1..]);
        ExtendsTransitive(p, p1, PrintArgs(p1, ts[1..]).1);
      }
    }
  }

  /**
   Printing `t` from any later state `r` of the session that printed it
   gives the same text: every naming and qualification decision made the
   first time is still recorded in `r`.
   */
  lemma {:induction false} PrintStable(q: Printer, t: Type, r: Printer)
    requires VariableNamesLookLikeVariables(q) && VariableNamesLookLikeVariables(r)
    requires TypeNamesDistinctFromVariables(t)
    requires Extends(Print(q, t).1, r)
    ensures Print(r, t).0 == Print(q, t).0
    decreases t
  {
    match t
    case Named(name, moduleName, _, _, args) =>
      var hq := PrintNamedHead(q, name, moduleName);
      var hr := PrintNamedHead(r, name, moduleName);
      HeadExtends(q, name, moduleName);
      HeadExtends(r, name, moduleName);
      var last := Print(q, t).1;
      if hq.keepsArgs && |args| > 0 {
        PrintArgsExtend(hq.printer, args);
      }
      assert Extends(hq.printer, last);
      ExtendsTransitive(hq.printer, last, r);
      assert hr.text == hq.text && hr.keepsArgs == hq.keepsArgs;
      if hq.keepsArgs && |args| > 0 {
        ExtendsTransitive(last, r, hr.printer);
        PrintArgsStable(hq.printer, args, hr.printer);
      }
    case Fn(args, retrn) =>
      var q1 := PrintArgs(q, args).1;
      var q2 := Print(q1, retrn).1;
      PrintArgsExtend(q, args);
      PrintExtends(q1, retrn);
      ExtendsTransitive(q1, q2, r);
      PrintArgsStable(q, args, r);
      var r1 := PrintArgs(r, args).1;
      PrintArgsExtend(r, args);
      ExtendsTransitive(q2, r, r1);
      PrintStable(q1, retrn, r1);
    case Var(v) =>
      PrintTypeVarStable(q, v, r);
    case Tuple(elems) =>
      PrintArgsStable(q, elems, r);
  }

  lemma {:induction false} PrintTypeVarStable(q: Printer, v: TypeVar, r: Printer)
    requires VariableNamesLookLikeVariables(q) && VariableNamesLookLikeVariables(r)
    requires TypeNamesDistinctFromVariables(Var(v))
    requires Extends(PrintTypeVar(q, v).1, r)
    ensures PrintTypeVar(r, v).0 == PrintTypeVar(q, v).0
    decreases v
  {
    match v
    case Link(linked) => PrintStable(q, linked, r);
    case Unbound(id) =>
    case Generic(id) =>
  }

  lemma {:induction false} PrintArgsStable(q: Printer, ts: seq<Type>, r: Printer)
    requires VariableNamesLookLikeVariables(q) && VariableNamesLookLikeVariables(r)
    requires TypeNamesDistinctFromVariablesAll(ts)
    requires Extends(PrintArgs(q, ts).1, r)
    ensures PrintArgs(r, ts).0 == PrintArgs(q, ts).0
    decreases ts
  {
    if |ts| > 0 {
      var q1 := Print(q, ts[0]).1;
      PrintExtends(q, ts[0]);
      if |ts| > 1 {
        var q2 := PrintArgs(q1, ts[1..]).1;
        PrintArgsExtend(q1, ts[1..]);
        ExtendsTransitive(q1, q2, r);
        PrintStable(q, ts[0], r);
        var r1 := Print(r, ts[0]).1;
        PrintExtends(r, ts[0]);
        ExtendsTransitive(q2, r, r1);
        PrintArgsStable(q1, ts[1..], r1);
      } else {
        PrintStable(q, ts[0], r);
      }
    }
  }

  /** Printing the same type twice in one session yields identical text. */
  lemma PrintTwiceSameText(p: Printer, t: Type)
    requires VariableNamesLookLikeVariables(p) && TypeNamesDistinctFromVariables(t)
    ensures Print(Print(p, t).1, t).0 == Print(p, t).0
  {
    PrintExtends(p, t);
    PrintStable(p, t, Print(p, t).1);
  }
}
