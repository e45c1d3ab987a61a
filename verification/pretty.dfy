/**
 The type printer: turns a `Type` into text.

 A `Printer` holds the naming state of one printing session: the letters
 already given to type variables, the counter for the next letter, the
 module each unqualified type name was first printed from, and an optional
 import context. Every printing function takes the state and returns the
 text together with the updated state.

 The printer builds a layout document; this model returns the text that
 document renders to when it fits on one line: ", " between arguments,
 no trailing comma, and one space before a function's return type.
 */
module Pretty {
  import opened Optional
  import opened Types
  import opened Letters

  /** The module whose types are never qualified when a context is set. */
  const Prelude: string := "gleam"

  datatype UnqualifiedImport = UnqualifiedImport(name: string, asName: Option<string>)

  datatype Import = Import(moduleName: string, renaming: Option<string>, unqualifiedTypes: seq<UnqualifiedImport>)

  datatype ImportContext = ImportContext(moduleName: string, imports: seq<Import>)

  datatype Printer = Printer(
    names: map<nat, string>,
    uid: nat,
    printedTypes: map<string, string>,  // type name -> module it was printed from
    context: Option<ImportContext>
  )

  /** The parts of a source `import` statement the printer reads. */
  datatype AssignName = Variable(name: string) | Discard(name: string)

  datatype AstUnqualifiedType = AstUnqualifiedType(name: string, asName: Option<string>)

  datatype AstImport = AstImport(moduleName: string, asName: Option<AssignName>, unqualifiedTypes: seq<AstUnqualifiedType>)

  /** Converts an import statement; an alias written as a discard (`as _x`) is no rename. */
  function ImportFromAst(i: AstImport): (r: Import)
    ensures r.moduleName == i.moduleName
    ensures r.renaming.Some? <==> i.asName.Some? && i.asName.value.Variable?
    ensures r.renaming.Some? ==> r.renaming.value == i.asName.value.name
    ensures |r.unqualifiedTypes| == |i.unqualifiedTypes|
    ensures forall k | 0 <= k < |i.unqualifiedTypes| ::
              r.unqualifiedTypes[k].name == i.unqualifiedTypes[k].name
              && r.unqualifiedTypes[k].asName == i.unqualifiedTypes[k].asName
  {
    Import(
      i.moduleName,
      match i.asName
      case Some(Variable(n)) => Some(n)
      case Some(Discard(_)) => None
      case None => None,
      seq(|i.unqualifiedTypes|, k requires 0 <= k < |i.unqualifiedTypes| =>
        UnqualifiedImport(i.unqualifiedTypes[k].name, i.unqualifiedTypes[k].asName)))
  }

  function NewPrinter(): (p: Printer)
    ensures p.names == map[] && p.uid == 0 && p.printedTypes == map[] && p.context.None?
  {
    Printer(map[], 0, map[], None)
  }

  function WithImportsContext(p: Printer, moduleName: string, imports: seq<Import>): (r: Printer)
    ensures r.context == Some(ImportContext(moduleName, imports))
    ensures r.names == p.names && r.uid == p.uid && r.printedTypes == p.printedTypes
  {
    p.(context := Some(ImportContext(moduleName, imports)))
  }

  /** Replaces (does not merge) the variable names, so a caller can fix some letters up front. */
  function WithNames(p: Printer, names: map<nat, string>): (r: Printer)
    ensures r.names == names
    ensures r.uid == p.uid && r.printedTypes == p.printedTypes && r.context == p.context
  {
    p.(names := names)
  }

  /** The first import of `moduleName`, as the iterator search in `print` finds it. */
  function FindImport(imports: seq<Import>, moduleName: string): (r: Option<Import>)
    ensures r.None? <==> forall i | 0 <= i < |imports| :: imports[i].moduleName != moduleName
    ensures r.Some? ==> exists i | 0 <= i < |imports| :: imports[i] == r.value && FirstImportOf(imports, moduleName, i)
  {
    if |imports| == 0 then None
    else if imports[0].moduleName == moduleName then Some(imports[0])
    else
      var r := FindImport(imports[1..], moduleName);
      if r.Some? then
        ghost var i :| 0 <= i < |imports[1..]| && imports[1..][i] == r.value && FirstImportOf(imports[1..], moduleName, i);
        assert imports[i + 1] == r.value && FirstImportOf(imports, moduleName, i + 1);
        r
      else r
  }

  ghost predicate FirstImportOf(imports: seq<Import>, moduleName: string, i: int) {
    && 0 <= i < |imports|
    && imports[i].moduleName == moduleName
    && forall j | 0 <= j < i :: imports[j].moduleName != moduleName
  }

  /** The first unqualified import of the type `name`. */
  function FindUnqualified(us: seq<UnqualifiedImport>, name: string): (r: Option<UnqualifiedImport>)
    ensures r.None? <==> forall j | 0 <= j < |us| :: us[j].name != name
    ensures r.Some? ==> exists j | 0 <= j < |us| :: us[j] == r.value && FirstUnqualifiedOf(us, name, j)
  {
    if |us| == 0 then None
    else if us[0].name == name then Some(us[0])
    else
      var r := FindUnqualified(us[1..], name);
      if r.Some? then
        ghost var j :| 0 <= j < |us[1..]| && us[1..][j] == r.value && FirstUnqualifiedOf(us[1..], name, j);
        assert us[j + 1] == r.value && FirstUnqualifiedOf(us, name, j + 1);
        r
      else r
  }

  ghost predicate FirstUnqualifiedOf(us: seq<UnqualifiedImport>, name: string, j: int) {
    && 0 <= j < |us|
    && us[j].name == name
    && forall k | 0 <= k < j :: us[k].name != name
  }

  /** `module.Type`: the qualifier, a dot, then the type's name. */
  function QualifyTypeName(moduleName: string, typeName: string): string {
    moduleName + "." + typeName
  }

  /** Printing `name` bare would clash with a same-named type already printed from another module. */
  function NameClashesIfUnqualified(p: Printer, name: string, moduleName: string): (r: bool)
    ensures name !in p.printedTypes ==> !r
    ensures name in p.printedTypes && p.printedTypes[name] == moduleName ==> !r
    ensures name in p.printedTypes && p.printedTypes[name] != moduleName ==> r
  {
    name in p.printedTypes && p.printedTypes[name] != moduleName
  }

  /** Gives out the name for the current counter value and advances the counter. */
  function NextLetter(p: Printer): (r: (string, Printer))
    ensures r.0 == LetterName(p.uid)
    ensures IsLetterName(r.0) && LetterNameValue(r.0) == p.uid
    ensures r.1 == p.(uid := p.uid + 1)
  {
    LetterNameValueOfLetterName(p.uid);
    (LetterLoop(p.uid, []), p.(uid := p.uid + 1))
  }

  /** The name of the type variable `id`, giving it the next letter on first sight. */
  function GenericTypeVar(p: Printer, id: nat): (r: (string, Printer))
    ensures id in p.names ==> r.0 == p.names[id] && r.1.uid == p.uid && r.1.names == p.names
    ensures id !in p.names ==> r.0 == LetterName(p.uid) && r.1.uid == p.uid + 1 && r.1.names == p.names[id := r.0]
    ensures r.1.printedTypes == p.printedTypes[r.0 := ""]
    ensures r.1.context == p.context
  {
    if id in p.names then
      var n := p.names[id];
      (n, p.(printedTypes := p.printedTypes[n := ""]))
    else
      var (n, p') := NextLetter(p);
      (n, p'.(names := p'.names[id := n], printedTypes := p'.printedTypes[n := ""]))
  }

  /** How a named type's constructor is written, and whether its arguments follow. */
  datatype NamedHead = NamedHead(text: string, keepsArgs: bool, printer: Printer)

  function PrintNamedHead(p: Printer, name: string, moduleName: string): (h: NamedHead)
    ensures h.printer.names == p.names && h.printer.uid == p.uid && h.printer.context == p.context
    ensures p.context.Some? ==> h.printer == p
    ensures p.context.None? ==> h.keepsArgs
  {
    match p.context
    case Some(ctx) =>
      if moduleName == Prelude || ctx.moduleName == moduleName then
        NamedHead(name, true, p)
      else
        var import_ := FindImport(ctx.imports, moduleName);
        var unqualified := if import_.Some? then FindUnqualified(import_.value.unqualifiedTypes, name) else None;
        if unqualified.Some? then
          // unqualified use: the constructor alone, its argument list is not appended
          NamedHead(unqualified.value.asName.UnwrapOr(name), false, p)
        else
          var renaming := if import_.Some? then import_.value.renaming else None;
          NamedHead(QualifyTypeName(renaming.UnwrapOr(moduleName), name), true, p)
    case None =>
      if NameClashesIfUnqualified(p, name, moduleName) then
        NamedHead(QualifyTypeName(moduleName, name), true, p)
      else
        NamedHead(name, true, p.(printedTypes := p.printedTypes[name := moduleName]))
  }

  /** Every variable name already given out is kept, with the same letters. */
  ghost predicate KeepsNames(p: Printer, q: Printer) {
    forall id | id in p.names :: id in q.names && q.names[id] == p.names[id]
  }

  /** The text of `t` (flat layout) and the printer state after printing it. */
  function Print(p: Printer, t: Type): (r: (string, Printer))
    ensures r.1.context == p.context && r.1.uid >= p.uid
    ensures KeepsNames(p, r.1)
    decreases t
  {
    match t
    case Named(name, moduleName, _, _, args) =>
      var h := PrintNamedHead(p, name, moduleName);
      if !h.keepsArgs || |args| == 0 then (h.text, h.printer)
      else
        var (s, p') := PrintArgs(h.printer, args);
        (h.text + "(" + s + ")", p')
    case Fn(args, retrn) =>
      var (s, p1) := PrintArgs(p, args);
      var (ret, p2) := Print(p1, retrn);
      ("fn(" + s + ") -> " + ret, p2)
    case Var(typeVar) => PrintTypeVar(p, typeVar)
    case Tuple(elems) =>
      var (s, p') := PrintArgs(p, elems);
      ("#(" + s + ")", p')
  }

  /** A link prints as the type it points to; unbound and generic variables print alike. */
  function PrintTypeVar(p: Printer, v: TypeVar): (r: (string, Printer))
    ensures r.1.context == p.context && r.1.uid >= p.uid
    ensures KeepsNames(p, r.1)
    decreases v
  {
    match v
    case Link(linked) => Print(p, linked)
    case Unbound(id) => GenericTypeVar(p, id)
    case Generic(id) => GenericTypeVar(p, id)
  }

  /** An argument list printed left to right, separated by ", " (empty for no arguments). */
  function PrintArgs(p: Printer, ts: seq<Type>): (r: (string, Printer))
    ensures r.1.context == p.context && r.1.uid >= p.uid
    ensures KeepsNames(p, r.1)
    ensures |ts| == 0 ==> r == ("", p)
    decreases ts
  {
    if |ts| == 0 then ("", p)
    else
      var (first, p1) := Print(p, ts[0]);
      if |ts| == 1 then (first, p1)
      else
        var (rest, p2) := PrintArgs(p1, ts[1..]);
        (first + ", " + rest, p2)
  }
}
