/**
 The compiler's type representation, as far as the printers read it.

 A `Var` is an inference variable. By the time a printer runs the inference
 engine has frozen every variable cell, so the cell is modelled by value:
 a `Link` chain is a finite nesting of constructors and cannot be cyclic.
 */
module Types {
  import opened Optional

  datatype Publicity = Public | Private | Internal

  datatype Type =
    | Named(name: string, moduleName: string, packageName: string, publicity: Publicity, args: seq<Type>)
    | Fn(args: seq<Type>, retrn: Type)
    | Var(typeVar: TypeVar)
    | Tuple(elems: seq<Type>)

  datatype TypeVar =
    | Link(linked: Type)
    | Unbound(id: nat)
    | Generic(id: nat)

  /** The argument and return types of a function type, looking through links. */
  function FnTypes(t: Type): (r: Option<(seq<Type>, Type)>)
    ensures t.Fn? ==> r == Some((t.args, t.retrn))
    ensures t.Named? || t.Tuple? || (t.Var? && !t.typeVar.Link?) ==> r.None?
    ensures t.Var? && t.typeVar.Link? ==> r == FnTypes(t.typeVar.linked)
  {
    match t
    case Fn(args, retrn) => Some((args, retrn))
    case Var(Link(linked)) => FnTypes(linked)
    case _ => None
  }
}
