/**
 * The fragment of the proc_macro2 / syn syntax trees that the derive inspects:
 * attribute token streams, type paths, doc attributes and the derive input.
 * Everything the derive never looks at is folded into an `Other…` variant.
 */
module Syn {

  /** A proc_macro2 token tree. A literal carries its source text (quotes included). */
  datatype Token =
    | Ident(name: string)
    | Punct(ch: char)
    | Literal(text: string)
    | Delimited(stream: seq<Token>)

  datatype Path = Path(leadingColon: bool, segments: seq<PathSegment>)

  datatype PathSegment = PathSegment(ident: string, arguments: PathArguments)

  datatype PathArguments =
    | NoArguments
    | AngleBracketed(args: seq<GenericArgument>)
    | Parenthesized

  /** A generic argument: a type, or anything else (a lifetime, a const, a binding). */
  datatype GenericArgument = TypeArg(ty: Type) | OtherArg

  /**
   * A type: an invisible group (what macro_rules! leaves around a `$t:ty`),
   * a parenthesized type, a path type (`qself` is true for `<T as Trait>::X`),
   * or anything else (references, tuples, arrays, …).
   */
  datatype Type =
    | TypeGroup(elem: Type)
    | TypeParen(elem: Type)
    | TypePath(qself: bool, path: Path)
    | OtherType

  datatype Lit = LitStr(value: string) | OtherLit

  datatype Expr = ExprLit(lit: Lit) | OtherExpr

  /** `#[path]`, `#[path(tokens…)]` and `#[path = value]` attributes. */
  datatype Meta =
    | MetaPath(path: Path)
    | MetaList(path: Path, tokens: seq<Token>)
    | MetaNameValue(path: Path, value: Expr)

  datatype Attribute = Attribute(meta: Meta)

  datatype Field = Field(attrs: seq<Attribute>, ident: string, ty: Type)

  datatype Fields = Named(named: seq<Field>) | Unnamed | Unit

  datatype Data = StructData(fields: Fields) | EnumData | UnionData

  datatype DeriveInput = DeriveInput(attrs: seq<Attribute>, ident: string, data: Data)

  /** syn's `Path::is_ident`: a single plain segment, no leading `::`, no arguments, named `name`. */
  predicate IsIdent(path: Path, name: string) {
    && !path.leadingColon
    && |path.segments| == 1
    && path.segments[0].arguments.NoArguments?
    && path.segments[0].ident == name
  }

  /** The path written as the single identifier `name`. */
  function SimplePath(name: string): Path {
    Path(false, [PathSegment(name, NoArguments)])
  }
}
