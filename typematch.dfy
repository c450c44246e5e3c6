/** Recognising `Option<T>` field types: `only_one`, `only_last_segment` and `subty_if`. */
module TypeMatch {
  import opened Wrappers
  import opened Syn

  /** `only_one`: the element of an iterator that yields exactly one. */
  function OnlyOne<T>(items: seq<T>): (r: Option<T>)
    ensures r.Some? <==> |items| == 1
    ensures r.Some? ==> r.value == items[0]
  {
    if |items| == 1 then Some(items[0]) else None
  }

  /** A type with its `Group` wrappers removed (other wrappers, such as parentheses, stay). */
  function Peel(ty: Type): (r: Type)
    ensures !r.TypeGroup?
    ensures ty.TypeGroup? ==> r == Peel(ty.elem)
    ensures !ty.TypeGroup? ==> r == ty
  {
    if ty.TypeGroup? then Peel(ty.elem) else ty
  }

  /** `only_last_segment` as a function: the one segment of a plain path type with no `::` in front. */
  function LastSegment(ty: Type): (r: Option<PathSegment>)
    ensures r.Some? <==>
      && Peel(ty).TypePath? && !Peel(ty).qself && !Peel(ty).path.leadingColon
      && |Peel(ty).path.segments| == 1
    ensures r.Some? ==> r.value == Peel(ty).path.segments[0]
  {
    match Peel(ty)
    case TypePath(qself, path) => if !qself && !path.leadingColon then OnlyOne(path.segments) else None
    case _ => None
  }

  /** `only_last_segment`, peeling `Group` wrappers in a loop. */
  method OnlyLastSegment(ty: Type) returns (r: Option<PathSegment>)
    ensures r == LastSegment(ty)
  {
    var t := ty;
    while t.TypeGroup?
      invariant Peel(t) == Peel(ty)
      decreases t
    {
      t := t.elem;
    }
    match t
    case TypePath(qself, path) =>
      r := if !qself && !path.leadingColon then OnlyOne(path.segments) else None;
    case _ =>
      r := None;
  }

  /** The one type argument between angle brackets, if that is what the segment carries. */
  function SoleTypeArg(seg: PathSegment): (r: Option<Type>)
    ensures r.Some? <==>
      seg.arguments.AngleBracketed? && |seg.arguments.args| == 1 && seg.arguments.args[0].TypeArg?
    ensures r.Some? ==> r.value == seg.arguments.args[0].ty
  {
    if seg.arguments.AngleBracketed? then
      match OnlyOne(seg.arguments.args)
      case Some(arg) => if arg.TypeArg? then Some(arg.ty) else None
      case None => None
    else None
  }

  /** `subty_if`: the type argument of a one-segment path type whose segment `f` accepts. */
  function SubtyIf(ty: Type, f: PathSegment -> bool): (r: Option<Type>)
    ensures r.Some? ==> LastSegment(ty).Some? && f(LastSegment(ty).value)
    ensures r.Some? ==> SoleTypeArg(LastSegment(ty).value) == r
    ensures LastSegment(ty).Some? && f(LastSegment(ty).value) ==> r == SoleTypeArg(LastSegment(ty).value)
  {
    match LastSegment(ty)
    case Some(seg) => if f(seg) then SoleTypeArg(seg) else None
    case None => None
  }

  /** `subty_if_name`. */
  function SubtyIfName(ty: Type, name: string): Option<Type> {
    SubtyIf(ty, (seg: PathSegment) => seg.ident == name)
  }

  /** The type `name<inner>` written as a bare one-segment path. */
  function Generic(name: string, inner: Type): Type {
    TypePath(false, Path(false, [PathSegment(name, AngleBracketed([TypeArg(inner)]))]))
  }

  /** A field counts as optional exactly when its type, under groups, is a bare `Option<inner>`. */
  lemma OptionIff(ty: Type, inner: Type)
    ensures SubtyIfName(ty, "Option") == Some(inner) <==> Peel(ty) == Generic("Option", inner)
  {
    if SubtyIfName(ty, "Option") == Some(inner) {
      var p := Peel(ty);
      var seg := p.path.segments[0];
      assert seg.ident == "Option";
      assert seg.arguments.args == [TypeArg(inner)];
      assert seg == PathSegment("Option", AngleBracketed([TypeArg(inner)]));
      assert p.path.segments == [seg];
    }
  }

  /** A qualified path such as `std::option::Option<T>` is not recognised: the field is required. */
  lemma QualifiedOptionIsRequired(ty: Type, name: string)
    requires ty.TypePath? && |ty.path.segments| != 1
    ensures SubtyIfName(ty, name) == None
  {
  }

  /** Neither is `::Option<T>`, nor a parenthesized `(Option<T>)`. */
  lemma WrappedOptionIsRequired(inner: Type)
    ensures SubtyIfName(TypePath(false, Path(true, [PathSegment("Option", AngleBracketed([TypeArg(inner)]))])), "Option") == None
    ensures SubtyIfName(TypeParen(Generic("Option", inner)), "Option") == None
  {
  }

  /** Any number of `Group` wrappers is transparent. */
  lemma {:induction false} GroupsTransparent(ty: Type, depth: nat)
    ensures SubtyIfName(Grouped(ty, depth), "Option") == SubtyIfName(ty, "Option")
  {
    if depth > 0 {
      GroupsTransparent(ty, depth - 1);
      assert Peel(Grouped(ty, depth)) == Peel(Grouped(ty, depth - 1));
    }
  }

  function Grouped(ty: Type, depth: nat): Type {
    if depth == 0 then ty else TypeGroup(Grouped(ty, depth - 1))
  }
}
