/**
 * `derive_environment` at macro time: it rejects anything but a struct with named fields, reads
 * the `parenv` attribute, and fixes for each field its key, description, optionality and parse type.
 */
module Derive {
  import opened Wrappers
  import opened Syn
  import opened Attributes
  import opened TypeMatch
  import opened Naming
  import opened Binding

  /** The panics that abort the derive, and with it the compilation. */
  datatype DeriveError = NotAStruct | UnnamedFields | AttributePanic(panic: SlicePanic)

  /** The macro-time facts about one field that the generated code is built from. */
  function PlanOf(prefix: string, suffix: string, field: Field): (plan: FieldPlan)
    ensures plan.ident == field.ident
    ensures plan.key == EnvKey(prefix, field.ident, suffix)
    ensures plan.doc == ExtractDocComment(field.attrs)
    ensures plan.optional <==> SubtyIfName(field.ty, "Option").Some?
    ensures plan.optional ==> SubtyIfName(field.ty, "Option") == Some(plan.parseTy)
    ensures !plan.optional ==> plan.parseTy == field.ty
  {
    var inner := SubtyIfName(field.ty, "Option");
    FieldPlan(field.ident, EnvKey(prefix, field.ident, suffix), ExtractDocComment(field.attrs),
              inner.Some?, inner.GetOr(field.ty))
  }

  ghost function DeriveSpec(input: DeriveInput): Result<seq<FieldPlan>, DeriveError> {
    match input.data
    case StructData(Named(fields)) =>
      (match MataValues(input.attrs)
       case Err(p) => Err(AttributePanic(p))
       case Ok((prefix, suffix)) =>
         Ok(seq(|fields|, i requires 0 <= i < |fields| => PlanOf(prefix, suffix, fields[i]))))
    case StructData(_) => Err(UnnamedFields)
    case _ => Err(NotAStruct)
  }

  method Derive(input: DeriveInput) returns (r: Result<seq<FieldPlan>, DeriveError>)
    ensures r == DeriveSpec(input)
    ensures r.Err? && r.error == NotAStruct <==> !input.data.StructData?
    ensures r.Err? && r.error == UnnamedFields <==> input.data.StructData? && !input.data.fields.Named?
    ensures r.Ok? ==> |r.value| == |input.data.fields.named|
    ensures r.Ok? ==> forall i :: 0 <= i < |r.value| ==>
      r.value[i] == PlanOf(MataValues(input.attrs).value.0, MataValues(input.attrs).value.1,
                           input.data.fields.named[i])
  {
    if !input.data.StructData? {
      return Err(NotAStruct);
    }
    if !input.data.fields.Named? {
      return Err(UnnamedFields);
    }
    var fields := input.data.fields.named;
    var values := ParenvMataValues(input.attrs);
    if values.Err? {
      return Err(AttributePanic(values.error));
    }
    var (prefix, suffix) := values.value;
    r := Ok(seq(|fields|, i requires 0 <= i < |fields| => PlanOf(prefix, suffix, fields[i])));
  }

  /** The key a field is looked up by is the key its table row shows, for every field. */
  lemma KeysFollowNamingConvention(input: DeriveInput, i: nat)
    requires DeriveSpec(input).Ok? && i < |DeriveSpec(input).value|
    ensures var plan := DeriveSpec(input).value[i];
      var (prefix, suffix) := MataValues(input.attrs).value;
      plan.key == EnvKey(prefix, input.data.fields.named[i].ident, suffix)
  {
  }
}
