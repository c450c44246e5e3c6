/**
 * Binding one field from the environment (the generated `parse_<ident>` functions and the
 * `match` around each) and the `errors` array they fill, one slot per field.
 */
module Binding {
  import opened Wrappers
  import opened Syn

  /** What a diagnostic keeps: its kind, the key, and for a parse failure the raw value. */
  datatype Diag = NotFound(key: string) | CannotParse(key: string, raw: string)

  /**
   * What the macro fixes for one field: its identifier, key, description, whether it is an
   * `Option`, and the type its value is parsed as (the inner `T` of an `Option<T>`).
   */
  datatype FieldPlan = FieldPlan(ident: string, key: string, doc: string, optional: bool, parseTy: Type)

  /** The outcome of one generated `parse_<ident>()`. */
  datatype FieldRead<V> = Absent | Failed(diag: Diag) | Parsed(value: V)

  /**
   * Reads and parses one field. `parse` stands for `str::parse::<T>` with `T` the parse type.
   * A missing variable fails a required field and leaves an optional one absent; a value that
   * does not parse fails either kind.
   */
  function ReadField<V>(plan: FieldPlan, parse: (Type, string) -> Option<V>, env: map<string, string>): (r: FieldRead<V>)
    ensures r.Absent? <==> plan.optional && plan.key !in env
    ensures r == Failed(NotFound(plan.key)) <==> !plan.optional && plan.key !in env
    ensures r.Failed? && r.diag.CannotParse? <==> plan.key in env && parse(plan.parseTy, env[plan.key]).None?
    ensures r.Failed? ==> r.diag.key == plan.key
    ensures r.Failed? && r.diag.CannotParse? ==> r.diag.raw == env[plan.key]
    ensures r.Parsed? <==> plan.key in env && parse(plan.parseTy, env[plan.key]).Some?
    ensures r.Parsed? ==> parse(plan.parseTy, env[plan.key]) == Some(r.value)
  {
    if plan.key !in env then
      if plan.optional then Absent else Failed(NotFound(plan.key))
    else
      var raw := env[plan.key];
      match parse(plan.parseTy, raw)
      case Some(v) => Parsed(v)
      case None => Failed(CannotParse(plan.key, raw))
  }

  /** What the `match` stores in `errors[i]`. */
  function SlotError<V>(r: FieldRead<V>): Option<Diag> {
    if r.Failed? then Some(r.diag) else None
  }

  /** What the `match` binds to the field's local. */
  function SlotLocal<V>(r: FieldRead<V>): Option<V> {
    if r.Parsed? then Some(r.value) else None
  }

  /** The `errors` array once every field was evaluated. */
  function Errors<V>(plans: seq<FieldPlan>, parse: (Type, string) -> Option<V>, env: map<string, string>): (errs: seq<Option<Diag>>)
    ensures |errs| == |plans|
    ensures forall i :: 0 <= i < |plans| ==> (errs[i].Some? <==> ReadField(plans[i], parse, env).Failed?)
    ensures forall i :: 0 <= i < |plans| && errs[i].Some? ==> errs[i].value == ReadField(plans[i], parse, env).diag
  {
    seq(|plans|, i requires 0 <= i < |plans| => SlotError(ReadField(plans[i], parse, env)))
  }

  /** The field locals once every field was evaluated. */
  function Locals<V>(plans: seq<FieldPlan>, parse: (Type, string) -> Option<V>, env: map<string, string>): (locals: seq<Option<V>>)
    ensures |locals| == |plans|
    ensures forall i :: 0 <= i < |plans| ==> (locals[i].Some? <==> ReadField(plans[i], parse, env).Parsed?)
  {
    seq(|plans|, i requires 0 <= i < |plans| => SlotLocal(ReadField(plans[i], parse, env)))
  }

  /** Slot `i` depends on field `i` alone: appending fields leaves the earlier slots as they were. */
  lemma ErrorsAppend<V>(a: seq<FieldPlan>, b: seq<FieldPlan>, parse: (Type, string) -> Option<V>, env: map<string, string>)
    ensures Errors(a + b, parse, env) == Errors(a, parse, env) + Errors(b, parse, env)
  {
    var l, r := Errors(a + b, parse, env), Errors(a, parse, env) + Errors(b, parse, env);
    assert forall i :: 0 <= i < |l| ==> l[i] == r[i] by {
      forall i | 0 <= i < |l| ensures l[i] == r[i] {
        if i >= |a| { assert (a + b)[i] == b[i - |a|]; }
      }
    }
  }

  /** The number of filled slots, counted as the loop over `errors` meets them. */
  function CountSome(errs: seq<Option<Diag>>): nat {
    if |errs| == 0 then 0
    else CountSome(errs[..|errs| - 1]) + (if errs[|errs| - 1].Some? then 1 else 0)
  }

  function SomeIndices(errs: seq<Option<Diag>>): set<nat> {
    set i: nat | i < |errs| && errs[i].Some?
  }

  function FailingFields<V>(plans: seq<FieldPlan>, parse: (Type, string) -> Option<V>, env: map<string, string>): set<nat> {
    set i: nat | i < |plans| && ReadField(plans[i], parse, env).Failed?
  }

  lemma {:induction false} CountSomeIsSize(errs: seq<Option<Diag>>)
    ensures CountSome(errs) == |SomeIndices(errs)|
  {
    if |errs| > 0 {
      var n := |errs| - 1;
      var init := errs[..n];
      CountSomeIsSize(init);
      var last: set<nat> := if errs[n].Some? then {n} else {};
      assert SomeIndices(errs) == SomeIndices(init) + last;
      assert SomeIndices(init) !! last;
    }
  }

  /** Aggregation is exhaustive: the filled slots are exactly as many as the fields that failed. */
  lemma ErrorCountIsFailureCount<V>(plans: seq<FieldPlan>, parse: (Type, string) -> Option<V>, env: map<string, string>)
    ensures SomeIndices(Errors(plans, parse, env)) == FailingFields(plans, parse, env)
    ensures CountSome(Errors(plans, parse, env)) == |FailingFields(plans, parse, env)|
  {
    CountSomeIsSize(Errors(plans, parse, env));
  }

  /** Optional fields never fail for being absent; required fields always do. */
  lemma AbsenceFailsIffRequired<V>(plan: FieldPlan, parse: (Type, string) -> Option<V>, env: map<string, string>)
    requires plan.key !in env
    ensures SlotError(ReadField(plan, parse, env)).Some? <==> !plan.optional
    ensures plan.optional ==> SlotLocal(ReadField(plan, parse, env)) == None
  {
  }
}
