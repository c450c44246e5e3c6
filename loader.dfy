/**
 * The `parse()` method the derive generates: evaluate every field into the `errors` array and the
 * field locals, then either build the struct or print the usage table and the diagnostics and exit.
 */
module Loader {
  import opened Wrappers
  import opened Syn
  import opened Binding
  import opened Usage

  /** A struct field's value: a required field's bare value, or an optional field's `Option`. */
  datatype FieldValue<V> = Bare(value: V) | Wrapped(option: Option<V>)

  /** How `parse()` ends: returning the struct, or printing these lines and exiting with `status`. */
  datatype Load<V> = Loaded(values: seq<FieldValue<V>>) | Exited(status: int, lines: seq<string>)

  ghost predicate AnyFailed<V>(plans: seq<FieldPlan>, parse: (Type, string) -> Option<V>, env: map<string, string>) {
    exists i :: 0 <= i < |plans| && ReadField(plans[i], parse, env).Failed?
  }

  /** With no slot filled every required local holds a value, so no `.unwrap()` can panic. */
  lemma RequiredBound<V>(plans: seq<FieldPlan>, parse: (Type, string) -> Option<V>, env: map<string, string>)
    requires !AnyFailed(plans, parse, env)
    ensures forall i :: 0 <= i < |plans| && !plans[i].optional ==> Locals(plans, parse, env)[i].Some?
  {
  }

  /** `Self { cat: cat, dog: dog.unwrap(), … }`. */
  function Assemble<V>(plans: seq<FieldPlan>, locals: seq<Option<V>>): (values: seq<FieldValue<V>>)
    requires |locals| == |plans|
    requires forall i :: 0 <= i < |plans| && !plans[i].optional ==> locals[i].Some?
  {
    seq(|plans|, i requires 0 <= i < |plans| =>
      if plans[i].optional then Wrapped(locals[i]) else Bare(locals[i].value))
  }

  /** What `parse()` does, as a function of the plans, the parser, the environment and the crate name. */
  ghost function LoadSpec<V>(plans: seq<FieldPlan>, parse: (Type, string) -> Option<V>, env: map<string, string>, crateName: string): Load<V> {
    var errs := Errors(plans, parse, env);
    if exists i :: 0 <= i < |errs| && errs[i].Some? then
      Exited(1, UsageLines(crateName, Rows(plans), errs))
    else
      RequiredBound(plans, parse, env);
      Loaded(Assemble(plans, Locals(plans, parse, env)))
  }

  /**
   * The generated field blocks, in field order: field `i` writes only `errors[i]` and its own
   * local, and no failure stops the later fields from being evaluated.
   */
  method BindAll<V>(plans: seq<FieldPlan>, parse: (Type, string) -> Option<V>, env: map<string, string>)
    returns (errors: array<Option<Diag>>, locals: array<Option<V>>)
    ensures fresh(errors) && fresh(locals)
    ensures errors[..] == Errors(plans, parse, env)
    ensures locals[..] == Locals(plans, parse, env)
  {
    var n := |plans|;
    errors := new Option<Diag>[n](_ => None);
    locals := new Option<V>[n](_ => None);
    for i := 0 to n
      invariant forall j :: 0 <= j < i ==> errors[j] == SlotError(ReadField(plans[j], parse, env))
      invariant forall j :: 0 <= j < i ==> locals[j] == SlotLocal(ReadField(plans[j], parse, env))
      invariant forall j :: i <= j < n ==> errors[j] == None
    {
      match ReadField(plans[i], parse, env) {
        case Failed(d) =>
          errors[i] := Some(d);
          locals[i] := None;
        case Parsed(v) =>
          locals[i] := Some(v);
        case Absent =>
          locals[i] := None;
      }
    }
  }

  /** `for col in 0..3 { max_widths[col] = … }`. */
  method MaxWidths(items: seq<Row>) returns (maxWidths: array<nat>)
    ensures fresh(maxWidths)
    ensures maxWidths[..] == Widths(items)
  {
    maxWidths := new nat[3](_ => 0);
    for col := 0 to 3
      invariant forall c :: 0 <= c < col ==> maxWidths[c] == ColumnWidth(items, c)
    {
      maxWidths[col] := ColumnWidth(items, col);
    }
  }

  /** One pass of `for row in items`: the indent, then each cell padded and followed by four spaces. */
  method PrintRow(row: Row, maxWidths: array<nat>) returns (line: string)
    requires maxWidths.Length == 3
    ensures line == RowLine(row, maxWidths[..])
  {
    ghost var widths := maxWidths[..];
    line := Indent;
    for c := 0 to 3
      invariant line == Indent + Cells(row[..c], widths[..c])
    {
      CellsAppend(row[..c], widths[..c], [row[c]], [widths[c]]);
      assert row[..c + 1] == row[..c] + [row[c]];
      assert widths[..c + 1] == widths[..c] + [widths[c]];
      line := line + Pad(row[c], maxWidths[c]) + Indent;
    }
    assert row[..3] == row && widths[..3] == widths;
  }

  /** `for row in items { … }`: one line per row. */
  method PrintTable(items: seq<Row>, maxWidths: array<nat>) returns (lines: seq<string>)
    requires maxWidths[..] == Widths(items)
    ensures lines == TableLines(items)
  {
    lines := [];
    for r := 0 to |items|
      invariant |lines| == r
      invariant forall k :: 0 <= k < r ==> lines[k] == RowLine(items[k], Widths(items))
    {
      var line := PrintRow(items[r], maxWidths);
      lines := lines + [line];
    }
  }

  /** `for err in errors { if let Some(e) = err { … } }`. */
  method PrintErrors(errors: array<Option<Diag>>) returns (lines: seq<string>)
    ensures lines == DiagLines(errors[..])
  {
    lines := [];
    for i := 0 to errors.Length
      invariant lines == DiagLines(errors[..i])
    {
      DiagLinesAppend(errors[..i], [errors[i]]);
      DiagLinesOne(errors[i]);
      assert errors[..i + 1] == errors[..i] + [errors[i]];
      if errors[i].Some? {
        lines := lines + [DiagText(errors[i].value)];
      }
    }
    assert errors[..errors.Length] == errors[..];
  }

  method Parse<V>(plans: seq<FieldPlan>, parse: (Type, string) -> Option<V>, env: map<string, string>, crateName: string)
    returns (out: Load<V>)
    ensures out == LoadSpec(plans, parse, env, crateName)
    ensures out.Exited? <==> AnyFailed(plans, parse, env)
    ensures out.Exited? ==> out.status == 1
  {
    var errors, locals := BindAll(plans, parse, env);
    ghost var errs := errors[..];

    var thereIsASome := exists j :: 0 <= j < errors.Length && errors[j].Some?;
    if !thereIsASome {
      assert !AnyFailed(plans, parse, env) by {
        forall i | 0 <= i < |plans| ensures !ReadField(plans[i], parse, env).Failed? {
          assert errs[i].None?;
        }
      }
      RequiredBound(plans, parse, env);
      return Loaded(Assemble(plans, locals[..]));
    }

    var items := Rows(plans);
    var maxWidths := MaxWidths(items);
    var table := PrintTable(items, maxWidths);
    var lines := [Intro(crateName), ""] + table + ["", ErrorHeader, ""];
    var diagLines := PrintErrors(errors);
    ghost var j :| 0 <= j < errors.Length && errors[j].Some?;
    assert errs[j].Some? && ReadField(plans[j], parse, env).Failed?;
    assert lines + diagLines == UsageLines(crateName, items, errs);
    out := Exited(1, lines + diagLines);
  }

  /** The load fails exactly when some field failed, with status 1 and the full report. */
  lemma FailsIffSomeFieldFails<V>(plans: seq<FieldPlan>, parse: (Type, string) -> Option<V>, env: map<string, string>, crateName: string)
    ensures LoadSpec(plans, parse, env, crateName).Exited? <==> AnyFailed(plans, parse, env)
    ensures AnyFailed(plans, parse, env) ==>
      LoadSpec(plans, parse, env, crateName) ==
        Exited(1, UsageLines(crateName, Rows(plans), Errors(plans, parse, env)))
  {
    var errs := Errors(plans, parse, env);
    if AnyFailed(plans, parse, env) {
      var i :| 0 <= i < |plans| && ReadField(plans[i], parse, env).Failed?;
      assert errs[i].Some?;
    }
  }

  /** On success every field holds what the environment gave it. */
  lemma SuccessValues<V>(plans: seq<FieldPlan>, parse: (Type, string) -> Option<V>, env: map<string, string>, crateName: string, i: nat)
    requires !AnyFailed(plans, parse, env)
    requires i < |plans|
    ensures LoadSpec(plans, parse, env, crateName).Loaded?
    ensures var v := LoadSpec(plans, parse, env, crateName).values;
      && |v| == |plans|
      && (!plans[i].optional ==>
            v[i].Bare? && plans[i].key in env && parse(plans[i].parseTy, env[plans[i].key]) == Some(v[i].value))
      && (plans[i].optional && plans[i].key !in env ==> v[i] == Wrapped(None))
      && (plans[i].optional && plans[i].key in env ==> v[i] == Wrapped(parse(plans[i].parseTy, env[plans[i].key])))
  {
    FailsIffSomeFieldFails(plans, parse, env, crateName);
  }

  /** A struct without fields always loads. */
  lemma NoFieldsLoads<V>(parse: (Type, string) -> Option<V>, env: map<string, string>, crateName: string)
    ensures LoadSpec([], parse, env, crateName) == Loaded([])
  {
  }

  /**
   * The report lists every field in the table and exactly the failing fields below it, so
   * its length is `5 + |fields| + |failing fields|`.
   */
  lemma ReportSize<V>(plans: seq<FieldPlan>, parse: (Type, string) -> Option<V>, env: map<string, string>, crateName: string)
    requires AnyFailed(plans, parse, env)
    ensures |LoadSpec(plans, parse, env, crateName).lines| == 5 + |plans| + |FailingFields(plans, parse, env)|
  {
    FailsIffSomeFieldFails(plans, parse, env, crateName);
    ErrorCountIsFailureCount(plans, parse, env);
  }

  /**
   * The table shows, at column 4 of line `2 + i`, the very key that field `i` was looked up by,
   * and every table line is `4 + Σ(width + 4)` long.
   */
  lemma TableShowsLookupKey<V>(plans: seq<FieldPlan>, parse: (Type, string) -> Option<V>, env: map<string, string>, crateName: string, i: nat)
    requires AnyFailed(plans, parse, env)
    requires i < |plans|
    ensures var lines := LoadSpec(plans, parse, env, crateName).lines;
      var w := Widths(Rows(plans));
      && 4 + |plans[i].key| <= |lines[2 + i]|
      && lines[2 + i][4..4 + |plans[i].key|] == plans[i].key
      && |lines[2 + i]| == 4 + (w[0] + 4) + (w[1] + 4) + (w[2] + 4)
  {
    FailsIffSomeFieldFails(plans, parse, env, crateName);
    var rows := Rows(plans);
    var w := Widths(rows);
    var lines := LoadSpec(plans, parse, env, crateName).lines;
    assert lines[2 + i] == TableLines(rows)[i] == RowLine(rows[i], w);
    RowsFit(rows, i);
    CellAtOffset(rows[i], w, 0);
    RowLineLength(rows[i], w);
    assert Offset(w, 0) == 4 by { assert w[..0] == []; }
  }

  /** One absent required field among valid ones: the report names exactly that field, as not found. */
  lemma OnlyMissingRequiredReported<V>(plans: seq<FieldPlan>, parse: (Type, string) -> Option<V>, env: map<string, string>, k: nat)
    requires k < |plans|
    requires !plans[k].optional && plans[k].key !in env
    requires forall j :: 0 <= j < |plans| && j != k ==> !ReadField(plans[j], parse, env).Failed?
    ensures FailingFields(plans, parse, env) == {k}
    ensures DiagLines(Errors(plans, parse, env)) == [DiagText(NotFound(plans[k].key))]
  {
    var errs := Errors(plans, parse, env);
    assert FailingFields(plans, parse, env) == {k};
    var none: seq<Option<Diag>> := seq(k, _ => None);
    var none2: seq<Option<Diag>> := seq(|plans| - k - 1, _ => None);
    assert errs == none + [Some(NotFound(plans[k].key))] + none2;
    NoneLines(none);
    NoneLines(none2);
    DiagLinesAppend(none + [Some(NotFound(plans[k].key))], none2);
    DiagLinesAppend(none, [Some(NotFound(plans[k].key))]);
    DiagLinesOne(Some(NotFound(plans[k].key)));
  }

  lemma {:induction false} NoneLines(errs: seq<Option<Diag>>)
    requires forall i :: 0 <= i < |errs| ==> errs[i].None?
    ensures DiagLines(errs) == []
  {
    if |errs| > 0 {
      NoneLines(errs[..|errs| - 1]);
    }
  }
}
