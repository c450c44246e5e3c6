/**
 * The failure report: the three-column usage table (key, description, `[optional]` marker)
 * padded to its column widths, then one line per diagnostic in field order.
 */
module Usage {
  import opened Wrappers
  import opened Binding

  /** A row of `items: [[String; 3]; N]`. */
  type Row = r: seq<string> | |r| == 3 witness ["", "", ""]

  const Indent := "    "
  const OptionalMarker := "[optional]"

  function Marker(optional: bool): string {
    if optional then OptionalMarker else ""
  }

  function RowOf(plan: FieldPlan): Row {
    [plan.key, plan.doc, Marker(plan.optional)]
  }

  /** One row per field, in field order: a usage reference, not a list of the failures. */
  function Rows(plans: seq<FieldPlan>): (rows: seq<Row>)
    ensures |rows| == |plans|
    ensures forall i :: 0 <= i < |plans| ==>
      rows[i][0] == plans[i].key && rows[i][1] == plans[i].doc &&
      (rows[i][2] == OptionalMarker <==> plans[i].optional) &&
      (rows[i][2] == "" <==> !plans[i].optional)
  {
    seq(|plans|, i requires 0 <= i < |plans| => RowOf(plans[i]))
  }

  /** `items.iter().map(|row| row[col].len()).max().unwrap_or(0)`. */
  function ColumnWidth(rows: seq<Row>, col: nat): (w: nat)
    requires col < 3
    ensures forall i :: 0 <= i < |rows| ==> |rows[i][col]| <= w
    ensures |rows| == 0 ==> w == 0
  {
    if |rows| == 0 then 0
    else
      var rest := ColumnWidth(rows[1..], col);
      assert forall i :: 1 <= i < |rows| ==> rows[i] == rows[1..][i - 1];
      if |rows[0][col]| > rest then |rows[0][col]| else rest
  }

  /** The width is the maximum, not just a bound: some row's cell is exactly that wide. */
  lemma {:induction false} ColumnWidthAttained(rows: seq<Row>, col: nat) returns (i: nat)
    requires col < 3 && |rows| > 0
    ensures i < |rows| && |rows[i][col]| == ColumnWidth(rows, col)
  {
    if |rows| == 1 || |rows[0][col]| > ColumnWidth(rows[1..], col) {
      i := 0;
    } else {
      var k := ColumnWidthAttained(rows[1..], col);
      i := k + 1;
    }
  }

  /** `max_widths` once the `for col in 0..3` loop is done. */
  function Widths(rows: seq<Row>): (w: seq<nat>)
    ensures |w| == 3
  {
    [ColumnWidth(rows, 0), ColumnWidth(rows, 1), ColumnWidth(rows, 2)]
  }

  function Spaces(n: nat): (s: string)
    ensures |s| == n
    ensures forall i :: 0 <= i < n ==> s[i] == ' '
  {
    seq(n, _ => ' ')
  }

  /** `format!("{:<width$}", s)`: left-aligned, padded with spaces to `width`, never cut. */
  function Pad(s: string, width: nat): (r: string)
    ensures |r| == if |s| < width then width else |s|
    ensures r[..|s|] == s
    ensures forall i :: |s| <= i < |r| ==> r[i] == ' '
  {
    if |s| < width then s + Spaces(width - |s|) else s
  }

  /** The cells of a row, each padded and followed by the four-space gap. */
  function Cells(cells: seq<string>, widths: seq<nat>): string
    requires |cells| == |widths|
  {
    if |cells| == 0 then "" else Pad(cells[0], widths[0]) + Indent + Cells(cells[1..], widths[1..])
  }

  function Sum(ns: seq<nat>): nat {
    if |ns| == 0 then 0 else ns[0] + Sum(ns[1..])
  }

  lemma {:induction false} CellsAppend(c1: seq<string>, w1: seq<nat>, c2: seq<string>, w2: seq<nat>)
    requires |c1| == |w1| && |c2| == |w2|
    ensures Cells(c1 + c2, w1 + w2) == Cells(c1, w1) + Cells(c2, w2)
  {
    if |c1| == 0 {
      assert c1 + c2 == c2 && w1 + w2 == w2;
    } else {
      assert (c1 + c2)[1..] == c1[1..] + c2;
      assert (w1 + w2)[1..] == w1[1..] + w2;
      CellsAppend(c1[1..], w1[1..], c2, w2);
    }
  }

  /** Cells that fit their widths take exactly the widths plus four columns each. */
  lemma {:induction false} CellsLength(cells: seq<string>, widths: seq<nat>)
    requires |cells| == |widths|
    requires forall c :: 0 <= c < |cells| ==> |cells[c]| <= widths[c]
    ensures |Cells(cells, widths)| == Sum(widths) + 4 * |widths|
  {
    if |cells| > 0 {
      CellsLength(cells[1..], widths[1..]);
    }
  }

  /** Where column `c` starts in a row line. */
  function Offset(widths: seq<nat>, c: nat): nat
    requires c <= |widths|
  {
    |Indent| + Sum(widths[..c]) + 4 * c
  }

  /** One table line: the indent, then every cell padded to its column's width. */
  function RowLine(row: Row, widths: seq<nat>): string
    requires |widths| == 3
  {
    Indent + Cells(row, widths)
  }

  /** A row whose cells fit is `4 + Σ(width + 4)` long. */
  lemma RowLineLength(row: Row, widths: seq<nat>)
    requires |widths| == 3
    requires forall c :: 0 <= c < 3 ==> |row[c]| <= widths[c]
    ensures |RowLine(row, widths)| == 4 + (widths[0] + 4) + (widths[1] + 4) + (widths[2] + 4)
  {
    CellsLength(row, widths);
    var w1 := widths[1..];
    var w2 := w1[1..];
    assert Sum(w2[1..]) == 0;
    assert Sum(widths) == widths[0] + Sum(w1) == widths[0] + w1[0] + Sum(w2);
  }

  lemma CellsSplit(cells: seq<string>, widths: seq<nat>, c: nat)
    requires |cells| == |widths| && c <= |cells|
    ensures Cells(cells, widths) == Cells(cells[..c], widths[..c]) + Cells(cells[c..], widths[c..])
  {
    assert cells == cells[..c] + cells[c..];
    assert widths == widths[..c] + widths[c..];
    CellsAppend(cells[..c], widths[..c], cells[c..], widths[c..]);
  }

  /** The first cell opens the cells' text. */
  lemma CellsHead(cells: seq<string>, widths: seq<nat>)
    requires |cells| == |widths| > 0
    ensures |cells[0]| <= |Cells(cells, widths)|
    ensures Cells(cells, widths)[..|cells[0]|] == cells[0]
  {
    var pad := Pad(cells[0], widths[0]);
    var rest := Indent + Cells(cells[1..], widths[1..]);
    assert Cells(cells, widths) == pad + rest;
    assert (pad + rest)[..|cells[0]|] == pad[..|cells[0]|];
  }

  lemma SliceShift(a: string, b: string, i: nat, j: nat)
    requires i <= j <= |b|
    ensures (a + b)[|a| + i..|a| + j] == b[i..j]
  {
  }

  /** Cell `c` starts after the widths of the cells before it plus four columns each. */
  lemma CellsAt(cells: seq<string>, widths: seq<nat>, c: nat)
    requires |cells| == |widths| && c < |cells|
    requires forall d :: 0 <= d < |cells| ==> |cells[d]| <= widths[d]
    ensures Sum(widths[..c]) + 4 * c + |cells[c]| <= |Cells(cells, widths)|
    ensures Cells(cells, widths)[Sum(widths[..c]) + 4 * c..Sum(widths[..c]) + 4 * c + |cells[c]|] == cells[c]
  {
    var before := Cells(cells[..c], widths[..c]);
    var here := Cells(cells[c..], widths[c..]);
    CellsSplit(cells, widths, c);
    assert forall d :: 0 <= d < c ==> cells[..c][d] == cells[d] && widths[..c][d] == widths[d];
    CellsLength(cells[..c], widths[..c]);
    assert |before| == Sum(widths[..c]) + 4 * c;
    CellsHead(cells[c..], widths[c..]);
    assert cells[c..][0] == cells[c];
    SliceShift(before, here, 0, |cells[c]|);
    assert here[0..|cells[c]|] == cells[c];
  }

  /** Alignment: cell `c` of every row starts at the same offset, whatever the other cells hold. */
  lemma CellAtOffset(row: Row, widths: seq<nat>, c: nat)
    requires |widths| == 3 && c < 3
    requires forall d :: 0 <= d < 3 ==> |row[d]| <= widths[d]
    ensures Offset(widths, c) + |row[c]| <= |RowLine(row, widths)|
    ensures RowLine(row, widths)[Offset(widths, c)..Offset(widths, c) + |row[c]|] == row[c]
  {
    var cells: seq<string> := row;
    var o := Sum(widths[..c]) + 4 * c;
    CellsAt(cells, widths, c);
    SliceShift(Indent, Cells(cells, widths), o, o + |row[c]|);
  }

  /** Under `ColumnWidth`, every cell fits its column. */
  lemma RowsFit(rows: seq<Row>, i: nat)
    requires i < |rows|
    ensures forall c :: 0 <= c < 3 ==> |rows[i][c]| <= Widths(rows)[c]
  {
  }

  /** The table: one line per row, under the widths of all rows. */
  function TableLines(rows: seq<Row>): (lines: seq<string>)
    ensures |lines| == |rows|
  {
    var w := Widths(rows);
    seq(|rows|, i requires 0 <= i < |rows| => RowLine(rows[i], w))
  }

  /** The wrap_err message of a diagnostic. */
  function DiagText(d: Diag): (text: string)
    ensures |text| > |d.key| && text[|text| - |d.key| - 1..] == d.key + "."
    ensures |text| > |"I couldn't find"|
    ensures d.NotFound? <==> text[..|"I couldn't find"|] == "I couldn't find"
    ensures d.CannotParse? ==>
      var k := |"I couldn't parse the value '"|;
      k + |d.raw| <= |text| && text[..k] == "I couldn't parse the value '" && text[k..k + |d.raw|] == d.raw
  {
    match d
    case NotFound(key) =>
      "I couldn't find the environment variable " + key + "."
    case CannotParse(key, raw) =>
      var text := "I couldn't parse the value '" + raw + "' provided by the environment variable " + key + ".";
      assert text[..|"I couldn't find"|][11] == 'p' != "I couldn't find"[11];
      text
  }

  /** `for err in errors { if let Some(e) = err { println!(…) } }`. */
  function DiagLines(errs: seq<Option<Diag>>): (lines: seq<string>)
  {
    if |errs| == 0 then []
    else
      var n := |errs| - 1;
      DiagLines(errs[..n]) + (if errs[n].Some? then [DiagText(errs[n].value)] else [])
  }

  /** The diagnostics keep field order: the lines of a split list are the lines of its parts. */
  lemma {:induction false} DiagLinesAppend(a: seq<Option<Diag>>, b: seq<Option<Diag>>)
    ensures DiagLines(a + b) == DiagLines(a) + DiagLines(b)
  {
    if |b| == 0 {
      assert a + b == a;
    } else {
      var n := |b| - 1;
      var ab := a + b;
      assert ab[..|ab| - 1] == a + b[..n];
      assert ab[|ab| - 1] == b[n];
      var last := if b[n].Some? then [DiagText(b[n].value)] else [];
      assert DiagLines(ab) == DiagLines(a + b[..n]) + last;
      DiagLinesAppend(a, b[..n]);
      assert DiagLines(b) == DiagLines(b[..n]) + last;
    }
  }

  /** Exactly one line per filled slot. */
  lemma {:induction false} DiagLinesCount(errs: seq<Option<Diag>>)
    ensures |DiagLines(errs)| == CountSome(errs)
  {
    if |errs| > 0 {
      DiagLinesCount(errs[..|errs| - 1]);
    }
  }

  /** A filled slot gives its line, an empty one none. */
  lemma DiagLinesOne(e: Option<Diag>)
    ensures DiagLines([e]) == if e.Some? then [DiagText(e.value)] else []
  {
    assert [e][..0] == [];
  }

  function Intro(crateName: string): string {
    "I, " + crateName + ", expect the following environment variables."
  }

  const ErrorHeader := "I faced an error parsing the following environment variables."

  /** Everything the failure branch prints, line by line, before `exit(1)`. */
  function UsageLines(crateName: string, rows: seq<Row>, errs: seq<Option<Diag>>): (lines: seq<string>)
    ensures |lines| == 5 + |rows| + CountSome(errs)
  {
    DiagLinesCount(errs);
    [Intro(crateName), ""] + TableLines(rows) + ["", ErrorHeader, ""] + DiagLines(errs)
  }
}
