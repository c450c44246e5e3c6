/**
 * Reading the derive's own attributes at macro time: the `#[parenv(prefix = "…", suffix = "…")]`
 * attribute on the struct and the first `doc` attribute of each field.
 */
module Attributes {
  import opened Wrappers
  import opened Syn
  import opened Ascii

  /** The panic of `value[1..(value.len() - 1)]` on a literal of one character (`prefix = 5`). */
  datatype SlicePanic = SlicePanic(literal: string)

  /** A value taken from a token iterator, together with what the iterator has left. */
  datatype Taken<T> = Taken(value: T, rest: seq<Token>)

  /** The iterator after `n` calls of `next()`. */
  function Drop(tokens: seq<Token>, n: nat): seq<Token> {
    if n < |tokens| then tokens[n..] else []
  }

  /** A literal's text with its first and last characters (the quotes of a string literal) removed. */
  function Unquote(text: string): (r: string)
    requires |text| != 1
    ensures |text| == 0 ==> r == ""
    ensures |text| >= 2 ==> |r| == |text| - 2 && text == [text[0]] + r + [text[|text| - 1]]
  {
    if |text| == 0 then text else text[1..|text| - 1]
  }

  /**
   * `get_parenv_value`: reads `= <literal>`. The first `next()` is always made; the second only
   * after an `=`. Anything else yields None; a one-character literal panics.
   */
  function GetParenvValue(tokens: seq<Token>): (r: Result<Taken<Option<string>>, SlicePanic>)
    ensures r.Err? <==>
      |tokens| >= 2 && tokens[0] == Punct('=') && tokens[1].Literal? && |tokens[1].text| == 1
    ensures r.Ok? && r.value.value.Some? <==>
      |tokens| >= 2 && tokens[0] == Punct('=') && tokens[1].Literal? && |tokens[1].text| != 1
    ensures r.Ok? && r.value.value.Some? ==> r.value.value.value == Unquote(tokens[1].text)
    ensures r.Ok? ==>
      r.value.rest == Drop(tokens, if |tokens| > 0 && tokens[0] == Punct('=') then 2 else 1)
  {
    if |tokens| == 0 || tokens[0] != Punct('=') then Ok(Taken(None, Drop(tokens, 1)))
    else if |tokens| == 1 || !tokens[1].Literal? then Ok(Taken(None, Drop(tokens, 2)))
    else if |tokens[1].text| == 1 then Err(SlicePanic(tokens[1].text))
    else Ok(Taken(Some(Unquote(tokens[1].text)), tokens[2..]))
  }

  /** The state of one `parenv(...)` scan: the tokens left and the values read so far. */
  datatype Scan = Scan(rest: seq<Token>, prefix: Option<string>, suffix: Option<string>)

  /**
   * How the scan of one attribute ends: with values, skipped (the `?` left the `find_map`
   * closure with None, so the attribute is passed over) or with a panic.
   */
  datatype ListOutcome =
    | Values(prefix: Option<string>, suffix: Option<string>)
    | Skipped
    | Panicked(panic: SlicePanic)

  datatype Step = Next(scan: Scan) | Halt(outcome: ListOutcome)

  /** One pass of the body of `for _ in 0..2`. */
  function EntryStep(s: Scan): (r: Step)
    ensures (|s.rest| == 0 || !s.rest[0].Ident?) <==> r == Halt(Skipped)
    ensures r.Next? ==> |r.scan.rest| < |s.rest|
    ensures r.Next? && s.rest[0].name != "prefix" ==> r.scan.prefix == s.prefix
    ensures r.Next? && s.rest[0].name != "suffix" ==> r.scan.suffix == s.suffix
    ensures r.Next? && s.rest[0].name == "prefix" ==>
      GetParenvValue(s.rest[1..]).Ok? && r.scan.prefix == GetParenvValue(s.rest[1..]).value.value
    ensures r.Next? && s.rest[0].name == "suffix" ==>
      GetParenvValue(s.rest[1..]).Ok? && r.scan.suffix == GetParenvValue(s.rest[1..]).value.value
    // The tokens a pass consumes: the key, the value's tokens (none for an unknown key), one separator.
    ensures |s.rest| > 0 && s.rest[0].Ident? && s.rest[0].name != "prefix" && s.rest[0].name != "suffix" ==>
      r.Next? && r.scan.rest == Drop(s.rest[1..], 1)
    ensures |s.rest| > 0 && s.rest[0].Ident? && (s.rest[0].name == "prefix" || s.rest[0].name == "suffix") ==>
      ((r.Halt? <==> GetParenvValue(s.rest[1..]).Err?) &&
       (r.Halt? ==> r.outcome == Panicked(GetParenvValue(s.rest[1..]).error)) &&
       (r.Next? ==> r.scan.rest == Drop(GetParenvValue(s.rest[1..]).value.rest, 1)))
  {
    if |s.rest| == 0 || !s.rest[0].Ident? then Halt(Skipped)
    else
      var key := s.rest[0].name;
      var after := s.rest[1..];
      if key == "prefix" || key == "suffix" then
        match GetParenvValue(after)
        case Err(p) => Halt(Panicked(p))
        case Ok(t) =>
          if key == "prefix" then Next(Scan(Drop(t.rest, 1), t.value, s.suffix))
          else Next(Scan(Drop(t.rest, 1), s.prefix, t.value))
      else
        Next(Scan(Drop(after, 1), s.prefix, s.suffix))
  }

  /** The scan after `n` passes. */
  function Steps(s: Scan, n: nat): Step {
    if n == 0 then Next(s)
    else match Steps(s, n - 1)
      case Halt(o) => Halt(o)
      case Next(t) => EntryStep(t)
  }

  /** The two passes spelled out. */
  lemma StepsUnrolled(s: Scan)
    ensures Steps(s, 1) == EntryStep(s)
    ensures Steps(s, 2) == if EntryStep(s).Halt? then EntryStep(s) else EntryStep(EntryStep(s).scan)
  {
    assert Steps(s, 1) == EntryStep(Steps(s, 0).scan);
  }

  /** What the two passes make of the tokens of a `parenv(...)` attribute. */
  function ReadParenvList(tokens: seq<Token>): ListOutcome {
    match Steps(Scan(tokens, None, None), 2)
    case Halt(o) => o
    case Next(t) => Values(t.prefix, t.suffix)
  }

  /** The two-pass loop of `parenv_mata_values` over one attribute's token iterator. */
  method ReadParenvTokens(tokens: seq<Token>) returns (o: ListOutcome)
    ensures o == ReadParenvList(tokens)
  {
    var rest := tokens;
    var prefix: Option<string> := None;
    var suffix: Option<string> := None;
    var n := 0;
    while n < 2
      invariant 0 <= n <= 2
      invariant Steps(Scan(tokens, None, None), n) == Next(Scan(rest, prefix, suffix))
    {
      if |rest| == 0 || !rest[0].Ident? {
        StepsUnrolled(Scan(tokens, None, None));
        return Skipped;
      }
      var ident := rest[0].name;
      rest := rest[1..];
      if ident == "prefix" {
        var got := GetParenvValue(rest);
        if got.Err? {
          StepsUnrolled(Scan(tokens, None, None));
          return Panicked(got.error);
        }
        prefix, rest := got.value.value, got.value.rest;
      }
      if ident == "suffix" {
        var got := GetParenvValue(rest);
        if got.Err? {
          StepsUnrolled(Scan(tokens, None, None));
          return Panicked(got.error);
        }
        suffix, rest := got.value.value, got.value.rest;
      }
      // the separating `,` is taken whatever token it is
      rest := Drop(rest, 1);
      n := n + 1;
    }
    o := Values(prefix, suffix);
  }

  /** What one attribute contributes to the `find_map`: only a `parenv(...)` list is scanned. */
  function AttrOutcome(a: Attribute): ListOutcome {
    match a.meta
    case MetaList(path, tokens) => if IsIdent(path, "parenv") then ReadParenvList(tokens) else Skipped
    case _ => Skipped
  }

  /** The result once an attribute decided: its values with `""` for a missing one, or its panic. */
  function Decided(o: ListOutcome): Result<(string, string), SlicePanic>
    requires !o.Skipped?
  {
    match o
    case Values(p, s) => Ok((p.GetOr(""), s.GetOr("")))
    case Panicked(e) => Err(e)
  }

  /** `parenv_mata_values`: the first attribute that decides, or `("", "")` when none does. */
  function MataValues(attrs: seq<Attribute>): Result<(string, string), SlicePanic> {
    if |attrs| == 0 then Ok(("", ""))
    else if AttrOutcome(attrs[0]).Skipped? then MataValues(attrs[1..])
    else Decided(AttrOutcome(attrs[0]))
  }

  method ParenvMataValues(attrs: seq<Attribute>) returns (r: Result<(string, string), SlicePanic>)
    ensures r == MataValues(attrs)
  {
    var k := 0;
    while k < |attrs|
      invariant 0 <= k <= |attrs|
      invariant MataValues(attrs) == MataValues(attrs[k..])
    {
      var outcome := Skipped;
      match attrs[k].meta {
        case MetaList(path, tokens) =>
          if IsIdent(path, "parenv") {
            outcome := ReadParenvTokens(tokens);
          }
        case _ =>
      }
      assert outcome == AttrOutcome(attrs[k..][0]);
      if outcome.Values? {
        return Ok((outcome.prefix.GetOr(""), outcome.suffix.GetOr("")));
      }
      if outcome.Panicked? {
        return Err(outcome.panic);
      }
      assert attrs[k..][1..] == attrs[k + 1..];
      k := k + 1;
    }
    r := Ok(("", ""));
  }

  /** With no attribute that decides (none is `parenv(...)`, or all are skipped) both values are `""`. */
  lemma {:induction false} NoDecidingAttrDefaults(attrs: seq<Attribute>)
    requires forall i :: 0 <= i < |attrs| ==> AttrOutcome(attrs[i]).Skipped?
    ensures MataValues(attrs) == Ok(("", ""))
  {
    if |attrs| > 0 {
      assert forall i :: 0 <= i < |attrs| - 1 ==> attrs[1..][i] == attrs[i + 1];
      NoDecidingAttrDefaults(attrs[1..]);
    }
  }

  /** The first attribute that decides wins; later attributes are never looked at. */
  lemma {:induction false} FirstDecidingAttrWins(attrs: seq<Attribute>, i: nat)
    requires i < |attrs|
    requires forall j :: 0 <= j < i ==> AttrOutcome(attrs[j]).Skipped?
    requires !AttrOutcome(attrs[i]).Skipped?
    ensures MataValues(attrs) == Decided(AttrOutcome(attrs[i]))
  {
    if i > 0 {
      assert forall j :: 0 <= j < i - 1 ==> attrs[1..][j] == attrs[j + 1];
      FirstDecidingAttrWins(attrs[1..], i - 1);
    }
  }

  /** A `parenv(...)` attribute with a single key is skipped: the second pass finds no ident. */
  lemma SingleKeySkipped(key: string, text: string, tail: seq<Token>)
    requires |text| != 1
    requires |tail| <= 1
    ensures ReadParenvList([Ident(key), Punct('='), Literal(text)] + tail) == Skipped
  {
    var tokens := [Ident(key), Punct('='), Literal(text)] + tail;
    StepsUnrolled(Scan(tokens, None, None));
    var s1 := EntryStep(Scan(tokens, None, None));
    assert tokens[1..] == [Punct('='), Literal(text)] + tail;
    if key == "prefix" || key == "suffix" {
      assert s1.Next? && s1.scan.rest == [];
    } else {
      assert s1.Next? && s1.scan.rest[0] == Literal(text);
    }
  }

  /** `prefix = "A", suffix = "B"` (in either order) gives both values, unquoted. */
  lemma BothKeysRead(first: string, second: string, p: string, s: string, tail: seq<Token>)
    requires (first, second) == ("prefix", "suffix") || (first, second) == ("suffix", "prefix")
    requires |p| >= 2 && |s| >= 2
    ensures var tokens := [Ident(first), Punct('='), Literal(p), Punct(','),
                           Ident(second), Punct('='), Literal(s)] + tail;
            ReadParenvList(tokens) ==
              if first == "prefix" then Values(Some(Unquote(p)), Some(Unquote(s)))
              else Values(Some(Unquote(s)), Some(Unquote(p)))
  {
    var tokens := [Ident(first), Punct('='), Literal(p), Punct(','),
                   Ident(second), Punct('='), Literal(s)] + tail;
    StepsUnrolled(Scan(tokens, None, None));
    var s1 := EntryStep(Scan(tokens, None, None));
    assert tokens[1..][2..] == tokens[3..];
    assert s1.Next? && s1.scan.rest == tokens[4..];
    var s2 := EntryStep(s1.scan);
    assert tokens[4..][1..] == tokens[5..];
    assert tokens[5..][2..] == tokens[7..];
  }

  /** A key that is not read leaves its value missing, which becomes `""`. */
  lemma MissingValueDefaults(p: string, tail: seq<Token>)
    requires |p| >= 2
    ensures var a := Attribute(MetaList(SimplePath("parenv"),
              [Ident("prefix"), Punct('='), Literal(p), Punct(','),
               Ident("name"), Punct('='), Literal("\"x\"")] + tail));
            MataValues([a]) == Ok((Unquote(p), ""))
  {
    var tokens := [Ident("prefix"), Punct('='), Literal(p), Punct(','),
                   Ident("name"), Punct('='), Literal("\"x\"")] + tail;
    StepsUnrolled(Scan(tokens, None, None));
    var s1 := EntryStep(Scan(tokens, None, None));
    assert tokens[1..][2..] == tokens[3..];
    assert s1 == Next(Scan(tokens[4..], Some(Unquote(p)), None));
    assert tokens[4..][1..] == tokens[5..];
  }

  /**
   * An unknown key in first place misaligns the scan: its `= value` is not consumed, the second
   * pass meets `value` instead of an ident, and the whole attribute is skipped.
   */
  lemma UnknownFirstKeySkips(key: string, v: string, rest: seq<Token>)
    requires key != "prefix" && key != "suffix"
    ensures ReadParenvList([Ident(key), Punct('='), Literal(v)] + rest) == Skipped
  {
    var tokens := [Ident(key), Punct('='), Literal(v)] + rest;
    StepsUnrolled(Scan(tokens, None, None));
    assert tokens[1..][1..] == tokens[2..];
  }

  /** A doc attribute: `#[doc = …]`, which is what a `///` comment becomes. */
  predicate IsDocAttr(a: Attribute) {
    a.meta.MetaNameValue? && IsIdent(a.meta.path, "doc")
  }

  /** The index `find_map` stops at: the first doc attribute. */
  function FirstDoc(attrs: seq<Attribute>): (r: Option<nat>)
    ensures r.Some? ==> r.value < |attrs| && IsDocAttr(attrs[r.value])
    ensures r.Some? ==> forall j :: 0 <= j < r.value ==> !IsDocAttr(attrs[j])
    ensures r.None? <==> forall j :: 0 <= j < |attrs| ==> !IsDocAttr(attrs[j])
  {
    if |attrs| == 0 then None
    else if IsDocAttr(attrs[0]) then Some(0)
    else match FirstDoc(attrs[1..])
      case None => None
      case Some(k) => Some(k + 1)
  }

  /**
   * `extract_doc_comment`: the trimmed string of the FIRST doc attribute, or `""` when there is
   * none or its value is not a string literal (a later doc attribute is not consulted).
   */
  function ExtractDocComment(attrs: seq<Attribute>): (doc: string)
    ensures FirstDoc(attrs).None? ==> doc == ""
    ensures FirstDoc(attrs).Some? ==>
      var v := attrs[FirstDoc(attrs).value].meta.value;
      doc == if v.ExprLit? && v.lit.LitStr? then Trim(v.lit.value) else ""
    ensures |doc| > 0 ==> !IsWhitespace(doc[0]) && !IsWhitespace(doc[|doc| - 1])
  {
    match FirstDoc(attrs)
    case None => ""
    case Some(k) =>
      match attrs[k].meta.value
      case ExprLit(LitStr(v)) => Trim(v)
      case _ => ""
  }

  /** Only the first doc line counts: attributes after it never change the description. */
  lemma {:induction false} FirstDocLineOnly(attrs: seq<Attribute>, more: seq<Attribute>)
    requires FirstDoc(attrs).Some?
    ensures FirstDoc(attrs + more) == FirstDoc(attrs)
    ensures ExtractDocComment(attrs + more) == ExtractDocComment(attrs)
  {
    if !IsDocAttr(attrs[0]) {
      assert (attrs + more)[1..] == attrs[1..] + more;
      FirstDocLineOnly(attrs[1..], more);
    }
  }
}
