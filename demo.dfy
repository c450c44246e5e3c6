/**
 * The demo struct of parenv-test: `cat: Option<u8>`, `dog: SocketAddr`, `file: PathBuf`, each
 * with a one-line doc comment, under `#[parenv(prefix = "ENV_")]`; and the same fields under a
 * two-key attribute, which does give them the `ENV_` prefix.
 */
module Demo {
  import opened Wrappers
  import opened Syn
  import opened Ascii
  import opened Attributes
  import opened TypeMatch
  import opened Naming
  import opened Binding
  import opened Usage
  import opened Loader
  import opened Derive

  function Plain(name: string): Type {
    TypePath(false, SimplePath(name))
  }

  function DocAttr(text: string): Attribute {
    Attribute(MetaNameValue(SimplePath("doc"), ExprLit(LitStr(text))))
  }

  function ParenvAttr(tokens: seq<Token>): Attribute {
    Attribute(MetaList(SimplePath("parenv"), tokens))
  }

  function DemoFields(): seq<Field> {
    [ Field([DocAttr(" The cat")], "cat", Generic("Option", Plain("u8"))),
      Field([DocAttr(" The dog")], "dog", Plain("SocketAddr")),
      Field([DocAttr(" The file")], "file", Plain("PathBuf")) ]
  }

  /** `#[parenv(prefix = "ENV_")]` */
  function DemoInput(): DeriveInput {
    DeriveInput([ParenvAttr([Ident("prefix"), Punct('='), Literal("\"ENV_\"")])], "Env",
                StructData(Named(DemoFields())))
  }

  /** `#[parenv(prefix = "ENV_", suffix = "")]` */
  function TwoKeyInput(): DeriveInput {
    DeriveInput([ParenvAttr([Ident("prefix"), Punct('='), Literal("\"ENV_\""), Punct(','),
                             Ident("suffix"), Punct('='), Literal("\"\"")])], "Env",
                StructData(Named(DemoFields())))
  }

  function DemoPlans(prefix: string): seq<FieldPlan> {
    [ FieldPlan("cat", prefix + "CAT", "The cat", true, Plain("u8")),
      FieldPlan("dog", prefix + "DOG", "The dog", false, Plain("SocketAddr")),
      FieldPlan("file", prefix + "FILE", "The file", false, Plain("PathBuf")) ]
  }

  /** A `/// text` comment: the doc attribute's string is the text after `///`, space included. */
  lemma DocLine(core: string)
    requires |core| > 0 && !IsWhitespace(core[0]) && !IsWhitespace(core[|core| - 1])
    ensures ExtractDocComment([DocAttr(" " + core)]) == core
  {
    TrimExact(" ", core, "");
    assert " " + core + "" == " " + core;
    assert FirstDoc([DocAttr(" " + core)]) == Some(0);
  }

  lemma PlanOfPlain(prefix: string, ident: string, upper: string, doc: string, ty: string)
    requires ToUpper(ident) == upper
    requires |doc| > 0 && !IsWhitespace(doc[0]) && !IsWhitespace(doc[|doc| - 1])
    ensures PlanOf(prefix, "", Field([DocAttr(" " + doc)], ident, Plain(ty))) ==
            FieldPlan(ident, prefix + upper, doc, false, Plain(ty))
  {
    DocLine(doc);
    assert prefix + upper + "" == prefix + upper;
  }

  lemma CatPlan(prefix: string)
    ensures PlanOf(prefix, "", DemoFields()[0]) == DemoPlans(prefix)[0]
  {
    DocLine("The cat");
    assert " " + "The cat" == " The cat";
    OptionIff(Generic("Option", Plain("u8")), Plain("u8"));
    assert ToUpper("cat") == "CAT";
    assert prefix + "CAT" + "" == prefix + "CAT";
  }

  lemma DogPlan(prefix: string)
    ensures PlanOf(prefix, "", DemoFields()[1]) == DemoPlans(prefix)[1]
  {
    assert ToUpper("dog") == "DOG";
    PlanOfPlain(prefix, "dog", "DOG", "The dog", "SocketAddr");
    assert " " + "The dog" == " The dog";
  }

  lemma FilePlan(prefix: string)
    ensures PlanOf(prefix, "", DemoFields()[2]) == DemoPlans(prefix)[2]
  {
    assert ToUpper("file") == "FILE";
    PlanOfPlain(prefix, "file", "FILE", "The file", "PathBuf");
    assert " " + "The file" == " The file";
  }

  /** A three-field struct whose fields are planned one by one. */
  lemma DeriveThree(input: DeriveInput, prefix: string, suffix: string, plans: seq<FieldPlan>)
    requires input.data.StructData? && input.data.fields.Named?
    requires |input.data.fields.named| == 3 && |plans| == 3
    requires MataValues(input.attrs) == Ok((prefix, suffix))
    requires PlanOf(prefix, suffix, input.data.fields.named[0]) == plans[0]
    requires PlanOf(prefix, suffix, input.data.fields.named[1]) == plans[1]
    requires PlanOf(prefix, suffix, input.data.fields.named[2]) == plans[2]
    ensures DeriveSpec(input) == Ok(plans)
  {
    var fields := input.data.fields.named;
    var built := seq(|fields|, i requires 0 <= i < |fields| => PlanOf(prefix, suffix, fields[i]));
    assert built[0] == plans[0] && built[1] == plans[1] && built[2] == plans[2];
    assert built == plans;
    assert DeriveSpec(input) == Ok(built);
  }

  lemma DemoAttrSkipped()
    ensures MataValues(DemoInput().attrs) == Ok(("", ""))
  {
    var tokens := [Ident("prefix"), Punct('='), Literal("\"ENV_\"")];
    SingleKeySkipped("prefix", "\"ENV_\"", []);
    assert tokens + [] == tokens;
    assert AttrOutcome(DemoInput().attrs[0]) == Skipped;
  }

  lemma TwoKeyAttrRead()
    ensures MataValues(TwoKeyInput().attrs) == Ok(("ENV_", ""))
  {
    var tokens := [Ident("prefix"), Punct('='), Literal("\"ENV_\""), Punct(','),
                   Ident("suffix"), Punct('='), Literal("\"\"")];
    BothKeysRead("prefix", "suffix", "\"ENV_\"", "\"\"", []);
    assert tokens + [] == tokens;
    assert Unquote("\"ENV_\"") == "ENV_";
    assert Unquote("\"\"") == "";
    assert AttrOutcome(TwoKeyInput().attrs[0]) == Values(Some("ENV_"), Some(""));
  }

  /** The demo's single-key attribute is discarded: the keys are `CAT`, `DOG` and `FILE`. */
  lemma DemoPrefixDiscarded()
    ensures DeriveSpec(DemoInput()) == Ok(DemoPlans(""))
  {
    DemoAttrSkipped();
    CatPlan("");
    DogPlan("");
    FilePlan("");
    DeriveThree(DemoInput(), "", "", DemoPlans(""));
  }

  /** With both keys given, the prefix is applied: `ENV_CAT`, `ENV_DOG`, `ENV_FILE`. */
  lemma TwoKeyPrefixApplied()
    ensures DeriveSpec(TwoKeyInput()) == Ok(DemoPlans("ENV_"))
  {
    TwoKeyAttrRead();
    CatPlan("ENV_");
    DogPlan("ENV_");
    FilePlan("ENV_");
    DeriveThree(TwoKeyInput(), "ENV_", "", DemoPlans("ENV_"));
  }

  /** `ENV_DOG` and `ENV_FILE` set, `ENV_CAT` absent: the load succeeds with `cat = None`. */
  lemma LoadsWithoutOptional<V>(parse: (Type, string) -> Option<V>, addr: V, path: V, crateName: string)
    requires parse(Plain("SocketAddr"), "127.0.0.1:8080") == Some(addr)
    requires parse(Plain("PathBuf"), "/tmp/x") == Some(path)
    ensures LoadSpec(DemoPlans("ENV_"), parse, map["ENV_DOG" := "127.0.0.1:8080", "ENV_FILE" := "/tmp/x"], crateName)
            == Loaded([Wrapped(None), Bare(addr), Bare(path)])
  {
    var plans := DemoPlans("ENV_");
    var env := map["ENV_DOG" := "127.0.0.1:8080", "ENV_FILE" := "/tmp/x"];
    assert "ENV_" + "CAT" == "ENV_CAT" && "ENV_" + "DOG" == "ENV_DOG" && "ENV_" + "FILE" == "ENV_FILE";
    assert "ENV_CAT" !in env;
    assert !AnyFailed(plans, parse, env);
    var values := LoadSpec(plans, parse, env, crateName).values;
    SuccessValues(plans, parse, env, crateName, 0);
    SuccessValues(plans, parse, env, crateName, 1);
    SuccessValues(plans, parse, env, crateName, 2);
    assert values == [Wrapped(None), Bare(addr), Bare(path)];
  }

  /**
   * `ENV_CAT=notanumber`, `ENV_DOG` absent, `ENV_FILE=/tmp/x`: two diagnostics, in field order:
   * `cat` could not be parsed, `dog` was not found; `file` is not reported.
   */
  lemma TwoFailureReads<V>(parse: (Type, string) -> Option<V>, path: V)
    requires parse(Plain("u8"), "notanumber") == None
    requires parse(Plain("PathBuf"), "/tmp/x") == Some(path)
    ensures var env := map["ENV_CAT" := "notanumber", "ENV_FILE" := "/tmp/x"];
      && ReadField(DemoPlans("ENV_")[0], parse, env) == Failed(CannotParse("ENV_CAT", "notanumber"))
      && ReadField(DemoPlans("ENV_")[1], parse, env) == Failed(NotFound("ENV_DOG"))
      && ReadField(DemoPlans("ENV_")[2], parse, env) == Parsed(path)
  {
    var env := map["ENV_CAT" := "notanumber", "ENV_FILE" := "/tmp/x"];
    assert "ENV_" + "CAT" == "ENV_CAT" && "ENV_" + "DOG" == "ENV_DOG" && "ENV_" + "FILE" == "ENV_FILE";
    assert "ENV_DOG" !in env;
  }

  lemma TwoFailuresReported<V>(parse: (Type, string) -> Option<V>, path: V, crateName: string)
    requires parse(Plain("u8"), "notanumber") == None
    requires parse(Plain("PathBuf"), "/tmp/x") == Some(path)
    ensures var env := map["ENV_CAT" := "notanumber", "ENV_FILE" := "/tmp/x"];
      && Errors(DemoPlans("ENV_"), parse, env) ==
           [Some(CannotParse("ENV_CAT", "notanumber")), Some(NotFound("ENV_DOG")), None]
      && LoadSpec(DemoPlans("ENV_"), parse, env, crateName).Exited?
      && |FailingFields(DemoPlans("ENV_"), parse, env)| == 2
  {
    var plans := DemoPlans("ENV_");
    var env := map["ENV_CAT" := "notanumber", "ENV_FILE" := "/tmp/x"];
    TwoFailureReads(parse, path);
    var errs := Errors(plans, parse, env);
    assert errs[0] == Some(CannotParse("ENV_CAT", "notanumber"));
    assert errs[1] == Some(NotFound("ENV_DOG"));
    assert errs[2] == None;
    assert errs == [Some(CannotParse("ENV_CAT", "notanumber")), Some(NotFound("ENV_DOG")), None];
    FailsIffSomeFieldFails(plans, parse, env, crateName);
    ErrorCountIsFailureCount(plans, parse, env);
    assert FailingFields(plans, parse, env) == {0, 1};
  }

  /** With the demo's own attribute, the `ENV_` variables are not even read. */
  lemma DemoIgnoresEnvPrefix<V>(parse: (Type, string) -> Option<V>, crateName: string)
    ensures var env := map["ENV_DOG" := "127.0.0.1:8080", "ENV_FILE" := "/tmp/x"];
      Errors(DemoPlans(""), parse, env) == [None, Some(NotFound("DOG")), Some(NotFound("FILE"))]
  {
    var env := map["ENV_DOG" := "127.0.0.1:8080", "ENV_FILE" := "/tmp/x"];
    assert "" + "CAT" == "CAT" && "" + "DOG" == "DOG" && "" + "FILE" == "FILE";
    assert "CAT" !in env && "DOG" !in env && "FILE" !in env;
  }

  /** An empty environment and three required fields: three not-found diagnostics. */
  lemma EmptyEnvAllRequired<V>(parse: (Type, string) -> Option<V>)
    ensures var plans := [FieldPlan("cat", "ENV_CAT", "", false, Plain("u8")),
                          FieldPlan("dog", "ENV_DOG", "", false, Plain("SocketAddr")),
                          FieldPlan("file", "ENV_FILE", "", false, Plain("PathBuf"))];
      Errors(plans, parse, map[]) ==
        [Some(NotFound("ENV_CAT")), Some(NotFound("ENV_DOG")), Some(NotFound("ENV_FILE"))]
  {
  }
}
