# parenv — a Dafny model of the `Environment` derive

parenv's `#[derive(Environment)]` turns a struct with named fields into a loader. The loader
reads one environment variable per field, parses it, and collects every failure before deciding
anything. When any field fails, it prints a usage table of all fields and the diagnostics, then
exits with status 1. This project models the code the macro generates (the `parse()` method) as
sequential Dafny over explicit data. It also models the helpers that run at macro time:

- reading the `#[parenv(prefix = …, suffix = …)]` attribute;
- taking the first doc line of each field;
- recognising `Option<T>` field types;
- deriving the key `prefix + UPPERCASE(ident) + suffix`.

Modules, leaves first:

- `Wrappers`: `Option` and `Result`.
- `Syn`: the part of the proc_macro2 / syn trees the macro looks at (tokens, paths, types, attributes) as data, plus syn's `Path::is_ident`.
- `Ascii`: ASCII upper-casing and `trim`.
- `Attributes`: `get_parenv_value` and `parenv_mata_values` (as a function and as the two-pass loop method), plus `extract_doc_comment`.
- `TypeMatch`: `only_one`, `only_last_segment` (a function and the `Group`-peeling loop method), `subty_if` and `subty_if_name`.
- `Naming`: the environment key.
- `Binding`: the generated `parse_<ident>` functions (`ReadField`) and the contents of the `errors` array.
- `Usage`: the table rows, column widths, padding, diagnostic lines and the full report.
- `Loader`: the generated `parse()`. `BindAll` fills the `errors` array and the field locals by index. `MaxWidths`, `PrintRow`, `PrintTable` and `PrintErrors` are its printing loops. `Parse` ties them together and is proved equal to `LoadSpec`.
- `Derive`: `derive_environment`'s per-field plan (key, description, optionality, parse type).
- `Demo`: the struct of `parenv-test` and concrete load scenarios.

Parsing (`str::parse::<T>`) is a parameter `parse: (Type, string) -> Option<V>`. The environment
is a `map<string, string>`. The crate name is a parameter. Output is a returned list of uncoloured
lines plus an exit status.

## Behaviour of the code worth knowing

- **A `parenv` attribute with a single key is ignored.** The two-pass loop of
  `parenv_mata_values` exits the `find_map` closure with `None` when the second pass finds no
  identifier. So the demo's `#[parenv(prefix = "ENV_")]` gives `("", "")`, and the demo's keys
  are `CAT`, `DOG`, `FILE` (`Demo.DemoPrefixDiscarded`, `Demo.DemoIgnoresEnvPrefix`). A
  description of the demo that expects `ENV_CAT`, `ENV_DOG`, `ENV_FILE` does not match the code.
  The model follows the code. The `ENV_` scenarios use `prefix = "ENV_", suffix = ""`, which
  does apply the prefix (`Demo.TwoKeyPrefixApplied`).
- **An unknown first key skips the whole attribute.** Its `= value` is never consumed
  (`Attributes.UnknownFirstKeySkips`).
- **A one-character literal panics the macro.** For example `prefix = 5`, because of
  `value[1..0]`. This is modelled as the `SlicePanic` error.
- **Only a bare one-segment `Option<T>` counts as optional.** `std::option::Option<T>`,
  `::Option<T>` and `(Option<T>)` are required. Invisible `Group`s are seen through.
- **Only the first `doc` attribute is used.** If its value is not a string literal, the
  description is `""`.
- **Key collisions are not rejected.** Two identifiers that agree after upper-casing share a key
  (`Naming.SameKeyIff`).
- **The diagnostic text has no type name.** It is the macro's own `wrap_err` message. It has no
  "as <type>" part.

## Model

| member | source | states |
|---|---|---|
| `Ascii.ToUpper` | parenv-derive/src/lib.rs:27 | Upper-casing keeps the length, leaves no ASCII lower-case letter, moves each `a`–`z` down by 32 and keeps every other character |
| `Ascii.ToUpperIdempotent` | parenv-derive/src/lib.rs:27 | Upper-casing twice is upper-casing once |
| `Ascii.Trim` | parenv-derive/src/lib.rs:278 | The trimmed doc string is an infix of the input, everything cut off is white space, and it neither starts nor ends with white space |
| `Ascii.TrimExact` | parenv-derive/src/lib.rs:278 | White space around a core with non-blank ends is removed, and nothing else |
| `Ascii.TrimIdempotent` | parenv-derive/src/lib.rs:278 | Trimming twice is trimming once |
| `Naming.EnvKey` | parenv-derive/src/lib.rs:27-28 | The key is the prefix, then the upper-cased identifier, then the suffix, at those exact positions |
| `Naming.SameKeyIff` | parenv-derive/src/lib.rs:70-71 | Two identifiers get the same key iff they agree after upper-casing |
| `Naming.FileKey` | parenv-derive/src/lib.rs:70-71 | `file` with prefix `ENV_` is looked up as `ENV_FILE` |
| `Attributes.GetParenvValue` | parenv-derive/src/lib.rs:245-260 | A value comes back iff the tokens are `=` then a literal, and it is the literal without its first and last characters. A one-character literal panics. Exactly one token is consumed when there is no `=`, two after one |
| `Attributes.EntryStep` | parenv-derive/src/lib.rs:217-233 | A pass halts with "skipped" iff no identifier is next. Otherwise it makes progress and changes only the value its key names, to what `get_parenv_value` read. An unknown key consumes itself and one separator. A known key halts with `get_parenv_value`'s panic iff that panics, and otherwise consumes the value's tokens and one separator |
| `Attributes.ReadParenvTokens` | parenv-derive/src/lib.rs:211-236 | The two-pass loop over one attribute's tokens ends as the two-step scan specifies: skipped, panicked, or with the values read |
| `Attributes.ParenvMataValues` | parenv-derive/src/lib.rs:206-241 | The loop over the attributes returns what the `find_map` specification gives |
| `Attributes.NoDecidingAttrDefaults` | parenv-derive/src/lib.rs:207-240 | With no `parenv` list, or only skipped ones, prefix and suffix are both `""` |
| `Attributes.FirstDecidingAttrWins` | parenv-derive/src/lib.rs:207-239 | The first attribute that does not skip decides the result (missing values become `""`); later ones are never read |
| `Attributes.SingleKeySkipped` | parenv-derive/src/lib.rs:216-220 | An attribute with a single `key = literal` entry, with or without a trailing token, is skipped |
| `Attributes.BothKeysRead` | parenv-derive/src/lib.rs:216-236 | `prefix = "A", suffix = "B"`, in either order, yields both values unquoted |
| `Attributes.MissingValueDefaults` | parenv-derive/src/lib.rs:236 | A key that is not among the two read entries defaults to `""` |
| `Attributes.UnknownFirstKeySkips` | parenv-derive/src/lib.rs:222-233 | An unknown key in first place leaves its value unconsumed, so the attribute is skipped |
| `Attributes.FirstDoc` | parenv-derive/src/lib.rs:263-269 | The index found is the first doc attribute; None iff there is none |
| `Attributes.ExtractDocComment` | parenv-derive/src/lib.rs:262-280 | The description is the trimmed string of the first doc attribute, or `""` when there is none or it is not a string literal |
| `Attributes.FirstDocLineOnly` | parenv-derive/src/lib.rs:266-269 | Attributes after the first doc attribute never change the description |
| `TypeMatch.OnlyOne` | parenv-derive/src/lib.rs:329-334 | Some iff exactly one element, and then that element |
| `TypeMatch.Peel` | parenv-derive/src/lib.rs:312-314 | The peeled type is no `Group`: a `Group` is peeled to its element, and any other type is returned unchanged |
| `TypeMatch.LastSegment` | parenv-derive/src/lib.rs:309-327 | Some iff the peeled type is a path type with no qualified self, no leading `::` and one segment, and then that segment |
| `TypeMatch.OnlyLastSegment` | parenv-derive/src/lib.rs:309-327 | The `while let Type::Group` loop returns what `LastSegment` specifies |
| `TypeMatch.SoleTypeArg` | parenv-derive/src/lib.rs:295-305 | Some iff the segment has angle brackets with exactly one argument that is a type, and then that type |
| `TypeMatch.SubtyIf` | parenv-derive/src/lib.rs:286-307 | There is a result iff the single segment passes the filter and has a sole type argument, and that argument is the result |
| `TypeMatch.OptionIff` | parenv-derive/src/lib.rs:282-327 | `subty_if_name(ty, "Option")` is `Some(inner)` iff `ty`, under groups, is the bare path `Option<inner>` |
| `TypeMatch.QualifiedOptionIsRequired` | parenv-derive/src/lib.rs:315-323 | A path type with more than one segment is never recognised |
| `TypeMatch.WrappedOptionIsRequired` | parenv-derive/src/lib.rs:312-325 | `::Option<T>` and `(Option<T>)` are not recognised |
| `TypeMatch.GroupsTransparent` | parenv-derive/src/lib.rs:312-314 | Any number of `Group` wrappers leaves recognition unchanged |
| `Binding.ReadField` | parenv-derive/src/lib.rs:74-136 | Absent iff optional and unset; not-found failure iff required and unset; parse failure with key and raw value iff set and unparsable; parsed value iff set and parsable |
| `Binding.Errors` | parenv-derive/src/lib.rs:151-156 | One slot per field; slot `i` is filled iff field `i` failed, with that field's diagnostic |
| `Binding.ErrorsAppend` | parenv-derive/src/lib.rs:62-140 | Slot `i` depends on field `i` alone: the slots of a concatenation are the slots of its parts |
| `Binding.CountSomeIsSize` | parenv-derive/src/lib.rs:187-191 | The filled slots counted in order are as many as the set of filled indices |
| `Binding.ErrorCountIsFailureCount` | parenv-derive/src/lib.rs:151-159 | The filled slots are exactly the failing fields, so there are exactly as many of them |
| `Binding.AbsenceFailsIffRequired` | parenv-derive/src/lib.rs:74-117 | An unset variable fills the slot iff the field is required; an optional local stays None |
| `Usage.Rows` | parenv-derive/src/lib.rs:20-42 | One row per field, in order: key, description, and `[optional]` iff optional (`""` iff required) |
| `Usage.ColumnWidth` | parenv-derive/src/lib.rs:166-173 | The width bounds every cell of the column, and is 0 with no rows |
| `Usage.ColumnWidthAttained` | parenv-derive/src/lib.rs:168-172 | Some row's cell is exactly as wide as the column, so the width is the maximum |
| `Usage.Pad` | parenv-derive/src/lib.rs:178 | The padded cell starts with the cell, is followed only by spaces, and is as long as the width or the cell, whichever is longer |
| `Usage.CellsAppend` | parenv-derive/src/lib.rs:177-179 | The printed cells of a split row are the printed cells of its parts |
| `Usage.CellsLength` | parenv-derive/src/lib.rs:177-179 | Cells that fit take the sum of the widths plus four columns each |
| `Usage.RowLineLength` | parenv-derive/src/lib.rs:175-181 | A row line is `4 + Σ(width + 4)` long |
| `Usage.CellAtOffset` | parenv-derive/src/lib.rs:175-181 | Cell `c` of any row starts at the same offset `4 + Σ_{d<c}(width_d + 4)`: the table is aligned |
| `Usage.DiagText` | parenv-derive/src/lib.rs:112-125 | A diagnostic's message ends with the key followed by a full stop. It starts "I couldn't find" iff the variable was not found, and a parse failure's message quotes the raw value right after "I couldn't parse the value '" |
| `Usage.DiagLinesAppend` | parenv-derive/src/lib.rs:187-191 | The error list keeps field order: the lines of a concatenation are the lines of its parts |
| `Usage.DiagLinesCount` | parenv-derive/src/lib.rs:187-191 | One error line per filled slot |
| `Usage.DiagLinesOne` | parenv-derive/src/lib.rs:188-190 | A filled slot prints its message, an empty one nothing |
| `Usage.UsageLines` | parenv-derive/src/lib.rs:160-191 | The report has two intro lines, one line per field, three separator lines and one line per failure |
| `Loader.BindAll` | parenv-derive/src/lib.rs:151-156 | After every field block ran in order, the `errors` array and the locals are exactly the per-field slots |
| `Loader.MaxWidths` | parenv-derive/src/lib.rs:166-173 | `max_widths` holds the three column widths |
| `Loader.PrintRow` | parenv-derive/src/lib.rs:175-181 | The nested loop prints the indent and then each cell padded to its width plus four spaces |
| `Loader.PrintTable` | parenv-derive/src/lib.rs:175-181 | One printed line per row, under the widths of all rows |
| `Loader.PrintErrors` | parenv-derive/src/lib.rs:187-191 | The loop prints exactly the filled slots' messages, in index order |
| `Loader.Parse` | parenv-derive/src/lib.rs:147-199 | `parse()` behaves as `LoadSpec`; it exits, with status 1, iff some field failed |
| `Loader.RequiredBound` | parenv-derive/src/lib.rs:56 | When no slot is filled, every required local holds a value, so `.unwrap()` cannot panic |
| `Loader.FailsIffSomeFieldFails` | parenv-derive/src/lib.rs:158-194 | The load exits iff some field failed, with status 1, printing the full table and error list |
| `Loader.SuccessValues` | parenv-derive/src/lib.rs:196-198 | On success a required field holds its parsed value; an optional one holds None when unset and the parse result otherwise |
| `Loader.NoFieldsLoads` | parenv-derive/src/lib.rs:142-154 | A struct without fields always loads |
| `Loader.ReportSize` | parenv-derive/src/lib.rs:160-191 | The report is `5 + fields + failing fields` lines long |
| `Loader.TableShowsLookupKey` | parenv-derive/src/lib.rs:26-39 | Table line `i` shows, at column 4, the key field `i` was looked up by, and has the aligned length |
| `Loader.OnlyMissingRequiredReported` | parenv-derive/src/lib.rs:109-136 | One unset required field among valid ones is the only failure, reported as not found |
| `Derive.PlanOf` | parenv-derive/src/lib.rs:62-74 | A field's plan has its naming-convention key, first doc line, optionality as recognised by `subty_if_name`, and parse type (the inner type when optional) |
| `Derive.Derive` | parenv-derive/src/lib.rs:7-30 | Non-structs and structs without named fields are rejected; otherwise there is one plan per field, under the attribute's prefix and suffix |
| `Derive.KeysFollowNamingConvention` | parenv-derive/src/lib.rs:26-28 | Each plan's key is the prefix, the upper-cased identifier and the suffix |
| `Demo.DocLine` | parenv-test/src/main.rs:8-13 | A `/// text` comment yields `text` |
| `Demo.DemoPrefixDiscarded` | parenv-test/src/main.rs:5-14 | The demo struct derives the keys `CAT`, `DOG`, `FILE`, with `cat` optional and parsed as `u8` |
| `Demo.TwoKeyPrefixApplied` | parenv-derive/src/lib.rs:216-236 | With `prefix = "ENV_", suffix = ""` the keys are `ENV_CAT`, `ENV_DOG`, `ENV_FILE` |
| `Demo.LoadsWithoutOptional` | parenv-test/src/main.rs:7-17 | Under `prefix = "ENV_", suffix = ""`: `ENV_DOG` and `ENV_FILE` set and `ENV_CAT` unset: the load succeeds with `cat = None` |
| `Demo.TwoFailuresReported` | parenv-test/src/main.rs:7-17 | Under `prefix = "ENV_", suffix = ""`: `ENV_CAT=notanumber` and `ENV_DOG` unset: exactly two diagnostics, a parse failure for `cat` and not-found for `dog`, in that order |
| `Demo.DemoIgnoresEnvPrefix` | parenv-test/src/main.rs:6 | Under the demo's own attribute, the `ENV_` variables are not read: `DOG` and `FILE` are not found |
| `Demo.EmptyEnvAllRequired` | parenv-derive/src/lib.rs:109-117 | An empty environment and three required fields give three not-found diagnostics |

## Left out

- Macro plumbing: `proc_macro`, `syn` parsing and `quote!` generation. The model states the generated code directly, with the schema as data. syn's types are reduced to the variants the derive tells apart.
- `std::env::var`: the environment is a map. A variable whose value is not valid Unicode is not modelled. (The code reports it as "not found" for a required field and treats it as unset for an optional one.)
- `str::parse::<T>` for `u8`, `SocketAddr`, `PathBuf` and other types: an abstract parser. The parser's own error text is not kept.
- miette: a diagnostic keeps only its kind, key and raw value, and is printed as its `wrap_err` message on one line. miette's `{:?}` report layout and cause chain are left out.
- owo_colors styling: strings are plain. In the code, `.len()` counts the ANSI escape bytes of the styled cells, so the real column widths include them.
- `println!`, `print!` and `process::exit`: the report is returned as lines with the exit status. `env!("CARGO_PKG_NAME")` is a parameter.
- Unicode: upper-casing and trimming are ASCII only. A panic from slicing a non-ASCII literal inside a character is not modelled.
- `Ascii.ToUpper`: weaker than `str::to_uppercase` on non-ASCII identifiers, whose upper-case form may differ in length.
- `Usage.ColumnWidth`: counts characters, but `.len()` in the code counts UTF-8 bytes. `{:<width$}` pads by characters. So a non-ASCII key or description (`/// Le café`) gives the code a wider column and longer row lines than `Widths`, `RowLineLength` and `TableShowsLookupKey` state. The model agrees with the code on ASCII text.
