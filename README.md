# The rsx script parser's syntax tree, in Dafny

This project models the core of the rsx scripting language's parser crate
(`packages/parser/src/ast.rs`). It has four parts:

- **Operator tokens** (`Operators`). `CalculateMark` has thirteen tags: the `None`
  sentinel plus twelve binary operators. `ToString` renders each tag as its token,
  and the sentinel as `"none"`. `FromString` reads the twelve operator tokens back
  and falls back to `None` for any other text. The proofs show that every tag,
  the sentinel included, survives rendering and reading back, and that distinct
  tags have distinct tokens.
- **Function names** (`FunctionNames`). A called function is named either by a
  bare name (`Single`) or by namespace segments (`Namespace`). Its display string
  is the name itself, or the segments joined with `"::"`, which is `Vec::join`,
  modelled as the recursive `Join`. `AsSingle` is the same display string. The
  proofs show that joining keeps the segments in order. For non-empty lists of
  colon-free segments, they also show that `SplitNamespace`, a reference reading
  that cuts the text at each `"::"`, gives the segments back.
- **The syntax tree** (`Ast`). There is one datatype per struct and enum of
  ast.rs: `DioscriptAst`, `DioAstStatement` with its eight variants,
  `VariableDefine`, `FunctionCall`, `FunctionDefine`, `ParamsType`,
  `ConditionalStatement`, `LoopStatement`, `UseStatement` and `LoopExecuteType`.
  The expression type `CalcExpr` and the value type `AstValue` are the type
  parameters `E` and `V`.
- **The parse entry point** (`Ast.FromString`, with `Text` for the string work).
  `DioscriptAst::from_string` sends its message to the grammar engine and
  classifies the engine's outcome. The engine is an outside collaborator, so the
  model takes its outcome as the input `EngineOutcome`:
  - `Parsed(rest, stats)`: the engine succeeded, leaving `rest` unconsumed.
  - `Failed(code, input)`: the engine failed.

  The result is a program when the engine succeeded and `rest` is all
  whitespace. It is `UnMatchContent` with the first line of `rest` when the
  engine succeeded and left anything else. It is `ParseFailure` with the
  engine's code and input slice, unchanged, when the engine failed.

Two modelling choices about Rust's string functions:

- `str::trim` removes characters with the Unicode White_Space property, the set
  `char::is_whitespace` accepts. `Text.IsWhitespace` lists that set.
- `str::lines().next()` is taken as the text before the first line feed, minus
  a carriage return directly before that line feed. A carriage return that is
  not followed by a line feed stays in the line. An empty text gives `""`, as
  `unwrap_or("")` does in the source.

Two behaviours of the code that the model keeps as they are:

- `Namespace([])` renders as `""` (ast.rs:70, `Vec::join` of an empty list),
  and nothing refuses an empty segment list.
- `from_string("none")` is `None` (ast.rs:174), so reading back the rendering
  of a tag gives that tag for the sentinel too.

## Datatypes

| datatype | source |
|---|---|
| `Ast.DioscriptAst` | packages/parser/src/ast.rs:7-10 |
| `Ast.DioAstStatement` | packages/parser/src/ast.rs:34-45 |
| `Ast.VariableDefine` | packages/parser/src/ast.rs:47-52 |
| `Ast.FunctionCall` | packages/parser/src/ast.rs:54-58 |
| `FunctionNames.FunctionName` | packages/parser/src/ast.rs:60-64 |
| `Ast.FunctionDefine` | packages/parser/src/ast.rs:81-86 |
| `Ast.ParamsType` | packages/parser/src/ast.rs:88-92 |
| `Ast.ConditionalStatement` | packages/parser/src/ast.rs:94-99 |
| `Ast.LoopStatement` | packages/parser/src/ast.rs:101-105 |
| `Ast.UseStatement` | packages/parser/src/ast.rs:107-108 |
| `Ast.LoopExecuteType` | packages/parser/src/ast.rs:110-114 |
| `Operators.CalculateMark` | packages/parser/src/ast.rs:116-133 |
| `Ast.ParseError` | the two variants built at packages/parser/src/ast.rs:20-22 and 26-29 (the type itself is in error.rs) |
| `Ast.EngineOutcome` | the finished engine result taken apart at packages/parser/src/ast.rs:14-15 and 25 |
| `Ast.Option`, `Ast.Result` | Rust's `Option` (ast.rs:83, 98) and `Result` (ast.rs:13) |

## Model

| member | source | states |
|---|---|---|
| Operators.CalculateMark.ToString | packages/parser/src/ast.rs:135-155 | a tag renders as "none" exactly when it is the sentinel, and as one of the twelve operator tokens exactly when it is not |
| Operators.CalculateMark.FromString | packages/parser/src/ast.rs:157-177 | the result is an operator tag exactly when the text is one of the twelve tokens, and that tag renders back as the same text; any other text gives `None` |
| Operators.RoundTrip | packages/parser/src/ast.rs:135-176 | reading back the rendering of any tag, the sentinel included, gives that tag |
| Operators.ToStringInjective | packages/parser/src/ast.rs:136-153 | two tags with the same token are the same tag |
| Operators.ReadRenderIdentity | packages/parser/src/ast.rs:135-176 | reading then rendering a text gives it back exactly when it is an operator token or "none" |
| Operators.FallbackExamples | packages/parser/src/ast.rs:158-175 | "", "%", "none" and "=" all read as `None` |
| FunctionNames.Join | packages/parser/src/ast.rs:70 | joining no items gives "", and a non-empty join starts with the first item |
| FunctionNames.JoinSnoc | packages/parser/src/ast.rs:70 | appending an item to a non-empty list appends the delimiter and then the item to the joined text, so order is kept |
| FunctionNames.SplitJoin | packages/parser/src/ast.rs:70 | cutting the rendering of a non-empty list of colon-free segments at each "::" gives back that list, in order |
| FunctionNames.FunctionName.ToString | packages/parser/src/ast.rs:66-73 | a bare name renders as itself; a namespace with one segment renders as that segment, one with none as "", and any other starts with its first segment |
| FunctionNames.FunctionName.AsSingle | packages/parser/src/ast.rs:75-79 | `as_single` equals the display string for both variants, and is the name itself for `Single` |
| FunctionNames.NamespaceRenderingInjective | packages/parser/src/ast.rs:66-73 | two namespaces over non-empty lists of colon-free segments render alike only when the lists are equal |
| FunctionNames.ThreeSegmentExample | packages/parser/src/ast.rs:70 | the path a, b, c renders as "a::b::c" |
| Text.TrimStart | packages/parser/src/ast.rs:16 | the result is the suffix of the text that starts at its first non-whitespace character, and all that was dropped is whitespace |
| Text.TrimEnd | packages/parser/src/ast.rs:16 | the result is the prefix of the text that ends at its last non-whitespace character, and all that was dropped is whitespace |
| Text.Trim | packages/parser/src/ast.rs:16 | the result is a slice of the text with only whitespace before and after it, and it neither starts nor ends with whitespace |
| Text.TrimEmptyIff | packages/parser/src/ast.rs:16 | the trimmed text is empty exactly when every character of the text is whitespace |
| Text.NewlineIndex | packages/parser/src/ast.rs:19 | the position of the first line feed, or the length when there is none |
| Text.FirstLine | packages/parser/src/ast.rs:19 | a prefix of the text with no line feed; the whole text when it holds no line feed; otherwise followed in the text by "\n" or "\r\n", with the carriage return dropped |
| Text.FirstLineOfLeadingNewline | packages/parser/src/ast.rs:19 | a text that starts with a line feed has the empty first line |
| Ast.FromString | packages/parser/src/ast.rs:13-31 | the result is a program exactly when the engine succeeded and left only whitespace, and the program's statements are the engine's unchanged; it is `UnMatchContent` exactly when the engine succeeded and left something else, and then carries the first line of the leftover, a prefix of it with no line feed; an engine failure always gives `ParseFailure` with the engine's code and input slice unchanged |
| Ast.UnMatchedSingleLine | packages/parser/src/ast.rs:18-22 | leftover with no line break and not all whitespace is reported in full |
| Ast.UnMatchedLeadingNewline | packages/parser/src/ast.rs:18-22 | leftover that is not all whitespace and starts with a line break is reported as "" |
| Ast.FullyConsumed | packages/parser/src/ast.rs:15-17 | an engine that left nothing yields the program of exactly its statements |
| Ast.TrailingJunkExample | packages/parser/src/ast.rs:18-22 | leftover "TRAILING JUNK" is reported as `UnMatchContent("TRAILING JUNK")` |

## Left out

- The grammar engine `parse_rsx` and nom's `.finish()` (packages/parser/src/ast.rs:1, 14) are an outside parser-combinator library and grammar. Their finished outcome is the input `EngineOutcome` of `Ast.FromString`. A streaming `Incomplete` result, on which `finish()` panics, is not modelled.
- The internals of `CalcExpr` and `AstValue` are defined in `parser.rs` and `types.rs`, which are not part of this model. They are the type parameters `E` and `V`. `ParseError` comes from `error.rs`, which is not part of this model either. It is modelled from its two uses in `from_string`, with nom's error kind as the type parameter `C`.
- The derived `Debug`, `Clone` and `PartialEq` implementations are left out. Dafny's datatype equality is already structural equality.
- Text.FirstLine: it does not model Rust versions of `lines()` that also dropped a bare carriage return at the very end of the text. Current Rust keeps that character.
- The syntax tree enforces no invariants (non-empty names, non-empty `use` paths, non-empty namespaces), because the source enforces none.
