/** The abstract syntax tree of the language and its parse entry point.
    The computable expression type (`CalcExpr`) and the runtime value type
    (`AstValue`) are built elsewhere; here they are the type parameters `E`
    and `V`. The grammar engine's failure code is the type parameter `C`. */
module Ast {
  import opened Text
  import opened FunctionNames

  /** A whole program: its statements in source order. */
  datatype DioscriptAst<E, V> = DioscriptAst(stats: seq<DioAstStatement<E, V>>)

  datatype DioAstStatement<E, V> =
    | VariableAss(define: VariableDefine<E>)
    | ReturnValue(value: E)
    | IfStatement(conditional: ConditionalStatement<E, V>)
    | LoopStatement(repeat: LoopStatement<E, V>)
    | LineComment(comment: string)
    | FunctionCall(call: FunctionCall<V>)
    | FunctionDefine(definition: FunctionDefine<E, V>)
    | ModuleUse(usage: UseStatement)

  /** `isNew` is true for a declaration (`let`), false for a reassignment. */
  datatype VariableDefine<E> = VariableDefine(isNew: bool, name: string, expr: E)

  datatype FunctionCall<V> = FunctionCall(name: FunctionName, arguments: seq<V>)

  /** A function definition; `name` is absent for an anonymous function. */
  datatype FunctionDefine<E, V> =
    FunctionDefine(name: Option<string>, params: ParamsType, inner: seq<DioAstStatement<E, V>>)

  /** The parameters: one variadic name, or a fixed list of names. */
  datatype ParamsType = Variable(rest: string) | List(names: seq<string>)

  /** `if condition { inner } else { otherwise }`; an absent `otherwise` means
      no else branch. */
  datatype ConditionalStatement<E, V> =
    ConditionalStatement(condition: E, inner: seq<DioAstStatement<E, V>>,
                         otherwise: Option<seq<DioAstStatement<E, V>>>)

  datatype LoopStatement<E, V> =
    LoopStatement(executeType: LoopExecuteType<E, V>, inner: seq<DioAstStatement<E, V>>)

  /** The import path of a `use` statement, segment by segment. */
  datatype UseStatement = UseStatement(path: seq<string>)

  /** A `while`-style loop with its condition, or a `for`-style loop over a
      value with the name each element is bound to. */
  datatype LoopExecuteType<E, V> =
    | Conditional(condition: E)
    | Iter(iter: V, variable: string)

  datatype Option<T> = None | Some(value: T)

  datatype Result<T, Err> = Ok(value: T) | Err(error: Err)

  /** The two ways a parse fails. */
  datatype ParseError<C> =
    | UnMatchContent(content: string)
    | ParseFailure(kind: C, text: string)

  /** What the grammar engine reports for a source text, once finished:
      success with the text it left unconsumed and the statements it
      recognised, or failure with its code and the input slice it stopped at. */
  datatype EngineOutcome<E, V, C> =
    | Parsed(rest: string, stats: seq<DioAstStatement<E, V>>)
    | Failed(code: C, input: string)

  /** `DioscriptAst::from_string` given the engine's outcome for its message:
      a program when the engine succeeded and left only whitespace, an
      `UnMatchContent` error carrying the first line of the leftover when it
      left anything else, and the engine's own failure otherwise. */
  function FromString<E, V, C>(v: EngineOutcome<E, V, C>): (r: Result<DioscriptAst<E, V>, ParseError<C>>)
    ensures r.Ok? <==> v.Parsed? && AllWhitespace(v.rest)
    ensures r.Ok? ==> r.value.stats == v.stats
    ensures r.Err? && r.error.UnMatchContent? <==> v.Parsed? && !AllWhitespace(v.rest)
    ensures r.Err? && r.error.UnMatchContent? ==>
              r.error.content == FirstLine(v.rest)
              && r.error.content <= v.rest && '\n' !in r.error.content
    ensures v.Failed? ==> r == Err(ParseFailure(v.code, v.input))
  {
    match v
    case Parsed(text, ast) =>
      TrimEmptyIff(text);
      if Trim(text) == "" then
        Ok(DioscriptAst(ast))
      else
        Err(UnMatchContent(FirstLine(text)))
    case Failed(code, input) =>
      Err(ParseFailure(code, input))
  }

  /** When the leftover holds no line break, the error carries all of it. */
  lemma UnMatchedSingleLine<E, V, C>(rest: string, stats: seq<DioAstStatement<E, V>>)
    requires !AllWhitespace(rest) && '\n' !in rest
    ensures FromString<E, V, C>(Parsed(rest, stats)) == Err(UnMatchContent(rest))
  {
  }

  /** When the leftover starts with a line break, the error carries "". */
  lemma UnMatchedLeadingNewline<E, V, C>(rest: string, stats: seq<DioAstStatement<E, V>>)
    requires !AllWhitespace(rest) && rest[0] == '\n'
    ensures FromString<E, V, C>(Parsed(rest, stats)) == Err(UnMatchContent(""))
  {
  }

  /** An engine that consumed everything, the empty source included, yields
      the program of exactly its statements. */
  lemma FullyConsumed<E, V, C>(stats: seq<DioAstStatement<E, V>>)
    ensures FromString<E, V, C>(Parsed("", stats)) == Ok(DioscriptAst(stats))
  {
  }

  /** The trailing-junk case: a valid prefix followed by a line of text the
      engine left unconsumed. */
  lemma TrailingJunkExample<E, V, C>(stats: seq<DioAstStatement<E, V>>)
    ensures FromString<E, V, C>(Parsed("TRAILING JUNK", stats)) == Err(UnMatchContent("TRAILING JUNK"))
  {
    var junk := "TRAILING JUNK";
    assert junk[0] == 'T' && !IsWhitespace('T');
    UnMatchedSingleLine<E, V, C>(junk, stats);
  }
}
