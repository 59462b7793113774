/** The operator token model: the closed set of binary operator tags of the
    language, each with its textual token, and the reverse lookup that falls
    back to the `None` tag for any text that is not one of the twelve
    operator tokens. */
module Operators {

  /** The twelve textual tokens that name an operator. "none", the rendering
      of the sentinel tag, is not among them. */
  const OperatorTokens: set<string> :=
    {"+", "-", "*", "/", "==", "!=", ">", "<", ">=", "<=", "&&", "||"}

  datatype CalculateMark =
    | None
    | Plus | Minus | Multiply | Divide
    | Equal | NotEqual | Large | Small | LargeOrEqual | SmallOrEqual | And | Or
  {
    /** The textual token of this tag; the sentinel renders as "none". */
    function ToString(): (r: string)
      ensures this == None <==> r == "none"
      ensures this != None <==> r in OperatorTokens
    {
      match this
      case None => "none"
      case Plus => "+"
      case Minus => "-"
      case Multiply => "*"
      case Divide => "/"
      case Equal => "=="
      case NotEqual => "!="
      case Large => ">"
      case Small => "<"
      case LargeOrEqual => ">="
      case SmallOrEqual => "<="
      case And => "&&"
      case Or => "||"
    }

    /** The tag whose token is `s`, or `None` for any other text. */
    static function FromString(s: string): (r: CalculateMark)
      ensures r != None <==> s in OperatorTokens
      ensures r != None ==> r.ToString() == s
    {
      match s
      case "+" => Plus
      case "-" => Minus
      case "*" => Multiply
      case "/" => Divide
      case "==" => Equal
      case "!=" => NotEqual
      case ">" => Large
      case "<" => Small
      case ">=" => LargeOrEqual
      case "<=" => SmallOrEqual
      case "&&" => And
      case "||" => Or
      case _ => None
    }
  }

  /** Every tag, the sentinel included, survives rendering and reading back. */
  lemma RoundTrip(m: CalculateMark)
    ensures CalculateMark.FromString(m.ToString()) == m
  {
  }

  /** Distinct tags render as distinct tokens. */
  lemma ToStringInjective(m: CalculateMark, n: CalculateMark)
    ensures m.ToString() == n.ToString() ==> m == n
  {
  }

  /** Reading a token back and rendering it gives the token again exactly when
      the text is one of the twelve operator tokens or the sentinel's "none". */
  lemma ReadRenderIdentity(s: string)
    ensures CalculateMark.FromString(s).ToString() == s <==> s in OperatorTokens || s == "none"
  {
  }

  /** Examples of the fallback: the empty text, a token the language does not
      know, the sentinel's own rendering, and a prefix of a real token. */
  lemma FallbackExamples()
    ensures CalculateMark.FromString("") == None
    ensures CalculateMark.FromString("%") == None
    ensures CalculateMark.FromString("none") == None
    ensures CalculateMark.FromString("=") == None
  {
  }
}
