/** The comparison ladder that `check_criteria` and `evaluate_flag` share
    (src/web.py): an operator word or symbol, spelled in any case, picks the test
    that relates the page or flag value `ev` to the rule's value `uv`. */
module Conditions {
  import opened Prelude

  /** A Python float: a finite value, an infinity or NaN. */
  datatype Float = Finite(r: real) | PosInf | NegInf | NaN

  /** IEEE `<`: false whenever NaN is involved. */
  predicate FloatLess(a: Float, b: Float) {
    match (a, b)
    case (NaN, _) => false
    case (_, NaN) => false
    case (Finite(x), Finite(y)) => x < y
    case (NegInf, _) => !b.NegInf?
    case (_, PosInf) => !a.PosInf?
    case _ => false
  }

  /** IEEE `==` on floats: NaN equals nothing, not even itself. */
  predicate FloatEqual(a: Float, b: Float) {
    !a.NaN? && !b.NaN? && a == b
  }

  predicate FloatLessEq(a: Float, b: Float) {
    FloatLess(a, b) || FloatEqual(a, b)
  }

  /** The Python built-ins the engine relies on and the model leaves abstract:
      float() on a str (None for the ValueError), str() of a float, float
      addition and subtraction, re.search(pattern, text) (None for re.error), and
      template.format(arg) (None for the exception a brace field the single
      argument cannot fill raises).  `format` is not tied to the template's
      text: it may refuse a template without braces, which str.format never
      does, so the model also admits a failure of the fixed fallback text. */
  datatype Builtins = Builtins(
    parseFloat: string -> Option<Float>,
    floatStr: Float -> string,
    add: (Float, Float) -> Float,
    sub: (Float, Float) -> Float,
    search: (string, string) -> Option<bool>,
    format: (string, string) -> Option<string>)

  datatype Operator =
    | Equals | NotEquals
    | HasPart | LacksPart
    | Search | NotSearch
    | LessThan | LessThanEquals
    | GreaterThan | GreaterThanEquals

  /** The word spelling of each operator. */
  function WordForm(o: Operator): string {
    match o
    case Equals => "equals"
    case NotEquals => "notequals"
    case HasPart => "contains"
    case LacksPart => "notcontains"
    case Search => "search"
    case NotSearch => "notsearch"
    case LessThan => "lessthan"
    case LessThanEquals => "lessthanequals"
    case GreaterThan => "greaterthan"
    case GreaterThanEquals => "greaterthanequals"
  }

  /** The symbol spelling of each operator; `@` is "contains". */
  function SymbolForm(o: Operator): string {
    match o
    case Equals => "=="
    case NotEquals => "!="
    case HasPart => "@"
    case LacksPart => "!@"
    case Search => "~"
    case NotSearch => "!~"
    case LessThan => "<"
    case LessThanEquals => "<="
    case GreaterThan => ">"
    case GreaterThanEquals => ">="
  }

  /** `operator.lower()` looked up in the ladder; None when no rung matches. */
  function ParseOperator(operator: string): (r: Option<Operator>)
    ensures r.Some? ==> Lower(operator) in {WordForm(r.value), SymbolForm(r.value)}
  {
    var op := Lower(operator);
    if op in {"equals", "=="} then Some(Equals)
    else if op in {"notequals", "!="} then Some(NotEquals)
    else if op in {"contains", "@"} then Some(HasPart)
    else if op in {"notcontains", "!@"} then Some(LacksPart)
    else if op in {"search", "~"} then Some(Search)
    else if op in {"notsearch", "!~"} then Some(NotSearch)
    else if op in {"lessthan", "<"} then Some(LessThan)
    else if op in {"lessthanequals", "<="} then Some(LessThanEquals)
    else if op in {"greaterthan", ">"} then Some(GreaterThan)
    else if op in {"greaterthanequals", ">="} then Some(GreaterThanEquals)
    else None
  }

  predicate IsNumeric(o: Operator) {
    o.LessThan? || o.LessThanEquals? || o.GreaterThan? || o.GreaterThanEquals?
  }

  /** One rung of the ladder: `ev <op> uv`.  The ordered operators convert ev
      first, then uv, so a bad ev is the error reported when both are bad. */
  function Compare(py: Builtins, o: Operator, ev: string, uv: string): (r: Result<bool, Fault>)
    ensures !IsNumeric(o) && !o.Search? && !o.NotSearch? ==> r.Ok?
    ensures IsNumeric(o) && py.parseFloat(ev).None? ==> r == Err(NotANumber(ev))
    ensures IsNumeric(o) && py.parseFloat(ev).Some? && py.parseFloat(uv).None? ==> r == Err(NotANumber(uv))
    ensures (o.Search? || o.NotSearch?) ==> (r.Err? <==> py.search(uv, ev).None?)
    ensures r.Err? ==> r.error.NotANumber? || r.error == BadPattern(uv)
  {
    match o
    case Equals => Ok(ev == uv)
    case NotEquals => Ok(ev != uv)
    case HasPart => Ok(Contains(ev, uv))
    case LacksPart => Ok(!Contains(ev, uv))
    case Search => SearchResult(py, uv, ev, true)
    case NotSearch => SearchResult(py, uv, ev, false)
    case _ =>
      match py.parseFloat(ev)
      case None => Err(NotANumber(ev))
      case Some(x) =>
        match py.parseFloat(uv)
        case None => Err(NotANumber(uv))
        case Some(y) => Ok(Ordered(o, x, y))
  }

  /** `re.search(pattern, text) is not None` (found) or `is None`. */
  function SearchResult(py: Builtins, pattern: string, text: string, found: bool): Result<bool, Fault> {
    match py.search(pattern, text)
    case None => Err(BadPattern(pattern))
    case Some(hit) => Ok(hit == found)
  }

  function Ordered(o: Operator, x: Float, y: Float): bool
    requires IsNumeric(o)
  {
    match o
    case LessThan => FloatLess(x, y)
    case LessThanEquals => FloatLessEq(x, y)
    case GreaterThan => FloatLess(y, x)
    case GreaterThanEquals => FloatLessEq(y, x)
  }

  // ---------------------------------------------------------------------------
  // Properties of the ladder

  /** Both spellings of every operator reach it, whatever their case. */
  lemma SpellingsReach(o: Operator, operator: string)
    requires Lower(operator) == WordForm(o) || Lower(operator) == SymbolForm(o)
    ensures ParseOperator(operator) == Some(o)
  {
  }

  /** The ladder only answers to the two spellings, read case-insensitively. */
  lemma ParseOperatorSpellings(operator: string, o: Operator)
    ensures ParseOperator(operator) == Some(o) <==>
      (Lower(operator) == WordForm(o) || Lower(operator) == SymbolForm(o))
  {
    if Lower(operator) == WordForm(o) || Lower(operator) == SymbolForm(o) {
      SpellingsReach(o, operator);
    }
  }

  /** Case does not matter: "LessThan", "LESSTHAN" and "lessthan" are one operator. */
  lemma ParseOperatorIgnoresCase(operator: string)
    ensures ParseOperator(Lower(operator)) == ParseOperator(operator)
  {
    LowerIdempotent(operator);
  }

  /** The negated operator of each string test. */
  function Negation(o: Operator): Operator
    requires !IsNumeric(o)
  {
    match o
    case Equals => NotEquals
    case NotEquals => Equals
    case HasPart => LacksPart
    case LacksPart => HasPart
    case Search => NotSearch
    case NotSearch => Search
  }

  /** A negated string test answers the opposite and fails exactly when the test does. */
  lemma NegationFlips(py: Builtins, o: Operator, ev: string, uv: string)
    requires !IsNumeric(o)
    ensures Compare(py, Negation(o), ev, uv).Ok? <==> Compare(py, o, ev, uv).Ok?
    ensures Compare(py, o, ev, uv).Ok? ==>
      Compare(py, Negation(o), ev, uv).value == !Compare(py, o, ev, uv).value
  {
  }

  /** `ev < uv` is `uv > ev` once both sides are numbers, and likewise for `<=`. */
  lemma OrderedConverse(py: Builtins, ev: string, uv: string)
    requires py.parseFloat(ev).Some? && py.parseFloat(uv).Some?
    ensures Compare(py, LessThan, ev, uv) == Compare(py, GreaterThan, uv, ev)
    ensures Compare(py, LessThanEquals, ev, uv) == Compare(py, GreaterThanEquals, uv, ev)
  {
  }

  /** A value that reads as NaN fails every ordered test. */
  lemma NaNFailsOrdered(py: Builtins, o: Operator, ev: string, uv: string)
    requires IsNumeric(o)
    requires py.parseFloat(ev) == Some(NaN) && py.parseFloat(uv).Some?
    ensures Compare(py, o, ev, uv) == Ok(false)
  {
  }

  /** Away from NaN, `<` and `>=` are complements, as are `>` and `<=`. */
  lemma OrderedComplements(x: Float, y: Float)
    requires !x.NaN? && !y.NaN?
    ensures Ordered(LessThan, x, y) <==> !Ordered(GreaterThanEquals, x, y)
    ensures Ordered(GreaterThan, x, y) <==> !Ordered(LessThanEquals, x, y)
  {
  }
}
