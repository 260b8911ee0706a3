/** The SqlOperator enumeration and its rendering as SQL text. */
module SqlOperators {
  import opened Wrappers
  import opened Text

  /** The eight declared members, in declaration order (values 0 to 7), and
      Undeclared(v): what a cast of any other int v to SqlOperator yields. */
  datatype SqlOperator =
    | Equal
    | LessThan
    | LessThanOrEqual
    | GreaterThan
    | GreaterThanOrEqual
    | NotEqual
    | In
    | Like
    | Undeclared(value: int)

  /** The cast (SqlOperator)v. */
  function OfValue(v: int): (op: SqlOperator)
    ensures op.Undeclared? <==> v < 0 || 7 < v
  {
    if v == 0 then Equal
    else if v == 1 then LessThan
    else if v == 2 then LessThanOrEqual
    else if v == 3 then GreaterThan
    else if v == 4 then GreaterThanOrEqual
    else if v == 5 then NotEqual
    else if v == 6 then In
    else if v == 7 then Like
    else Undeclared(v)
  }

  /** The switch of SqlOperatorExtensions.ToOperator: a literal per declared
      member, NotSupportedException("op") for anything else. */
  function ToOperator(op: SqlOperator): (r: Result<string>)
    ensures r.Success? <==> !op.Undeclared?
    ensures r.Failure? ==> r.error == NotSupported("op")
  {
    match op
    case Equal => Success("=")
    case LessThan => Success("<")
    case LessThanOrEqual => Success("<=")
    case GreaterThan => Success(">")
    case GreaterThanOrEqual => Success(">=")
    case NotEqual => Success("<>")
    case In => Success("IN")
    case Like => Success("LIKE")
    case Undeclared(_) => Failure(NotSupported("op"))
  }

  /** Reading a rendered operator back: the reference inverse of ToOperator. */
  function ParseOperator(s: string): Option<SqlOperator>
  {
    if s == "=" then Some(Equal)
    else if s == "<" then Some(LessThan)
    else if s == "<=" then Some(LessThanOrEqual)
    else if s == ">" then Some(GreaterThan)
    else if s == ">=" then Some(GreaterThanOrEqual)
    else if s == "<>" then Some(NotEqual)
    else if s == "IN" then Some(In)
    else if s == "LIKE" then Some(Like)
    else None
  }

  /** Every cast of a declared value renders; every rendering reads back as
      the operator it came from, so distinct operators render differently. */
  lemma ToOperatorRoundTrip(v: int)
    ensures ToOperator(OfValue(v)).Success? <==> 0 <= v <= 7
    ensures 0 <= v <= 7 ==> ParseOperator(ToOperator(OfValue(v)).value) == Some(OfValue(v))
  {
  }

  lemma ToOperatorInjective(a: SqlOperator, b: SqlOperator)
    requires ToOperator(a).Success? && ToOperator(b).Success?
    ensures ToOperator(a).value == ToOperator(b).value <==> a == b
  {
    assert ParseOperator(ToOperator(a).value) == Some(a);
    assert ParseOperator(ToOperator(b).value) == Some(b);
  }

  /** A rendered operator is a single non-empty token: it has no white space. */
  lemma ToOperatorIsOneToken(op: SqlOperator)
    requires !op.Undeclared?
    ensures var s := ToOperator(op).value; s != [] && forall i :: 0 <= i < |s| ==> !IsWhiteSpace(s[i])
  {
  }
}
