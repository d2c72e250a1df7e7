/**
 * `pg_encoding_to_char(encoding)`: the name of a PostgreSQL character-set
 * encoding given its number, or null.
 *
 * The table of encoding names is a parameter: the implementation is not
 * part of this model, and only the entries the function's test pins down are
 * fixed (`AgreesWithTest`).
 */
module PgEncoding {
  import opened Wrappers

  /** The encoding numbers 0 .. 41 name the entries of `names`; 1, 6 and 41 are the ones the test asserts. */
  predicate AgreesWithTest(names: seq<string>) {
    && |names| == 42
    && names[1] == "EUC_JP"
    && names[6] == "UTF8"
    && names[41] == "SHIFT_JIS_2004"
  }

  /** The function: null for a null or unknown encoding number, its name otherwise. */
  function PgEncodingToChar(names: seq<string>, encoding: Option<int>): (r: Option<string>)
    ensures r.Some? <==> encoding.Some? && 0 <= encoding.value < |names|
    ensures r.Some? ==> r.value == names[encoding.value]
  {
    match encoding
    case None => None
    case Some(e) => if 0 <= e < |names| then Some(names[e]) else None
  }

  /** A function name as written in SQL, optionally qualified by a schema. */
  datatype QualifiedName = QualifiedName(schema: Option<string>, name: string)

  /** The name resolves to `pg_encoding_to_char`, which lives in the `pg_catalog` schema, always on the search path. */
  predicate NamesPgEncodingToChar(fn: QualifiedName) {
    fn.name == "pg_encoding_to_char" && (fn.schema == None || fn.schema == Some("pg_catalog"))
  }

  /** The argument of a call: an integer literal (possibly null) or a column of the current row. */
  datatype Argument = IntLiteral(value: Option<int>) | Column(column: string)

  /** A call of the function, or the text literal normalization may replace it with. */
  datatype Expr = Call(fn: QualifiedName, arg: Argument) | TextLiteral(text: Option<string>)

  datatype EvalError = UnknownFunction(fn: QualifiedName) | UnknownColumn(column: string)

  /** Evaluating an expression against one row of integer columns. */
  function Evaluate(names: seq<string>, row: map<string, Option<int>>, e: Expr): (r: Result<Option<string>, EvalError>)
    ensures e.Call? && NamesPgEncodingToChar(e.fn) && e.arg.IntLiteral? ==>
              r == Success(PgEncodingToChar(names, e.arg.value))
    ensures e.Call? && !NamesPgEncodingToChar(e.fn) ==> r == Failure(UnknownFunction(e.fn))
  {
    match e
    case TextLiteral(t) => Success(t)
    case Call(fn, arg) =>
      if !NamesPgEncodingToChar(fn) then Failure(UnknownFunction(fn))
      else
        match arg
        case IntLiteral(v) => Success(PgEncodingToChar(names, v))
        case Column(c) =>
          if c in row then Success(PgEncodingToChar(names, row[c])) else Failure(UnknownColumn(c))
  }

  /** Normalization folds a call on a literal argument into the literal it evaluates to. */
  function Normalize(names: seq<string>, e: Expr): (r: Expr)
    ensures e.Call? && NamesPgEncodingToChar(e.fn) && e.arg.IntLiteral? ==> r.TextLiteral?
    ensures forall row :: Evaluate(names, row, r) == Evaluate(names, row, e)
  {
    match e
    case Call(fn, IntLiteral(v)) =>
      if NamesPgEncodingToChar(fn) then TextLiteral(PgEncodingToChar(names, v)) else e
    case _ => e
  }

  /** The name qualified by `pg_catalog` denotes the same function as the bare name. */
  lemma QualifiedNameIsSameFunction(names: seq<string>, row: map<string, Option<int>>, arg: Argument)
    ensures Evaluate(names, row, Call(QualifiedName(Some("pg_catalog"), "pg_encoding_to_char"), arg))
         == Evaluate(names, row, Call(QualifiedName(None, "pg_encoding_to_char"), arg))
  {
  }

  /** The input/output pairs the test asserts. */
  lemma TestedPairs(names: seq<string>, row: map<string, Option<int>>)
    requires AgreesWithTest(names)
    ensures var call := (e: Option<int>) => Call(QualifiedName(None, "pg_encoding_to_char"), IntLiteral(e));
      && Evaluate(names, row, call(Some(-1))) == Success(None)
      && Evaluate(names, row, call(None)) == Success(None)
      && Evaluate(names, row, call(Some(1))) == Success(Some("EUC_JP"))
      && Evaluate(names, row, call(Some(6))) == Success(Some("UTF8"))
      && Evaluate(names, row, call(Some(41))) == Success(Some("SHIFT_JIS_2004"))
      && Evaluate(names, row, call(Some(42))) == Success(None)
      && Normalize(names, call(Some(6))) == TextLiteral(Some("UTF8"))
      && Evaluate(names, row, Call(QualifiedName(Some("pg_catalog"), "pg_encoding_to_char"), IntLiteral(Some(6))))
         == Success(Some("UTF8"))
  {
  }
}
