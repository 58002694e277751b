/** Which expressions are accepted, and with what type: a grammar of the text and a typing of its
    pieces, said without the pass that translates them. */
module Grammar {
  import opened Options
  import opened Lexing
  import opened Rendering
  import opened Arguments

  // ---------- types ----------

  datatype Operand = Operand(typ: ValueType, untyped: bool, floatLiteral: bool)

  datatype Flags = Flags(arithmetic: bool, comparison: bool, boolean: bool)

  predicate Numeric(t: ValueType) {
    t.Float64? || t.Int64? || t.Uint64?
  }

  /** The type of an expression without comparison or logic, whose operands all are numbers: every
      operand with a type of its own has that type, and so does the expression. */
  predicate NumericType(operands: seq<Operand>, expected: Option<ValueType>, t: ValueType) {
    && Numeric(t)
    && (forall o <- operands :: Numeric(o.typ) && (!o.untyped ==> o.typ == t))
    && (expected.Some? && Numeric(expected.value) ==>
           t == expected.value && ((exists o :: o in operands && o.floatLiteral) ==> t.Float64?))
    && (!(expected.Some? && Numeric(expected.value)) && (forall o <- operands :: o.untyped) ==>
          t == if exists o :: o in operands && o.floatLiteral then Float64 else Int64)
  }

  predicate HasType(operands: seq<Operand>, flags: Flags, expected: Option<ValueType>, t: ValueType) {
    && operands != []
    && if flags.comparison || flags.boolean then t.Bool?
       else if exists o :: o in operands && o.typ.Bool? then |operands| == 1 && t.Bool?
       else NumericType(operands, expected, t)
  }

  /** An expression has at most one type. */
  lemma TypeIsUnique(operands: seq<Operand>, flags: Flags, expected: Option<ValueType>, t: ValueType, u: ValueType)
    requires HasType(operands, flags, expected, t) && HasType(operands, flags, expected, u)
    ensures t == u
  {
    if (forall o <- operands :: o.untyped) {
    } else {
      var o :| o in operands && !o.untyped;
    }
  }

  // ---------- names, numbers and operators ----------

  predicate IsIdent(s: string) {
    s != "" && IsIdentStart(s[0]) && forall i: nat :: i < |s| ==> IsIdentPart(s[i])
  }

  predicate IsDigits(s: string) {
    s != "" && forall i: nat :: i < |s| ==> IsDigit(s[i])
  }

  predicate IsName(s: string) {
    IsIdent(s) || exists k: nat :: k < |s| && s[k] == '.' && IsIdent(s[..k]) && IsIdent(s[k + 1..])
  }

  predicate IsNumber(s: string) {
    IsDigits(s) || exists k: nat :: k < |s| && s[k] == '.' && IsDigits(s[..k]) && IsDigits(s[k + 1..])
  }

  const LONG_OPERATORS := {"&&", "||", "==", "!=", ">=", "<="}

  const SHORT_OPERATORS := {"+", "-", "*", "/", ">", "<", "!"}

  const OPERATOR_CHARS := {'+', '-', '*', '/', '>', '<', '!', '=', '&', '|'}

  /** An operator from i to j stands at the beginning or after a space, an opening parenthesis or a
      comma, and before a space or an opening parenthesis. */
  predicate Spaced(raw: string, i: nat, j: nat)
    requires i <= j <= |raw|
  {
    && (i == 0 || IsSpace(raw[i - 1]) || raw[i - 1] in {'(', ','})
    && j < |raw| && (IsSpace(raw[j]) || raw[j] == '(')
  }

  // ---------- pieces ----------

  datatype Piece =
    | NamePiece(name: string)
    | NumberPiece(digits: string)
    | CallPiece(name: string, gap: string, args: string)
    | OperatorPiece(op: string)
    | CharPiece(c: char)

  function Spelling(p: Piece): string {
    match p
    case NamePiece(name) => name
    case NumberPiece(digits) => digits
    case CallPiece(name, gap, args) => name + gap + "(" + args + ")"
    case OperatorPiece(op) => op
    case CharPiece(c) => [c]
  }

  /** From position j on there are perhaps spaces and then an opening parenthesis. */
  predicate OpensCall(raw: string, j: nat) {
    exists k: nat :: j <= k < |raw| && raw[k] == '(' && forall x: nat :: j <= x < k ==> IsSpace(raw[x])
  }

  predicate EndsName(raw: string, j: nat) {
    j < |raw| ==> !IsIdentPart(raw[j]) && raw[j] != '.'
  }

  /** A number with a dot may be followed by another dot. */
  predicate EndsNumber(raw: string, j: nat, digits: string) {
    j < |raw| ==> !IsDigit(raw[j]) && (raw[j] == '.' ==> '.' in digits)
  }

  /** The piece p stands at position i of the text. */
  ghost predicate PieceAt(raw: string, i: nat, p: Piece) {
    var j := i + |Spelling(p)|;
    && j <= |raw| && raw[i..j] == Spelling(p)
    && match p
       case NamePiece(name) => IsName(name) && EndsName(raw, j) && !OpensCall(raw, j)
       case NumberPiece(digits) => IsNumber(digits) && EndsNumber(raw, j, digits)
       case CallPiece(name, gap, args) =>
         IsName(name) && (forall x: nat :: x < |gap| ==> IsSpace(gap[x])) && Balanced(args)
       case OperatorPiece(op) =>
         && Spaced(raw, i, j)
         && (op in LONG_OPERATORS
             || (op in SHORT_OPERATORS && (i + 2 <= |raw| ==> raw[i..i + 2] !in LONG_OPERATORS)))
       case CharPiece(c) => !IsIdentPart(c) && c !in OPERATOR_CHARS
  }

  /** The pieces ps stand one after the other from position i to position j. */
  ghost predicate Path(raw: string, i: nat, ps: seq<Piece>, j: nat)
    decreases |ps|
  {
    if ps == [] then i == j else PieceAt(raw, i, ps[0]) && Path(raw, i + |Spelling(ps[0])|, ps[1..], j)
  }

  // ---------- meaning ----------

  datatype Signature = Signature(result: ValueType, args: nat, go: string)

  /** The functions an expression can call. */
  const FUNCTIONS: map<string, Signature> := map[
    "float64" := Signature(Float64, 1, "float64"),
    "int64" := Signature(Int64, 1, "int64"),
    "uint64" := Signature(Uint64, 1, "uint64"),
    "uniform" := Signature(Float64, 2, "rng.Uniform"),
    "triangular" := Signature(Float64, 3, "rng.Triangular"),
    "exponential" := Signature(Float64, 1, "rng.Exponential"),
    "normal" := Signature(Float64, 2, "rng.Normal")]

  function OperandOf(scope: Scope, p: Piece): Option<Operand> {
    match p
    case NamePiece(name) =>
      var r := Resolve(scope, name, true);
      if r.Some? then Some(Operand(r.value.typ, false, false)) else None
    case NumberPiece(digits) =>
      Some(if '.' in digits then Operand(Float64, true, true) else Operand(Int64, true, false))
    case CallPiece(name, _, _) =>
      if name in FUNCTIONS then Some(Operand(FUNCTIONS[name].result, false, false)) else None
    case OperatorPiece(_) => None
    case CharPiece(_) => None
  }

  function OperandsOf(scope: Scope, ps: seq<Piece>): seq<Operand> {
    if ps == [] then []
    else
      var n := |ps| - 1;
      OperandsOf(scope, ps[..n]) + match OperandOf(scope, ps[n]) case Some(o) => [o] case None => []
  }

  predicate Applied(ps: seq<Piece>, ops: set<string>) {
    exists i: nat :: i < |ps| && ps[i].OperatorPiece? && ps[i].op in ops
  }

  ghost function FlagsOf(ps: seq<Piece>): Flags {
    Flags(Applied(ps, {"+", "-", "*", "/"}), Applied(ps, {"==", "!=", ">", ">=", "<", "<="}),
          Applied(ps, {"&&", "||", "!"}))
  }

  /** All fields that the text mentions, arguments included, belong to one entity type. */
  predicate OneOwner(scope: Scope, raw: string) {
    forall a <- Owners(scope, Lex(raw)), b <- Owners(scope, Lex(raw)) :: a == b
  }

  /** A name stands for something that may be used here; a function gets as many arguments as it takes,
      and its arguments taken together are an expression again. */
  ghost predicate PieceOk(scope: Scope, p: Piece, fields: bool)
    decreases |Spelling(p)|, 0
  {
    match p
    case NamePiece(name) => Resolve(scope, name, fields).Some?
    case CallPiece(name, gap, args) =>
      && name in FUNCTIONS && HasArguments(args, FUNCTIONS[name].args)
      && TypesOf(scope, Trim(args), fields, None) != {}
    case _ => true
  }

  /** The text has these pieces, and they all make sense. */
  ghost predicate ReadAs(scope: Scope, raw: string, ps: seq<Piece>, fields: bool)
    decreases |raw|, 1
  {
    && Path(raw, 0, ps, |raw|)
    && forall i: nat :: i < |ps| ==> |Spelling(ps[i])| <= |raw| && PieceOk(scope, ps[i], fields)
  }

  const VALUE_TYPES := {Float64, Int64, Uint64, Bool}

  /** The types that the text, which has no blanks at its ends, has where type expected is wanted: the
      types of its readings. */
  ghost function TypesOf(scope: Scope, raw: string, fields: bool, expected: Option<ValueType>): set<ValueType>
    decreases |raw|, 2
  {
    set t | t in VALUE_TYPES
      && OneOwner(scope, raw)
      && exists ps: seq<Piece> ::
           ReadAs(scope, raw, ps, fields) && HasType(OperandsOf(scope, ps), FlagsOf(ps), expected, t)
  }

  ghost predicate Accepts(scope: Scope, raw: string, fields: bool, expected: Option<ValueType>, t: ValueType) {
    t in TypesOf(scope, raw, fields, expected)
  }

  /** The text is an expression of exactly the wanted type; it may be empty where that is allowed. */
  ghost predicate IsExpression(scope: Scope, text: string, fields: bool, expected: Option<ValueType>,
                               allowEmpty: bool, t: ValueType) {
    && (expected.Some? ==> t == expected.value)
    && if Trim(text) == "" then allowEmpty else Accepts(scope, Trim(text), fields, expected, t)
  }

  // ---------- functions ----------

  /** The casts and distributions are these functions, and no others. */
  lemma FunctionsAreKnown(name: string)
    ensures name in FUNCTIONS <==> Cast(name).Some? || DistributionFunc(name).Some?
    ensures name in FUNCTIONS ==>
              FUNCTIONS[name] == if Cast(name).Some? then Signature(Cast(name).value, 1, name)
                else Signature(Float64, DistributionFunc(name).value.args, DistributionFunc(name).value.go)
    ensures name in FUNCTIONS ==> FUNCTIONS[name].args > 0
  {
  }
}
