/** Texts of everyday models, typed by the grammar: a variable raised by one has the type of the
    variable and no other; two numbers without an operator between them pass. */
module Samples {
  import opened Options
  import opened Lexing
  import opened Rendering
  import opened Grammar
  import opened Parsing

  // ---------- single pieces ----------

  lemma DigitPiece(raw: string, i: nat)
    requires i < |raw| && IsDigit(raw[i]) && (i + 1 < |raw| ==> !IsDigit(raw[i + 1]) && raw[i + 1] != '.')
    ensures PieceAt(raw, i, NumberPiece([raw[i]]))
  {
    assert raw[i..i + 1] == [raw[i]];
    assert IsDigits([raw[i]]);
  }

  lemma SpacePiece(raw: string, i: nat)
    requires i < |raw| && raw[i] == ' '
    ensures PieceAt(raw, i, CharPiece(' '))
  {
    assert raw[i..i + 1] == [' '];
  }

  lemma PlusPiece(raw: string, i: nat)
    requires 0 < i && i + 1 < |raw| && raw[i - 1] == ' ' && raw[i] == '+' && raw[i + 1] == ' '
    ensures PieceAt(raw, i, OperatorPiece("+"))
  {
    assert raw[i..i + 1] == "+";
    assert i + 2 <= |raw| ==> raw[i..i + 2][0] == '+';
  }

  lemma VariablePiece(v: string, rest: string)
    requires IsName(v) && |rest| > 1 && rest[0] == ' ' && rest[1] !in {' ', '('} && !IsSpace(rest[1])
    ensures PieceAt(v + rest, 0, NamePiece(v))
  {
    hide IsName;
    var raw := v + rest;
    assert raw[0..|v|] == v && raw[|v|] == ' ' && raw[|v| + 1] == rest[1];
  }

  lemma {:induction false} NoOwners(scope: Scope, ts: seq<Token>)
    requires forall t <- ts :: t.Name? ==> t.text in scope.vars
    ensures Owners(scope, ts) == {}
  {
    if ts != [] {
      NoOwners(scope, ts[1..]);
    }
  }

  // ---------- a variable and one ----------

  lemma OneLex()
    ensures Lex("1") == [Number("1")] && Lex(" + 1") == [Other('+'), Number("1")]
  {
    assert DigitLen("1") == 1 && NumberLen("1") == 1 && "1"[..1] == "1" && "1"[1..] == "";
    assert " + 1"[1..] == "+ 1" && "+ 1"[1..] == " 1" && " 1"[1..] == "1";
  }

  lemma IncrementLex(v: string)
    requires IsName(v)
    ensures Lex(v + " + 1") == [Name(v), Other('+'), Number("1")]
  {
    hide IsName, Lex, NameLen;
    var raw := v + " + 1";
    assert raw[..|v|] == v && raw[|v|..] == " + 1" && raw[|v|] == ' ';
    NameLenIs(raw, |v|);
    assert raw[0..] == raw && raw[0..|v|] == v;
    LexName(raw, 0, |v|);
    OneLex();
  }

  function Increment(v: string): seq<Piece> {
    [NamePiece(v), CharPiece(' '), OperatorPiece("+"), CharPiece(' '), NumberPiece("1")]
  }

  lemma PathStep(raw: string, ps: seq<Piece>, k: nat, i: nat)
    requires k < |ps| && Path(raw, 0, ps[..k], i) && PieceAt(raw, i, ps[k])
    ensures Path(raw, 0, ps[..k + 1], i + |Spelling(ps[k])|)
  {
    hide PieceAt, Path;
    PathSnoc(raw, 0, ps[..k], i, ps[k]);
    assert ps[..k] + [ps[k]] == ps[..k + 1];
  }

  lemma PathStart(raw: string, ps: seq<Piece>)
    ensures Path(raw, 0, ps[..0], 0)
  {
  }

  lemma IncrementPieces(v: string)
    requires IsName(v)
    ensures var raw, ps, n := v + " + 1", Increment(v), |v|;
            && PieceAt(raw, 0, ps[0]) && PieceAt(raw, n, ps[1]) && PieceAt(raw, n + 1, ps[2])
            && PieceAt(raw, n + 2, ps[3]) && PieceAt(raw, n + 3, ps[4])
  {
    hide PieceAt, IsName;
    var raw := v + " + 1";
    var n := |v|;
    assert raw[n..] == " + 1" && raw[n] == ' ' && raw[n + 1] == '+' && raw[n + 2] == ' ' && raw[n + 3] == '1';
    VariablePiece(v, " + 1");
    SpacePiece(raw, n);
    PlusPiece(raw, n + 1);
    SpacePiece(raw, n + 2);
    DigitPiece(raw, n + 3);
  }

  lemma IncrementPath(v: string)
    requires IsName(v)
    ensures Path(v + " + 1", 0, Increment(v), |v| + 4)
  {
    var raw, ps, n := v + " + 1", Increment(v), |v|;
    hide PieceAt, IsName, Path;
    IncrementPieces(v);
    PathStart(raw, ps);
    PathStep(raw, ps, 0, 0);
    PathStep(raw, ps, 1, n);
    PathStep(raw, ps, 2, n + 1);
    PathStep(raw, ps, 3, n + 2);
    PathStep(raw, ps, 4, n + 3);
    assert ps[..5] == ps;
  }

  lemma OperandsStep(scope: Scope, ps: seq<Piece>, k: nat)
    requires k < |ps|
    ensures OperandsOf(scope, ps[..k + 1]) ==
              OperandsOf(scope, ps[..k]) + (match OperandOf(scope, ps[k]) case Some(o) => [o] case None => [])
  {
    hide OperandsOf, OperandOf;
    assert ps[..k] + [ps[k]] == ps[..k + 1];
    OperandsSnoc(scope, ps[..k], ps[k]);
  }

  lemma IncrementOperands(scope: Scope, v: string)
    requires v in scope.vars && v != "true" && v != "false"
    ensures OperandsOf(scope, Increment(v)) == [Operand(scope.vars[v], false, false), Operand(Int64, true, false)]
  {
    var ps := Increment(v);
    hide OperandsOf, Cast, DistributionFunc;
    NoOperands(scope);
    assert ps[..0] == [] && ps[..5] == ps;
    OperandsStep(scope, ps, 0);
    OperandsStep(scope, ps, 1);
    OperandsStep(scope, ps, 2);
    OperandsStep(scope, ps, 3);
    OperandsStep(scope, ps, 4);
  }

  lemma OnlyPlus(ps: seq<Piece>)
    requires forall i: nat :: i < |ps| && ps[i].OperatorPiece? ==> ps[i].op == "+"
    ensures !FlagsOf(ps).comparison && !FlagsOf(ps).boolean
  {
  }

  lemma NoOperands(scope: Scope)
    ensures OperandsOf(scope, []) == []
  {
  }

  /** The type of a variable plus an integer literal is that of the variable, if it is a number. */
  lemma IncrementType(t: ValueType, flags: Flags, expected: Option<ValueType>, u: ValueType)
    requires !flags.comparison && !flags.boolean && Numeric(t) && (expected.Some? ==> u == expected.value)
    ensures HasType([Operand(t, false, false), Operand(Int64, true, false)], flags, expected, u) <==> u == t
  {
    var a, b := Operand(t, false, false), Operand(Int64, true, false);
    var operands := [a, b];
    assert a in operands && !a.untyped;
    assert forall o <- operands :: o == a || o == b;
  }

  lemma IncrementTrims(v: string)
    requires IsName(v)
    ensures Trim(v + " + 1") == v + " + 1"
  {
    hide IsName;
    assert v != "" && IsIdentStart(v[0]) by { assert v[..|v|] == v; NameLenIs(v, |v|); }
  }

  /** v + 1 is an expression of the declared type of the numeric variable v, and of no other type, wherever
      that type or none in particular is wanted; elsewhere it is refused. */
  lemma IncrementIsTyped(scope: Scope, v: string, fields: bool, expected: Option<ValueType>, t: ValueType)
    requires IsName(v) && v in scope.vars && v != "true" && v != "false" && Numeric(scope.vars[v])
    ensures IsExpression(scope, v + " + 1", fields, expected, false, t) <==>
              t == scope.vars[v] && (expected.Some? ==> expected.value == scope.vars[v])
  {
    hide HasType, FlagsOf, OperandsOf, PieceAt, Path, Trim, Lex, Owners, IsName;
    var raw, ps := v + " + 1", Increment(v);
    IncrementTrims(v);
    IncrementPath(v);
    IncrementOperands(scope, v);
    OnlyPlus(ps);
    IncrementLex(v);
    NoOwners(scope, Lex(raw));
    IncrementReads(scope, v, fields);
    if expected.Some? ==> t == expected.value {
      IncrementType(scope.vars[v], FlagsOf(ps), expected, t);
      OneReading(scope, raw, ps, fields, expected, t);
    }
  }

  lemma IncrementReads(scope: Scope, v: string, fields: bool)
    requires v in scope.vars && v != "true" && v != "false" && Path(v + " + 1", 0, Increment(v), |v| + 4)
    ensures ReadAs(scope, v + " + 1", Increment(v), fields)
  {
    hide PieceAt, Path;
  }

  /** With a reading at hand, acceptance is a matter of its type. */
  lemma OneReading(scope: Scope, raw: string, ps: seq<Piece>, fields: bool, expected: Option<ValueType>, t: ValueType)
    requires ReadAs(scope, raw, ps, fields) && Owners(scope, Lex(raw)) == {}
    ensures Accepts(scope, raw, fields, expected, t) <==> HasType(OperandsOf(scope, ps), FlagsOf(ps), expected, t)
  {
    hide HasType, FlagsOf, OperandsOf, PieceAt, Path, PieceOk;
    if Accepts(scope, raw, fields, expected, t) {
      var qs :| ReadAs(scope, raw, qs, fields) && HasType(OperandsOf(scope, qs), FlagsOf(qs), expected, t);
      ReadingIsUnique(raw, ps, qs);
    }
  }

  // ---------- what the grammar does not ask ----------

  lemma TwoNumbersLex()
    ensures Lex("1 2") == [Number("1"), Number("2")]
  {
    var s := "1 2";
    assert DigitLen("2") == 1 && NumberLen("2") == 1 && "2"[..1] == "2" && "2"[1..] == "";
    assert Lex("2") == [Number("2")];
    assert s[1..][1..] == "2" && s[1..][0] == ' ';
    assert Lex(s[1..]) == Lex("2");
    assert DigitLen(s) == 1 && NumberLen(s) == 1 && s[..1] == "1";
  }

  function TwoNumbers(): seq<Piece> {
    [NumberPiece("1"), CharPiece(' '), NumberPiece("2")]
  }

  lemma TwoNumbersPath()
    ensures Path("1 2", 0, TwoNumbers(), 3)
  {
    hide PieceAt, Path;
    var raw, ps := "1 2", TwoNumbers();
    DigitPiece(raw, 0);
    SpacePiece(raw, 1);
    DigitPiece(raw, 2);
    PathStart(raw, ps);
    PathStep(raw, ps, 0, 0);
    PathStep(raw, ps, 1, 1);
    PathStep(raw, ps, 2, 2);
    assert ps[..3] == ps;
  }

  lemma TwoNumbersOperands(scope: Scope)
    ensures var o := Operand(Int64, true, false); OperandsOf(scope, TwoNumbers()) == [o, o]
  {
    var ps := TwoNumbers();
    hide OperandsOf;
    NoOperands(scope);
    assert ps[..0] == [] && ps[..3] == ps;
    OperandsStep(scope, ps, 0);
    OperandsStep(scope, ps, 1);
    OperandsStep(scope, ps, 2);
  }

  /** Operands and operators need not alternate: two numbers beside each other are accepted, although
      what comes out is not a Go expression. */
  lemma MissingOperatorAccepted(scope: Scope, fields: bool)
    ensures Accepts(scope, "1 2", fields, Some(Int64), Int64)
  {
    hide PieceAt, HasType, Path, OperandsOf, FlagsOf, Owners, Lex;
    var raw, ps := "1 2", TwoNumbers();
    TwoNumbersPath();
    TwoNumbersOperands(scope);
    OnlyPlus(ps);
    TwoUntyped(OperandsOf(scope, ps), FlagsOf(ps));
    TwoNumbersLex();
    NoOwners(scope, Lex(raw));
    assert ReadAs(scope, raw, ps, fields);
    OneReading(scope, raw, ps, fields, Some(Int64), Int64);
  }

  lemma TwoUntyped(operands: seq<Operand>, flags: Flags)
    requires operands == [Operand(Int64, true, false), Operand(Int64, true, false)]
    requires !flags.comparison && !flags.boolean
    ensures HasType(operands, flags, Some(Int64), Int64)
  {
  }
}
