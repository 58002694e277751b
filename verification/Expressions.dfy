/** The translation of model expressions to Go: a single pass over the text that recurses into the
    arguments of casts and distributions. */
module Expressions {
  import opened Options
  import opened Lexing
  import opened Rendering
  import opened Arguments
  import opened Boundaries
  import opened Grammar
  import opened Parsing

  datatype Mode = Mode(fieldsAllowed: bool, expected: Option<ValueType>, allowEmpty: bool)

  datatype Emitted = Emitted(go: string, typ: ValueType, entity: Option<string>)

  const NO_ENTITY: Option<string> := None

  function EntitySet(e: Option<string>): set<string> {
    match e case None => {} case Some(x) => {x}
  }

  /** Modulo blanks the output is the input token by token, lexing it gives the images of those tokens,
      and its entity is the only type whose fields are read. */
  ghost predicate Faithful(scope: Scope, raw: string, out: Emitted) {
    && NoBlank(out.go) == NoBlank(Render(scope, Lex(raw)))
    && Kept(scope, raw, out.go)
    && EntitySet(out.entity) == Owners(scope, Lex(raw))
  }

  // ---------- operators ----------

  predicate IsOperatorChar(c: char) {
    c in {'+', '-', '*', '/', '>', '<', '!', '=', '&', '|'}
  }

  predicate IsLongOperator(s: string) {
    s in {"&&", "||", "==", "!=", ">=", "<="}
  }

  /** readExprOperator: the length of the operator at pos, 0 if there is none. */
  function OperatorSize(raw: string, pos: nat): (n: nat)
    requires pos < |raw|
    ensures pos + n <= |raw| && n <= 2
    ensures forall i :: pos <= i < pos + n ==> IsOperatorChar(raw[i])
  {
    if pos + 2 <= |raw| && IsLongOperator(raw[pos..pos + 2]) then
      assert raw[pos..pos + 2][0] == raw[pos] && raw[pos..pos + 2][1] == raw[pos + 1];
      2
    else if raw[pos] in {'+', '-', '*', '/', '>', '<', '!'} then 1
    else 0
  }

  predicate SpacedOperator(raw: string, pos: nat, size: nat)
    requires pos + size <= |raw|
  {
    && (pos > 0 ==> IsSpace(raw[pos - 1]) || raw[pos - 1] == '(' || raw[pos - 1] == ',')
    && pos + size < |raw| && (IsSpace(raw[pos + size]) || raw[pos + size] == '(')
  }

  function Flagged(flags: Flags, op: string): Flags {
    if op in {"+", "-", "*", "/"} then flags.(arithmetic := true)
    else if op in {"==", "!=", ">", ">=", "<", "<="} then flags.(comparison := true)
    else flags.(boolean := true)
  }

  // ---------- operands and operators of the pieces ----------

  /** Operands as the translator makes them. */
  predicate Sensible(o: Operand) {
    (o.untyped ==> Numeric(o.typ)) && (o.floatLiteral ==> o.untyped && o.typ.Float64?)
  }

  lemma {:induction false} OperandsAreSensible(scope: Scope, ps: seq<Piece>)
    ensures forall o <- OperandsOf(scope, ps) :: Sensible(o)
    decreases |ps|
  {
    if ps != [] {
      OperandsAreSensible(scope, ps[..|ps| - 1]);
    }
  }

  /** The flags after one piece more. */
  function FlagsAfter(flags: Flags, p: Piece): Flags {
    if p.OperatorPiece? then Flagged(flags, p.op) else flags
  }

  lemma FlagsSnoc(raw: string, i: nat, ps: seq<Piece>, p: Piece)
    requires PieceAt(raw, i, p)
    ensures FlagsOf(ps + [p]) == FlagsAfter(FlagsOf(ps), p)
  {
    AppliedSnoc(ps, p, {"+", "-", "*", "/"});
    AppliedSnoc(ps, p, {"==", "!=", ">", ">=", "<", "<="});
    AppliedSnoc(ps, p, {"&&", "||", "!"});
    hide Applied;
  }

  lemma OperatorMeasured(raw: string, i: nat, op: string)
    requires PieceAt(raw, i, OperatorPiece(op))
    ensures i < |raw| && |op| == OperatorSize(raw, i) > 0 && SpacedOperator(raw, i, |op|)
  {
    assert raw[i..i + |op|][0] == raw[i];
  }

  lemma OperatorStands(raw: string, i: nat)
    requires i < |raw| && OperatorSize(raw, i) > 0 && SpacedOperator(raw, i, OperatorSize(raw, i))
    ensures PieceAt(raw, i, OperatorPiece(raw[i..i + OperatorSize(raw, i)]))
  {
    if OperatorSize(raw, i) == 1 {
      assert raw[i..i + 1] == [raw[i]];
    }
  }

  /** What looks like an operator but is unknown, incomplete or not set apart. */
  lemma BadOperator(scope: Scope, raw: string, i: nat, fields: bool)
    requires i < |raw| && IsOperatorChar(raw[i])
    requires OperatorSize(raw, i) == 0 || !SpacedOperator(raw, i, OperatorSize(raw, i))
    ensures Dead(scope, raw, i, fields)
  {
    hide PieceAt, PieceOk, OperatorSize, SpacedOperator;
    forall p: Piece | PieceAt(raw, i, p)
      ensures false
    {
      FirstChar(raw, i, p);
      OperatorMeasured(raw, i, p.op);
    }
  }

  // ---------- one token ----------

  /** A call is recognised exactly if the next token is an opening parenthesis. */
  lemma {:induction false} CallsSeen(s: string)
    ensures Calls(Lex(s)) <==> SpaceLen(s) < |s| && s[SpaceLen(s)] == '('
  {
    LexSkipsSpace(s);
  }

  lemma {:induction false} RenderOther(scope: Scope, c: char, ts: seq<Token>)
    ensures Render(scope, [Other(c)] + ts) == [c] + Render(scope, ts)
    ensures Owners(scope, [Other(c)] + ts) == Owners(scope, ts)
  {
    assert ([Other(c)] + ts)[1..] == ts;
  }

  lemma {:induction false} RenderName(scope: Scope, name: string, ts: seq<Token>)
    ensures Render(scope, [Name(name)] + ts) == NameText(scope, name, Calls(ts)) + Render(scope, ts)
    ensures Owners(scope, [Name(name)] + ts) == TokenOwner(scope, Name(name), Calls(ts)) + Owners(scope, ts)
  {
    assert ([Name(name)] + ts)[1..] == ts;
  }

  lemma {:induction false} RenderNumber(scope: Scope, text: string, ts: seq<Token>)
    ensures Render(scope, [Number(text)] + ts) == text + Render(scope, ts)
    ensures Owners(scope, [Number(text)] + ts) == Owners(scope, ts)
  {
    assert ([Number(text)] + ts)[1..] == ts;
  }

  lemma {:induction false} RenderParens(scope: Scope, inner: seq<Token>, rest: seq<Token>)
    ensures var ts := [OPEN_PAREN] + (inner + ([Other(')')] + rest));
            && Render(scope, ts) == "(" + (Render(scope, inner) + (")" + Render(scope, rest)))
            && Owners(scope, ts) == Owners(scope, inner) + Owners(scope, rest)
  {
    RenderOther(scope, ')', rest);
    RenderConcat(scope, inner, [Other(')')] + rest);
    RenderOther(scope, '(', inner + ([Other(')')] + rest));
  }

  // ---------- progress through the text ----------

  /** The first i characters have been translated to out and mention the fields of entity only. */
  ghost predicate Done(scope: Scope, raw: string, i: nat, out: string, entity: Option<string>)
    requires i <= |raw|
  {
    && NoBlank(Render(scope, Lex(raw))) == NoBlank(out) + NoBlank(Render(scope, Lex(raw[i..])))
    && KeptSoFar(scope, raw, i, out)
    && Owners(scope, Lex(raw)) == EntitySet(entity) + Owners(scope, Lex(raw[i..]))
  }

  /** The text at i begins with something that becomes text and mentions the entities in owners. */
  ghost predicate Becomes(scope: Scope, raw: string, i: nat, j: nat, text: string, owners: set<string>)
    requires i <= j <= |raw|
  {
    && NoBlank(Render(scope, Lex(raw[i..]))) == NoBlank(text) + NoBlank(Render(scope, Lex(raw[j..])))
    && StepKept(scope, raw, i, j, text)
    && Owners(scope, Lex(raw[i..])) == owners + Owners(scope, Lex(raw[j..]))
  }

  lemma Advance(scope: Scope, raw: string, i: nat, j: nat, out: string, text: string, entity: Option<string>,
                owners: set<string>, entity': Option<string>)
    requires i <= j <= |raw| && Done(scope, raw, i, out, entity) && Becomes(scope, raw, i, j, text, owners)
    requires EntitySet(entity') == EntitySet(entity) + owners
    ensures Done(scope, raw, j, out + text, entity')
  {
    hide Render, Lex, Owners, NoBlank, EntitySet, KeptSoFar, StepKept;
    KeptAdvance(scope, raw, i, j, out, text);
    NoBlankConcat(out, text);
    var o, x, rest := NoBlank(out), NoBlank(text), NoBlank(Render(scope, Lex(raw[j..])));
    assert o + (x + rest) == (o + x) + rest;
  }

  lemma NameBecomes(scope: Scope, raw: string, i: nat, j: nat)
    requires NameAt(raw, i, j) && (j < |raw| ==> raw[j] != '.')
    requires !Calls(Lex(raw[j..])) && Resolve(scope, raw[i..j], true).Some?
    ensures var r := Resolve(scope, raw[i..j], true).value; Becomes(scope, raw, i, j, r.go, EntitySet(r.entity))
  {
    hide Render, Lex, NameLen, Owners, NoBlank, Resolve, StepKept, Calls;
    NameStep(scope, raw, i, j);
    LexName(raw, i, j);
    RenderName(scope, raw[i..j], Lex(raw[j..]));
    NoBlankConcat(NameText(scope, raw[i..j], false), Render(scope, Lex(raw[j..])));
  }

  lemma NumberBecomes(scope: Scope, raw: string, i: nat, j: nat)
    requires NumberAt(raw, i, j) && (j < |raw| && raw[j] == '.' ==> '.' in raw[i..j])
    ensures Becomes(scope, raw, i, j, raw[i..j], {})
  {
    hide Render, Lex, Owners, NoBlank, NumberLen, StepKept, DigitLen;
    NumberIsDotted(raw[i..j]);
    NumberStep(scope, raw, i, j);
    LexNumber(raw, i, j);
    RenderNumber(scope, raw[i..j], Lex(raw[j..]));
    NoBlankConcat(raw[i..j], Render(scope, Lex(raw[j..])));
  }

  lemma DigitsHaveNoDot(raw: string, i: nat, j: nat)
    requires i <= |raw| && j == i + DigitLen(raw[i..])
    ensures '.' !in raw[i..j]
  {
    DigitsAreDigits(raw[i..]);
    assert forall x: nat :: x < j - i ==> raw[i..j][x] == raw[i..][x];
  }

  lemma NumberIsDotted(s: string)
    ensures '.' in s ==> DigitLen(s) < |s|
  {
    assert DigitLen(s) == |s| ==> forall i :: 0 <= i < |s| ==> IsDigit(s[i]) by { DigitsAreDigits(s); }
  }

  lemma {:induction false} DigitsAreDigits(s: string)
    ensures forall i :: 0 <= i < DigitLen(s) ==> IsDigit(s[i])
  {
    if s != "" && IsDigit(s[0]) {
      DigitsAreDigits(s[1..]);
      assert forall i :: 0 < i < DigitLen(s) ==> s[i] == s[1..][i - 1];
    }
  }

  lemma CharBecomes(scope: Scope, raw: string, i: nat)
    requires i < |raw| && !IsIdentPart(raw[i])
    ensures Becomes(scope, raw, i, i + 1, [raw[i]], {})
  {
    hide StepKept;
    CharStep(scope, raw, i);
    var s := raw[i..];
    assert s[1..] == raw[i + 1..] && [raw[i]][1..] == "";
    RenderOther(scope, raw[i], Lex(raw[i + 1..]));
    NoBlankConcat([raw[i]], Render(scope, Lex(raw[i + 1..])));
  }

  lemma TwoCharsBecome(scope: Scope, raw: string, i: nat)
    requires i + 1 < |raw| && !IsIdentPart(raw[i]) && !IsIdentPart(raw[i + 1])
    ensures Becomes(scope, raw, i, i + 2, raw[i..i + 2], {})
  {
    hide Render, Lex, Owners, NoBlank, StepKept;
    CharBecomes(scope, raw, i);
    CharBecomes(scope, raw, i + 1);
    StepsJoin(scope, raw, i, i + 1, i + 2, [raw[i]], [raw[i + 1]]);
    NoBlankConcat([raw[i]], [raw[i + 1]]);
    assert raw[i..i + 2] == [raw[i]] + [raw[i + 1]];
    var x, y, rest := NoBlank([raw[i]]), NoBlank([raw[i + 1]]), NoBlank(Render(scope, Lex(raw[i + 2..])));
    assert x + (y + rest) == (x + y) + rest;
  }

  lemma CallRenders(scope: Scope, raw: string, i: nat, j: nat, open: nat, close: nat)
    requires CallAt(raw, i, j, open, close)
    ensures Render(scope, Lex(raw[i..])) == NameText(scope, raw[i..j], true)
            + ("(" + (Render(scope, Lex(raw[open + 1..close])) + (")" + Render(scope, Lex(raw[close + 1..])))))
    ensures Owners(scope, Lex(raw[i..])) ==
            Owners(scope, Lex(raw[open + 1..close])) + Owners(scope, Lex(raw[close + 1..]))
  {
    hide Lex, NameLen, SpaceLen, Render, Owners, NameText;
    var inner, rest := Lex(raw[open + 1..close]), Lex(raw[close + 1..]);
    var tail := [OPEN_PAREN] + (inner + ([CLOSE_PAREN] + rest));
    CallTokens(raw, i, j, open, close);
    RenderParens(scope, inner, rest);
    RenderName(scope, raw[i..j], tail);
  }

  /** A call becomes the function's name around its translated arguments. */
  lemma CallBecomes(scope: Scope, raw: string, i: nat, j: nat, open: nat, close: nat, args: Emitted)
    requires CallAt(raw, i, j, open, close) && Faithful(scope, raw[open + 1..close], args)
    ensures Becomes(scope, raw, i, close + 1, NameText(scope, raw[i..j], true) + "(" + args.go + ")",
                    EntitySet(args.entity))
  {
    hide Lex, NameLen, SpaceLen, Render, Owners, NameText, NoBlank, Faithful, StepKept, Becomes, Kept, EntitySet;
    var inner := raw[open + 1..close];
    CallRenders(scope, raw, i, j, open, close);
    FaithfulMeans(scope, inner, args);
    var f, a, r := NameText(scope, raw[i..j], true), Render(scope, Lex(inner)), Render(scope, Lex(raw[close + 1..]));
    CallBlanks(f, a, r, args.go);
    CallStep(scope, raw, i, j, open, close, args.go);
    BecomesIf(scope, raw, i, close + 1, f + "(" + args.go + ")", EntitySet(args.entity));
  }

  lemma FaithfulMeans(scope: Scope, raw: string, out: Emitted)
    requires Faithful(scope, raw, out)
    ensures NoBlank(out.go) == NoBlank(Render(scope, Lex(raw))) && EntitySet(out.entity) == Owners(scope, Lex(raw))
    ensures Kept(scope, raw, out.go)
  {
  }

  lemma BecomesIf(scope: Scope, raw: string, i: nat, j: nat, text: string, owners: set<string>)
    requires i <= j <= |raw|
    requires NoBlank(Render(scope, Lex(raw[i..]))) == NoBlank(text) + NoBlank(Render(scope, Lex(raw[j..])))
    requires Owners(scope, Lex(raw[i..])) == owners + Owners(scope, Lex(raw[j..]))
    requires StepKept(scope, raw, i, j, text)
    ensures Becomes(scope, raw, i, j, text, owners)
  {
  }

  lemma {:induction false} CallBlanks(f: string, a: string, r: string, go: string)
    requires NoBlank(go) == NoBlank(a)
    ensures NoBlank(f + ("(" + (a + (")" + r)))) == NoBlank(f + "(" + go + ")") + NoBlank(r)
  {
    hide NoBlank;
    NoBlankConcat(f, "(" + (a + (")" + r)));
    NoBlankConcat("(", a + (")" + r));
    NoBlankConcat(a, ")" + r);
    NoBlankConcat(")", r);
    NoBlankConcat(f + "(" + go, ")");
    NoBlankConcat(f + "(", go);
    NoBlankConcat(f, "(");
  }

  // ---------- progress through the grammar ----------

  /** The first i characters are the pieces in done, which make sense and have these operands and flags. */
  ghost predicate Read(scope: Scope, raw: string, i: nat, done: seq<Piece>, fields: bool, operands: seq<Operand>,
                       flags: Flags) {
    && Path(raw, 0, done, i) && (forall k: nat :: k < |done| ==> PieceOk(scope, done[k], fields))
    && operands == OperandsOf(scope, done) && flags == FlagsOf(done)
  }

  function Appended(operands: seq<Operand>, o: Option<Operand>): seq<Operand> {
    if o.Some? then operands + [o.value] else operands
  }

  lemma StartsRead(scope: Scope, raw: string, fields: bool)
    ensures Read(scope, raw, 0, [], fields, [], Flags(false, false, false))
  {
  }

  lemma ReadNext(scope: Scope, raw: string, i: nat, done: seq<Piece>, p: Piece, fields: bool, operands: seq<Operand>,
                 flags: Flags)
    requires Read(scope, raw, i, done, fields, operands, flags) && PieceAt(raw, i, p) && PieceOk(scope, p, fields)
    ensures Read(scope, raw, i + |Spelling(p)|, done + [p], fields, Appended(operands, OperandOf(scope, p)),
                 FlagsAfter(flags, p))
  {
    hide PieceAt, PieceOk, OperandsOf, OperandOf, FlagsOf, FlagsAfter;
    PathSnoc(raw, 0, done, i, p);
    OperandsSnoc(scope, done, p);
    FlagsSnoc(raw, i, done, p);
    hide Path;
  }

  lemma ReadDeadEnds(scope: Scope, raw: string, i: nat, done: seq<Piece>, operands: seq<Operand>, flags: Flags,
                     fields: bool, expected: Option<ValueType>)
    requires i < |raw| && Read(scope, raw, i, done, fields, operands, flags) && Dead(scope, raw, i, fields)
    ensures Hopeless(scope, raw, fields, expected)
  {
    hide Dead, Hopeless, Path;
    DeadEnds(scope, raw, done, i, fields, expected);
  }

  lemma ReadIsSensible(scope: Scope, raw: string, i: nat, done: seq<Piece>, fields: bool, operands: seq<Operand>,
                       flags: Flags)
    requires Read(scope, raw, i, done, fields, operands, flags)
    ensures forall o <- operands :: Sensible(o)
  {
    OperandsAreSensible(scope, done);
  }

  lemma TwoOwners(scope: Scope, raw: string, i: nat, next: nat, go: string, text: string, entity: Option<string>,
                  owner: Option<string>, fields: bool, expected: Option<ValueType>)
    requires i <= next <= |raw| && Done(scope, raw, i, go, entity)
    requires Becomes(scope, raw, i, next, text, EntitySet(owner))
    requires entity.Some? && owner.Some? && entity != owner
    ensures Hopeless(scope, raw, fields, expected)
  {
    hide Hopeless, Owners;
    OwnersEnd(scope, raw, fields, expected, entity.value, owner.value);
  }

  lemma EndsRead(scope: Scope, raw: string, done: seq<Piece>, fields: bool, operands: seq<Operand>, flags: Flags,
                 expected: Option<ValueType>, t: ValueType, typed: bool, out: Emitted)
    requires Read(scope, raw, |raw|, done, fields, operands, flags) && Faithful(scope, raw, out)
    requires if typed then HasType(operands, flags, expected, t)
             else forall u :: !HasType(operands, flags, expected, u)
    ensures if typed then Accepts(scope, raw, fields, expected, t) else Hopeless(scope, raw, fields, expected)
  {
    hide HasType, Hopeless, PieceOk, OperandsOf, FlagsOf, Kept, NoBlank;
    if typed {
      forall k: nat | k < |done|
        ensures |Spelling(done[k])| <= |raw|
      {
        PiecesArePart(raw, 0, done, |raw|, k);
      }
      assert ReadAs(scope, raw, done, fields);
    } else {
      UntypedEnds(scope, raw, done, fields, expected);
    }
  }

  // ---------- calls ----------

  /** A call makes sense if it has enough arguments, which taken together are an expression. */
  lemma CallOkIf(scope: Scope, p: Piece, fields: bool)
    requires p.CallPiece? && p.name in FUNCTIONS
    ensures PieceOk(scope, p, fields) <==>
              HasArguments(p.args, FUNCTIONS[p.name].args) && TypesOf(scope, Trim(p.args), fields, None) != {}
    ensures OperandOf(scope, p) == Some(Operand(FUNCTIONS[p.name].result, false, false))
  {
    hide HasArguments, TypesOf, Trim;
  }

  /** The arguments of a function, of which there is at least one, are not blank. */
  lemma ArgumentsAreExpression(scope: Scope, args: string, n: nat, fields: bool, allowEmpty: bool)
    requires HasArguments(args, n) && n > 0
    ensures (exists t :: IsExpression(scope, args, fields, None, allowEmpty, t)) <==>
              TypesOf(scope, Trim(args), fields, None) != {}
  {
    hide TypesOf, Trim;
    var types := TypesOf(scope, Trim(args), fields, None);
    if t :| IsExpression(scope, args, fields, None, allowEmpty, t) {
      assert t in types;
    }
    if t :| t in types {
      assert IsExpression(scope, args, fields, None, allowEmpty, t);
    }
  }

  /** The call that stands at i, decided by its arguments. */
  lemma CallDecided(scope: Scope, raw: string, i: nat, p: Piece, fields: bool, allowEmpty: bool, fine: bool)
    requires PieceAt(raw, i, p) && p.CallPiece? && p.name in FUNCTIONS && HasArguments(p.args, FUNCTIONS[p.name].args)
    requires FUNCTIONS[p.name].args > 0
    requires fine <==> exists t :: IsExpression(scope, p.args, fields, None, allowEmpty, t)
    ensures if fine then PieceOk(scope, p, fields) else Dead(scope, raw, i, fields)
    ensures OperandOf(scope, p) == Some(Operand(FUNCTIONS[p.name].result, false, false))
  {
    hide PieceAt, PieceOk, HasArguments, IsExpression, TypesOf, Dead, OperandOf;
    CallOkIf(scope, p, fields);
    ArgumentsAreExpression(scope, p.args, FUNCTIONS[p.name].args, fields, allowEmpty);
    if !fine {
      DeadIfOnly(scope, raw, i, p, fields);
    }
  }

  lemma CallShort(scope: Scope, raw: string, i: nat, p: Piece, fields: bool)
    requires PieceAt(raw, i, p) && p.CallPiece?
    requires p.name !in FUNCTIONS || !HasArguments(p.args, FUNCTIONS[p.name].args)
    ensures Dead(scope, raw, i, fields)
  {
    hide PieceAt, HasArguments, TypesOf, Dead;
    DeadIfOnly(scope, raw, i, p, fields);
  }

  lemma NoExpression(scope: Scope, text: string, fields: bool, expected: Option<ValueType>, allowEmpty: bool)
    requires if Trim(text) == "" then !allowEmpty
             else
               || Hopeless(scope, Trim(text), fields, expected)
               || (expected.Some? && !Accepts(scope, Trim(text), fields, expected, expected.value))
    ensures forall t :: !IsExpression(scope, text, fields, expected, allowEmpty, t)
  {
    hide Accepts, Trim;
  }

  lemma SimplePiecesOk(scope: Scope, fields: bool)
    ensures forall p: Piece :: p.NumberPiece? || p.OperatorPiece? || p.CharPiece? ==> PieceOk(scope, p, fields)
    ensures forall name :: PieceOk(scope, NamePiece(name), fields) <==> Resolve(scope, name, fields).Some?
  {
    hide Resolve;
  }

  lemma CharStands(raw: string, i: nat)
    requires i < |raw| && !IsIdentPart(raw[i]) && !IsOperatorChar(raw[i])
    ensures PieceAt(raw, i, CharPiece(raw[i]))
  {
    assert raw[i..i + 1] == [raw[i]];
  }

  // ---------- trimming ----------

  lemma TrimIsFaithful(scope: Scope, text: string, out: Emitted)
    ensures Faithful(scope, Trim(text), out) ==> Faithful(scope, text, out)
  {
    hide Trim, Lex, Render, Owners, NoBlank;
    RenderTrim(scope, text);
    TrimKeeps(scope, text);
  }

  lemma BlankIsFaithful(scope: Scope, text: string, out: Emitted)
    requires Trim(text) == "" && out.go == "" && out.entity == None
    ensures Faithful(scope, text, out)
  {
    hide Trim;
    RenderTrim(scope, text);
    TrimKeeps(scope, text);
  }

  lemma OtherType(scope: Scope, raw: string, fields: bool, expected: Option<ValueType>, t: ValueType)
    requires expected.Some? && Accepts(scope, raw, fields, expected, t) && t != expected.value
    ensures !Accepts(scope, raw, fields, expected, expected.value)
  {
    hide Accepts;
    if Accepts(scope, raw, fields, expected, expected.value) {
      AcceptedTypeIsUnique(scope, raw, fields, expected, t, expected.value);
    }
  }

  // ---------- the translator ----------

  /** failed records that an error was reported; what is emitted then does not matter. */
  class Translator {
    const scope: Scope
    var failed: bool

    constructor (scope: Scope)
      ensures this.scope == scope && !failed
    {
      this.scope, failed := scope, false;
    }

    method Fail()
      modifies this
      ensures failed
    {
      failed := true;
    }

    method SkipIdent(raw: string, start: nat) returns (i: nat)
      requires start <= |raw|
      ensures i == start + IdentLen(raw[start..])
    {
      i := start;
      while i < |raw| && IsIdentPart(raw[i])
        invariant start <= i <= |raw|
        invariant IdentLen(raw[start..]) == i - start + IdentLen(raw[i..])
      {
        i := i + 1;
      }
    }

    method SkipDigits(raw: string, start: nat) returns (i: nat)
      requires start <= |raw|
      ensures i == start + DigitLen(raw[start..])
    {
      i := start;
      while i < |raw| && IsDigit(raw[i])
        invariant start <= i <= |raw|
        invariant DigitLen(raw[start..]) == i - start + DigitLen(raw[i..])
      {
        i := i + 1;
      }
    }

    method NextNonSpace(raw: string, start: nat) returns (i: nat)
      requires start <= |raw|
      ensures i == start + SpaceLen(raw[start..])
    {
      i := start;
      while i < |raw| && IsSpace(raw[i])
        invariant start <= i <= |raw|
        invariant SpaceLen(raw[start..]) == i - start + SpaceLen(raw[i..])
      {
        i := i + 1;
      }
    }

    /** readExprName: at most one dot, and an identifier after it. */
    method ReadName(raw: string, start: nat) returns (next: nat, ok: bool)
      requires start < |raw| && IsIdentStart(raw[start])
      modifies this
      ensures ok ==> failed == old(failed) && next == start + NameLen(raw[start..])
      ensures !ok ==> failed
      ensures var j := start + NameLen(raw[start..]); !ok <==> j < |raw| && raw[j] == '.'
    {
      ok := true;
      next := SkipIdent(raw, start);
      if next < |raw| && raw[next] == '.' {
        if next + 1 >= |raw| || !IsIdentStart(raw[next + 1]) {
          Fail();
          return next, false;
        }
        next := SkipIdent(raw, next + 1);
        if next < |raw| && raw[next] == '.' {
          Fail();
          return next, false;
        }
      }
    }

    /** readExprNumber: digits, and after a dot at least one more. */
    method ReadNumber(raw: string, start: nat) returns (next: nat, operand: Operand, ok: bool)
      requires start < |raw| && IsDigit(raw[start])
      modifies this
      ensures ok ==> failed == old(failed) && next == start + NumberLen(raw[start..])
      ensures var j := start + NumberLen(raw[start..]);
              !ok <==> j < |raw| && raw[j] == '.' && '.' !in raw[start..j]
      ensures ok ==>
                operand == if '.' in raw[start..next] then Operand(Float64, true, true) else Operand(Int64, true, false)
      ensures !ok ==> failed
    {
      hide DigitLen;
      ok, operand := true, Operand(Int64, true, false);
      next := SkipDigits(raw, start);
      DigitsHaveNoDot(raw, start, next);
      if next < |raw| && raw[next] == '.' {
        if next + 1 >= |raw| || !IsDigit(raw[next + 1]) {
          Fail();
          return next, operand, false;
        }
        ghost var dot := next;
        next := SkipDigits(raw, next + 1);
        operand := Operand(Float64, true, true);
        assert raw[start..next][dot - start] == '.';
      }
    }

    method ResolveName(name: string, fieldsAllowed: bool) returns (r: Resolved)
      modifies this
      ensures Resolve(scope, name, fieldsAllowed).Some? ==>
                r == Resolve(scope, name, fieldsAllowed).value && failed == old(failed)
      ensures Resolve(scope, name, fieldsAllowed).None? ==> failed
    {
      var found := Resolve(scope, name, fieldsAllowed);
      match found
      case Some(x) => r := x;
      case None =>
        Fail();
        r := Resolved("0", Int64, None);
    }

    /** All fields of one expression belong to one entity type. */
    method MergeEntity(current: Option<string>, next: Option<string>) returns (merged: Option<string>)
      modifies this
      ensures failed <==> old(failed) || (current.Some? && next.Some? && current != next)
      ensures !failed ==> EntitySet(merged) == EntitySet(current) + EntitySet(next)
    {
      if next.None? {
        return current;
      }
      if current.None? {
        return next;
      }
      if current != next {
        Fail();
      }
      merged := current;
    }

    method FindMatchingParen(raw: string, open: nat) returns (close: nat, found: bool)
      requires open < |raw| && raw[open] == '('
      ensures found ==> open < close < |raw| && raw[close] == ')' && Matches(raw, open, close)
      ensures !found ==> forall c :: open < c < |raw| ==> !Matches(raw, open, c)
    {
      var depth: int := 0;
      var i := open;
      assert raw[open..open] == "";
      while i < |raw|
        invariant open <= i <= |raw| && depth == Depth(raw[open..i])
        invariant i > open ==> depth > 0
        invariant forall j :: open < j <= i ==> Depth(raw[open..j]) > 0
      {
        DepthAfter(raw, open, i);
        hide Depth;
        if raw[i] == '(' {
          depth := depth + 1;
        } else if raw[i] == ')' {
          depth := depth - 1;
          if depth == 0 {
            return i, true;
          }
        }
        i := i + 1;
      }
      return 0, false;
    }

    method CheckArgCount(s: string, expected: nat) returns (ok: bool)
      ensures ok == HasArgs(s, expected) == HasArguments(s, expected)
    {
      ArgumentsCounted(s, expected);
      var raw := Trim(s);
      if expected == 0 {
        return raw == "";
      }
      if raw == "" {
        return false;
      }
      var count, depth := 1, 0;
      assert raw[..0] == "";
      for i := 0 to |raw|
        invariant depth == Depth(raw[..i]) && depth >= 0
        invariant TopCommas(raw[..i]) == Some(count - 1)
        invariant count > 0
      {
        assert raw[..i + 1][..|raw[..i + 1]| - 1] == raw[..i];
        if raw[i] == '(' {
          depth := depth + 1;
        } else if raw[i] == ')' {
          if depth == 0 {
            StaysUnbalanced(raw, i + 1, |raw|);
            assert raw[..|raw|] == raw;
            return false;
          }
          depth := depth - 1;
        } else if raw[i] == ',' {
          if depth == 0 {
            count := count + 1;
          }
        }
      }
      assert raw[..|raw|] == raw;
      ok := count == expected;
    }

    /** inferExprType: finds the type if there is one. */
    method InferType(operands: seq<Operand>, flags: Flags, expected: Option<ValueType>) returns (t: ValueType, ok: bool)
      requires forall o :: o in operands ==> Sensible(o)
      modifies this
      ensures ok ==> failed == old(failed) && HasType(operands, flags, expected, t)
      ensures !ok ==> failed && forall u :: !HasType(operands, flags, expected, u)
    {
      if |operands| == 0 {
        Fail();
        return Int64, false;
      }
      if flags.comparison || flags.boolean {
        return Bool, true;
      }
      var hasBool, hasConcrete, hasFloatLiteral, concrete := false, false, false, Float64;
      for i := 0 to |operands|
        invariant failed == old(failed)
        invariant hasBool == exists o :: o in operands[..i] && o.typ.Bool?
        invariant hasFloatLiteral == exists o :: o in operands[..i] && o.floatLiteral
        invariant hasConcrete == exists o :: o in operands[..i] && !o.typ.Bool? && !o.untyped
        invariant hasConcrete ==> Numeric(concrete)
        invariant forall o :: o in operands[..i] && !o.typ.Bool? && !o.untyped ==> o.typ == concrete
      {
        var o := operands[i];
        assert o in operands && operands[..i + 1] == operands[..i] + [o];
        if o.typ.Bool? {
          hasBool := true;
        } else {
          if o.floatLiteral {
            hasFloatLiteral := true;
          }
          if !o.untyped {
            if !hasConcrete {
              hasConcrete, concrete := true, o.typ;
            } else if concrete != o.typ {
              MixedHasNoType(operands, flags, expected, i, concrete);
              Fail();
              return Int64, false;
            }
          }
        }
      }
      assert operands[..|operands|] == operands;
      if hasBool {
        if |operands| == 1 {
          return Bool, true;
        }
        Fail();
        return Bool, false;
      }
      if expected.Some? && Numeric(expected.value) {
        if (hasFloatLiteral && !expected.value.Float64?) || (hasConcrete && concrete != expected.value) {
          Fail();
          return expected.value, false;
        }
        return expected.value, true;
      }
      if hasConcrete {
        return concrete, true;
      }
      t, ok := if hasFloatLiteral then Float64 else Int64, true;
    }

    /** castValueType and distributionFunc: what a function is called in Go, its result type and its
        number of arguments. */
    method LookUp(name: string) returns (goName: string, typ: ValueType, args: nat, known: bool)
      ensures known <==> name in FUNCTIONS
      ensures known ==>
                FUNCTIONS[name] == Signature(typ, args, goName) && args > 0 && goName == NameText(scope, name, true)
    {
      FunctionsAreKnown(name);
      var cast := Cast(name);
      if cast.Some? {
        return name, cast.value, 1, true;
      }
      var distribution := DistributionFunc(name);
      if distribution.Some? {
        return distribution.value.go, Float64, distribution.value.args, true;
      }
      return "", Float64, 0, false;
    }

    /** translateExprCall; the arguments are a shorter text in balanced parentheses. */
    method TranslateCall(raw: string, start: nat, open: nat, mode: Mode)
      returns (call: Emitted, next: nat, ok: bool, ghost piece: Piece)
      requires start < |raw| && IsIdentStart(raw[start])
      requires var j := start + NameLen(raw[start..]);
               open == j + SpaceLen(raw[j..]) && open < |raw| && raw[open] == '('
      modifies this
      ensures old(failed) ==> failed
      ensures !ok ==> failed
      ensures ok ==> open < next <= |raw|
      ensures !failed ==> Becomes(scope, raw, start, next, call.go, EntitySet(call.entity))
      ensures !old(failed) && !failed ==>
                && PieceAt(raw, start, piece) && next == start + |Spelling(piece)| && piece.CallPiece?
                && PieceOk(scope, piece, mode.fieldsAllowed)
                && OperandOf(scope, piece) == Some(Operand(call.typ, false, false))
      ensures !old(failed) && failed ==> Dead(scope, raw, start, mode.fieldsAllowed)
      decreases |raw|, 0, 0
    {
      hide Lex, Render, Owners, NoBlank, Becomes, Faithful, Depth, HasArgs, NameLen, SpaceLen, NameText,
        PieceAt, PieceOk, Dead, Matches, HasArguments, IsExpression, TypesOf, EntitySet, Spelling,
        OperandOf;
      ghost var j := start + NameLen(raw[start..]);
      var name := raw[start..start + NameLen(raw[start..])];
      call, next, ok, piece := Emitted("", Int64, None), open, false, NamePiece(name);
      var close, found := FindMatchingParen(raw, open);
      if !found {
        UnclosedCall(scope, raw, start, j, open, mode.fieldsAllowed);
        Fail();
        return;
      }
      var inner := raw[open + 1..close];
      CallStands(raw, start, j, open, close);
      piece := CallPiece(name, raw[j..open], inner);
      InnerIsBalanced(raw, open, close);
      var goName, typ, args, known := LookUp(name);
      if !known {
        CallShort(scope, raw, start, piece, mode.fieldsAllowed);
        Fail();
        return;
      }
      var countOk := CheckArgCount(inner, args);
      if !countOk {
        CallShort(scope, raw, start, piece, mode.fieldsAllowed);
        Fail();
        return;
      }
      var arg := TranslateExpr(inner, Mode(mode.fieldsAllowed, None, args == 0));
      if !old(failed) {
        CallDecided(scope, raw, start, piece, mode.fieldsAllowed, args == 0, !failed);
      }
      call := Emitted(goName + "(" + arg.go + ")", typ, arg.entity);
      next, ok := close + 1, true;
      if !failed {
        CallBecomes(scope, raw, start, j, open, close, arg);
      }
    }

    /** The part of that round for a name: a call, or whatever the name stands for. */
    method TranslateName(raw: string, i: nat, mode: Mode)
      returns (text: string, owner: Option<string>, next: nat, operand: Option<Operand>, ok: bool, ghost piece: Piece)
      requires i < |raw| && IsIdentStart(raw[i])
      modifies this
      ensures old(failed) ==> failed
      ensures !ok ==> failed
      ensures ok ==> i < next <= |raw|
      ensures !failed ==> Becomes(scope, raw, i, next, text, EntitySet(owner))
      ensures !old(failed) && !failed ==>
                && PieceAt(raw, i, piece) && next == i + |Spelling(piece)| && PieceOk(scope, piece, mode.fieldsAllowed)
                && operand == OperandOf(scope, piece) && !piece.OperatorPiece?
      ensures !old(failed) && failed ==> Dead(scope, raw, i, mode.fieldsAllowed)
      decreases |raw|, 0, 1
    {
      hide Lex, Render, Owners, NoBlank, Becomes, Resolve, NameLen, SpaceLen, PieceAt, Dead, PieceOk;
      text, owner, operand, piece := "", None, None, CharPiece(raw[i]);
      SimplePiecesOk(scope, mode.fieldsAllowed);
      next, ok := ReadName(raw, i);
      if !ok {
        DottedName(scope, raw, i, mode.fieldsAllowed);
        return;
      }
      var name := raw[i..next];
      var open := NextNonSpace(raw, next);
      CallsSeen(raw[next..]);
      if open < |raw| && raw[open] == '(' {
        var call: Emitted;
        call, next, ok, piece := TranslateCall(raw, i, open, mode);
        text, owner, operand := call.go, call.entity, Some(Operand(call.typ, false, false));
        return;
      }
      piece := NamePiece(name);
      NameStands(raw, i);
      var resolved := ResolveName(name, mode.fieldsAllowed);
      text, owner, operand := resolved.go, resolved.entity, Some(Operand(resolved.typ, false, false));
      if Resolve(scope, name, mode.fieldsAllowed).Some? {
        FieldsAllowedOrNot(scope, name, mode.fieldsAllowed);
        NameBecomes(scope, raw, i, next);
      } else {
        DeadIfOnly(scope, raw, i, piece, mode.fieldsAllowed);
      }
    }

    /** One round of the loop in translateExprRaw: the token at i, the text it becomes, the entity
        type and the operand it contributes. */
    method TranslateToken(raw: string, i: nat, mode: Mode, flags: Flags)
      returns (text: string, owner: Option<string>, next: nat, operand: Option<Operand>, flags': Flags, ok: bool,
               ghost piece: Piece)
      requires i < |raw|
      modifies this
      ensures old(failed) ==> failed
      ensures !ok ==> failed
      ensures ok ==> i < next <= |raw|
      ensures !failed ==> Becomes(scope, raw, i, next, text, EntitySet(owner))
      ensures !old(failed) && !failed ==>
                && PieceAt(raw, i, piece) && next == i + |Spelling(piece)| && PieceOk(scope, piece, mode.fieldsAllowed)
                && operand == OperandOf(scope, piece) && flags' == FlagsAfter(flags, piece)
      ensures !old(failed) && failed ==> Dead(scope, raw, i, mode.fieldsAllowed)
      decreases |raw|, 0, 2
    {
      hide Lex, Render, Owners, NoBlank, Becomes, Resolve, NumberLen, IsLongOperator, OperatorSize, Flagged;
      hide PieceAt, Dead, SpacedOperator, PieceOk;
      text, owner, next, operand, flags', ok, piece := "", None, i, None, flags, true, CharPiece(raw[i]);
      SimplePiecesOk(scope, mode.fieldsAllowed);
      if IsIdentStart(raw[i]) {
        text, owner, next, operand, ok, piece := TranslateName(raw, i, mode);
        return;
      }
      if IsDigit(raw[i]) {
        var number: Operand;
        next, number, ok := ReadNumber(raw, i);
        if !ok {
          DottedNumber(scope, raw, i, mode.fieldsAllowed);
          return;
        }
        text, operand := raw[i..next], Some(number);
        piece := NumberPiece(text);
        NumberStands(raw, i);
        NumberBecomes(scope, raw, i, next);
        return;
      }
      var size := OperatorSize(raw, i);
      if size > 0 {
        if !SpacedOperator(raw, i, size) {
          BadOperator(scope, raw, i, mode.fieldsAllowed);
          Fail();
          ok := false;
          return;
        }
        next := i + size;
        text := raw[i..next];
        flags' := Flagged(flags, text);
        piece := OperatorPiece(text);
        OperatorStands(raw, i);
        if size == 1 {
          CharBecomes(scope, raw, i);
          assert raw[i..i + 1] == [raw[i]];
        } else {
          TwoCharsBecome(scope, raw, i);
        }
        return;
      }
      if IsOperatorChar(raw[i]) {
        BadOperator(scope, raw, i, mode.fieldsAllowed);
        Fail();
        ok := false;
        return;
      }
      text, next := [raw[i]], i + 1;
      CharStands(raw, i);
      CharBecomes(scope, raw, i);
    }

    /** translateExprRaw: one pass from left to right. */
    method TranslateRaw(raw: string, mode: Mode) returns (out: Emitted)
      modifies this
      ensures old(failed) ==> failed
      ensures !failed ==> Faithful(scope, raw, out)
      ensures !old(failed) && !failed ==> Accepts(scope, raw, mode.fieldsAllowed, mode.expected, out.typ)
      ensures !old(failed) && failed ==> Hopeless(scope, raw, mode.fieldsAllowed, mode.expected)
      decreases |raw|, 1
    {
      hide PieceAt, PieceOk, Dead, Hopeless, HasType, FlagsOf, FlagsAfter, OperandsOf, OperandOf;
      hide Done, Becomes, Faithful, Accepts;
      out := Emitted("0", Int64, None);
      var go: string, entity, operands: seq<Operand>, flags := "", NO_ENTITY, [], Flags(false, false, false);
      var i := 0;
      ghost var done: seq<Piece> := [];
      StartsDone(scope, raw);
      StartsRead(scope, raw, mode.fieldsAllowed);
      while i < |raw|
        invariant i <= |raw| && (old(failed) ==> failed)
        invariant !failed ==> Done(scope, raw, i, go, entity)
        invariant !old(failed) && !failed ==> Read(scope, raw, i, done, mode.fieldsAllowed, operands, flags)
        invariant !old(failed) && failed ==> Hopeless(scope, raw, mode.fieldsAllowed, mode.expected)
        decreases |raw| - i
      {
        ghost var sound := !failed;
        var text: string, owner, next: nat, operand: Option<Operand>, ok: bool;
        ghost var was, piece := flags, CharPiece(raw[i]);
        text, owner, next, operand, flags, ok, piece := TranslateToken(raw, i, mode, flags);
        if !old(failed) && sound && failed {
          ReadDeadEnds(scope, raw, i, done, operands, was, mode.fieldsAllowed, mode.expected);
        }
        if !ok {
          return;
        }
        ghost var still := !failed;
        var merged := MergeEntity(entity, owner);
        if !failed {
          Advance(scope, raw, i, next, go, text, entity, EntitySet(owner), merged);
        } else if still {
          TwoOwners(scope, raw, i, next, go, text, entity, owner, mode.fieldsAllowed, mode.expected);
        }
        if !old(failed) && !failed {
          ReadNext(scope, raw, i, done, piece, mode.fieldsAllowed, operands, was);
          done := done + [piece];
        }
        go, entity, i := go + text, merged, next;
        if operand.Some? {
          operands := operands + [operand.value];
        }
      }
      if failed {
        return;
      }
      var t: ValueType, typed: bool;
      if !old(failed) {
        ReadIsSensible(scope, raw, i, done, mode.fieldsAllowed, operands, flags);
      }
      t, typed := InferType(operands, flags, mode.expected);
      out := Emitted(go, t, entity);
      EndsFaithful(scope, raw, out);
      if !old(failed) {
        EndsRead(scope, raw, done, mode.fieldsAllowed, operands, flags, mode.expected, t, typed, out);
      }
    }

    /** translateExpr: trims, translates and checks the type that the context expects. It succeeds exactly
        if the text is an expression of such a type, and then yields that type. */
    method TranslateExpr(expr: string, mode: Mode) returns (out: Emitted)
      modifies this
      ensures old(failed) ==> failed
      ensures !failed ==> Faithful(scope, expr, out)
      ensures !old(failed) ==>
                (!failed <==>
                  exists t :: IsExpression(scope, expr, mode.fieldsAllowed, mode.expected, mode.allowEmpty, t))
      ensures !old(failed) && !failed ==>
                IsExpression(scope, expr, mode.fieldsAllowed, mode.expected, mode.allowEmpty, out.typ)
      decreases |expr|, 2
    {
      hide Accepts, Faithful, Trim, TypesOf;
      var raw := Trim(expr);
      if raw == "" {
        if !mode.allowEmpty {
          NoExpression(scope, expr, mode.fieldsAllowed, mode.expected, mode.allowEmpty);
          Fail();
        }
        out := Emitted("", if mode.expected.Some? then mode.expected.value else Float64, None);
        BlankIsFaithful(scope, expr, out);
        assert mode.allowEmpty ==>
            IsExpression(scope, expr, mode.fieldsAllowed, mode.expected, mode.allowEmpty, out.typ);
        return;
      }
      out := TranslateRaw(raw, mode);
      TrimIsFaithful(scope, expr, out);
      if mode.expected.Some? && out.typ != mode.expected.value {
        if !failed && !old(failed) {
          OtherType(scope, raw, mode.fieldsAllowed, mode.expected, out.typ);
        }
        Fail();
      }
      if !old(failed) && failed {
        NoExpression(scope, expr, mode.fieldsAllowed, mode.expected, mode.allowEmpty);
      } else if !failed {
        assert IsExpression(scope, expr, mode.fieldsAllowed, mode.expected, mode.allowEmpty, out.typ);
      }
    }
  }

  /** A name that is accepted where fields are not allowed means the same as where they are. */
  lemma FieldsAllowedOrNot(scope: Scope, name: string, fieldsAllowed: bool)
    requires Resolve(scope, name, fieldsAllowed).Some?
    ensures Resolve(scope, name, true) == Resolve(scope, name, fieldsAllowed)
  {
  }

  lemma StartsDone(scope: Scope, raw: string)
    ensures Done(scope, raw, 0, "", NO_ENTITY)
  {
    hide KeptSoFar;
    KeptStart(scope, raw);
    assert raw[0..] == raw;
    assert "" + NoBlank(Render(scope, Lex(raw))) == NoBlank(Render(scope, Lex(raw)));
  }

  lemma EndsFaithful(scope: Scope, raw: string, out: Emitted)
    requires Done(scope, raw, |raw|, out.go, out.entity)
    ensures Faithful(scope, raw, out)
  {
    hide KeptSoFar, Kept;
    KeptEnd(scope, raw, out.go);
    assert raw[|raw|..] == "";
    assert NoBlank(out.go) + "" == NoBlank(out.go);
  }

  lemma MixedHasNoType(operands: seq<Operand>, flags: Flags, expected: Option<ValueType>, i: nat, concrete: ValueType)
    requires i < |operands| && !flags.comparison && !flags.boolean
    requires !operands[i].typ.Bool? && !operands[i].untyped && operands[i].typ != concrete
    requires exists o :: o in operands[..i] && !o.typ.Bool? && !o.untyped && o.typ == concrete
    ensures forall u :: !HasType(operands, flags, expected, u)
  {
    var o :| o in operands[..i] && !o.typ.Bool? && !o.untyped && o.typ == concrete;
    assert o in operands && operands[i] in operands;
  }

  lemma {:induction false} StaysUnbalanced(s: string, i: nat, j: nat)
    requires i <= j <= |s| && TopCommas(s[..i]).None?
    ensures TopCommas(s[..j]).None?
  {
    if i < j {
      StaysUnbalanced(s, i, j - 1);
      assert s[..j][..|s[..j]| - 1] == s[..j - 1];
    }
  }
}
