/** The grammar of expressions is unambiguous: at any position at most one piece can stand, so a text
    has at most one reading. */
module Parsing {
  import opened Options
  import opened Lexing
  import opened Rendering
  import opened Grammar

  // ---------- names and numbers, measured ----------

  lemma IdentLenIs(s: string, n: nat)
    requires n <= |s| && (forall i: nat :: i < n ==> IsIdentPart(s[i])) && (n < |s| ==> !IsIdentPart(s[n]))
    ensures IdentLen(s) == n
  {
    hide IsIdentPart;
  }

  lemma DigitLenIs(s: string, n: nat)
    requires n <= |s| && (forall i: nat :: i < n ==> IsDigit(s[i])) && (n < |s| ==> !IsDigit(s[n]))
    ensures DigitLen(s) == n
  {
    hide IsDigit;
  }

  /** A name that ends where nothing continues it is as long as the longest one. */
  lemma NameLenIs(s: string, n: nat)
    requires n <= |s| && IsName(s[..n]) && EndsName(s, n)
    ensures s != "" && IsIdentStart(s[0]) && NameLen(s) == n
  {
    var name := s[..n];
    if IsIdent(name) {
      assert forall i: nat :: i < n ==> name[i] == s[i];
      IdentLenIs(s, n);
    } else {
      var k: nat :| k < n && name[k] == '.' && IsIdent(name[..k]) && IsIdent(name[k + 1..]);
      assert forall i: nat :: i < k ==> name[..k][i] == s[i];
      assert s[k] == '.' && s[0] == name[..k][0];
      IdentLenIs(s, k);
      var tail := s[k + 1..];
      assert forall i: nat :: i < n - k - 1 ==> name[k + 1..][i] == tail[i];
      IdentLenIs(tail, n - k - 1);
    }
  }

  /** The longest name is a name, and only a dot can follow it and still go on. */
  lemma NameLenIsName(s: string)
    requires s != "" && IsIdentStart(s[0])
    ensures IsName(s[..NameLen(s)]) && (NameLen(s) < |s| ==> !IsIdentPart(s[NameLen(s)]))
  {
    var k, n := IdentLen(s), NameLen(s);
    if n == k {
      assert IsIdent(s[..n]);
    } else {
      var tail := s[k + 1..];
      var l := IdentLen(tail);
      assert n == k + 1 + l && s[..n][k] == '.';
      assert s[..n][..k] == s[..k] && s[..n][k + 1..] == tail[..l];
      assert IsIdent(s[..k]) && IsIdent(tail[..l]);
    }
  }

  lemma NumberLenIs(s: string, n: nat)
    requires n <= |s| && IsNumber(s[..n]) && EndsNumber(s, n, s[..n])
    ensures s != "" && IsDigit(s[0]) && NumberLen(s) == n
  {
    var digits := s[..n];
    if IsDigits(digits) {
      assert forall i: nat :: i < n ==> digits[i] == s[i];
      DigitLenIs(s, n);
      assert '.' !in digits;
    } else {
      var k: nat :| k < n && digits[k] == '.' && IsDigits(digits[..k]) && IsDigits(digits[k + 1..]);
      assert forall i: nat :: i < k ==> digits[..k][i] == s[i];
      assert s[k] == '.' && s[0] == digits[..k][0];
      DigitLenIs(s, k);
      var tail := s[k + 1..];
      assert forall i: nat :: i < n - k - 1 ==> digits[k + 1..][i] == tail[i];
      DigitLenIs(tail, n - k - 1);
    }
  }

  lemma NumberLenIsNumber(s: string)
    requires s != "" && IsDigit(s[0])
    ensures IsNumber(s[..NumberLen(s)]) && (NumberLen(s) < |s| ==> !IsDigit(s[NumberLen(s)]))
  {
    var k, n := DigitLen(s), NumberLen(s);
    if n == k {
      assert IsDigits(s[..n]);
    } else {
      var tail := s[k + 1..];
      var l := DigitLen(tail);
      assert n == k + 1 + l && s[..n][k] == '.';
      assert s[..n][..k] == s[..k] && s[..n][k + 1..] == tail[..l];
      assert IsDigits(s[..k]) && IsDigits(tail[..l]);
    }
  }

  lemma SpaceLenIs(s: string, n: nat)
    requires n < |s| && (forall i: nat :: i < n ==> IsSpace(s[i])) && !IsSpace(s[n])
    ensures SpaceLen(s) == n
    decreases n
  {
    if n > 0 {
      SpaceLenIs(s[1..], n - 1);
    }
  }

  lemma {:induction false} SpacesAreSpaces(s: string)
    ensures forall i: nat :: i < SpaceLen(s) ==> IsSpace(s[i])
  {
    if s != "" && IsSpace(s[0]) {
      SpacesAreSpaces(s[1..]);
      assert forall i: nat :: 0 < i < SpaceLen(s) ==> s[i] == s[1..][i - 1];
    }
  }

  /** A call opens exactly if the parenthesis follows the spaces. */
  lemma OpensCallIs(raw: string, j: nat)
    requires j <= |raw|
    ensures var k := j + SpaceLen(raw[j..]); OpensCall(raw, j) <==> k < |raw| && raw[k] == '('
  {
    var s := raw[j..];
    var k := j + SpaceLen(s);
    SpacesAreSpaces(s);
    assert forall x: nat :: j <= x < k ==> raw[x] == s[x - j];
    if OpensCall(raw, j) {
      var l: nat :| j <= l < |raw| && raw[l] == '(' && forall x: nat :: j <= x < l ==> IsSpace(raw[x]);
      assert forall x: nat :: x < l - j ==> s[x] == raw[j + x];
      SpaceLenIs(s, l - j);
    }
  }

  // ---------- parentheses ----------

  /** A balanced text between parentheses is what the first one encloses. */
  lemma BalancedMatches(raw: string, open: nat, close: nat)
    requires open < close < |raw| && raw[open] == '(' && raw[close] == ')' && Balanced(raw[open + 1..close])
    ensures Matches(raw, open, close)
  {
    hide Depth;
    var inner := raw[open + 1..close];
    forall i: nat | open < i <= close
      ensures Depth(raw[open..i]) == 1 + Depth(inner[..i - open - 1])
    {
      assert raw[open..i] == "(" + inner[..i - open - 1];
      DepthConcat("(", inner[..i - open - 1]);
      OpenDepth();
    }
    assert inner[..close - open - 1] == inner;
    DepthAfter(raw, open, close);
  }

  lemma OpenDepth()
    ensures Depth("(") == 1
  {
    assert "("[..0] == "";
  }

  lemma MatchIsUnique(raw: string, open: nat, close: nat, close': nat)
    requires Matches(raw, open, close) && Matches(raw, open, close')
    ensures close == close'
  {
    hide Depth;
  }

  // ---------- one piece at a position ----------

  lemma NameAtMeasured(raw: string, i: nat, name: string)
    requires i + |name| <= |raw| && raw[i..i + |name|] == name && IsName(name) && EndsName(raw, i + |name|)
    ensures i < |raw| && IsIdentStart(raw[i]) && |name| == NameLen(raw[i..])
  {
    var s := raw[i..];
    assert s[..|name|] == name;
    NameLenIs(s, |name|);
  }

  lemma CallParts(raw: string, i: nat, name: string, gap: string, args: string)
    requires PieceAt(raw, i, CallPiece(name, gap, args))
    ensures IsName(name) && Balanced(args) && forall x: nat :: x < |gap| ==> IsSpace(gap[x])
    ensures var j := i + |name|;
            var open := j + |gap|;
            var close := open + 1 + |args|;
            && close < |raw| && raw[i..j] == name && raw[j..open] == gap && raw[open + 1..close] == args
            && raw[open] == '(' && raw[close] == ')'
  {
    hide IsName, Balanced, IsSpace;
    CallText(raw, i, name, gap, args);
  }

  /** A call at i, measured: its name is the longest one, its gap all the spaces, and its arguments what
      the parenthesis encloses. */
  lemma CallMeasured(raw: string, i: nat, name: string, gap: string, args: string)
    requires PieceAt(raw, i, CallPiece(name, gap, args))
    ensures i < |raw| && IsIdentStart(raw[i]) && |name| == NameLen(raw[i..])
    ensures var j := i + |name|;
            var open := j + |gap|;
            var close := open + 1 + |args|;
            && EndsName(raw, j) && close < |raw| && |gap| == SpaceLen(raw[j..]) && Matches(raw, open, close)
            && name == raw[i..j] && gap == raw[j..open] && args == raw[open + 1..close] && raw[open] == '('
  {
    hide PieceAt, Balanced, Matches, NameLen, SpaceLen, IsName;
    var j := i + |name|;
    var open := j + |gap|;
    var close := open + 1 + |args|;
    CallParts(raw, i, name, gap, args);
    GapEndsName(raw, j, open, gap);
    NameAtMeasured(raw, i, name);
    var s := raw[j..];
    assert forall x: nat :: x < |gap| ==> s[x] == gap[x];
    assert s[|gap|] == raw[open];
    SpaceLenIs(s, |gap|);
    BalancedMatches(raw, open, close);
  }

  lemma GapEndsName(raw: string, j: nat, open: nat, gap: string)
    requires j <= open < |raw| && raw[j..open] == gap && raw[open] == '('
    requires forall x: nat :: x < |gap| ==> IsSpace(gap[x])
    ensures EndsName(raw, j)
  {
    if j < open {
      assert raw[j] == gap[0];
    }
  }

  lemma CallText(raw: string, i: nat, name: string, gap: string, args: string)
    requires var t := name + gap + "(" + args + ")"; i + |t| <= |raw| && raw[i..i + |t|] == t
    ensures var j := i + |name|;
            var open := j + |gap|;
            var close := open + 1 + |args|;
            && close < |raw| && raw[i..j] == name && raw[j..open] == gap && raw[open + 1..close] == args
            && raw[open] == '(' && raw[close] == ')'
  {
    var t := name + gap + "(" + args + ")";
    var j, open := |name|, |name| + |gap|;
    var close := open + 1 + |args|;
    assert t[0..j] == name && t[j..open] == gap && t[open] == '(' && t[open + 1..close] == args && t[close] == ')';
    SliceOf(raw, i, t, 0, j);
    SliceOf(raw, i, t, j, open);
    SliceOf(raw, i, t, open + 1, close);
  }

  lemma SliceOf(raw: string, i: nat, t: string, a: nat, b: nat)
    requires i + |t| <= |raw| && raw[i..i + |t|] == t && a <= b <= |t|
    ensures raw[i + a..i + b] == t[a..b]
    ensures forall y: nat :: i <= y < i + |t| ==> raw[y] == t[y - i]
  {
    assert forall y: nat :: i <= y < i + |t| ==> raw[y] == raw[i..i + |t|][y - i];
  }

  /** What kind of piece stands at i shows in its first character. */
  lemma FirstChar(raw: string, i: nat, p: Piece)
    requires PieceAt(raw, i, p)
    ensures i < |raw| && Spelling(p) != ""
    ensures IsIdentStart(raw[i]) <==> p.NamePiece? || p.CallPiece?
    ensures IsDigit(raw[i]) <==> p.NumberPiece?
    ensures p.OperatorPiece? ==> raw[i] in OPERATOR_CHARS
    ensures p.CharPiece? ==> raw[i] !in OPERATOR_CHARS
  {
    match p
    case NamePiece(name) => NameAtMeasured(raw, i, name);
    case NumberPiece(digits) => NumberAtMeasured(raw, i, digits);
    case CallPiece(name, gap, args) => CallMeasured(raw, i, name, gap, args);
    case OperatorPiece(op) => assert raw[i..i + |op|][0] == raw[i];
    case CharPiece(c) => assert raw[i..i + 1][0] == raw[i];
  }

  lemma NumberAtMeasured(raw: string, i: nat, digits: string)
    requires i + |digits| <= |raw| && raw[i..i + |digits|] == digits && IsNumber(digits)
    requires EndsNumber(raw, i + |digits|, digits)
    ensures i < |raw| && IsDigit(raw[i]) && |digits| == NumberLen(raw[i..])
  {
    var s := raw[i..];
    assert s[..|digits|] == digits;
    NumberLenIs(s, |digits|);
  }

  /** At most one piece stands at a position. */
  lemma PieceIsUnique(raw: string, i: nat, p: Piece, q: Piece)
    requires PieceAt(raw, i, p) && PieceAt(raw, i, q)
    ensures p == q
  {
    FirstChar(raw, i, p);
    FirstChar(raw, i, q);
    match p
    case NamePiece(name) => OneName(raw, i, p, q);
    case CallPiece(name, gap, args) => OneName(raw, i, p, q);
    case NumberPiece(digits) =>
      NumberAtMeasured(raw, i, digits);
      NumberAtMeasured(raw, i, q.digits);
    case OperatorPiece(op) => OneOperator(raw, i, op, q.op);
    case CharPiece(c) =>
  }

  lemma OneOperator(raw: string, i: nat, op: string, op': string)
    requires PieceAt(raw, i, OperatorPiece(op)) && PieceAt(raw, i, OperatorPiece(op'))
    ensures op == op'
  {
  }

  lemma OneName(raw: string, i: nat, p: Piece, q: Piece)
    requires PieceAt(raw, i, p) && PieceAt(raw, i, q)
    requires (p.NamePiece? || p.CallPiece?) && (q.NamePiece? || q.CallPiece?)
    ensures p == q
  {
    hide PieceAt, NameLen, OpensCall, EndsName;
    NamedMeasured(raw, i, p);
    NamedMeasured(raw, i, q);
    if p.CallPiece? && q.CallPiece? {
      OneCall(raw, i, p.name, p.gap, p.args, q.gap, q.args);
    }
  }

  lemma OneCall(raw: string, i: nat, name: string, gap: string, args: string, gap': string, args': string)
    requires PieceAt(raw, i, CallPiece(name, gap, args)) && PieceAt(raw, i, CallPiece(name, gap', args'))
    ensures gap == gap' && args == args'
  {
    hide PieceAt, NameLen, SpaceLen, Matches, EndsName;
    CallMeasured(raw, i, name, gap, args);
    CallMeasured(raw, i, name, gap', args');
    var open := i + |name| + |gap|;
    assert gap == gap';
    MatchIsUnique(raw, open, open + 1 + |args|, open + 1 + |args'|);
  }

  lemma NamedMeasured(raw: string, i: nat, p: Piece)
    requires PieceAt(raw, i, p) && (p.NamePiece? || p.CallPiece?)
    ensures i < |raw| && IsIdentStart(raw[i]) && |p.name| == NameLen(raw[i..]) && i + |p.name| <= |raw|
    ensures p.name == raw[i..i + |p.name|] && (p.CallPiece? <==> OpensCall(raw, i + |p.name|))
    ensures EndsName(raw, i + |p.name|)
  {
    hide NameLen, SpaceLen, Balanced, Matches;
    match p
    case NamePiece(name) => NameAtMeasured(raw, i, name);
    case CallPiece(name, gap, args) =>
      CallMeasured(raw, i, name, gap, args);
      OpensCallIs(raw, i + |name|);
  }

  // ---------- one reading of a text ----------

  lemma {:induction false} PathSnoc(raw: string, i: nat, ps: seq<Piece>, j: nat, p: Piece)
    requires Path(raw, i, ps, j) && PieceAt(raw, j, p)
    ensures Path(raw, i, ps + [p], j + |Spelling(p)|)
    decreases |ps|
  {
    hide PieceAt;
    if ps == [] {
      assert ([] + [p])[1..] == [] && [] + [p] == [p];
    } else {
      PathSnoc(raw, i + |Spelling(ps[0])|, ps[1..], j, p);
      assert (ps + [p])[1..] == ps[1..] + [p];
    }
  }

  /** Where one reading has come, every other has passed as well. */
  lemma {:induction false} PathIsPrefix(raw: string, i: nat, ps: seq<Piece>, j: nat, qs: seq<Piece>, end: nat)
    requires Path(raw, i, ps, j) && Path(raw, i, qs, end) && end >= |raw|
    ensures |ps| <= |qs| && qs[..|ps|] == ps && Path(raw, j, qs[|ps|..], end)
    decreases |ps|
  {
    hide PieceAt;
    if ps == [] {
      assert qs[0..] == qs;
    } else {
      FirstChar(raw, i, ps[0]);
      PieceIsUnique(raw, i, ps[0], qs[0]);
      PathIsPrefix(raw, i + |Spelling(ps[0])|, ps[1..], j, qs[1..], end);
      assert qs[1..][|ps[1..]|..] == qs[|ps|..] && qs[..|ps|] == [qs[0]] + qs[1..][..|ps[1..]|];
    }
  }

  /** A text has at most one reading. */
  lemma ReadingIsUnique(raw: string, ps: seq<Piece>, qs: seq<Piece>)
    requires Path(raw, 0, ps, |raw|) && Path(raw, 0, qs, |raw|)
    ensures ps == qs
  {
    hide PieceAt;
    PathIsPrefix(raw, 0, ps, |raw|, qs, |raw|);
    PathIsPrefix(raw, 0, qs, |raw|, ps, |raw|);
  }

  lemma PieceIsPart(raw: string, i: nat, p: Piece)
    requires PieceAt(raw, i, p)
    ensures i + |Spelling(p)| <= |raw|
  {
  }

  lemma {:induction false} PiecesArePart(raw: string, i: nat, ps: seq<Piece>, j: nat, k: nat)
    requires Path(raw, i, ps, j) && k < |ps|
    ensures |Spelling(ps[k])| <= |raw|
    decreases |ps|
  {
    hide PieceAt;
    PieceIsPart(raw, i, ps[0]);
    if k > 0 {
      PiecesArePart(raw, i + |Spelling(ps[0])|, ps[1..], j, k - 1);
    }
  }

  // ---------- what cannot be an expression ----------

  /** No piece that makes sense stands at i. */
  ghost predicate Dead(scope: Scope, raw: string, i: nat, fields: bool) {
    forall p: Piece :: PieceAt(raw, i, p) ==> !PieceOk(scope, p, fields)
  }

  ghost predicate Hopeless(scope: Scope, raw: string, fields: bool, expected: Option<ValueType>) {
    forall t: ValueType :: !Accepts(scope, raw, fields, expected, t)
  }

  lemma DeadEnds(scope: Scope, raw: string, ps: seq<Piece>, i: nat, fields: bool, expected: Option<ValueType>)
    requires Path(raw, 0, ps, i) && i < |raw| && Dead(scope, raw, i, fields)
    ensures Hopeless(scope, raw, fields, expected)
  {
    hide PieceAt, PieceOk, HasType;
    forall t: ValueType
      ensures !Accepts(scope, raw, fields, expected, t)
    {
      if Accepts(scope, raw, fields, expected, t) {
        var qs :| ReadAs(scope, raw, qs, fields) && HasType(OperandsOf(scope, qs), FlagsOf(qs), expected, t);
        DeadReading(scope, raw, ps, i, fields, qs);
      }
    }
  }

  lemma DeadReading(scope: Scope, raw: string, ps: seq<Piece>, i: nat, fields: bool, qs: seq<Piece>)
    requires Path(raw, 0, ps, i) && i < |raw| && Dead(scope, raw, i, fields)
    ensures !ReadAs(scope, raw, qs, fields)
  {
    hide PieceAt, PieceOk;
    if ReadAs(scope, raw, qs, fields) {
      var p := ReadingGoesOn(scope, raw, ps, i, fields, qs);
    }
  }

  lemma ReadingGoesOn(scope: Scope, raw: string, ps: seq<Piece>, i: nat, fields: bool, qs: seq<Piece>)
    returns (p: Piece)
    requires Path(raw, 0, ps, i) && i < |raw| && ReadAs(scope, raw, qs, fields)
    ensures PieceAt(raw, i, p) && PieceOk(scope, p, fields)
  {
    hide PieceAt, PieceOk;
    PathIsPrefix(raw, 0, ps, i, qs, |raw|);
    var rest := qs[|ps|..];
    assert rest != [];
    p := rest[0];
    assert p == qs[|ps|];
  }

  lemma OwnersEnd(scope: Scope, raw: string, fields: bool, expected: Option<ValueType>, a: string, b: string)
    requires a in Owners(scope, Lex(raw)) && b in Owners(scope, Lex(raw)) && a != b
    ensures Hopeless(scope, raw, fields, expected)
  {
  }

  lemma UntypedEnds(scope: Scope, raw: string, ps: seq<Piece>, fields: bool, expected: Option<ValueType>)
    requires Path(raw, 0, ps, |raw|) && forall t :: !HasType(OperandsOf(scope, ps), FlagsOf(ps), expected, t)
    ensures Hopeless(scope, raw, fields, expected)
  {
    hide PieceAt, PieceOk, HasType, FlagsOf, OperandsOf;
    forall t: ValueType
      ensures !Accepts(scope, raw, fields, expected, t)
    {
      if Accepts(scope, raw, fields, expected, t) {
        var qs :| ReadAs(scope, raw, qs, fields) && HasType(OperandsOf(scope, qs), FlagsOf(qs), expected, t);
        ReadingIsUnique(raw, ps, qs);
      }
    }
  }

  /** The type of an accepted text is determined. */
  lemma AcceptedTypeIsUnique(scope: Scope, raw: string, fields: bool, expected: Option<ValueType>, t: ValueType,
                             u: ValueType)
    requires Accepts(scope, raw, fields, expected, t) && Accepts(scope, raw, fields, expected, u)
    ensures t == u
  {
    hide PieceAt, PieceOk, HasType, FlagsOf, OperandsOf, OneOwner;
    var ps :| ReadAs(scope, raw, ps, fields) && HasType(OperandsOf(scope, ps), FlagsOf(ps), expected, t);
    var qs :| ReadAs(scope, raw, qs, fields) && HasType(OperandsOf(scope, qs), FlagsOf(qs), expected, u);
    ReadingIsUnique(raw, ps, qs);
    TypeIsUnique(OperandsOf(scope, ps), FlagsOf(ps), expected, t, u);
  }

  // ---------- what the translator finds at a position ----------

  lemma DeadIfOnly(scope: Scope, raw: string, i: nat, p: Piece, fields: bool)
    requires PieceAt(raw, i, p) && !PieceOk(scope, p, fields)
    ensures Dead(scope, raw, i, fields)
  {
    hide PieceAt, PieceOk;
    forall q: Piece | PieceAt(raw, i, q)
      ensures q == p
    {
      PieceIsUnique(raw, i, p, q);
    }
  }

  /** A name that runs into another dot. */
  lemma DottedName(scope: Scope, raw: string, i: nat, fields: bool)
    requires i < |raw| && IsIdentStart(raw[i])
    requires var j := i + NameLen(raw[i..]); j < |raw| && raw[j] == '.'
    ensures Dead(scope, raw, i, fields)
  {
    hide PieceAt, PieceOk, NameLen;
    forall p: Piece | PieceAt(raw, i, p)
      ensures false
    {
      FirstChar(raw, i, p);
      NamedMeasured(raw, i, p);
    }
  }

  lemma DottedNumber(scope: Scope, raw: string, i: nat, fields: bool)
    requires i < |raw| && IsDigit(raw[i])
    requires var j := i + NumberLen(raw[i..]); j < |raw| && raw[j] == '.' && '.' !in raw[i..j]
    ensures Dead(scope, raw, i, fields)
  {
    hide PieceAt, PieceOk, NumberLen;
    forall p: Piece | PieceAt(raw, i, p)
      ensures false
    {
      FirstChar(raw, i, p);
      DigitsMeasured(raw, i, p.digits);
    }
  }

  lemma DigitsMeasured(raw: string, i: nat, digits: string)
    requires PieceAt(raw, i, NumberPiece(digits))
    ensures i < |raw| && i + |digits| <= |raw| && digits == raw[i..i + |digits|]
    ensures IsDigit(raw[i]) && |digits| == NumberLen(raw[i..])
    ensures EndsNumber(raw, i + |digits|, digits)
  {
    hide IsNumber, NumberLen;
    NumberAtMeasured(raw, i, digits);
  }

  lemma UnclosedCall(scope: Scope, raw: string, i: nat, j: nat, open: nat, fields: bool)
    requires i < |raw| && IsIdentStart(raw[i]) && j == i + NameLen(raw[i..]) && open == j + SpaceLen(raw[j..])
    requires open < |raw| && raw[open] == '(' && forall close :: open < close < |raw| ==> !Matches(raw, open, close)
    ensures Dead(scope, raw, i, fields)
  {
    hide PieceAt, PieceOk, NameLen, Matches, SpaceLen, OpensCall;
    OpensCallIs(raw, j);
    forall p: Piece | PieceAt(raw, i, p)
      ensures false
    {
      FirstChar(raw, i, p);
      NoCallStands(raw, i, j, open, p);
    }
  }

  lemma NoCallStands(raw: string, i: nat, j: nat, open: nat, p: Piece)
    requires i < |raw| && IsIdentStart(raw[i]) && j == i + NameLen(raw[i..]) && open == j + SpaceLen(raw[j..])
    requires PieceAt(raw, i, p) && (p.NamePiece? || p.CallPiece?) && OpensCall(raw, j)
    ensures exists close: nat :: open < close < |raw| && Matches(raw, open, close)
  {
    hide PieceAt, NameLen, Matches, SpaceLen, OpensCall;
    NamedMeasured(raw, i, p);
    CallMeasured(raw, i, p.name, p.gap, p.args);
    assert Matches(raw, open, open + 1 + |p.args|);
  }

  lemma NameStands(raw: string, i: nat)
    requires i < |raw| && IsIdentStart(raw[i])
    requires var j := i + NameLen(raw[i..]);
             && (j < |raw| ==> raw[j] != '.')
             && var open := j + SpaceLen(raw[j..]); !(open < |raw| && raw[open] == '(')
    ensures PieceAt(raw, i, NamePiece(raw[i..i + NameLen(raw[i..])]))
  {
    hide NameLen, SpaceLen, IsName;
    var s := raw[i..];
    var n := NameLen(s);
    NameLenIsName(s);
    assert s[..n] == raw[i..i + n] && (n < |s| ==> s[n] == raw[i + n]);
    OpensCallIs(raw, i + n);
  }

  lemma NumberStands(raw: string, i: nat)
    requires i < |raw| && IsDigit(raw[i])
    requires var j := i + NumberLen(raw[i..]); j < |raw| && raw[j] == '.' ==> '.' in raw[i..j]
    ensures PieceAt(raw, i, NumberPiece(raw[i..i + NumberLen(raw[i..])]))
  {
    hide NumberLen, IsNumber;
    var s := raw[i..];
    var n := NumberLen(s);
    NumberLenIsNumber(s);
    assert s[..n] == raw[i..i + n] && (n < |s| ==> s[n] == raw[i + n]);
  }

  lemma CallStands(raw: string, i: nat, j: nat, open: nat, close: nat)
    requires i < |raw| && IsIdentStart(raw[i]) && j == i + NameLen(raw[i..]) && open == j + SpaceLen(raw[j..])
    requires Matches(raw, open, close)
    ensures var p := CallPiece(raw[i..j], raw[j..open], raw[open + 1..close]);
            PieceAt(raw, i, p) && i + |Spelling(p)| == close + 1
  {
    hide NameLen, SpaceLen, IsName, Balanced, Depth, IsSpace;
    var s := raw[i..];
    NameLenIsName(s);
    assert s[..j - i] == raw[i..j];
    InnerIsBalanced(raw, open, close);
    GapIsSpace(raw, j, open);
    JoinedText(raw, i, j, open, close);
  }

  lemma GapIsSpace(raw: string, j: nat, open: nat)
    requires j <= |raw| && open == j + SpaceLen(raw[j..])
    ensures forall x: nat :: x < |raw[j..open]| ==> IsSpace(raw[j..open][x])
  {
    SpacesAreSpaces(raw[j..]);
    assert forall x: nat :: x < open - j ==> raw[j..open][x] == raw[j..][x];
  }

  lemma JoinedText(raw: string, i: nat, j: nat, open: nat, close: nat)
    requires i <= j <= open < close < |raw| && raw[open] == '(' && raw[close] == ')'
    ensures raw[i..close + 1] == raw[i..j] + raw[j..open] + "(" + raw[open + 1..close] + ")"
  {
  }

  // ---------- one piece more ----------

  lemma OperandsSnoc(scope: Scope, ps: seq<Piece>, p: Piece)
    ensures OperandsOf(scope, ps + [p]) ==
              OperandsOf(scope, ps) + (match OperandOf(scope, p) case Some(o) => [o] case None => [])
  {
    hide OperandOf;
    assert (ps + [p])[..|ps|] == ps;
  }

  lemma AppliedSnoc(ps: seq<Piece>, p: Piece, ops: set<string>)
    ensures Applied(ps + [p], ops) <==> Applied(ps, ops) || (p.OperatorPiece? && p.op in ops)
  {
    var qs := ps + [p];
    if Applied(ps, ops) {
      var i: nat :| i < |ps| && ps[i].OperatorPiece? && ps[i].op in ops;
      assert qs[i] == ps[i];
    }
    if p.OperatorPiece? && p.op in ops {
      assert qs[|ps|] == p;
    }
  }
}
