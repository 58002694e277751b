/** The tokens of an expression, independent of how the translator walks over it, and what becomes
    of each token in the emitted Go expression. */
module Lexing {

  // ---------- characters ----------

  predicate IsIdentStart(c: char) {
    'A' <= c <= 'Z' || 'a' <= c <= 'z' || c == '_'
  }

  predicate IsDigit(c: char) {
    '0' <= c <= '9'
  }

  predicate IsIdentPart(c: char) {
    IsIdentStart(c) || IsDigit(c)
  }

  predicate IsSpace(c: char) {
    c == ' ' || c == '\t' || c == '\r' || c == '\n'
  }

  /** What trimming removes: the spaces and, beyond them, vertical tab and form feed. */
  predicate IsBlank(c: char) {
    IsSpace(c) || c == 11 as char || c == 12 as char
  }

  function NoBlank(s: string): string {
    if s == "" then "" else (if IsBlank(s[0]) then "" else [s[0]]) + NoBlank(s[1..])
  }

  lemma {:induction false} NoBlankConcat(a: string, b: string)
    ensures NoBlank(a + b) == NoBlank(a) + NoBlank(b)
  {
    if a == "" {
      assert a + b == b;
    } else {
      NoBlankConcat(a[1..], b);
      assert (a + b)[1..] == a[1..] + b;
      var head := if IsBlank(a[0]) then "" else [a[0]];
      assert head + (NoBlank(a[1..]) + NoBlank(b)) == (head + NoBlank(a[1..])) + NoBlank(b);
    }
  }

  function TrimLeft(s: string): (t: string)
    ensures |t| <= |s|
  {
    if s != "" && IsBlank(s[0]) then TrimLeft(s[1..]) else s
  }

  function TrimRight(s: string): (t: string)
    ensures |t| <= |s|
  {
    if s != "" && IsBlank(s[|s| - 1]) then TrimRight(s[..|s| - 1]) else s
  }

  function Trim(s: string): (t: string)
    ensures |t| <= |s|
  {
    TrimRight(TrimLeft(s))
  }

  predicate AllBlank(s: string) {
    forall c <- s :: IsBlank(c)
  }

  lemma {:induction false} TrimLeftStrips(s: string) returns (a: string)
    ensures s == a + TrimLeft(s) && AllBlank(a) && (TrimLeft(s) != "" ==> !IsBlank(TrimLeft(s)[0]))
  {
    if s != "" && IsBlank(s[0]) {
      a := TrimLeftStrips(s[1..]);
      a := [s[0]] + a;
      assert s == [s[0]] + s[1..];
    } else {
      a := "";
    }
  }

  lemma {:induction false} TrimRightStrips(s: string) returns (b: string)
    ensures s == TrimRight(s) + b && AllBlank(b)
    ensures TrimRight(s) != "" ==> !IsBlank(TrimRight(s)[|TrimRight(s)| - 1])
    decreases |s|
  {
    hide IsBlank;
    if s != "" && IsBlank(s[|s| - 1]) {
      var n := |s| - 1;
      var rest := TrimRightStrips(s[..n]);
      b := rest + [s[n]];
      assert s == s[..n] + [s[n]] == TrimRight(s[..n]) + b;
    } else {
      b := "";
    }
  }

  /** Trimming removes blanks at both ends, as many as there are, and nothing else. */
  lemma TrimStrips(s: string) returns (a: string, b: string)
    ensures var t := Trim(s);
            && s == a + t + b && AllBlank(a) && AllBlank(b)
            && (t != "" ==> !IsBlank(t[0]) && !IsBlank(t[|t| - 1]))
  {
    hide IsBlank, TrimLeft, TrimRight;
    a := TrimLeftStrips(s);
    b := TrimRightStrips(TrimLeft(s));
    assert Trim(s) != "" ==> Trim(s)[0] == TrimLeft(s)[0];
  }

  // ---------- tokens ----------

  datatype Token = Name(text: string) | Number(text: string) | Other(c: char)

  /** The number of leading characters that continue an identifier. */
  function IdentLen(s: string): (n: nat)
    ensures n <= |s| && (n < |s| ==> !IsIdentPart(s[n]))
    ensures forall i :: 0 <= i < n ==> IsIdentPart(s[i])
  {
    if s != "" && IsIdentPart(s[0]) then 1 + IdentLen(s[1..]) else 0
  }

  function DigitLen(s: string): (n: nat)
    ensures n <= |s| && (n < |s| ==> !IsDigit(s[n]))
    ensures forall i :: 0 <= i < n ==> IsDigit(s[i])
  {
    if s != "" && IsDigit(s[0]) then 1 + DigitLen(s[1..]) else 0
  }

  /** A name is an identifier, or two joined by a dot. */
  function NameLen(s: string): (n: nat)
    requires s != "" && IsIdentStart(s[0])
    ensures 0 < n <= |s|
  {
    var n := IdentLen(s);
    if n + 1 < |s| && s[n] == '.' && IsIdentStart(s[n + 1]) then n + 1 + IdentLen(s[n + 1..]) else n
  }

  /** A number is a row of digits, or two joined by a dot. */
  function NumberLen(s: string): (n: nat)
    requires s != "" && IsDigit(s[0])
    ensures 0 < n <= |s|
  {
    var n := DigitLen(s);
    if n + 1 < |s| && s[n] == '.' && IsDigit(s[n + 1]) then n + 1 + DigitLen(s[n + 1..]) else n
  }

  /** The name that starts at i ends at j. */
  predicate NameAt(raw: string, i: nat, j: nat) {
    i < j <= |raw| && IsIdentStart(raw[i]) && NameLen(raw[i..]) == j - i
  }

  predicate NumberAt(raw: string, i: nat, j: nat) {
    i < j <= |raw| && IsDigit(raw[i]) && NumberLen(raw[i..]) == j - i
  }

  function Lex(s: string): seq<Token>
    decreases |s|
  {
    if s == "" then []
    else if IsIdentStart(s[0]) then [Name(s[..NameLen(s)])] + Lex(s[NameLen(s)..])
    else if IsDigit(s[0]) then [Number(s[..NumberLen(s)])] + Lex(s[NumberLen(s)..])
    else if IsSpace(s[0]) then Lex(s[1..])
    else [Other(s[0])] + Lex(s[1..])
  }

  /** A character that ends every name and number before it. */
  predicate Separates(c: char) {
    !IsIdentPart(c) && c != '.'
  }

  lemma {:induction false} IdentLenStops(a: string, c: char, b: string)
    requires !IsIdentPart(c)
    ensures IdentLen(a + [c] + b) == IdentLen(a)
  {
    var s := a + [c] + b;
    if a != "" && IsIdentPart(a[0]) {
      IdentLenStops(a[1..], c, b);
      assert s[1..] == a[1..] + [c] + b;
    }
  }

  lemma {:induction false} DigitLenStops(a: string, c: char, b: string)
    requires !IsDigit(c)
    ensures DigitLen(a + [c] + b) == DigitLen(a)
  {
    var s := a + [c] + b;
    if a != "" && IsDigit(a[0]) {
      DigitLenStops(a[1..], c, b);
      assert s[1..] == a[1..] + [c] + b;
    }
  }

  lemma CharsBefore(a: string, n: nat, c: char, b: string)
    requires n + 1 < |a|
    ensures (a + [c] + b)[n] == a[n] && (a + [c] + b)[n + 1] == a[n + 1]
  {
  }

  lemma NameLenStops(a: string, c: char, b: string)
    requires Separates(c) && a != "" && IsIdentStart(a[0])
    ensures NameLen(a + [c] + b) == NameLen(a)
  {
    hide IdentLen;
    IdentLenStops(a, c, b);
    var n := IdentLen(a);
    if n + 1 < |a| {
      IdentLenStops(a[n + 1..], c, b);
      LexAfter(a, n + 1, c, b);
      CharsBefore(a, n, c, b);
    }
  }

  lemma NumberLenStops(a: string, c: char, b: string)
    requires Separates(c) && a != "" && IsDigit(a[0])
    ensures NumberLen(a + [c] + b) == NumberLen(a)
  {
    hide DigitLen;
    DigitLenStops(a, c, b);
    var n := DigitLen(a);
    if n + 1 < |a| {
      DigitLenStops(a[n + 1..], c, b);
      LexAfter(a, n + 1, c, b);
      CharsBefore(a, n, c, b);
    }
  }

  /** Lexing works piecewise around a separating character. */
  lemma {:induction false} LexSplit(a: string, c: char, b: string)
    requires Separates(c)
    ensures Lex(a + [c] + b) == Lex(a) + Lex([c]) + Lex(b)
    decreases |a|
  {
    var s := a + [c] + b;
    if a == "" {
      assert s[1..] == b && [c][1..] == "";
    } else if IsIdentStart(a[0]) {
      NameLenStops(a, c, b);
      LexAfter(a, NameLen(a), c, b);
      LexSplit(a[NameLen(a)..], c, b);
      Regroup([Name(a[..NameLen(a)])], Lex(a[NameLen(a)..]), Lex([c]), Lex(b));
    } else if IsDigit(a[0]) {
      NumberLenStops(a, c, b);
      LexAfter(a, NumberLen(a), c, b);
      LexSplit(a[NumberLen(a)..], c, b);
      Regroup([Number(a[..NumberLen(a)])], Lex(a[NumberLen(a)..]), Lex([c]), Lex(b));
    } else {
      LexAfter(a, 1, c, b);
      LexSplit(a[1..], c, b);
      Regroup([Other(a[0])], Lex(a[1..]), Lex([c]), Lex(b));
    }
  }

  lemma Regroup(w: seq<Token>, x: seq<Token>, y: seq<Token>, z: seq<Token>)
    ensures w + (x + y + z) == (w + x) + y + z
  {
  }

  lemma LexAfter(a: string, n: nat, c: char, b: string)
    requires n <= |a|
    ensures (a + [c] + b)[..n] == a[..n] && (a + [c] + b)[n..] == a[n..] + [c] + b
  {
  }

  lemma LexSeparator(c: char)
    requires Separates(c)
    ensures Lex([c]) == if IsSpace(c) then [] else [Other(c)]
  {
    assert [c][1..] == "";
  }

  function SpaceLen(s: string): (n: nat)
    ensures n <= |s| && (n < |s| ==> !IsSpace(s[n]))
  {
    if s != "" && IsSpace(s[0]) then 1 + SpaceLen(s[1..]) else 0
  }

  lemma {:induction false} LexSkipsSpace(s: string)
    ensures Lex(s) == Lex(s[SpaceLen(s)..])
  {
    if s != "" && IsSpace(s[0]) {
      LexSkipsSpace(s[1..]);
      assert s[1..][SpaceLen(s[1..])..] == s[SpaceLen(s)..];
    }
  }

  lemma {:induction false} LexFirst(c: char, s: string)
    requires !IsIdentPart(c) && !IsSpace(c)
    ensures Lex([c] + s) == [Other(c)] + Lex(s)
  {
    assert ([c] + s)[1..] == s;
  }

  /** A name at i, then perhaps spaces, then parentheses at open and close. */
  predicate CallAt(raw: string, i: nat, j: nat, open: nat, close: nat) {
    && NameAt(raw, i, j) && open == j + SpaceLen(raw[j..])
    && open < close < |raw| && raw[open] == '(' && raw[close] == ')'
  }

  lemma LexName(raw: string, i: nat, j: nat)
    requires NameAt(raw, i, j)
    ensures Lex(raw[i..]) == [Name(raw[i..j])] + Lex(raw[j..])
  {
    var s := raw[i..];
    assert s[..j - i] == raw[i..j] && s[j - i..] == raw[j..];
  }

  lemma LexNumber(raw: string, i: nat, j: nat)
    requires NumberAt(raw, i, j)
    ensures Lex(raw[i..]) == [Number(raw[i..j])] + Lex(raw[j..])
  {
    var s := raw[i..];
    assert s[..j - i] == raw[i..j] && s[j - i..] == raw[j..];
  }

  lemma LexCallTail(raw: string, i: nat, j: nat, open: nat, close: nat)
    requires CallAt(raw, i, j, open, close)
    ensures Lex(raw[j..]) == Lex(['('] + (raw[open + 1..close] + [')'] + raw[close + 1..]))
  {
    hide Lex, NameLen, SpaceLen;
    var tail := raw[j..];
    LexSkipsSpace(tail);
    assert tail[open - j..] == ['('] + (raw[open + 1..close] + [')'] + raw[close + 1..]);
  }
}
