/** The tokens of the emitted text: what a name, a number or a call becomes is not joined with what
    stands before or behind it, so lexing the output gives the images of the tokens, in order. */
module Boundaries {
  import opened Lexing
  import opened Rendering

  // ---------- images of tokens ----------

  /** Each token replaced by the tokens of its text. */
  function Images(scope: Scope, ts: seq<Token>): seq<Token> {
    if ts == [] then [] else Lex(TokenText(scope, ts[0], Calls(ts[1..]))) + Images(scope, ts[1..])
  }

  /** Without vertical tabs and form feeds, which trimming removes and lexing keeps. */
  function Bare(ts: seq<Token>): seq<Token> {
    if ts == [] then [] else BareFirst(ts[0]) + Bare(ts[1..])
  }

  function BareFirst(t: Token): seq<Token> {
    if t.Other? && IsBlank(t.c) then [] else [t]
  }

  lemma BareOfFirst(t: Token, ts: seq<Token>)
    ensures Bare([t] + ts) == BareFirst(t) + Bare(ts)
  {
    assert ([t] + ts)[1..] == ts;
  }

  lemma {:induction false} BareConcat(a: seq<Token>, b: seq<Token>)
    ensures Bare(a + b) == Bare(a) + Bare(b)
  {
    hide BareFirst;
    if a == [] {
      assert a + b == b;
    } else {
      BareConcat(a[1..], b);
      assert a == [a[0]] + a[1..] && a + b == [a[0]] + (a[1..] + b);
      hide Bare;
      BareOfFirst(a[0], a[1..]);
      BareOfFirst(a[0], a[1..] + b);
      Regrouped(BareFirst(a[0]), Bare(a[1..]), Bare(b));
    }
  }

  lemma {:induction false} ImagesConcat(scope: Scope, a: seq<Token>, b: seq<Token>)
    requires !Calls(b)
    ensures Images(scope, a + b) == Images(scope, a) + Images(scope, b)
  {
    hide TokenText, Calls, Lex;
    if a == [] {
      assert a + b == b;
    } else {
      ImagesConcat(scope, a[1..], b);
      CallsConcat(a[1..], b);
      assert a == [a[0]] + a[1..] && a + b == [a[0]] + (a[1..] + b);
      hide Images;
      ImageFirst(scope, a[0], a[1..]);
      ImageFirst(scope, a[0], a[1..] + b);
      Regrouped(Lex(TokenText(scope, a[0], Calls(a[1..]))), Images(scope, a[1..]), Images(scope, b));
    }
  }

  lemma Regrouped(x: seq<Token>, y: seq<Token>, z: seq<Token>)
    ensures x + (y + z) == (x + y) + z
  {
  }

  lemma ImageFirst(scope: Scope, t: Token, ts: seq<Token>)
    ensures Images(scope, [t] + ts) == Lex(TokenText(scope, t, Calls(ts))) + Images(scope, ts)
  {
    assert ([t] + ts)[1..] == ts;
  }

  // ---------- texts that can be followed ----------

  predicate Similar(x: char, c: char) {
    x == c || (IsIdentStart(x) && IsIdentStart(c)) || (IsDigit(x) && IsDigit(c))
  }

  /** A text that begins like c can follow a without joining its last token. */
  ghost predicate Seals(a: string, c: char) {
    forall b: string {:trigger Lex(a + b)} :: b != "" && Similar(b[0], c) ==> Lex(a + b) == Lex(a) + Lex(b)
  }

  lemma LexNothing()
    ensures Lex("") == []
  {
  }

  lemma Nothing(ts: seq<Token>)
    ensures [] + ts == ts
  {
  }

  lemma NothingSeals(c: char)
    ensures Seals("", c)
  {
    hide Lex, Similar;
    LexNothing();
    forall b: string | b != "" && Similar(b[0], c)
      ensures Lex("" + b) == Lex("") + Lex(b)
    {
      assert "" + b == b;
      Nothing(Lex(b));
    }
  }

  lemma LexLast(a: string, t: string, c: char)
    requires Seals(a, c) && t != "" && Similar(t[0], c)
    ensures Lex(a + t) == Lex(a) + Lex(t)
  {
  }

  /** Only the last text matters. */
  lemma SealsOn(a: string, t: string, c: char, d: char)
    requires Seals(a, c) && t != "" && Similar(t[0], c) && Seals(t, d)
    ensures Lex(a + t) == Lex(a) + Lex(t) && Seals(a + t, d)
  {
    hide Lex, Similar;
    LexLast(a, t, c);
    forall b: string | b != "" && Similar(b[0], d)
      ensures Lex(a + t + b) == Lex(a + t) + Lex(b)
    {
      assert a + t + b == a + (t + b) && (t + b)[0] == t[0];
      LexLast(a, t + b, c);
      LexLast(t, b, d);
      Regrouped(Lex(a), Lex(t), Lex(b));
    }
  }

  lemma SeparatorBetween(a: string, c: char, b: string)
    requires Separates(c)
    ensures Lex(a + ([c] + b)) == Lex(a) + Lex([c] + b)
    ensures Lex(a + [c] + b) == Lex(a + [c]) + Lex(b)
  {
    hide Lex, Separates;
    LexNothing();
    LexSplit(a, c, b);
    assert a + ([c] + b) == a + [c] + b;
    LexSplit("", c, b);
    assert "" + [c] + b == [c] + b;
    LexSplit(a, c, "");
    assert a + [c] + "" == a + [c];
    Around(Lex(a), Lex([c]), Lex(b));
  }

  lemma Around(x: seq<Token>, y: seq<Token>, z: seq<Token>)
    ensures x + y + z == x + ([] + y + z) && (x + y + []) + z == x + y + z
  {
  }

  /** A separating character can follow anything. */
  lemma SeparatorFollows(a: string, c: char)
    requires Separates(c)
    ensures Seals(a, c)
  {
    hide Lex;
    forall b: string | b != "" && Similar(b[0], c)
      ensures Lex(a + b) == Lex(a) + Lex(b)
    {
      assert b == [c] + b[1..];
      SeparatorBetween(a, c, b[1..]);
    }
  }

  /** Anything can follow a separating character. */
  lemma SeparatorSeals(a: string, c: char, d: char)
    requires Separates(c)
    ensures Seals(a + [c], d)
  {
    hide Lex, Separates, Similar;
    forall b: string | b != "" && Similar(b[0], d)
      ensures Lex(a + [c] + b) == Lex(a + [c]) + Lex(b)
    {
      SeparatorBetween(a, c, b);
    }
  }

  function CharTokens(c: char): seq<Token> {
    if IsSpace(c) then [] else [Other(c)]
  }

  lemma LexChar(c: char, b: string)
    requires !IsIdentPart(c)
    ensures Lex([c] + b) == CharTokens(c) + Lex(b)
  {
    assert ([c] + b)[1..] == b;
  }

  /** A single character that starts no name and no number joins nothing. */
  lemma CharSeals(c: char, d: char)
    requires !IsIdentPart(c)
    ensures Seals([c], d)
  {
    hide Lex, Similar;
    forall b: string | b != "" && Similar(b[0], d)
      ensures Lex([c] + b) == Lex([c]) + Lex(b)
    {
      LexChar(c, b);
      LexChar(c, "");
      LexNothing();
      assert [c] + "" == [c];
      Nothing(Lex(b));
    }
  }

  lemma {:induction false} DigitsEnd(a: string, b: string)
    requires b != "" && !IsDigit(b[0])
    ensures DigitLen(a + b) == DigitLen(a)
  {
    assert a + b == a + [b[0]] + b[1..];
    DigitLenStops(a, b[0], b[1..]);
  }

  /** A number is followed by neither a digit nor, unless it has a dot itself, a dot. */
  lemma NumberSeals(a: string, d: char)
    requires a != "" && IsDigit(a[0]) && NumberLen(a) == |a| && !IsDigit(d) && (d == '.' ==> DigitLen(a) < |a|)
    ensures Lex(a) == [Number(a)] && Seals(a, d)
  {
    hide Lex, NumberLen, DigitLen;
    LexNothing();
    assert a[0..] == a && a[0..|a|] == a && a[|a|..] == "";
    LexNumber(a, 0, |a|);
    forall b: string | b != "" && Similar(b[0], d)
      ensures Lex(a + b) == Lex(a) + Lex(b)
    {
      NumberStays(a, b);
      assert (a + b)[0..] == a + b && (a + b)[0..|a|] == a && (a + b)[|a|..] == b;
      LexNumber(a + b, 0, |a|);
    }
  }

  lemma NumberStays(a: string, b: string)
    requires a != "" && IsDigit(a[0]) && NumberLen(a) == |a|
    requires b != "" && !IsDigit(b[0]) && (b[0] == '.' ==> DigitLen(a) < |a|)
    ensures NumberLen(a + b) == |a|
  {
    hide DigitLen;
    var n, s := DigitLen(a), a + b;
    DigitsEnd(a, b);
    if n < |a| {
      var rest := a[n + 1..];
      DigitsEnd(rest, b);
      TailOf(a, b, n);
      assert NumberLen(s) == n + 1 + DigitLen(rest + b);
    } else {
      assert s[n..] == b;
    }
  }

  lemma TailOf(a: string, b: string, n: nat)
    requires n + 1 < |a|
    ensures (a + b)[n] == a[n] && (a + b)[n + 1] == a[n + 1] && (a + b)[n + 1..] == a[n + 1..] + b
  {
  }

  // ---------- progress through the text ----------

  /** Lexing the output gives the images of the tokens of raw. */
  ghost predicate Kept(scope: Scope, raw: string, out: string) {
    Bare(Lex(out)) == Bare(Images(scope, Lex(raw)))
  }

  /** Those of the first i characters, with the next token still apart. */
  ghost predicate KeptSoFar(scope: Scope, raw: string, i: nat, out: string)
    requires i <= |raw|
  {
    && Bare(Images(scope, Lex(raw))) == Bare(Lex(out)) + Bare(Images(scope, Lex(raw[i..])))
    && (i < |raw| ==> Seals(out, raw[i]))
  }

  /** The text at i begins with tokens whose images are those of text. */
  ghost predicate StepKept(scope: Scope, raw: string, i: nat, j: nat, text: string)
    requires i <= j <= |raw|
  {
    && i < |raw| && text != "" && Similar(text[0], raw[i])
    && Bare(Images(scope, Lex(raw[i..]))) == Bare(Lex(text)) + Bare(Images(scope, Lex(raw[j..])))
    && (j < |raw| ==> Seals(text, raw[j]))
  }

  lemma KeptStart(scope: Scope, raw: string)
    ensures KeptSoFar(scope, raw, 0, "")
  {
    assert raw[0..] == raw;
    if raw != "" {
      NothingSeals(raw[0]);
    }
    assert Lex("") == [] && Bare([]) == [];
    hide Lex, Images, Bare, Seals;
    var all := Bare(Images(scope, Lex(raw)));
    assert [] + all == all;
  }

  lemma KeptEnd(scope: Scope, raw: string, out: string)
    requires KeptSoFar(scope, raw, |raw|, out)
    ensures Kept(scope, raw, out)
  {
    assert raw[|raw|..] == "" && Lex("") == [] && Images(scope, []) == [] && Bare([]) == [];
    hide Lex, Images, Bare;
    assert Bare(Lex(out)) + [] == Bare(Lex(out));
  }

  lemma KeptAdvance(scope: Scope, raw: string, i: nat, j: nat, out: string, text: string)
    requires i <= j <= |raw| && KeptSoFar(scope, raw, i, out) && StepKept(scope, raw, i, j, text)
    ensures KeptSoFar(scope, raw, j, out + text)
  {
    hide Lex, Images, Bare, Seals, Similar;
    LexLast(out, text, raw[i]);
    if j < |raw| {
      SealsOn(out, text, raw[i], raw[j]);
    }
    BareConcat(Lex(out), Lex(text));
    Regrouped(Bare(Lex(out)), Bare(Lex(text)), Bare(Images(scope, Lex(raw[j..]))));
  }

  lemma StepsJoin(scope: Scope, raw: string, i: nat, j: nat, k: nat, text: string, more: string)
    requires i <= j <= k <= |raw| && StepKept(scope, raw, i, j, text) && StepKept(scope, raw, j, k, more)
    ensures StepKept(scope, raw, i, k, text + more)
  {
    hide Lex, Images, Bare, Seals, Similar;
    LexLast(text, more, raw[j]);
    if k < |raw| {
      SealsOn(text, more, raw[j], raw[k]);
    }
    BareConcat(Lex(text), Lex(more));
    Regrouped(Bare(Lex(text)), Bare(Lex(more)), Bare(Images(scope, Lex(raw[k..]))));
  }

  // ---------- the steps ----------

  lemma NameEnds(s: string)
    requires s != "" && IsIdentStart(s[0]) && NameLen(s) < |s|
    ensures !IsIdentPart(s[NameLen(s)])
  {
    var n := IdentLen(s);
    if n + 1 < |s| && s[n] == '.' && IsIdentStart(s[n + 1]) {
      var rest := s[n + 1..];
      assert rest[IdentLen(rest)] == s[n + 1 + IdentLen(rest)];
    }
  }

  lemma NumberEnds(s: string)
    requires s != "" && IsDigit(s[0]) && NumberLen(s) < |s|
    ensures !IsDigit(s[NumberLen(s)])
  {
    var n := DigitLen(s);
    if n + 1 < |s| && s[n] == '.' && IsDigit(s[n + 1]) {
      var rest := s[n + 1..];
      assert rest[DigitLen(rest)] == s[n + 1 + DigitLen(rest)];
    }
  }

  lemma ResolvedStarts(scope: Scope, name: string)
    requires name != "" && IsIdentStart(name[0]) && Resolve(scope, name, true).Some?
    ensures var go := Resolve(scope, name, true).value.go; go != "" && IsIdentStart(go[0])
  {
    var go := Resolve(scope, name, true).value.go;
    var dot := DotIndex(name);
    if go != name && name !in scope.vars {
      assert dot < |name|;
      QualifiedStarts(scope, name[..dot], name[dot + 1..]);
    }
  }

  lemma QualifiedStarts(scope: Scope, left: string, right: string)
    requires ResolveQualified(scope, left, right, true).Some?
    ensures var go := ResolveQualified(scope, left, right, true).value.go; go != "" && IsIdentStart(go[0])
  {
    hide KindName, BlockMetrics, ResourceMetrics;
  }

  /** What a token becomes if its image is followed by the rest of the text. */
  lemma TokenStep(scope: Scope, raw: string, i: nat, j: nat, t: Token)
    requires i < j <= |raw| && Lex(raw[i..]) == [t] + Lex(raw[j..])
    ensures var text := TokenText(scope, t, Calls(Lex(raw[j..])));
            Bare(Images(scope, Lex(raw[i..]))) == Bare(Lex(text)) + Bare(Images(scope, Lex(raw[j..])))
  {
    hide Lex, Bare, Images, TokenText, Calls;
    var ts := Lex(raw[j..]);
    ImageFirst(scope, t, ts);
    BareConcat(Lex(TokenText(scope, t, Calls(ts))), Images(scope, ts));
  }

  lemma NameStep(scope: Scope, raw: string, i: nat, j: nat)
    requires NameAt(raw, i, j) && (j < |raw| ==> raw[j] != '.')
    requires !Calls(Lex(raw[j..])) && Resolve(scope, raw[i..j], true).Some?
    ensures StepKept(scope, raw, i, j, Resolve(scope, raw[i..j], true).value.go)
  {
    hide Lex, NameLen, Resolve, Images, Bare, Calls, Seals;
    LexName(raw, i, j);
    TokenStep(scope, raw, i, j, Name(raw[i..j]));
    ResolvedStarts(scope, raw[i..j]);
    if j < |raw| {
      NameEnds(raw[i..]);
      SeparatorFollows(Resolve(scope, raw[i..j], true).value.go, raw[j]);
    }
  }

  lemma NumberStep(scope: Scope, raw: string, i: nat, j: nat)
    requires NumberAt(raw, i, j) && (j < |raw| && raw[j] == '.' ==> DigitLen(raw[i..j]) < j - i)
    ensures StepKept(scope, raw, i, j, raw[i..j])
  {
    hide Lex, Images, Bare, Seals, NumberLen, DigitLen;
    LexNumber(raw, i, j);
    TokenStep(scope, raw, i, j, Number(raw[i..j]));
    assert raw[i..][..j - i] == raw[i..j];
    NumberOfItself(raw[i..]);
    if j < |raw| {
      NumberEnds(raw[i..]);
      NumberSeals(raw[i..j], raw[j]);
    }
  }

  lemma NumberOfItself(s: string)
    requires s != "" && IsDigit(s[0])
    ensures var a := s[..NumberLen(s)]; a != "" && IsDigit(a[0]) && NumberLen(a) == |a|
  {
    hide DigitLen;
    var n, a := DigitLen(s), s[..NumberLen(s)];
    DigitsOfPrefix(s, n);
    if NumberLen(s) > n {
      var rest := s[n + 1..];
      DigitsOfPrefix(rest, DigitLen(rest));
      assert a[..n] == s[..n];
      assert a[n + 1..] == rest[..DigitLen(rest)];
      DigitsEnd(a[..n], a[n..]);
      assert a == a[..n] + a[n..];
    }
  }

  lemma {:induction false} DigitsOfPrefix(s: string, n: nat)
    requires n <= DigitLen(s)
    ensures DigitLen(s[..n]) == n
  {
    if n > 0 {
      DigitsOfPrefix(s[1..], n - 1);
      assert s[..n][1..] == s[1..][..n - 1];
    }
  }

  lemma CharStep(scope: Scope, raw: string, i: nat)
    requires i < |raw| && !IsIdentPart(raw[i])
    ensures StepKept(scope, raw, i, i + 1, [raw[i]])
  {
    var c, s := raw[i], raw[i..];
    assert s[1..] == raw[i + 1..] && [c][1..] == "" && Lex("") == [];
    if i + 1 < |raw| {
      CharSeals(c, raw[i + 1]);
    }
    hide Images, Bare, Seals;
    if IsSpace(c) {
      assert Lex(s) == Lex(raw[i + 1..]) && Lex([c]) == [];
      assert Bare([]) == [] by { EmptyIsBare(); }
      assert [] + Bare(Images(scope, Lex(s))) == Bare(Images(scope, Lex(s)));
    } else {
      TokenStep(scope, raw, i, i + 1, Other(c));
    }
  }

  lemma EmptyIsBare()
    ensures Bare([]) == []
  {
  }

  // ---------- calls ----------

  const CLOSE_PAREN := Other(')')

  lemma ParenImages(scope: Scope, ts: seq<Token>)
    ensures Images(scope, [OPEN_PAREN] + ts) == [OPEN_PAREN] + Images(scope, ts)
    ensures Images(scope, [CLOSE_PAREN] + ts) == [CLOSE_PAREN] + Images(scope, ts)
  {
    ImageFirst(scope, OPEN_PAREN, ts);
    ImageFirst(scope, CLOSE_PAREN, ts);
    LexSeparator('(');
    LexSeparator(')');
  }

  lemma CallImages(scope: Scope, name: string, inner: seq<Token>, rest: seq<Token>)
    ensures Images(scope, [Name(name)] + ([OPEN_PAREN] + (inner + ([CLOSE_PAREN] + rest)))) ==
            Lex(NameText(scope, name, true))
            + ([OPEN_PAREN] + (Images(scope, inner) + ([CLOSE_PAREN] + Images(scope, rest))))
  {
    var after := [CLOSE_PAREN] + rest;
    var tail := [OPEN_PAREN] + (inner + after);
    assert !Calls(after) && Calls(tail);
    hide Images, Lex, Calls, NameText;
    ParenImages(scope, rest);
    ImagesConcat(scope, inner, after);
    ParenImages(scope, inner + after);
    ImageFirst(scope, Name(name), tail);
  }

  lemma CallText(f: string, go: string)
    ensures Lex(f + "(" + go + ")") == Lex(f) + ([OPEN_PAREN] + (Lex(go) + [CLOSE_PAREN]))
  {
    LexSplit(f, '(', go + ")");
    assert f + ['('] + (go + ")") == f + "(" + go + ")";
    LexSplit(go, ')', "");
    assert go + [')'] + "" == go + ")" && Lex("") == [];
    hide Lex;
    LexSeparator('(');
    LexSeparator(')');
    assert Lex(go) + [CLOSE_PAREN] + [] == Lex(go) + [CLOSE_PAREN];
    Regrouped(Lex(f), [OPEN_PAREN], Lex(go) + [CLOSE_PAREN]);
  }

  lemma BareParens(x: seq<Token>, y: seq<Token>, z: seq<Token>)
    ensures Bare(x + ([OPEN_PAREN] + (y + ([CLOSE_PAREN] + z)))) ==
            Bare(x) + ([OPEN_PAREN] + (Bare(y) + ([CLOSE_PAREN] + Bare(z))))
  {
    BareParen(z);
    BareConcat(y, [CLOSE_PAREN] + z);
    BareParen(y + ([CLOSE_PAREN] + z));
    hide Bare;
    BareConcat(x, [OPEN_PAREN] + (y + ([CLOSE_PAREN] + z)));
  }

  lemma BareParen(z: seq<Token>)
    ensures Bare([OPEN_PAREN] + z) == [OPEN_PAREN] + Bare(z)
    ensures Bare([CLOSE_PAREN] + z) == [CLOSE_PAREN] + Bare(z)
  {
    assert ([OPEN_PAREN] + z)[1..] == z && ([CLOSE_PAREN] + z)[1..] == z;
  }

  lemma CallStarts(scope: Scope, name: string)
    requires name != "" && IsIdentStart(name[0])
    ensures var f := NameText(scope, name, true); f != "" && IsIdentStart(f[0])
  {
  }

  /** The tokens of a call and of what follows it. */
  lemma CallTokens(raw: string, i: nat, j: nat, open: nat, close: nat)
    requires CallAt(raw, i, j, open, close)
    ensures Lex(raw[i..]) == [Name(raw[i..j])]
            + ([OPEN_PAREN] + (Lex(raw[open + 1..close]) + ([CLOSE_PAREN] + Lex(raw[close + 1..]))))
  {
    hide Lex, NameLen, SpaceLen;
    LexName(raw, i, j);
    LexCallTail(raw, i, j, open, close);
    LexParens(raw[open + 1..close], raw[close + 1..]);
  }

  lemma CallStep(scope: Scope, raw: string, i: nat, j: nat, open: nat, close: nat, go: string)
    requires CallAt(raw, i, j, open, close) && Kept(scope, raw[open + 1..close], go)
    ensures StepKept(scope, raw, i, close + 1, NameText(scope, raw[i..j], true) + "(" + go + ")")
  {
    hide Lex, Images, Bare, Seals, NameText, NameLen, SpaceLen, Calls;
    var name, inner, rest := raw[i..j], raw[open + 1..close], raw[close + 1..];
    var f := NameText(scope, name, true);
    CallTokens(raw, i, j, open, close);
    CallImages(scope, name, Lex(inner), Lex(rest));
    CallStarts(scope, name);
    CallText(f, go);
    BareParens(Lex(f), Images(scope, Lex(inner)), Images(scope, Lex(rest)));
    BareCall(Lex(f), Lex(go));
    Rebracketed(Bare(Lex(f)), Bare(Lex(go)), Bare(Images(scope, Lex(rest))));
    if close + 1 < |raw| {
      SeparatorSeals(f + "(" + go, ')', raw[close + 1]);
      assert f + "(" + go + [')'] == f + "(" + go + ")";
    }
  }

  lemma BareCall(x: seq<Token>, y: seq<Token>)
    ensures Bare(x + ([OPEN_PAREN] + (y + [CLOSE_PAREN]))) == Bare(x) + ([OPEN_PAREN] + (Bare(y) + [CLOSE_PAREN]))
  {
    BareParens(x, y, []);
    assert [CLOSE_PAREN] + [] == [CLOSE_PAREN] && Bare([]) == [];
  }

  lemma Rebracketed(x: seq<Token>, y: seq<Token>, z: seq<Token>)
    ensures x + ([OPEN_PAREN] + (y + ([CLOSE_PAREN] + z))) == x + ([OPEN_PAREN] + (y + [CLOSE_PAREN])) + z
  {
  }

  // ---------- trimming ----------

  lemma {:induction false} TrimLeftKeeps(scope: Scope, s: string)
    ensures Bare(Images(scope, Lex(s))) == Bare(Images(scope, Lex(TrimLeft(s))))
  {
    if s != "" && IsBlank(s[0]) {
      TrimLeftKeeps(scope, s[1..]);
      if !IsSpace(s[0]) {
        BlankImage(scope, s[0], Lex(s[1..]));
      }
    }
  }

  lemma BlankImage(scope: Scope, c: char, ts: seq<Token>)
    requires IsBlank(c) && !IsSpace(c)
    ensures Bare(Images(scope, [Other(c)] + ts)) == Bare(Images(scope, ts))
  {
    ImageFirst(scope, Other(c), ts);
    LexSeparator(c);
    assert ([Other(c)] + Images(scope, ts))[1..] == Images(scope, ts);
  }

  lemma {:induction false} TrimRightKeeps(scope: Scope, s: string)
    ensures Bare(Images(scope, Lex(s))) == Bare(Images(scope, Lex(TrimRight(s))))
  {
    hide Images, Bare;
    if s != "" && IsBlank(s[|s| - 1]) {
      var n := |s| - 1;
      var c := s[n];
      TrimRightKeeps(scope, s[..n]);
      assert s == s[..n] + [c] + "";
      LexSplit(s[..n], c, "");
      LexSeparator(c);
      assert Lex(s) == Lex(s[..n]) + Lex([c]);
      BlankBehind(scope, Lex(s[..n]), c);
    }
  }

  lemma BlankBehind(scope: Scope, ts: seq<Token>, c: char)
    requires IsBlank(c)
    ensures Bare(Images(scope, ts + Lex([c]))) == Bare(Images(scope, ts))
  {
    LexSeparator(c);
    var last := Lex([c]);
    ImagesConcat(scope, ts, last);
    if IsSpace(c) {
      assert ts + last == ts;
    } else {
      assert last == [Other(c)] + [];
      BlankImage(scope, c, []);
      BareConcat(Images(scope, ts), Images(scope, last));
      assert Bare(Images(scope, [])) == [];
    }
  }

  lemma TrimKeeps(scope: Scope, s: string)
    ensures Bare(Images(scope, Lex(s))) == Bare(Images(scope, Lex(Trim(s))))
  {
    TrimLeftKeeps(scope, s);
    TrimRightKeeps(scope, TrimLeft(s));
  }
}
