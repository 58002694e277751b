/** The arguments of a call: the pieces of its text between the commas outside all parentheses. */
module Arguments {
  import opened Options
  import opened Lexing
  import opened Rendering

  /** At least one piece; a comma follows each but the last. */
  datatype Pieces = Pieces(before: seq<string>, last: string)

  function Count(a: Pieces): nat {
    |a.before| + 1
  }

  function Led(before: seq<string>): string {
    if before == [] then "" else Led(before[..|before| - 1]) + before[|before| - 1] + ","
  }

  function Text(a: Pieces): string {
    Led(a.before) + a.last
  }

  /** No prefix closes more parentheses than it opens, and no comma stands outside them. */
  ghost predicate IsPiece(p: string) {
    && (forall i :: 0 <= i <= |p| ==> Depth(p[..i]) >= 0)
    && forall i :: 0 <= i < |p| && p[i] == ',' ==> Depth(p[..i]) > 0
  }

  /** The pieces of s; every piece that a comma follows closes what it opens. */
  ghost predicate AreArguments(s: string, a: Pieces) {
    && s == Text(a) && IsPiece(a.last)
    && forall i :: 0 <= i < |a.before| ==> IsPiece(a.before[i]) && Depth(a.before[i]) == 0
  }

  function Split(s: string): Pieces {
    if s == "" then Pieces([], "")
    else
      var front, c := s[..|s| - 1], s[|s| - 1];
      Extended(Split(front), Depth(front), c)
  }

  function Extended(a: Pieces, depth: int, c: char): Pieces {
    if c == ',' && depth == 0 then Pieces(a.before + [a.last], "") else Pieces(a.before, a.last + [c])
  }

  // ---------- one character more ----------

  lemma LedLonger(before: seq<string>, p: string)
    ensures Led(before + [p]) == Led(before) + p + ","
  {
    assert (before + [p])[..|before|] == before;
  }

  /** Whole pieces do not count towards the depth. */
  lemma {:induction false} DepthOfLed(before: seq<string>)
    requires forall i :: 0 <= i < |before| ==> Depth(before[i]) == 0
    ensures Depth(Led(before)) == 0
  {
    if before != [] {
      var n := |before| - 1;
      DepthOfLed(before[..n]);
      DepthConcat(Led(before[..n]), before[n]);
      DepthConcat(Led(before[..n]) + before[n], ",");
      assert ","[..0] == "";
    }
  }

  lemma DepthOfLast(s: string, a: Pieces)
    requires AreArguments(s, a)
    ensures Depth(s) == Depth(a.last)
  {
    DepthOfLed(a.before);
    DepthConcat(Led(a.before), a.last);
  }

  lemma NothingIsAPiece()
    ensures IsPiece("")
  {
    assert ""[..0] == "";
  }

  lemma PieceIsOpen(p: string)
    requires IsPiece(p)
    ensures Depth(p) >= 0
  {
    assert p[..|p|] == p;
  }

  lemma PieceGrows(p: string, c: char)
    requires IsPiece(p) && (c == ',' ==> Depth(p) > 0) && (c == ')' ==> Depth(p) > 0)
    ensures IsPiece(p + [c])
  {
    var q := p + [c];
    forall i | 0 <= i <= |q|
      ensures Depth(q[..i]) >= 0 && (i < |q| && q[i] == ',' ==> Depth(q[..i]) > 0)
    {
      if i <= |p| {
        assert q[..i] == p[..i];
        assert p[..|p|] == p;
      } else {
        assert q[..i] == q && q[..|q| - 1] == p;
        assert p[..|p|] == p;
      }
    }
  }

  lemma PieceShrinks(p: string)
    requires IsPiece(p) && p != ""
    ensures var q, c := p[..|p| - 1], p[|p| - 1];
            IsPiece(q) && (c == ',' ==> Depth(q) > 0) && (c == ')' ==> Depth(q) > 0)
  {
    var n := |p| - 1;
    assert forall i :: 0 <= i <= n ==> p[..n][..i] == p[..i];
    assert p[..n + 1] == p;
  }

  lemma ExtendedArguments(front: string, a: Pieces, c: char)
    requires AreArguments(front, a) && (c == ')' ==> Depth(front) > 0)
    ensures AreArguments(front + [c], Extended(a, Depth(front), c))
  {
    hide Depth, IsPiece, Led;
    DepthOfLast(front, a);
    if c == ',' && Depth(front) == 0 {
      NothingIsAPiece();
      LedLonger(a.before, a.last);
      assert front + [c] == Led(a.before) + a.last + "," + "";
    } else {
      PieceIsOpen(a.last);
      PieceGrows(a.last, c);
      assert front + [c] == Led(a.before) + (a.last + [c]);
    }
  }

  /** Every list of arguments of a text that is not empty ends as Extended says. */
  lemma ShortenedArguments(s: string, a: Pieces) returns (b: Pieces)
    requires AreArguments(s, a) && s != ""
    ensures var front, c := s[..|s| - 1], s[|s| - 1];
            AreArguments(front, b) && (c == ')' ==> Depth(front) > 0) && a == Extended(b, Depth(front), c)
  {
    var front, c := s[..|s| - 1], s[|s| - 1];
    if a.last != "" {
      PieceShrinks(a.last);
      b := Pieces(a.before, a.last[..|a.last| - 1]);
      assert front == Led(a.before) + b.last && c == a.last[|a.last| - 1];
      assert a.last == b.last + [c];
      DepthOfLast(front, b);
    } else {
      var n := |a.before| - 1;
      b := Pieces(a.before[..n], a.before[n]);
      assert s == Led(b.before) + b.last + ",";
      assert front == Text(b) && c == ',';
      assert a.before == b.before + [b.last];
      DepthOfLast(front, b);
    }
  }

  // ---------- the count of commas counts the arguments ----------

  lemma {:induction false} SplitGivesArguments(s: string)
    requires TopCommas(s).Some?
    ensures AreArguments(s, Split(s)) && Count(Split(s)) == TopCommas(s).value + 1
  {
    if s == "" {
      assert ""[..0] == "";
    } else {
      var front, c := s[..|s| - 1], s[|s| - 1];
      SplitGivesArguments(front);
      assert s == front + [c];
      DepthOfLast(front, Split(front));
      PieceIsOpen(Split(front).last);
      ExtendedArguments(front, Split(front), c);
    }
  }

  /** The arguments of a text are unique, and one more than the commas counted. */
  lemma {:induction false} ArgumentsAreSplit(s: string, a: Pieces)
    requires AreArguments(s, a)
    ensures TopCommas(s) == Some(Count(a) - 1) && a == Split(s)
    decreases |s|
  {
    if s == "" {
      assert a.before == [] && a.last == "";
    } else {
      var b := ShortenedArguments(s, a);
      SplitStep(s);
      hide TopCommas, Split, AreArguments, Depth;
      ArgumentsAreSplit(s[..|s| - 1], b);
    }
  }

  lemma SplitStep(s: string)
    requires s != ""
    ensures var front, c := s[..|s| - 1], s[|s| - 1];
            && Split(s) == Extended(Split(front), Depth(front), c)
            && (TopCommas(front).Some? && (c == ')' ==> Depth(front) > 0) ==>
                  TopCommas(s) == Some(TopCommas(front).value + if c == ',' && Depth(front) == 0 then 1 else 0))
  {
  }

  /** The text has the expected number of arguments, some of which may be empty. */
  ghost predicate HasArguments(s: string, expected: nat) {
    if expected == 0 then Trim(s) == ""
    else Trim(s) != "" && exists a :: Count(a) == expected && AreArguments(Trim(s), a)
  }

  lemma ArgumentsCounted(s: string, expected: nat)
    ensures HasArgs(s, expected) <==> HasArguments(s, expected)
  {
    var t := Trim(s);
    if expected > 0 && TopCommas(t) == Some(expected - 1) {
      SplitGivesArguments(t);
    }
    forall a | AreArguments(t, a)
      ensures TopCommas(t) == Some(Count(a) - 1)
    {
      ArgumentsAreSplit(t, a);
    }
  }

  // ---------- empty arguments ----------

  predicate NoneBlank(a: Pieces) {
    Trim(a.last) != "" && forall i :: 0 <= i < |a.before| ==> Trim(a.before[i]) != ""
  }

  /** The expected arguments are all there, none of them blank. */
  ghost predicate HasGivenArgs(s: string, expected: nat) {
    if expected == 0 then Trim(s) == ""
    else Trim(s) != "" && exists a :: Count(a) == expected && AreArguments(Trim(s), a) && NoneBlank(a)
  }

  /** Counting is wrong exactly when it accepts although some piece between the commas is blank. */
  lemma CheckErrsExactlyOnBlanks(s: string, expected: nat)
    ensures HasArguments(s, expected) != HasGivenArgs(s, expected) <==>
              expected > 0 && HasArguments(s, expected) && !NoneBlank(Split(Trim(s)))
  {
    var t := Trim(s);
    ArgumentsCounted(s, expected);
    forall a | AreArguments(t, a)
      ensures a == Split(t)
    {
      ArgumentsAreSplit(t, a);
    }
  }

  /** A missing second argument is accepted. */
  lemma EmptyArgumentAccepted()
    ensures HasArguments("1,", 2) && !HasGivenArgs("1,", 2)
  {
    var s := "1,";
    assert s[..1] == "1" && "1"[..0] == "";
    assert Depth("1") == 0 && TopCommas("1") == Some(0) && TopCommas(s) == Some(1);
    assert Split("1") == Pieces([], "1") && Split(s) == Pieces(["1"], "");
    ArgumentsCounted(s, 2);
    CheckErrsExactlyOnBlanks(s, 2);
  }
}
