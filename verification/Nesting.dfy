/** A translated expression has the parentheses of the source text, so it nests in the same way. */
module Nesting {
  import opened Lexing
  import opened Rendering
  import opened Expressions

  predicate IsParen(c: char) {
    c == '(' || c == ')'
  }

  /** The parentheses of a text, in order. */
  function Parens(s: string): string {
    if s == "" then "" else (if IsParen(s[0]) then [s[0]] else "") + Parens(s[1..])
  }

  predicate Flat(s: string) {
    forall i :: 0 <= i < |s| ==> !IsParen(s[i])
  }

  lemma {:induction false} FlatHasNone(s: string)
    requires Flat(s)
    ensures Parens(s) == ""
  {
    if s != "" {
      assert forall i :: 0 <= i < |s| - 1 ==> s[1..][i] == s[i + 1];
      FlatHasNone(s[1..]);
    }
  }

  lemma {:induction false} ParensConcat(a: string, b: string)
    ensures Parens(a + b) == Parens(a) + Parens(b)
  {
    if a == "" {
      assert a + b == b;
    } else {
      ParensConcat(a[1..], b);
      assert (a + b)[1..] == a[1..] + b;
      var head := if IsParen(a[0]) then [a[0]] else "";
      assert head + (Parens(a[1..]) + Parens(b)) == (head + Parens(a[1..])) + Parens(b);
    }
  }

  lemma {:induction false} BlanksAreFlat(s: string)
    ensures Parens(NoBlank(s)) == Parens(s)
  {
    if s != "" {
      BlanksAreFlat(s[1..]);
      var head := if IsBlank(s[0]) then "" else [s[0]];
      ParensConcat(head, NoBlank(s[1..]));
      if !IsBlank(s[0]) {
        assert [s[0]][1..] == "";
      }
    }
  }

  // ---------- what names stand for ----------

  lemma FlatConcat(a: string, b: string)
    requires Flat(a) && Flat(b)
    ensures Flat(a + b)
  {
  }

  lemma KindIsFlat(k: BlockKind)
    ensures Flat(KindName(k))
  {
  }

  lemma QualifiedIsFlat(scope: Scope, left: string, right: string)
    requires Flat(left) && Flat(right) && ResolveQualified(scope, left, right, true).Some?
    ensures Flat(ResolveQualified(scope, left, right, true).value.go)
  {
    assert Flat("clock") && Flat("pool_entity_") && Flat(".Entities[ref.Idx].field_") && Flat("block_") && Flat("_")
      && Flat(".") && Flat("resource_");
    hide Flat;
    FlatConcat("pool_entity_", left);
    FlatConcat("pool_entity_" + left, ".Entities[ref.Idx].field_");
    FlatConcat("pool_entity_" + left + ".Entities[ref.Idx].field_", right);
    FlatConcat("resource_", left);
    FlatConcat("resource_" + left, ".");
    FlatConcat("resource_" + left + ".", right);
    if left in scope.blocks {
      var kind := KindName(scope.blocks[left]);
      KindIsFlat(scope.blocks[left]);
      hide KindName;
      FlatConcat("block_", kind);
      FlatConcat("block_" + kind, "_");
      FlatConcat("block_" + kind + "_", left);
      FlatConcat("block_" + kind + "_" + left, ".");
      FlatConcat("block_" + kind + "_" + left + ".", right);
    }
  }

  lemma ResolvedIsFlat(scope: Scope, name: string)
    requires Flat(name) && Resolve(scope, name, true).Some?
    ensures Flat(Resolve(scope, name, true).value.go)
  {
    var dot := DotIndex(name);
    FlatConcat("var_", name);
    if dot < |name| {
      var left, right := name[..dot], name[dot + 1..];
      assert Flat(left) && Flat(right);
      hide Flat, ResolveQualified;
      if ResolveQualified(scope, left, right, true).Some? {
        QualifiedIsFlat(scope, left, right);
      }
    }
  }

  lemma DistributionIsFlat(name: string)
    ensures DistributionFunc(name).Some? ==> Flat(DistributionFunc(name).value.go)
  {
  }

  lemma NameTextIsFlat(scope: Scope, name: string, called: bool)
    requires Flat(name)
    ensures Flat(NameText(scope, name, called))
  {
    DistributionIsFlat(name);
    assert Flat("");
    hide Flat, Resolve, DistributionFunc, Cast;
    if !called && Resolve(scope, name, true).Some? {
      ResolvedIsFlat(scope, name);
    }
  }

  lemma NamesAreFlat(s: string)
    requires s != "" && IsIdentStart(s[0])
    ensures Flat(s[..NameLen(s)])
  {
    var n := IdentLen(s);
    if n + 1 < |s| && s[n] == '.' && IsIdentStart(s[n + 1]) {
      var rest := s[n + 1..];
      assert forall i :: 0 <= i < IdentLen(rest) ==> s[n + 1 + i] == rest[i] && IsIdentPart(rest[i]);
    }
  }

  // ---------- the whole text ----------

  lemma TokenKeepsParens(scope: Scope, s: string, n: nat, t: Token)
    requires 0 < n <= |s| && Lex(s) == [t] + Lex(s[n..])
    requires Parens(TokenText(scope, t, Calls(Lex(s[n..])))) == Parens(s[..n])
    requires Parens(Render(scope, Lex(s[n..]))) == Parens(s[n..])
    ensures Parens(Render(scope, Lex(s))) == Parens(s)
  {
    hide Lex, Parens, TokenText, Calls;
    var ts := Lex(s);
    assert ts[1..] == Lex(s[n..]);
    ParensConcat(TokenText(scope, t, Calls(ts[1..])), Render(scope, ts[1..]));
    ParensConcat(s[..n], s[n..]);
    assert s == s[..n] + s[n..];
  }

  lemma {:induction false} RenderKeepsParens(scope: Scope, s: string)
    ensures Parens(Render(scope, Lex(s))) == Parens(s)
    decreases |s|
  {
    if s == "" {
    } else if IsIdentStart(s[0]) {
      var n := NameLen(s);
      RenderKeepsParens(scope, s[n..]);
      NamesAreFlat(s);
      NameTextIsFlat(scope, s[..n], Calls(Lex(s[n..])));
      FlatHasNone(NameText(scope, s[..n], Calls(Lex(s[n..]))));
      FlatHasNone(s[..n]);
      TokenKeepsParens(scope, s, n, Name(s[..n]));
    } else if IsDigit(s[0]) {
      var n := NumberLen(s);
      RenderKeepsParens(scope, s[n..]);
      TokenKeepsParens(scope, s, n, Number(s[..n]));
    } else if IsSpace(s[0]) {
      RenderKeepsParens(scope, s[1..]);
    } else {
      RenderKeepsParens(scope, s[1..]);
      assert s[..1] == [s[0]];
      TokenKeepsParens(scope, s, 1, Other(s[0]));
    }
  }

  /** The parentheses of an accepted expression come out in the same order. */
  lemma NestingIsKept(scope: Scope, raw: string, out: Emitted)
    requires Faithful(scope, raw, out)
    ensures Parens(out.go) == Parens(raw)
  {
    BlanksAreFlat(out.go);
    BlanksAreFlat(Render(scope, Lex(raw)));
    RenderKeepsParens(scope, raw);
  }
}
