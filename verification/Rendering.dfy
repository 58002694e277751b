/** What the names of an expression stand for, and the Go text of a token sequence. */
module Rendering {
  import opened Options
  import opened Lexing

  datatype ValueType = Float64 | Int64 | Uint64 | Bool

  datatype BlockKind = CREATE | QUEUE | DELAY | SEIZE | RELEASE | ASSIGN | BRANCH | TERMINATE

  function KindName(k: BlockKind): string {
    match k
    case CREATE => "CREATE"
    case QUEUE => "QUEUE"
    case DELAY => "DELAY"
    case SEIZE => "SEIZE"
    case RELEASE => "RELEASE"
    case ASSIGN => "ASSIGN"
    case BRANCH => "BRANCH"
    case TERMINATE => "TERMINATE"
  }

  function BlockMetrics(k: BlockKind): set<string> {
    match k
    case CREATE => {"createdN", "exitN", "dropN"}
    case QUEUE => {"enterN", "exitN", "dropN", "timeoutN", "len", "maxLen"}
    case DELAY => {"enterN", "exitN", "busy", "maxBusy"}
    case SEIZE => {"enterN", "exitN"}
    case RELEASE => {"enterN", "exitN"}
    case ASSIGN => {"enterN", "exitN"}
    case BRANCH => {"enterN", "exitN"}
    case TERMINATE => {"enterN"}
  }

  function ResourceMetrics(): set<string> {
    {"capacity", "busy", "maxBusy", "seizeN", "releaseN"}
  }

  /** The declarations that names can refer to. */
  datatype Scope = Scope(
    vars: map<string, ValueType>, entities: map<string, map<string, ValueType>>,
    blocks: map<string, BlockKind>, resources: set<string>)

  datatype Resolved = Resolved(go: string, typ: ValueType, entity: Option<string>)

  function Cast(name: string): (t: Option<ValueType>)
    ensures t.Some? ==> !t.value.Bool?
  {
    if name == "float64" then Some(Float64)
    else if name == "int64" then Some(Int64)
    else if name == "uint64" then Some(Uint64)
    else None
  }

  datatype Distribution = Distribution(go: string, args: nat)

  function DistributionFunc(name: string): Option<Distribution> {
    if name == "uniform" then Some(Distribution("rng.Uniform", 2))
    else if name == "triangular" then Some(Distribution("rng.Triangular", 3))
    else if name == "exponential" then Some(Distribution("rng.Exponential", 1))
    else if name == "normal" then Some(Distribution("rng.Normal", 2))
    else None
  }

  function DotIndex(name: string): (i: nat)
    ensures i <= |name| && (i < |name| ==> name[i] == '.')
  {
    if name == "" || name[0] == '.' then 0 else 1 + DotIndex(name[1..])
  }

  /** resolveExprName: None stands for the reported error. */
  function Resolve(scope: Scope, name: string, fieldsAllowed: bool): Option<Resolved> {
    if name == "true" || name == "false" then Some(Resolved(name, Bool, None))
    else if name in scope.vars then Some(Resolved("var_" + name, scope.vars[name], None))
    else if DistributionFunc(name).Some? || Cast(name).Some? then None
    else
      var dot := DotIndex(name);
      if dot == |name| then None
      else ResolveQualified(scope, name[..dot], name[dot + 1..], fieldsAllowed)
  }

  function ResolveQualified(scope: Scope, left: string, right: string, fieldsAllowed: bool): Option<Resolved> {
    if left == "Simulation" && right == "clock" then Some(Resolved("clock", Float64, None))
    else if left in scope.entities then
      if fieldsAllowed && right in scope.entities[left]
      then Some(Resolved("pool_entity_" + left + ".Entities[ref.Idx].field_" + right,
                         scope.entities[left][right], Some(left)))
      else None
    else if left in scope.blocks then
      if right in BlockMetrics(scope.blocks[left])
      then Some(Resolved("block_" + KindName(scope.blocks[left]) + "_" + left + "." + right, Uint64, None))
      else None
    else if left in scope.resources then
      if right in ResourceMetrics() then Some(Resolved("resource_" + left + "." + right, Uint64, None)) else None
    else None
  }

  // ---------- token sequences ----------

  const OPEN_PAREN := Other('(')

  /** A name before a parenthesis is a cast or a distribution; any other name is resolved. */
  function NameText(scope: Scope, name: string, called: bool): string {
    if called then
      match DistributionFunc(name)
      case Some(d) => if Cast(name).Some? then name else d.go
      case None => name
    else
      match Resolve(scope, name, true)
      case Some(r) => r.go
      case None => ""
  }

  function TokenText(scope: Scope, t: Token, called: bool): string {
    match t
    case Name(n) => NameText(scope, n, called)
    case Number(n) => n
    case Other(c) => [c]
  }

  predicate Calls(ts: seq<Token>) {
    ts != [] && ts[0] == OPEN_PAREN
  }

  /** The tokens in order, each replaced by what it stands for. */
  function Render(scope: Scope, ts: seq<Token>): string {
    if ts == [] then "" else TokenText(scope, ts[0], Calls(ts[1..])) + Render(scope, ts[1..])
  }

  /** The entity types whose fields the tokens mention. */
  function Owners(scope: Scope, ts: seq<Token>): set<string> {
    if ts == [] then {} else TokenOwner(scope, ts[0], Calls(ts[1..])) + Owners(scope, ts[1..])
  }

  function TokenOwner(scope: Scope, t: Token, called: bool): set<string> {
    if t.Name? && !called then
      match Resolve(scope, t.text, true)
      case Some(r) => (match r.entity case Some(e) => {e} case None => {})
      case None => {}
    else {}
  }

  /** Whether a leading token is a call depends on what follows it in its own part. */
  lemma CallsConcat(a: seq<Token>, b: seq<Token>)
    requires !Calls(b)
    ensures Calls(a + b) == Calls(a)
  {
    if a == [] {
      assert a + b == b;
    }
  }

  lemma TextFirst(scope: Scope, t: Token, ts: seq<Token>)
    ensures Render(scope, [t] + ts) == TokenText(scope, t, Calls(ts)) + Render(scope, ts)
  {
    assert ([t] + ts)[1..] == ts;
  }

  lemma {:induction false} TextConcat(scope: Scope, a: seq<Token>, b: seq<Token>)
    requires !Calls(b)
    ensures Render(scope, a + b) == Render(scope, a) + Render(scope, b)
  {
    hide TokenText, Calls;
    if a == [] {
      assert a + b == b;
    } else {
      TextConcat(scope, a[1..], b);
      CallsConcat(a[1..], b);
      assert a == [a[0]] + a[1..] && a + b == [a[0]] + (a[1..] + b);
      hide Render;
      TextFirst(scope, a[0], a[1..]);
      TextFirst(scope, a[0], a[1..] + b);
      Regroup3(TokenText(scope, a[0], Calls(a[1..])), Render(scope, a[1..]), Render(scope, b));
    }
  }

  lemma Regroup3(x: string, y: string, z: string)
    ensures x + (y + z) == (x + y) + z
  {
  }

  lemma {:induction false} OwnersConcat(scope: Scope, a: seq<Token>, b: seq<Token>)
    requires !Calls(b)
    ensures Owners(scope, a + b) == Owners(scope, a) + Owners(scope, b)
  {
    if a == [] {
      assert a + b == b;
    } else {
      hide TokenOwner;
      OwnersConcat(scope, a[1..], b);
      CallsConcat(a[1..], b);
      assert (a + b)[1..] == a[1..] + b;
    }
  }

  lemma {:induction false} RenderConcat(scope: Scope, a: seq<Token>, b: seq<Token>)
    requires !Calls(b)
    ensures Render(scope, a + b) == Render(scope, a) + Render(scope, b)
    ensures Owners(scope, a + b) == Owners(scope, a) + Owners(scope, b)
  {
    TextConcat(scope, a, b);
    OwnersConcat(scope, a, b);
  }

  /** Trimming an expression removes nothing but blanks from its rendering. */
  lemma {:induction false} RenderTrimLeft(scope: Scope, s: string)
    ensures NoBlank(Render(scope, Lex(s))) == NoBlank(Render(scope, Lex(TrimLeft(s))))
    ensures Owners(scope, Lex(s)) == Owners(scope, Lex(TrimLeft(s)))
  {
    if s != "" && IsBlank(s[0]) {
      RenderTrimLeft(scope, s[1..]);
      if !IsSpace(s[0]) {
        BlankToken(scope, s[0], Lex(s[1..]));
      }
    }
  }

  lemma {:induction false} BlankToken(scope: Scope, c: char, ts: seq<Token>)
    requires IsBlank(c)
    ensures NoBlank(Render(scope, [Other(c)] + ts)) == NoBlank(Render(scope, ts))
    ensures Owners(scope, [Other(c)] + ts) == Owners(scope, ts)
  {
    assert ([Other(c)] + ts)[1..] == ts;
    NoBlankConcat([c], Render(scope, ts));
    assert [c][1..] == "";
  }

  lemma {:induction false} RenderTrimRight(scope: Scope, s: string)
    ensures NoBlank(Render(scope, Lex(s))) == NoBlank(Render(scope, Lex(TrimRight(s))))
    ensures Owners(scope, Lex(s)) == Owners(scope, Lex(TrimRight(s)))
  {
    hide Render, Owners, NoBlank;
    if s != "" && IsBlank(s[|s| - 1]) {
      var n := |s| - 1;
      var c := s[n];
      RenderTrimRight(scope, s[..n]);
      assert s == s[..n] + [c] + "";
      LexSplit(s[..n], c, "");
      LexSeparator(c);
      assert Lex(s) == Lex(s[..n]) + Lex([c]);
      RenderBlankAfter(scope, Lex(s[..n]), Lex([c]), c);
    }
  }

  lemma {:induction false} RenderBlankAfter(scope: Scope, ts: seq<Token>, last: seq<Token>, c: char)
    requires IsBlank(c) && (last == [] || last == [Other(c)])
    ensures NoBlank(Render(scope, ts + last)) == NoBlank(Render(scope, ts))
    ensures Owners(scope, ts + last) == Owners(scope, ts)
  {
    RenderConcat(scope, ts, last);
    NoBlankConcat(Render(scope, ts), Render(scope, last));
    BlankToken(scope, c, []);
    assert [Other(c)] + [] == [Other(c)];
  }

  lemma {:induction false} RenderTrim(scope: Scope, s: string)
    ensures NoBlank(Render(scope, Lex(s))) == NoBlank(Render(scope, Lex(Trim(s))))
    ensures Owners(scope, Lex(s)) == Owners(scope, Lex(Trim(s)))
  {
    RenderTrimLeft(scope, s);
    RenderTrimRight(scope, TrimLeft(s));
  }

  // ---------- parentheses ----------

  lemma {:induction false} LexParens(inner: string, rest: string)
    ensures Lex(['('] + (inner + [')'] + rest)) == [OPEN_PAREN] + (Lex(inner) + ([Other(')')] + Lex(rest)))
  {
    hide Lex;
    LexSplit(inner, ')', rest);
    LexSeparator(')');
    LexFirst('(', inner + [')'] + rest);
    assert Lex(inner) + [Other(')')] + Lex(rest) == Lex(inner) + ([Other(')')] + Lex(rest));
  }

  /** Opening minus closing parentheses. */
  function Depth(s: string): int {
    if s == "" then 0
    else Depth(s[..|s| - 1]) + (if s[|s| - 1] == '(' then 1 else if s[|s| - 1] == ')' then -1 else 0)
  }

  /** One character more. */
  lemma DepthAfter(raw: string, open: nat, i: nat)
    requires open <= i < |raw|
    ensures Depth(raw[open..i + 1]) ==
            Depth(raw[open..i]) + (if raw[i] == '(' then 1 else if raw[i] == ')' then -1 else 0)
  {
    var s := raw[open..i + 1];
    assert s[..|s| - 1] == raw[open..i] && s[|s| - 1] == raw[i];
  }

  ghost predicate Balanced(s: string) {
    Depth(s) == 0 && forall i :: 0 <= i <= |s| ==> Depth(s[..i]) >= 0
  }

  /** close is where the parenthesis at open is closed: the first return to depth zero. */
  ghost predicate Matches(s: string, open: nat, close: nat) {
    && open < close < |s| && s[open] == '(' && s[close] == ')'
    && Depth(s[open..close + 1]) == 0
    && forall i :: open < i <= close ==> Depth(s[open..i]) > 0
  }

  lemma {:induction false} DepthConcat(a: string, b: string)
    ensures Depth(a + b) == Depth(a) + Depth(b)
  {
    if b == "" {
      assert a + b == a;
    } else {
      var n := |b| - 1;
      DepthConcat(a, b[..n]);
      assert (a + b)[..|a + b| - 1] == a + b[..n];
    }
  }

  /** What stands between matching parentheses is balanced, and shorter. */
  lemma InnerIsBalanced(s: string, open: nat, close: nat)
    requires Matches(s, open, close)
    ensures Balanced(s[open + 1..close]) && |s[open + 1..close]| + 2 <= |s|
  {
    var inner := s[open + 1..close];
    forall i | 0 <= i <= |inner|
      ensures Depth(inner[..i]) == Depth(s[open..open + 1 + i]) - 1
    {
      assert s[open..open + 1 + i] == "(" + inner[..i];
      DepthConcat("(", inner[..i]);
      assert "("[..0] == "";
    }
    assert inner[..|inner|] == inner && s[open..open + 1 + |inner|] == s[open..close];
    assert s[open..close + 1][..|s[open..close + 1]| - 1] == s[open..close];
  }

  /** The number of commas outside all parentheses; None when a parenthesis closes too much. */
  function TopCommas(s: string): Option<nat> {
    if s == "" then Some(0)
    else
      var before, c := TopCommas(s[..|s| - 1]), s[|s| - 1];
      if before.None? || (c == ')' && Depth(s[..|s| - 1]) == 0) then None
      else if c == ',' && Depth(s[..|s| - 1]) == 0 then Some(before.value + 1)
      else before
  }

  /** validateExprArgCount: what a cast or distribution accepts as its arguments. */
  predicate HasArgs(s: string, expected: nat) {
    var t := Trim(s);
    if expected == 0 then t == "" else t != "" && TopCommas(t) == Some(expected - 1)
  }
}
