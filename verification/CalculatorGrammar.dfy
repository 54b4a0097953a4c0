/** The calculator against a grammar: it accepts exactly the texts of arithmetic trees, and gives
    the tree's value. */
module CalculatorGrammar {
  import opened Wrappers
  import opened Calculator
  import T = Text
  import U = Utf8

  datatype Expr =
    | Num(text: string)
    | Sign(negative: bool, operand: Expr)
    | Paren(inner: Expr)
    | Bin(op: char, left: Expr, right: Expr)

  ghost predicate IsFactor(e: Expr)
    decreases e, 0
  {
    match e
    case Num(text) => Number(text).Some?
    case Sign(_, x) => IsFactor(x)
    case Paren(x) => IsExpression(x)
    case Bin(_, _, _) => false
  }

  /** Products lean to the left. */
  ghost predicate IsTerm(e: Expr)
    decreases e, 1
  {
    if e.Bin? then (e.op == '*' || e.op == '/') && IsTerm(e.left) && IsFactor(e.right) else IsFactor(e)
  }

  /** Sums lean to the left, and bind weaker than products. */
  ghost predicate IsExpression(e: Expr)
    decreases e, 2
  {
    if e.Bin? && (e.op == '+' || e.op == '-') then IsExpression(e.left) && IsTerm(e.right) else IsTerm(e)
  }

  ghost function Rounded(fp: Rounding, v: Option<real>): Option<Float> {
    if v.Some? then Some(fp(v.value)) else None
  }

  /** The value, or None when something is divided by zero. */
  ghost function Value(fp: Rounding, e: Expr): Option<Float> {
    match e
    case Num(text) => Rounded(fp, Number(text))
    case Sign(negative, x) =>
      var v := Value(fp, x);
      if v.None? then None else if negative then Some(Negated(v.value)) else v
    case Paren(x) => Value(fp, x)
    case Bin(op, l, r) =>
      Combined(fp, op, Value(fp, l), Value(fp, r))
  }

  ghost predicate Gap(s: string, p: nat, q: nat) {
    p <= q <= |s| && forall j :: p <= j < q ==> T.IsSpace(s[j])
  }

  /** After any white space, the character at `k` is `c`. */
  ghost predicate Symbol(s: string, p: nat, k: nat, c: char) {
    Gap(s, p, k) && k < |s| && s[k] == c
  }

  ghost function SignChar(negative: bool): char {
    if negative then '-' else '+'
  }

  /** From `p` to `q` the text spells `e`, with any white space before each token. */
  ghost predicate Spells(s: string, p: nat, q: nat, e: Expr)
    decreases e
  {
    match e
    case Num(text) => exists k: nat :: Gap(s, p, k) && k <= q <= |s| && s[k..q] == text
    case Sign(negative, x) => exists k: nat :: Symbol(s, p, k, SignChar(negative)) && Spells(s, k + 1, q, x)
    case Paren(x) =>
      exists k: nat, m: nat, c: nat ::
        Symbol(s, p, k, '(') && Spells(s, k + 1, m, x) && Symbol(s, m, c, ')') && q == c + 1
    case Bin(op, l, r) => exists m: nat, k: nat :: Spells(s, p, m, l) && Symbol(s, m, k, op) && Spells(s, k + 1, q, r)
  }

  /** The whole text spells `e`, up to white space at the end. */
  ghost predicate Covers(s: string, e: Expr) {
    exists q: nat :: Spells(s, 0, q, e) && Gap(s, q, |s|)
  }

  lemma SpelledSign(s: string, p: nat, q: nat, e: Expr) returns (k: nat)
    requires e.Sign? && Spells(s, p, q, e)
    ensures Symbol(s, p, k, SignChar(e.negative)) && Spells(s, k + 1, q, e.operand)
  {
    k :| Symbol(s, p, k, SignChar(e.negative)) && Spells(s, k + 1, q, e.operand);
  }

  lemma SpelledParen(s: string, p: nat, q: nat, e: Expr) returns (k: nat, m: nat, c: nat)
    requires e.Paren? && Spells(s, p, q, e)
    ensures Symbol(s, p, k, '(') && Spells(s, k + 1, m, e.inner) && Symbol(s, m, c, ')') && q == c + 1
  {
    k, m, c :| Symbol(s, p, k, '(') && Spells(s, k + 1, m, e.inner) && Symbol(s, m, c, ')') && q == c + 1;
  }

  lemma SpelledBin(s: string, p: nat, q: nat, e: Expr) returns (m: nat, k: nat)
    requires e.Bin? && Spells(s, p, q, e)
    ensures Spells(s, p, m, e.left) && Symbol(s, m, k, e.op) && Spells(s, k + 1, q, e.right)
  {
    m, k :| Spells(s, p, m, e.left) && Symbol(s, m, k, e.op) && Spells(s, k + 1, q, e.right);
  }

  lemma SkipIs(s: string, p: nat, k: nat)
    requires Gap(s, p, k) && (k < |s| ==> !T.IsSpace(s[k]))
    ensures Skip(s, p) == k
  {
  }

  /** No number goes on at `q`. */
  ghost predicate Ends(s: string, q: nat) {
    q < |s| ==> !InNumber(s[q])
  }

  lemma SymbolEnds(s: string, p: nat, k: nat, c: char)
    requires Symbol(s, p, k, c) && !T.IsSpace(c) && !InNumber(c)
    ensures Ends(s, p) && Skip(s, p) == k
  {
    SkipIs(s, p, k);
  }

  /** No product goes on at `q`. */
  ghost predicate NoProduct(s: string, q: nat)
    requires q <= |s|
  {
    var k := Skip(s, q);
    k < |s| ==> s[k] != '*' && s[k] != '/'
  }

  // ---------------------------------------------------------------- every spelling is read

  ghost function Outcome(v: Option<Float>, q: nat): Result<At> {
    if v.Some? then Ok((v.value, q)) else Err
  }

  lemma SignReads(fp: Rounding, s: string, p: nat, k: nat, negative: bool)
    requires Symbol(s, p, k, SignChar(negative))
    ensures var r := Factor(fp, s, k + 1);
      Factor(fp, s, p) == if negative then (if r.Ok? then Ok((Negated(r.value.0), r.value.1)) else Err) else r
  {
    hide Parenthesized, NumberAt;
    SymbolEnds(s, p, k, SignChar(negative));
  }

  lemma ParenReads(fp: Rounding, s: string, p: nat, k: nat, m: nat, c: nat, v: Option<Float>)
    requires Symbol(s, p, k, '(') && Symbol(s, m, c, ')')
    requires Expression(fp, s, k + 1) == if v.Some? then ExpressionLoop(fp, s, m, v.value) else Err
    ensures Factor(fp, s, p) == Outcome(v, c + 1)
  {
    hide Expression, ExpressionLoop, NumberAt, Skip;
    SymbolEnds(s, p, k, '(');
    SymbolEnds(s, m, c, ')');
    SkipTwice(s, m);
    if v.Some? { ExpressionStep(fp, s, m, v.value); }
    assert Parenthesized(fp, s, k + 1) == Outcome(v, c + 1);
  }

  lemma {:induction false} FactorReads(fp: Rounding, s: string, p: nat, q: nat, e: Expr)
    requires IsFactor(e) && Spells(s, p, q, e) && q <= |s| && Ends(s, q)
    ensures p <= |s| && Factor(fp, s, p) == Outcome(Value(fp, e), q)
    decreases e, 0
  {
    hide Factor, Expression, ExpressionLoop, Number, Apply, Spells, IsExpression, IsTerm;
    match e
    case Num(text) => NumberReads(fp, s, p, q, text);
    case Sign(negative, x) =>
      var k := SpelledSign(s, p, q, e);
      FactorReads(fp, s, k + 1, q, x);
      SignReads(fp, s, p, k, negative);
    case Paren(x) =>
      var k, m, c := SpelledParen(s, p, q, e);
      SymbolEnds(s, m, c, ')');
      ExpressionReads(fp, s, k + 1, m, x);
      ParenReads(fp, s, p, k, m, c, Value(fp, x));
  }

  lemma NumberReads(fp: Rounding, s: string, p: nat, q: nat, text: string)
    requires Number(text).Some? && Spells(s, p, q, Num(text)) && q <= |s| && Ends(s, q)
    ensures p <= |s| && Factor(fp, s, p) == Ok((fp(Number(text).value), q))
  {
    hide TermLoop, ExpressionLoop, Apply, Number, NumberEnd;
    var k: nat :| Gap(s, p, k) && k <= q <= |s| && s[k..q] == text;
    NumberText(text);
    assert forall j :: k <= j < q ==> s[j] == text[j - k];
    SkipIs(s, p, k);
    EndIs(s, k, q);
  }

  lemma NumberText(text: string)
    requires Number(text).Some?
    ensures text != "" && forall j :: 0 <= j < |text| ==> InNumber(text[j])
    ensures forall c {:trigger InNumber(c)} :: InNumber(c) ==> !T.IsSpace(c) && c != '+' && c != '-' && c != '('
  {
  }

  lemma EndIs(s: string, p: nat, q: nat)
    requires p <= q <= |s| && Ends(s, q) && forall j :: p <= j < q ==> InNumber(s[j])
    ensures NumberEnd(s, p) == q
  {
  }

  ghost function Combined(fp: Rounding, op: char, v: Option<Float>, w: Option<Float>): Option<Float> {
    if v.None? || w.None? || (op == '/' && w.value == ZERO) then None else Some(Apply(fp, op, v.value, w.value))
  }

  lemma {:induction false} TermReads(fp: Rounding, s: string, p: nat, q: nat, e: Expr)
    requires IsTerm(e) && Spells(s, p, q, e) && q <= |s| && Ends(s, q)
    ensures p <= |s| && Term(fp, s, p) == if Value(fp, e).Some? then TermLoop(fp, s, q, Value(fp, e).value) else Err
    decreases e, 1
  {
    hide TermLoop, Number, Apply, Factor, Term, Spells, IsFactor;
    if e.Bin? {
      var m, k := SpelledBin(s, p, q, e);
      SymbolEnds(s, m, k, e.op);
      TermReads(fp, s, p, m, e.left);
      FactorReads(fp, s, k + 1, q, e.right);
      if Value(fp, e.left).Some? { TermStep(fp, s, m, Value(fp, e.left).value); }
    } else {
      FactorReads(fp, s, p, q, e);
      TermIs(fp, s, p);
    }
  }

  lemma TermIs(fp: Rounding, s: string, p: nat)
    requires p <= |s|
    ensures Term(fp, s, p) == var f := Factor(fp, s, p); if f.Ok? then TermLoop(fp, s, f.value.1, f.value.0) else Err
    ensures Expression(fp, s, p) ==
      var f := Term(fp, s, p); if f.Ok? then ExpressionLoop(fp, s, f.value.1, f.value.0) else Err
  {
    hide Factor, TermLoop, ExpressionLoop;
  }

  lemma {:induction false} ExpressionReads(fp: Rounding, s: string, p: nat, q: nat, e: Expr)
    requires IsExpression(e) && Spells(s, p, q, e) && q <= |s| && Ends(s, q) && NoProduct(s, q)
    ensures p <= |s| &&
      Expression(fp, s, p) == if Value(fp, e).Some? then ExpressionLoop(fp, s, q, Value(fp, e).value) else Err
    decreases e, 2
  {
    hide TermLoop, ExpressionLoop, Number, Apply, Term, Expression, Spells, IsTerm, Skip;
    if e.Bin? && (e.op == '+' || e.op == '-') {
      var m, k := SpelledBin(s, p, q, e);
      SymbolEnds(s, m, k, e.op);
      ExpressionReads(fp, s, p, m, e.left);
      TermReads(fp, s, k + 1, q, e.right);
      if Value(fp, e.right).Some? { TermStep(fp, s, q, Value(fp, e.right).value); }
      if Value(fp, e.left).Some? { ExpressionStep(fp, s, m, Value(fp, e.left).value); }
      if Value(fp, e).Some? { ExpressionStep(fp, s, q, Value(fp, e).value); }
    } else {
      TermReads(fp, s, p, q, e);
      TermIs(fp, s, p);
      if Value(fp, e).Some? {
        TermStep(fp, s, q, Value(fp, e).value);
        ExpressionStep(fp, s, q, Value(fp, e).value);
      }
    }
  }

  lemma EverySpellingParses(fp: Rounding, s: string, e: Expr)
    requires IsExpression(e) && Covers(s, e) && |s| <= LIMIT
    ensures Parse(fp, s) == if Value(fp, e).Some? then Ok(Value(fp, e).value) else Err
  {
    hide TermLoop, ExpressionLoop, Expression;
    var q: nat :| Spells(s, 0, q, e) && Gap(s, q, |s|);
    SkipIs(s, q, |s|);
    SkipTwice(s, q);
    assert Ends(s, q);
    ExpressionReads(fp, s, 0, q, e);
    if Value(fp, e).Some? { ExpressionStep(fp, s, q, Value(fp, e).value); }
  }

  /** A value the calculator reports: it exists, and it is finite. */
  ghost function Reported(v: Option<Float>): Result<Float> {
    if v.Some? && v.value.Finite? then Ok(v.value) else Err
  }

  /** Every spelling within the limit evaluates to its tree's value, or fails where that divides
      by zero or is not finite. */
  lemma EverySpellingEvaluates(fp: Rounding, s: string, e: Expr)
    requires IsExpression(e) && Covers(s, e) && |s| <= LIMIT
    ensures Evaluate(fp, s) == Reported(Value(fp, e))
  {
    hide Value, Parse;
    EverySpellingParses(fp, s, e);
  }

  // ---------------------------------------------------------------- whatever is read was spelled

  /** `e` is spelled from `p` to `m`, with white space from there to `q`, and has this value. */
  ghost predicate Found(fp: Rounding, s: string, p: nat, m: nat, q: nat, e: Expr, v: Float) {
    Spells(s, p, m, e) && m <= q && Gap(s, m, q) && Value(fp, e) == Some(v)
  }

  lemma FoundSymbol(s: string, p: nat, k: nat)
    requires p <= |s| && k == Skip(s, p) && k < |s|
    ensures Symbol(s, p, k, s[k])
  {
  }

  lemma {:induction false} FactorTree(fp: Rounding, s: string, p: nat) returns (e: Expr)
    requires p <= |s| && Factor(fp, s, p).Ok?
    ensures var (v, q) := Factor(fp, s, p).value; IsFactor(e) && Found(fp, s, p, q, q, e, v)
    decreases |s| - p, 1
  {
    hide Number, NumberEnd, Expression, Apply, IsTerm, IsExpression, Skip;
    var k := Skip(s, p);
    FoundSymbol(s, p, k);
    if s[k] == '+' || s[k] == '-' {
      var x := FactorTree(fp, s, k + 1);
      e := Sign(s[k] == '-', x);
      assert Symbol(s, p, k, SignChar(e.negative));
    } else if s[k] == '(' {
      e := ParenTree(fp, s, p, k);
    } else {
      var end := NumberEnd(s, k);
      e := Num(s[k..end]);
      assert Gap(s, p, k) && k <= end <= |s|;
    }
  }

  lemma {:induction false} ParenTree(fp: Rounding, s: string, p: nat, k: nat) returns (e: Expr)
    requires Symbol(s, p, k, '(') && Parenthesized(fp, s, k + 1).Ok?
    ensures var (v, q) := Parenthesized(fp, s, k + 1).value; IsFactor(e) && Found(fp, s, p, q, q, e, v)
    decreases |s| - k, 0
  {
    hide Expression, Apply, IsExpression, Skip, Spells, IsTerm;
    var x, m := ExpressionTree(fp, s, k + 1);
    var after := Expression(fp, s, k + 1).value.1;
    var c := Skip(s, after);
    assert Symbol(s, m, c, ')');
    e := Paren(x);
    SpellParen(s, p, k, m, c, x);
  }

  lemma {:induction false} TermTree(fp: Rounding, s: string, p: nat) returns (e: Expr, m: nat)
    requires p <= |s| && Term(fp, s, p).Ok?
    ensures var (v, q) := Term(fp, s, p).value; IsTerm(e) && Found(fp, s, p, m, q, e, v)
    decreases |s| - p, 2
  {
    hide Factor, TermLoop, Spells, Value, IsFactor;
    TermIs(fp, s, p);
    var first := FactorTree(fp, s, p);
    assert IsTerm(first) by { FactorsAreTerms(first); }
    e, m := TermLoopTree(fp, s, p, Factor(fp, s, p).value.1, first, Factor(fp, s, p).value.0);
  }

  lemma FactorsAreTerms(e: Expr)
    ensures IsFactor(e) ==> IsTerm(e)
    ensures IsTerm(e) ==> IsExpression(e)
  {
  }

  lemma BinFound(fp: Rounding, s: string, p: nat, m: nat, k: nat, q: nat, l: Expr, r: Expr, op: char, v: Float,
      w: Float)
    requires Spells(s, p, m, l) && Value(fp, l) == Some(v) && Symbol(s, m, k, op) && Spells(s, k + 1, q, r) &&
      Value(fp, r) == Some(w)
    requires q <= |s| && (op == '/' ==> w != ZERO)
    ensures Found(fp, s, p, q, q, Bin(op, l, r), Apply(fp, op, v, w))
  {
    hide Apply;
  }

  lemma {:induction false} TermLoopTree(fp: Rounding, s: string, p: nat, at: nat, left: Expr, v: Float)
      returns (e: Expr, m: nat)
    requires p <= at <= |s| && IsTerm(left) && Found(fp, s, p, at, at, left, v) && TermLoop(fp, s, at, v).Ok?
    ensures var (w, q) := TermLoop(fp, s, at, v).value; IsTerm(e) && Found(fp, s, p, m, q, e, w)
    decreases |s| - at, 2
  {
    hide Factor, TermLoop, Spells, Value, Apply, IsFactor;
    var k := Skip(s, at);
    TermStep(fp, s, at, v);
    if k == |s| || (s[k] != '*' && s[k] != '/') {
      e, m := left, at;
    } else {
      var right := FactorTree(fp, s, k + 1);
      var (w, next) := Factor(fp, s, k + 1).value;
      BinFound(fp, s, p, at, k, next, left, right, s[k], v, w);
      e, m := TermLoopTree(fp, s, p, next, Bin(s[k], left, right), Apply(fp, s[k], v, w));
    }
  }

  lemma {:induction false} ExpressionTree(fp: Rounding, s: string, p: nat) returns (e: Expr, m: nat)
    requires p <= |s| && Expression(fp, s, p).Ok?
    ensures var (v, q) := Expression(fp, s, p).value; IsExpression(e) && Found(fp, s, p, m, q, e, v)
    decreases |s| - p, 3
  {
    hide Term, ExpressionLoop, Spells, Value, IsTerm;
    TermIs(fp, s, p);
    var first, end := TermTree(fp, s, p);
    FactorsAreTerms(first);
    e, m := ExpressionLoopTree(fp, s, p, end, Term(fp, s, p).value.1, first, Term(fp, s, p).value.0);
  }

  lemma {:induction false} ExpressionLoopTree(fp: Rounding, s: string, p: nat, end: nat, at: nat, left: Expr, v: Float)
      returns (e: Expr, m: nat)
    requires p <= at <= |s| && IsExpression(left) && Found(fp, s, p, end, at, left, v) &&
      ExpressionLoop(fp, s, at, v).Ok?
    ensures var (w, q) := ExpressionLoop(fp, s, at, v).value; IsExpression(e) && Found(fp, s, p, m, q, e, w)
    decreases |s| - at, 3
  {
    hide Term, ExpressionLoop, Spells, Value, Apply, IsTerm;
    var k := Skip(s, at);
    ExpressionStep(fp, s, at, v);
    if k == |s| || (s[k] != '+' && s[k] != '-') {
      e, m := left, end;
    } else {
      var right, last := TermTree(fp, s, k + 1);
      var (w, next) := Term(fp, s, k + 1).value;
      BinFound(fp, s, p, end, k, last, left, right, s[k], v, w);
      e, m := ExpressionLoopTree(fp, s, p, last, next, Bin(s[k], left, right), Apply(fp, s[k], v, w));
    }
  }

  /** Any success is the value of some tree that covers the whole text. */
  lemma EverySuccessIsSpelled(fp: Rounding, s: string)
    requires Evaluate(fp, s).Ok?
    ensures exists e :: IsExpression(e) && Covers(s, e) && Value(fp, e) == Some(Evaluate(fp, s).value)
  {
    hide Expression, Spells, Value, IsExpression;
    var e, m := ExpressionTree(fp, s, 0);
    assert Spells(s, 0, m, e) && Gap(s, m, |s|);
    assert Covers(s, e);
  }

  /** Hence a text has at most one value, however it is read as a tree. */
  lemma ReadingsAgree(fp: Rounding, s: string, e: Expr, f: Expr)
    requires IsExpression(e) && IsExpression(f) && Covers(s, e) && Covers(s, f) && |s| <= LIMIT
    ensures Value(fp, e) == Value(fp, f)
  {
    hide Value, Parse;
    EverySpellingParses(fp, s, e);
    EverySpellingParses(fp, s, f);
  }

  // ---------------------------------------------------------------- printing

  datatype Tree = Leaf(text: string) | Negate(tree: Tree) | Node(op: char, left: Tree, right: Tree)

  ghost predicate IsTree(t: Tree) {
    match t
    case Leaf(text) => Number(text).Some?
    case Negate(x) => IsTree(x)
    case Node(op, l, r) => (op == '+' || op == '-' || op == '*' || op == '/') && IsTree(l) && IsTree(r)
  }

  ghost function Meaning(fp: Rounding, t: Tree): Option<Float> {
    match t
    case Leaf(text) => Rounded(fp, Number(text))
    case Negate(x) => if Meaning(fp, x).None? then None else Some(Negated(Meaning(fp, x).value))
    case Node(op, l, r) => Combined(fp, op, Meaning(fp, l), Meaning(fp, r))
  }

  /** How tightly a tree binds: 0 for sums, 1 for products, 2 for the rest. */
  function Strength(t: Tree): nat {
    if t.Node? then (if t.op == '+' || t.op == '-' then 0 else 1) else 2
  }

  /** The tree with parentheses only where precedence and left association need them. */
  function Bracketed(t: Tree, level: nat): Expr
    decreases t
  {
    var e := match t
      case Leaf(text) => Num(text)
      case Negate(x) => Sign(true, Bracketed(x, 2))
      case Node(op, l, r) => Bin(op, Bracketed(l, Strength(t)), Bracketed(r, Strength(t) + 1));
    if Strength(t) < level then Paren(e) else e
  }

  lemma {:induction false} BracketedIs(fp: Rounding, t: Tree, level: nat)
    requires IsTree(t) && level <= 2
    ensures var e := Bracketed(t, level);
      && Value(fp, e) == Meaning(fp, t)
      && IsExpression(e) && (level >= 1 ==> IsTerm(e)) && (level == 2 ==> IsFactor(e))
    decreases t
  {
    hide IsFactor, IsTerm, IsExpression, Number, Combined;
    var e := match t
      case Leaf(text) => Num(text)
      case Negate(x) => Sign(true, Bracketed(x, 2))
      case Node(op, l, r) => Bin(op, Bracketed(l, Strength(t)), Bracketed(r, Strength(t) + 1));
    match t {
      case Leaf(_) => IsBuilt(e);
      case Negate(x) => BracketedIs(fp, x, 2); IsBuilt(e);
      case Node(op, l, r) =>
        BracketedIs(fp, l, Strength(t));
        BracketedIs(fp, r, Strength(t) + 1);
        IsBuilt(e);
    }
    IsBuilt(Paren(e));
  }

  /** Trees of the grammar from trees of the right levels. */
  lemma IsBuilt(e: Expr)
    ensures e.Num? && Number(e.text).Some? ==> IsFactor(e) && IsTerm(e) && IsExpression(e)
    ensures e.Sign? && IsFactor(e.operand) ==> IsFactor(e) && IsTerm(e) && IsExpression(e)
    ensures e.Paren? && IsExpression(e.inner) ==> IsFactor(e) && IsTerm(e) && IsExpression(e)
    ensures e.Bin? && (e.op == '*' || e.op == '/') && IsTerm(e.left) && IsFactor(e.right) ==>
      IsTerm(e) && IsExpression(e)
    ensures e.Bin? && (e.op == '+' || e.op == '-') && IsExpression(e.left) && IsTerm(e.right) ==> IsExpression(e)
  {
    hide Number;
    FactorsAreTerms(e);
  }

  function Print(e: Expr): string {
    match e
    case Num(text) => text
    case Sign(negative, x) => (if negative then "-" else "+") + Print(x)
    case Paren(x) => "(" + Print(x) + ")"
    case Bin(op, l, r) => Print(l) + [op] + Print(r)
  }

  lemma SpellSign(s: string, p: nat, k: nat, q: nat, negative: bool, x: Expr)
    requires Symbol(s, p, k, SignChar(negative)) && Spells(s, k + 1, q, x)
    ensures Spells(s, p, q, Sign(negative, x))
  {
  }

  lemma SpellParen(s: string, p: nat, k: nat, m: nat, c: nat, x: Expr)
    requires Symbol(s, p, k, '(') && Spells(s, k + 1, m, x) && Symbol(s, m, c, ')')
    ensures Spells(s, p, c + 1, Paren(x))
  {
  }

  lemma SpellBin(s: string, p: nat, m: nat, k: nat, q: nat, op: char, l: Expr, r: Expr)
    requires Spells(s, p, m, l) && Symbol(s, m, k, op) && Spells(s, k + 1, q, r)
    ensures Spells(s, p, q, Bin(op, l, r))
  {
  }

  ghost predicate Prints(s: string, p: nat, e: Expr) {
    p + |Print(e)| <= |s| && s[p..p + |Print(e)|] == Print(e)
  }

  lemma {:induction false} PrintSpells(s: string, p: nat, e: Expr)
    requires Prints(s, p, e)
    ensures Spells(s, p, p + |Print(e)|, e)
    decreases e
  {
    hide Spells, Prints;
    var q := p + |Print(e)|;
    match e
    case Num(text) => NumberSpells(s, p, text);
    case Sign(negative, x) =>
      PrintedInner(s, p, e);
      PrintSpells(s, p + 1, x);
      SpellSign(s, p, p, q, negative, x);
    case Paren(x) =>
      PrintedInner(s, p, e);
      PrintSpells(s, p + 1, x);
      SpellParen(s, p, p, q - 1, q - 1, x);
    case Bin(op, l, r) =>
      var k := p + |Print(l)|;
      PrintedBin(s, p, e);
      PrintSpells(s, p, l);
      PrintSpells(s, k + 1, r);
      SpellBin(s, p, k, k, q, op, l, r);
  }

  lemma SliceOfSlice(s: string, p: nat, q: nat, a: nat, b: nat)
    requires p <= q <= |s| && a <= b <= q - p
    ensures s[p..q][a..b] == s[p + a..p + b]
  {
    var x, y := s[p..q][a..b], s[p + a..p + b];
    assert forall j :: 0 <= j < |x| ==> x[j] == s[p + a + j] == y[j];
    assert x == y;
  }

  lemma PrintedInner(s: string, p: nat, e: Expr)
    requires Prints(s, p, e) && (e.Sign? || e.Paren?)
    ensures e.Sign? ==> Symbol(s, p, p, SignChar(e.negative)) && Prints(s, p + 1, e.operand)
    ensures e.Paren? ==> Symbol(s, p, p, '(') && Prints(s, p + 1, e.inner)
    ensures e.Paren? ==> var q := p + 1 + |Print(e.inner)|; Symbol(s, q, q, ')') && q + 1 == p + |Print(e)|
  {
    var t := Print(e);
    assert s[p] == t[0];
    if e.Sign? {
      SliceOfSlice(s, p, p + |t|, 1, |t|);
      assert t[1..] == Print(e.operand) && t[1..|t|] == t[1..];
    } else {
      var last := |t| - 1;
      SliceOfSlice(s, p, p + |t|, 1, last);
      assert t[1..last] == Print(e.inner) && s[p + last] == t[last];
    }
  }

  lemma PrintedBin(s: string, p: nat, e: Expr)
    requires Prints(s, p, e) && e.Bin?
    ensures var k := p + |Print(e.left)|;
      Prints(s, p, e.left) && Symbol(s, k, k, e.op) && Prints(s, k + 1, e.right) &&
        k + 1 + |Print(e.right)| == p + |Print(e)|
  {
    var t, k := Print(e), |Print(e.left)|;
    SliceOfSlice(s, p, p + |t|, 0, k);
    SliceOfSlice(s, p, p + |t|, k + 1, |t|);
    assert t[0..k] == Print(e.left) && t[k] == e.op && s[p + k] == t[k];
    assert t[k + 1..|t|] == Print(e.right);
  }

  lemma NumberSpells(s: string, p: nat, text: string)
    requires Prints(s, p, Num(text))
    ensures Spells(s, p, p + |text|, Num(text))
  {
    assert Gap(s, p, p);
  }

  /** Evaluating the printed text of any arithmetic tree gives the tree's meaning. */
  lemma EvaluateInvertsPrint(fp: Rounding, t: Tree)
    requires IsTree(t) && |Print(Bracketed(t, 0))| <= LIMIT
    ensures Evaluate(fp, Print(Bracketed(t, 0))) == Reported(Meaning(fp, t))
  {
    var e := Bracketed(t, 0);
    BracketedIs(fp, t, 0);
    PrintSpells(Print(e), 0, e);
    EverySpellingEvaluates(fp, Print(e), e);
  }

  // ---------------------------------------------------------------- what the limit counts

  /** One digit and 511 ideographic spaces. */
  const WIDE := "1" + seq(511, _ => '\U{3000}')

  /** The limit counts characters: a text of 512 characters and three times as many bytes is
      evaluated. */
  lemma WideTextIsEvaluated(fp: Rounding)
    ensures |WIDE| == LIMIT && |U.Encode(WIDE)| > LIMIT && Evaluate(fp, WIDE) == Reported(Some(fp(1.0)))
  {
    hide Evaluate;
    U.AtLeastOneByteEach(WIDE);
    U.BytesAreCharactersIff(WIDE);
    assert WIDE[1] == '\U{3000}';
    OneIsANumber();
    WideIsSpelled();
    EverySpellingEvaluates(fp, WIDE, Num("1"));
  }

  lemma OneIsANumber()
    ensures Number("1") == Some(1.0)
  {
    assert "1"[..0] == "" && "1"[..1] == "1";
    assert Digits("1") == 1 && Digits("") == 0;
    assert Power10(0) == 1;
  }

  lemma WideIsSpelled()
    ensures Covers(WIDE, Num("1"))
  {
    assert Gap(WIDE, 0, 0) && WIDE[0..1] == "1";
    assert Spells(WIDE, 0, 1, Num("1"));
    assert Gap(WIDE, 1, |WIDE|) by { assert forall j :: 1 <= j < |WIDE| ==> WIDE[j] == '\U{3000}'; }
  }
}
