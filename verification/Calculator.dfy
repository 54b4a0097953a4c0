/** The calculator tool: recursive descent over characters, in floating-point arithmetic. */
module Calculator {
  import opened Wrappers
  import T = Text

  datatype Result<X> = Ok(value: X) | Err

  /** A 64-bit float, up to the sign of zero. */
  datatype Float = Finite(v: real) | Infinity(negative: bool) | NaN

  /** How an exact result is rounded; IEEE 754 is one such function, and no result below depends
      on which it is. */
  type Rounding = real -> Float

  /** A value and the position after it. */
  type At = (Float, nat)

  const LIMIT := 512

  predicate IsDigit(c: char) {
    '0' <= c <= '9'
  }

  predicate InNumber(c: char) {
    IsDigit(c) || c == '.'
  }

  function Digits(t: string): nat
    requires forall k :: 0 <= k < |t| ==> IsDigit(t[k])
  {
    if t == "" then 0
    else
      assert IsDigit(t[|t| - 1]);
      10 * Digits(t[..|t| - 1]) + (t[|t| - 1] as int - '0' as int)
  }

  function Power10(n: nat): (p: nat)
    ensures p > 0
  {
    if n == 0 then 1 else 10 * Power10(n - 1)
  }

  function Dot(t: string): (k: nat)
    ensures k <= |t| && (k < |t| ==> t[k] == '.') && forall j :: 0 <= j < k ==> t[j] != '.'
    decreases |t|
  {
    if t == "" || t[0] == '.' then 0 else Dot(t[1..]) + 1
  }

  /** A decimal number: digits with at most one point, and at least one digit. */
  function Number(t: string): Option<real> {
    if exists k :: 0 <= k < |t| && !InNumber(t[k]) then None
    else
      var d := Dot(t);
      var whole, fraction := t[..d], if d < |t| then t[d + 1..] else "";
      if Dot(fraction) < |fraction| || whole + fraction == "" then None
      else
        assert forall k :: 0 <= k < |whole| ==> whole[k] == t[k];
        assert forall k :: 0 <= k < |fraction| ==> fraction[k] == t[d + 1 + k] && fraction[k] != '.';
        Some(Digits(whole) as real + Digits(fraction) as real / Power10(|fraction|) as real)
  }

  /** The first position from `p` on that holds no white space. */
  function Skip(s: string, p: nat): (k: nat)
    requires p <= |s|
    ensures p <= k <= |s| && (k < |s| ==> !T.IsSpace(s[k])) && forall j :: p <= j < k ==> T.IsSpace(s[j])
    decreases |s| - p
  {
    if p < |s| && T.IsSpace(s[p]) then Skip(s, p + 1) else p
  }

  function NumberEnd(s: string, p: nat): (k: nat)
    requires p <= |s|
    ensures p <= k <= |s| && (k < |s| ==> !InNumber(s[k])) && forall j :: p <= j < k ==> InNumber(s[j])
    decreases |s| - p
  {
    if p < |s| && InNumber(s[p]) then NumberEnd(s, p + 1) else p
  }

  const ZERO := Finite(0.0)

  function Negated(x: Float): Float {
    match x
    case Finite(v) => Finite(-v)
    case Infinity(negative) => Infinity(!negative)
    case NaN => NaN
  }

  predicate Negative(x: Float) {
    match x case Finite(v) => v < 0.0 case Infinity(negative) => negative case NaN => false
  }

  function Add(fp: Rounding, x: Float, y: Float): Float {
    match (x, y)
    case (Finite(v), Finite(w)) => fp(v + w)
    case (Finite(_), Infinity(_)) => y
    case (Infinity(_), Finite(_)) => x
    case (Infinity(m), Infinity(n)) => if m == n then x else NaN
    case _ => NaN
  }

  function Product(v: real, w: real): real {
    v * w
  }

  function Multiply(fp: Rounding, x: Float, y: Float): Float {
    match (x, y)
    case (Finite(v), Finite(w)) => fp(Product(v, w))
    case (NaN, _) => NaN
    case (_, NaN) => NaN
    case _ => if x == ZERO || y == ZERO then NaN else Infinity(Negative(x) != Negative(y))
  }

  function Divide(fp: Rounding, x: Float, y: Float): Float
    requires y != ZERO
  {
    match (x, y)
    case (Finite(v), Finite(w)) => fp(v / w)
    case (Finite(_), Infinity(_)) => ZERO
    case (Infinity(_), Finite(_)) => Infinity(Negative(x) != Negative(y))
    case _ => NaN
  }

  /** One operation; the caller has ruled out division by zero. */
  function Apply(fp: Rounding, op: char, x: Float, y: Float): Float
    requires op == '/' ==> y != ZERO
  {
    if op == '+' then Add(fp, x, y)
    else if op == '-' then Add(fp, x, Negated(y))
    else if op == '/' then Divide(fp, x, y)
    else Multiply(fp, x, y)
  }

  // ---------------------------------------------------------------- what numbers and operations mean

  ghost predicate AllDigits(t: string) {
    forall k :: 0 <= k < |t| ==> IsDigit(t[k])
  }

  /** The usual numeral of a number. */
  ghost function Numeral(n: nat): (t: string)
    ensures t != "" && AllDigits(t)
  {
    if n < 10 then ["0123456789"[n]] else Numeral(n / 10) + ["0123456789"[n % 10]]
  }

  lemma {:induction false} NumeralIsRead(n: nat)
    ensures Digits(Numeral(n)) == n
  {
    if n >= 10 {
      NumeralIsRead(n / 10);
      var front := Numeral(n / 10);
      assert Numeral(n)[..|front|] == front;
      assert Digits(Numeral(n)) == 10 * Digits(front) + n % 10;
    } else {
      assert Numeral(n)[..0] == "";
    }
  }

  lemma {:induction false} DigitsJoin(a: string, b: string)
    requires AllDigits(a) && AllDigits(b)
    ensures AllDigits(a + b) && Digits(a + b) == Digits(a) * Power10(|b|) + Digits(b)
  {
    if b == "" {
      assert a + b == a;
    } else {
      var front, n := b[..|b| - 1], |b| - 1;
      DigitsJoin(a, front);
      assert (a + b)[..|a + b| - 1] == a + front;
      assert Digits(a + b) == 10 * Digits(a + front) + (b[n] as int - '0' as int);
      assert Power10(|b|) == 10 * Power10(n);
      assert 10 * (Digits(a) * Power10(n)) == Digits(a) * Power10(|b|);
    }
  }

  lemma PointAt(whole: string, fraction: string)
    requires AllDigits(whole)
    ensures var t := whole + "." + fraction;
      Dot(t) == |whole| && t[..|whole|] == whole && t[|whole| + 1..] == fraction && Dot(whole) == |whole|
  {
    var t := whole + "." + fraction;
    assert t[|whole|] == '.' && forall k :: 0 <= k < |whole| ==> t[k] == whole[k] && IsDigit(t[k]);
  }

  lemma InNumbers(whole: string, fraction: string)
    requires AllDigits(whole) && AllDigits(fraction)
    ensures var t := whole + "." + fraction; forall k :: 0 <= k < |t| ==> InNumber(t[k])
  {
    var t := whole + "." + fraction;
    forall k | 0 <= k < |t| ensures InNumber(t[k]) {
      if k < |whole| { assert t[k] == whole[k]; }
      if k > |whole| { assert t[k] == fraction[k - |whole| - 1]; }
    }
  }

  lemma Scaled(w: nat, f: nat, p: nat)
    requires p > 0
    ensures (w * p + f) as real / p as real == w as real + f as real / p as real
  {
    assert (w * p) as real == w as real * p as real;
  }

  /** A number is what its digits say, divided by ten as often as there are digits after the point. */
  lemma NumberIsRead(whole: string, fraction: string)
    requires AllDigits(whole) && AllDigits(fraction) && whole + fraction != ""
    ensures AllDigits(whole + fraction)
    ensures Number(whole + "." + fraction) == Some(Digits(whole + fraction) as real / Power10(|fraction|) as real)
  {
    hide Dot, Digits, Power10;
    PointAt(whole, fraction);
    PointAt(fraction, "");
    InNumbers(whole, fraction);
    DigitsJoin(whole, fraction);
    Scaled(Digits(whole), Digits(fraction), Power10(|fraction|));
  }

  /** Without a point it is what its digits say. */
  lemma WholeNumberIsRead(whole: string)
    requires AllDigits(whole) && whole != ""
    ensures Number(whole) == Some(Digits(whole) as real)
  {
    hide Dot;
    PointAt(whole, "");
    PointAt("", "");
    assert whole[..|whole|] == whole && whole + "" == whole && Digits("") == 0;
  }

  /** Sums, as IEEE 754 has them: only opposite infinities have none, another infinity decides, and a
      sum that rounding leaves alone is exact. */
  lemma SumsAreExtended(fp: Rounding, x: Float, y: Float)
    ensures Add(fp, x, y) == Add(fp, y, x) && Apply(fp, '+', x, y) == Add(fp, x, y)
    ensures x.Infinity? && !y.NaN? ==> Add(fp, x, y) == if y == Negated(x) then NaN else x
    ensures x.NaN? ==> Add(fp, x, y) == NaN
    ensures x.Finite? && y.Finite? && fp(x.v + y.v) == Finite(x.v + y.v) ==> Add(fp, x, y) == Finite(x.v + y.v)
    ensures x.Finite? && y.Finite? && fp(x.v - y.v) == Finite(x.v - y.v) ==> Apply(fp, '-', x, y) == Finite(x.v - y.v)
    ensures y.Infinity? && !x.NaN? ==> Apply(fp, '-', x, y) == if x == y then NaN else Negated(y)
  {
    assert x.Finite? && y.Finite? ==> x.v + y.v == y.v + x.v && x.v + (-y.v) == x.v - y.v;
  }

  ghost function Sign(x: Float): int
    requires !x.NaN?
  {
    if x == ZERO then 0 else if Negative(x) then -1 else 1
  }

  /** A product or a quotient that rounding leaves alone is exact. */
  lemma ExactProduct(fp: Rounding, x: Float, y: Float, p: real)
    requires x.Finite? && y.Finite? && fp(p) == Finite(p)
    ensures p == x.v * y.v ==> Multiply(fp, x, y) == Finite(p)
    ensures y != ZERO && p * y.v == x.v ==> Divide(fp, x, y) == Finite(p)
  {
    assert p == x.v * y.v ==> Product(x.v, y.v) == p;
    if y != ZERO && p * y.v == x.v { assert x.v / y.v == p; }
  }

  /** Products and quotients, as IEEE 754 has them: zero times an infinity and one infinity over another
      have none, and otherwise the signs multiply. */
  lemma ProductsAreExtended(fp: Rounding, x: Float, y: Float)
    ensures Multiply(fp, x, y) == Multiply(fp, y, x) && Apply(fp, '*', x, y) == Multiply(fp, x, y)
    ensures x.NaN? ==> Multiply(fp, x, y) == NaN && (y != ZERO ==> Apply(fp, '/', x, y) == NaN)
    ensures x.Infinity? && y == ZERO ==> Multiply(fp, x, y) == NaN
    ensures x.Infinity? && !y.NaN? && y != ZERO ==>
      Multiply(fp, x, y).Infinity? && Sign(Multiply(fp, x, y)) == Sign(x) * Sign(y)
    ensures x.Infinity? && y.Finite? && y != ZERO ==>
      Apply(fp, '/', x, y).Infinity? && Sign(Apply(fp, '/', x, y)) == Sign(x) * Sign(y)
    ensures x.Finite? && y.Infinity? ==> Apply(fp, '/', x, y) == ZERO
    ensures x.Infinity? && y.Infinity? ==> Apply(fp, '/', x, y) == NaN
  {
    if x.Finite? && y.Finite? { assert Product(x.v, y.v) == Product(y.v, x.v); }
  }

  // ---------------------------------------------------------------- the parser as functions

  function Factor(fp: Rounding, s: string, p: nat): (r: Result<At>)
    requires p <= |s|
    ensures r.Ok? ==> p < r.value.1 <= |s|
    decreases |s| - p, 0
  {
    var k := Skip(s, p);
    if k == |s| then Err
    else if s[k] == '+' then Factor(fp, s, k + 1)
    else if s[k] == '-' then
      var r := Factor(fp, s, k + 1);
      if r.Ok? then Ok((Negated(r.value.0), r.value.1)) else Err
    else if s[k] == '(' then Parenthesized(fp, s, k + 1)
    else if InNumber(s[k]) then NumberAt(fp, s, k)
    else Err
  }

  function NumberAt(fp: Rounding, s: string, p: nat): (r: Result<At>)
    requires p < |s| && InNumber(s[p])
    ensures r.Ok? ==> p < r.value.1 <= |s|
  {
    var end := NumberEnd(s, p);
    var v := Number(s[p..end]);
    if v.Some? then Ok((fp(v.value), end)) else Err
  }

  /** What stands between an opening parenthesis and its closing one. */
  function Parenthesized(fp: Rounding, s: string, p: nat): (r: Result<At>)
    requires p <= |s|
    ensures r.Ok? ==> p < r.value.1 <= |s|
    decreases |s| - p, 3
  {
    var r := Expression(fp, s, p);
    if r.Err? then Err
    else
      var close := Skip(s, r.value.1);
      if close < |s| && s[close] == ')' then Ok((r.value.0, close + 1)) else Err
  }

  function Term(fp: Rounding, s: string, p: nat): (r: Result<At>)
    requires p <= |s|
    ensures r.Ok? ==> p < r.value.1 <= |s|
    decreases |s| - p, 1
  {
    var first := Factor(fp, s, p);
    if first.Ok? then TermLoop(fp, s, first.value.1, first.value.0) else Err
  }

  /** Multiplications and divisions from `p` on, applied from the left. */
  function TermLoop(fp: Rounding, s: string, p: nat, v: Float): (r: Result<At>)
    requires p <= |s|
    ensures r.Ok? ==> p <= r.value.1 <= |s|
    decreases |s| - p, 1
  {
    var k := Skip(s, p);
    if k == |s| || (s[k] != '*' && s[k] != '/') then Ok((v, k))
    else
      var right := Factor(fp, s, k + 1);
      if right.Err? || (s[k] == '/' && right.value.0 == ZERO) then Err
      else TermLoop(fp, s, right.value.1, Apply(fp, s[k], v, right.value.0))
  }

  function Expression(fp: Rounding, s: string, p: nat): (r: Result<At>)
    requires p <= |s|
    ensures r.Ok? ==> p < r.value.1 <= |s|
    decreases |s| - p, 2
  {
    var first := Term(fp, s, p);
    if first.Ok? then ExpressionLoop(fp, s, first.value.1, first.value.0) else Err
  }

  /** Additions and subtractions from `p` on, applied from the left. */
  function ExpressionLoop(fp: Rounding, s: string, p: nat, v: Float): (r: Result<At>)
    requires p <= |s|
    ensures r.Ok? ==> p <= r.value.1 <= |s|
    decreases |s| - p, 2
  {
    var k := Skip(s, p);
    if k == |s| || (s[k] != '+' && s[k] != '-') then Ok((v, k))
    else
      var right := Term(fp, s, k + 1);
      if right.Err? then Err
      else ExpressionLoop(fp, s, right.value.1, Apply(fp, s[k], v, right.value.0))
  }

  /** The value of the whole text. */
  function Parse(fp: Rounding, s: string): Result<Float> {
    if |s| > LIMIT then Err
    else
      var r := Expression(fp, s, 0);
      if r.Ok? && Skip(s, r.value.1) == |s| then Ok(r.value.0) else Err
  }

  /** `evaluate`: the value must be finite. */
  function Evaluate(fp: Rounding, s: string): Result<Float> {
    var r := Parse(fp, s);
    if r.Ok? && r.value.Finite? then r else Err
  }

  lemma SkipTwice(s: string, p: nat)
    requires p <= |s|
    ensures Skip(s, Skip(s, p)) == Skip(s, p)
  {
  }

  /** One turn of the loop, from a position before white space or after it. */
  lemma TermStep(fp: Rounding, s: string, p: nat, v: Float)
    requires p <= |s|
    ensures TermLoop(fp, s, Skip(s, p), v) == TermLoop(fp, s, p, v)
    ensures var k := Skip(s, p);
      TermLoop(fp, s, p, v) ==
        if k == |s| || (s[k] != '*' && s[k] != '/') then Ok((v, k))
        else
          var right := Factor(fp, s, k + 1);
          if right.Err? || (s[k] == '/' && right.value.0 == ZERO) then Err
          else TermLoop(fp, s, right.value.1, Apply(fp, s[k], v, right.value.0))
  {
    hide Factor, Skip, Apply;
    SkipTwice(s, p);
  }

  lemma ExpressionStep(fp: Rounding, s: string, p: nat, v: Float)
    requires p <= |s|
    ensures ExpressionLoop(fp, s, Skip(s, p), v) == ExpressionLoop(fp, s, p, v)
    ensures var k := Skip(s, p);
      ExpressionLoop(fp, s, p, v) ==
        if k == |s| || (s[k] != '+' && s[k] != '-') then Ok((v, k))
        else
          var right := Term(fp, s, k + 1);
          if right.Err? then Err
          else ExpressionLoop(fp, s, right.value.1, Apply(fp, s[k], v, right.value.0))
  {
    hide Term, Skip, Apply;
    SkipTwice(s, p);
  }

  // ---------------------------------------------------------------- the parser as an object

  class Parser {
    const fp: Rounding
    const chars: string
    var position: nat

    constructor (fp: Rounding, chars: string)
      ensures this.fp == fp && this.chars == chars && position == 0
    {
      this.fp, this.chars, position := fp, chars, 0;
    }

    method SkipSpace()
      requires position <= |chars|
      modifies this
      ensures position == Skip(chars, old(position))
    {
      while position < |chars| && T.IsSpace(chars[position])
        invariant position <= |chars| && Skip(chars, position) == Skip(chars, old(position))
      {
        position := position + 1;
      }
    }

    /** The next character past white space. */
    method Peek() returns (c: Option<char>)
      requires position <= |chars|
      modifies this
      ensures position == Skip(chars, old(position)) == Skip(chars, position)
      ensures c == if position < |chars| then Some(chars[position]) else None
    {
      SkipTwice(chars, position);
      SkipSpace();
      c := if position < |chars| then Some(chars[position]) else None;
    }

    method ParseExpression() returns (r: Result<Float>)
      requires position <= |chars|
      modifies this
      ensures position <= |chars|
      ensures Expression(fp, chars, old(position)) == if r.Ok? then Ok((r.value, position)) else Err
      decreases |chars| - position, 2
    {
      hide Term, ExpressionLoop, Skip, Apply;
      r := ParseTerm();
      if r.Err? { return; }
      ExpressionStep(fp, chars, position, r.value);
      var op := Peek();
      while op == Some('+') || op == Some('-')
        invariant old(position) < position <= |chars| && r.Ok? &&
          op == if position < |chars| then Some(chars[position]) else None
        invariant position == Skip(chars, position)
        invariant Expression(fp, chars, old(position)) == ExpressionLoop(fp, chars, position, r.value)
        decreases |chars| - position
      {
        ExpressionStep(fp, chars, position, r.value);
        position := position + 1;
        var right := ParseTerm();
        if right.Err? { return Err; }
        r := Ok(Apply(fp, op.value, r.value, right.value));
        ExpressionStep(fp, chars, position, r.value);
        op := Peek();
      }
      ExpressionStep(fp, chars, position, r.value);
    }

    method ParseTerm() returns (r: Result<Float>)
      requires position <= |chars|
      modifies this
      ensures position <= |chars|
      ensures Term(fp, chars, old(position)) == if r.Ok? then Ok((r.value, position)) else Err
      decreases |chars| - position, 1
    {
      hide Factor, TermLoop, Skip, Apply;
      r := ParseFactor();
      if r.Err? { return; }
      TermStep(fp, chars, position, r.value);
      var op := Peek();
      while op == Some('*') || op == Some('/')
        invariant old(position) < position <= |chars| && r.Ok? &&
          op == if position < |chars| then Some(chars[position]) else None
        invariant position == Skip(chars, position)
        invariant Term(fp, chars, old(position)) == TermLoop(fp, chars, position, r.value)
        decreases |chars| - position
      {
        TermStep(fp, chars, position, r.value);
        position := position + 1;
        var right := ParseFactor();
        if right.Err? { return Err; }
        if op == Some('/') && right.value == ZERO { return Err; }
        r := Ok(Apply(fp, op.value, r.value, right.value));
        TermStep(fp, chars, position, r.value);
        op := Peek();
      }
      TermStep(fp, chars, position, r.value);
    }

    method ParseNumber() returns (r: Result<Float>)
      requires position < |chars| && InNumber(chars[position])
      modifies this
      ensures position <= |chars|
      ensures NumberAt(fp, chars, old(position)) == if r.Ok? then Ok((r.value, position)) else Err
    {
      hide Number;
      var start := position;
      while position < |chars| && InNumber(chars[position])
        invariant start <= position <= |chars| && NumberEnd(chars, position) == NumberEnd(chars, start)
      {
        position := position + 1;
      }
      var v := Number(chars[start..position]);
      r := if v.Some? then Ok(fp(v.value)) else Err;
    }

    method ParseParenthesized() returns (r: Result<Float>)
      requires position <= |chars|
      modifies this
      ensures position <= |chars|
      ensures Parenthesized(fp, chars, old(position)) == if r.Ok? then Ok((r.value, position)) else Err
      decreases |chars| - position, 3
    {
      hide Expression, Skip;
      r := ParseExpression();
      if r.Err? { return; }
      var next := Peek();
      if next != Some(')') { return Err; }
      position := position + 1;
    }

    method ParseFactor() returns (r: Result<Float>)
      requires position <= |chars|
      modifies this
      ensures position <= |chars|
      ensures Factor(fp, chars, old(position)) == if r.Ok? then Ok((r.value, position)) else Err
      decreases |chars| - position, 0
    {
      hide Parenthesized, Skip, NumberAt;
      var next := Peek();
      if next.None? { return Err; }
      var c := next.value;
      if c == '+' {
        position := position + 1;
        r := ParseFactor();
      } else if c == '-' {
        position := position + 1;
        r := ParseFactor();
        if r.Ok? { r := Ok(Negated(r.value)); }
      } else if c == '(' {
        position := position + 1;
        r := ParseParenthesized();
      } else if InNumber(c) {
        r := ParseNumber();
      } else {
        r := Err;
      }
    }
  }

  method EvaluateText(fp: Rounding, s: string) returns (r: Result<Float>)
    ensures r == Evaluate(fp, s)
  {
    if |s| > LIMIT { return Err; }
    var parser := new Parser(fp, s);
    var value := parser.ParseExpression();
    if value.Err? { return Err; }
    parser.SkipSpace();
    if parser.position != |s| { return Err; }
    r := if value.value.Finite? then value else Err;
  }
}
