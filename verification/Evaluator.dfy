/** The arithmetic evaluator behind the calculator tool of examples/admin_ui_full.

    Each parsing routine of the program is a loop over a moving position; here each is a method with
    that loop, proved equal to a recursive function of its arguments. The routines never look inside
    a number, so everything here holds for every arithmetic: 64-bit floating point with whatever
    rounding it does, or exact reals (`Reals`). */
module Evaluator {

  datatype EvalError = UnexpectedEnd | ExpectedNumber | BadNumber | DivisionByZero | UnmatchedParenthesis

  datatype Result<+T> = Ok(value: T) | Err(error: EvalError)

  predicate IsDigit(c: char) {
    '0' <= c <= '9'
  }

  predicate IsNumberChar(c: char) {
    IsDigit(c) || c == '.'
  }

  predicate AllNumberChars(s: string) {
    forall k :: 0 <= k < |s| ==> IsNumberChar(s[k])
  }

  /** strings.ReplaceAll(expr, " ", "") */
  function StripSpaces(s: string): (r: string)
    ensures |r| <= |s|
    ensures ' ' !in r
  {
    if s == [] then []
    else if s[0] == ' ' then StripSpaces(s[1..])
    else [s[0]] + StripSpaces(s[1..])
  }

  /** What the routines use of numbers: strconv.ParseFloat, the operators and the test for zero. */
  datatype Arithmetic<!N> = Arithmetic(
    literal: string -> Result<N>,
    neg: N -> N,
    add: (N, N) -> N,
    sub: (N, N) -> N,
    mul: (N, N) -> N,
    div: (N, N) -> N,
    isZero: N -> bool)

  // ---------------------------------------------------------------------------
  // What the parsing routines compute
  // ---------------------------------------------------------------------------

  function EvalExpression<N>(ar: Arithmetic<N>, expr: string): Result<N>
    decreases |expr|, 5
  {
    AddSub(ar, StripSpaces(expr), 0)
  }

  function AddSub<N>(ar: Arithmetic<N>, expr: string, pos: nat): Result<N>
    requires pos <= |expr|
    decreases |expr| - pos, 4
  {
    match MulDiv(ar, expr, pos)
    case Err(e) => Err(e)
    case Ok((left, p)) => AddSubFrom(ar, expr, p, left)
  }

  function AddSubFrom<N>(ar: Arithmetic<N>, expr: string, pos: nat, acc: N): Result<N>
    requires pos <= |expr|
    decreases |expr| - pos, 3
  {
    if pos < |expr| && (expr[pos] == '+' || expr[pos] == '-') then
      match MulDiv(ar, expr, pos + 1)
      case Err(e) => Err(e)
      case Ok((right, p)) =>
        AddSubFrom(ar, expr, p, if expr[pos] == '+' then ar.add(acc, right) else ar.sub(acc, right))
    else
      Ok(acc)
  }

  function Scale<N>(ar: Arithmetic<N>, op: char, left: N, right: N): Result<N> {
    if op == '*' then Ok(ar.mul(left, right))
    else if ar.isZero(right) then Err(DivisionByZero)
    else Ok(ar.div(left, right))
  }

  function MulDiv<N>(ar: Arithmetic<N>, expr: string, pos: nat): (r: Result<(N, nat)>)
    requires pos <= |expr|
    ensures r.Ok? ==> pos < r.value.1 <= |expr|
    decreases |expr| - pos, 2
  {
    match Number(ar, expr, pos)
    case Err(e) => Err(e)
    case Ok((left, p)) => MulDivFrom(ar, expr, p, left)
  }

  function MulDivFrom<N>(ar: Arithmetic<N>, expr: string, pos: nat, acc: N): (r: Result<(N, nat)>)
    requires pos <= |expr|
    ensures r.Ok? ==> pos <= r.value.1 <= |expr|
    decreases |expr| - pos, 1
  {
    if pos < |expr| && (expr[pos] == '*' || expr[pos] == '/') then
      match Number(ar, expr, pos + 1)
      case Err(e) => Err(e)
      case Ok((right, p)) =>
        match Scale(ar, expr[pos], acc, right)
        case Err(e) => Err(e)
        case Ok(scaled) => MulDivFrom(ar, expr, p, scaled)
    else
      Ok((acc, pos))
  }

  /** The first index of a number's text that is neither a digit nor a point. */
  function NumberEnd(expr: string, pos: nat): (p: nat)
    requires pos <= |expr|
    ensures pos <= p <= |expr|
    ensures forall k :: pos <= k < p ==> IsNumberChar(expr[k])
    ensures p < |expr| ==> !IsNumberChar(expr[p])
    decreases |expr| - pos
  {
    if pos < |expr| && IsNumberChar(expr[pos]) then NumberEnd(expr, pos + 1) else pos
  }

  /** Where the parenthesis scan stops when it starts at `i` with `depth` parentheses open:
      just after the one that closes the outermost. */
  function AfterClose(expr: string, i: nat, depth: nat): (r: Result<nat>)
    requires i <= |expr| && depth > 0
    ensures r.Ok? ==> i < r.value <= |expr| && expr[r.value - 1] == ')'
    decreases |expr| - i
  {
    if i == |expr| then Err(UnmatchedParenthesis)
    else if expr[i] == '(' then AfterClose(expr, i + 1, depth + 1)
    else if expr[i] == ')' then
      if depth == 1 then Ok(i + 1) else AfterClose(expr, i + 1, depth - 1)
    else AfterClose(expr, i + 1, depth)
  }

  function SignedLiteral<N>(ar: Arithmetic<N>, text: string, negative: bool, end: nat): Result<(N, nat)>
  {
    match ar.literal(text)
    case Err(e) => Err(e)
    case Ok(num) => Ok((if negative then ar.neg(num) else num, end))
  }

  function Number<N>(ar: Arithmetic<N>, expr: string, pos: nat): (r: Result<(N, nat)>)
    requires pos <= |expr|
    ensures r.Ok? ==> pos < r.value.1 <= |expr|
    decreases |expr| - pos, 0
  {
    if pos == |expr| then Err(UnexpectedEnd)
    else if expr[pos] == '(' then
      match EvalExpression(ar, expr[pos + 1..])
      case Err(e) => Err(e)
      case Ok(inner) =>
        match AfterClose(expr, pos + 1, 1)
        case Err(e) => Err(e)
        case Ok(p) => Ok((inner, p))
    else
      var start := if expr[pos] == '-' then pos + 1 else pos;
      var end := NumberEnd(expr, start);
      if start == end then Err(ExpectedNumber)
      else SignedLiteral(ar, expr[start..end], start > pos, end)
  }

  // ---------------------------------------------------------------------------
  // The routines themselves
  // ---------------------------------------------------------------------------

  method EvaluateExpression<N>(ar: Arithmetic<N>, expr: string) returns (r: Result<N>)
    ensures r == EvalExpression(ar, expr)
    decreases |expr|, 5
  {
    var stripped := StripSpaces(expr);
    r := ParseAddSub(ar, stripped, 0);
  }

  method ParseAddSub<N>(ar: Arithmetic<N>, expr: string, start: nat) returns (r: Result<N>)
    requires start <= |expr|
    ensures r == AddSub(ar, expr, start)
    decreases |expr| - start, 4
  {
    var first := ParseMulDiv(ar, expr, start);
    if first.Err? {
      return Err(first.error);
    }
    var (result, pos) := first.value;
    while pos < |expr|
      invariant start < pos <= |expr|
      invariant AddSub(ar, expr, start) == AddSubFrom(ar, expr, pos, result)
    {
      var op := expr[pos];
      if op != '+' && op != '-' {
        break;
      }
      var next := ParseMulDiv(ar, expr, pos + 1);
      if next.Err? {
        return Err(next.error);
      }
      var (right, newPos) := next.value;
      pos := newPos;
      if op == '+' {
        result := ar.add(result, right);
      } else {
        result := ar.sub(result, right);
      }
    }
    r := Ok(result);
  }

  method ParseMulDiv<N>(ar: Arithmetic<N>, expr: string, start: nat) returns (r: Result<(N, nat)>)
    requires start <= |expr|
    ensures r == MulDiv(ar, expr, start)
    decreases |expr| - start, 2
  {
    var first := ParseNumber(ar, expr, start);
    if first.Err? {
      return Err(first.error);
    }
    var (result, pos) := first.value;
    while pos < |expr|
      invariant start < pos <= |expr|
      invariant MulDiv(ar, expr, start) == MulDivFrom(ar, expr, pos, result)
    {
      var op := expr[pos];
      if op != '*' && op != '/' {
        break;
      }
      var next := ParseNumber(ar, expr, pos + 1);
      if next.Err? {
        return Err(next.error);
      }
      var (right, newPos) := next.value;
      if op == '*' {
        result := ar.mul(result, right);
      } else {
        if ar.isZero(right) {
          return Err(DivisionByZero);
        }
        result := ar.div(result, right);
      }
      pos := newPos;
    }
    r := Ok((result, pos));
  }

  /** The scan for the parenthesis that closes the one before `start`. */
  method FindClose(expr: string, start: nat) returns (r: Result<nat>)
    requires start <= |expr|
    ensures r == AfterClose(expr, start, 1)
  {
    var depth := 1;
    for i := start to |expr|
      invariant depth > 0
      invariant AfterClose(expr, start, 1) == AfterClose(expr, i, depth)
    {
      if expr[i] == '(' {
        depth := depth + 1;
      } else if expr[i] == ')' {
        depth := depth - 1;
        if depth == 0 {
          return Ok(i + 1);
        }
      }
    }
    r := Err(UnmatchedParenthesis);
  }

  method SkipNumber(expr: string, start: nat) returns (pos: nat)
    requires start <= |expr|
    ensures pos == NumberEnd(expr, start)
  {
    pos := start;
    while pos < |expr| && IsNumberChar(expr[pos])
      invariant start <= pos <= |expr|
      invariant NumberEnd(expr, start) == NumberEnd(expr, pos)
    {
      pos := pos + 1;
    }
  }

  method ParseNumber<N>(ar: Arithmetic<N>, expr: string, start: nat) returns (r: Result<(N, nat)>)
    requires start <= |expr|
    ensures r == Number(ar, expr, start)
    decreases |expr| - start, 0
  {
    var pos := start;
    if pos >= |expr| {
      return Err(UnexpectedEnd);
    }

    if expr[pos] == '(' {
      pos := pos + 1;
      var inner := EvaluateExpression(ar, expr[pos..]);
      if inner.Err? {
        return Err(inner.error);
      }
      var close := FindClose(expr, pos);
      if close.Err? {
        return Err(close.error);
      }
      return Ok((inner.value, close.value));
    }

    var negative := false;
    if expr[pos] == '-' {
      negative := true;
      pos := pos + 1;
    }
    var first := pos;
    pos := SkipNumber(expr, first);
    if first == pos {
      return Err(ExpectedNumber);
    }
    var parsed := ar.literal(expr[first..pos]);
    if parsed.Err? {
      return Err(parsed.error);
    }
    var num := parsed.value;
    if negative {
      num := ar.neg(num);
    }
    r := Ok((num, pos));
  }

  // ---------------------------------------------------------------------------
  // Exact reals
  // ---------------------------------------------------------------------------

  predicate AllDigits(s: string) {
    forall k :: 0 <= k < |s| ==> IsDigit(s[k])
  }

  function Digits(s: string): nat
    requires AllDigits(s)
  {
    if s == [] then 0
    else
      assert IsDigit(s[|s| - 1]);
      10 * Digits(s[..|s| - 1]) + (s[|s| - 1] as int - '0' as int)
  }

  function PowerOfTen(n: nat): (p: nat)
    ensures p > 0
  {
    if n == 0 then 1 else 10 * PowerOfTen(n - 1)
  }

  /** The position of the first decimal point at or after `from`, or the length of the text. */
  function PointIndex(s: string, from: nat): (i: nat)
    requires from <= |s|
    ensures from <= i <= |s|
    ensures i < |s| ==> s[i] == '.'
    decreases |s| - from
  {
    if from == |s| || s[from] == '.' then from else PointIndex(s, from + 1)
  }

  /** A decimal numeral: digits with at most one point among them, and at least one digit. */
  function DecimalValue(s: string): Result<real> {
    var i := PointIndex(s, 0);
    if !AllDigits(s[..i]) then Err(BadNumber)
    else if i == |s| then
      if s == [] then Err(BadNumber) else Ok(Digits(s[..i]) as real)
    else if |s| == 1 || !AllDigits(s[i + 1..]) then Err(BadNumber)
    else Ok(Digits(s[..i]) as real + Digits(s[i + 1..]) as real / PowerOfTen(|s| - i - 1) as real)
  }

  const Reals: Arithmetic<real> := Arithmetic(
    DecimalValue,
    (a: real) => -a,
    (a: real, b: real) => a + b,
    (a: real, b: real) => a - b,
    (a: real, b: real) => a * b,
    (a: real, b: real) => if b == 0.0 then 0.0 else a / b,
    (a: real) => a == 0.0)
}
