/** What the evaluator accepts, and what it makes of it.

    A text evaluates to a number exactly if it begins with an expression, spaces apart, that ends where
    nothing continues it, and the number is then the value of that expression. Expressions are those of
    the usual grammar, printed with the parentheses that precedence and left associativity require,
    except that anything may stand unread before a closing parenthesis, as it may at the end. */
module EvaluatorCorrect {
  import opened Evaluator

  datatype Op = Plus | Minus | Times | Over

  /** Literals carry their text; `Neg` is the sign the grammar allows before a literal only. */
  datatype Expr =
    | Num(text: string)
    | Neg(text: string)
    | Paren(inner: Expr)
    | Bin(op: Op, left: Expr, right: Expr)

  predicate IsNumeral<N>(ar: Arithmetic<N>, s: string) {
    s != [] && AllNumberChars(s) && ar.literal(s).Ok?
  }

  predicate WellFormed<N>(ar: Arithmetic<N>, e: Expr) {
    match e
    case Num(s) => IsNumeral(ar, s)
    case Neg(s) => IsNumeral(ar, s)
    case Paren(inner) => WellFormed(ar, inner)
    case Bin(_, l, r) => WellFormed(ar, l) && WellFormed(ar, r)
  }

  /** The mathematical value: undefined exactly when some divisor is zero (see `UndefinedIffZeroDivisor`). */
  function Value<N>(ar: Arithmetic<N>, e: Expr): Result<N>
    requires WellFormed(ar, e)
  {
    match e
    case Num(s) => Ok(ar.literal(s).value)
    case Neg(s) => Ok(ar.neg(ar.literal(s).value))
    case Paren(inner) => Value(ar, inner)
    case Bin(op, l, r) =>
      if Value(ar, l).Err? then Value(ar, l)
      else if Value(ar, r).Err? then Value(ar, r)
      else Apply(ar, op, Value(ar, l).value, Value(ar, r).value)
  }

  function Apply<N>(ar: Arithmetic<N>, op: Op, l: N, r: N): Result<N> {
    match op
    case Plus => Ok(ar.add(l, r))
    case Minus => Ok(ar.sub(l, r))
    case Times => Ok(ar.mul(l, r))
    case Over => if ar.isZero(r) then Err(DivisionByZero) else Ok(ar.div(l, r))
  }

  /** Some division in the tree has a divisor whose value is zero. */
  ghost predicate HasZeroDivisor<N>(ar: Arithmetic<N>, e: Expr)
    requires WellFormed(ar, e)
  {
    match e
    case Num(_) => false
    case Neg(_) => false
    case Paren(inner) => HasZeroDivisor(ar, inner)
    case Bin(op, l, r) =>
      HasZeroDivisor(ar, l) || HasZeroDivisor(ar, r)
      || (op == Over && Value(ar, r).Ok? && ar.isZero(Value(ar, r).value))
  }

  function Symbol(op: Op): char {
    match op
    case Plus => '+'
    case Minus => '-'
    case Times => '*'
    case Over => '/'
  }

  /** 0: a sum, 1: a product, 2: an operand. */
  function Level(op: Op): nat {
    if op == Plus || op == Minus then 0 else 1
  }

  /** The text of `e` where something at least as tight as `level` is expected. */
  function Print(e: Expr, level: nat): string
    decreases e, if e.Bin? && Level(e.op) < level then 1 else 0
  {
    match e
    case Num(s) => s
    case Neg(s) => "-" + s
    case Paren(inner) => "(" + Print(inner, 0) + ")"
    case Bin(op, l, r) =>
      if Level(op) < level then "(" + Print(e, 0) + ")"
      else Print(l, Level(op)) + [Symbol(op)] + Print(r, Level(op) + 1)
  }

  // ---------------------------------------------------------------------------
  // Texts the parser reads
  // ---------------------------------------------------------------------------

  /** A literal that ends at `pos` is complete: only behind a parenthesis may a digit follow. */
  predicate LiteralEnds(s: string, pos: nat) {
    0 < pos < |s| ==> !IsNumberChar(s[pos]) || s[pos - 1] == ')'
  }

  /** No operator of a product stands at `pos`. */
  predicate NoFactorAt(s: string, pos: nat) {
    pos < |s| ==> s[pos] != '*' && s[pos] != '/'
  }

  /** Nothing at `pos` continues an expression that ends there. */
  predicate Stops(s: string, pos: nat) {
    && LiteralEnds(s, pos)
    && NoFactorAt(s, pos)
    && (pos < |s| ==> s[pos] != '+' && s[pos] != '-')
  }

  function Sign(c: char): int {
    if c == '(' then 1 else if c == ')' then -1 else 0
  }

  /** How many more parentheses are opened than closed in `s[from..end]`. */
  function Opened(s: string, from: nat, end: nat): int
    requires from <= end <= |s|
    decreases end
  {
    if from == end then 0 else Opened(s, from, end - 1) + Sign(s[end - 1])
  }

  /** The parenthesis that ends at `to` closes the outermost of `depth` that are open at `from`: never
      before are as many closed as are open. */
  ghost predicate Closes(s: string, from: nat, to: nat, depth: nat) {
    && from < to <= |s|
    && depth + Opened(s, from, to) == 0
    && forall i :: from <= i < to ==> depth + Opened(s, from, i) > 0
  }

  /** `s[from..to]` is a text of `e` where something at least as tight as `level` is expected: the
      printed text, except that anything may stand unread before a closing parenthesis. */
  ghost predicate Reads(s: string, from: nat, to: nat, e: Expr, level: nat)
    decreases e, if e.Bin? && Level(e.op) < level then 3 else 1
  {
    && from < to <= |s|
    && match e
       case Num(t) => s[from..to] == t
       case Neg(t) => s[from] == '-' && s[from + 1..to] == t
       case Paren(inner) => ReadsInParens(s, from, to, inner)
       case Bin(op, _, _) =>
         if Level(op) < level then ReadsInParens(s, from, to, e)
         else exists mid: nat :: ReadsOperation(s, from, mid, to, e)
  }

  /** The two operands of `e`, with its operator between them at `mid`. */
  ghost predicate ReadsOperation(s: string, from: nat, mid: nat, to: nat, e: Expr)
    requires e.Bin?
    decreases e, 0
  {
    && from < mid < to <= |s|
    && Reads(s, from, mid, e.left, Level(e.op))
    && s[mid] == Symbol(e.op)
    && Reads(s, mid + 1, to, e.right, Level(e.op) + 1)
  }

  /** A text of `e` that ends at `end`, inside parentheses that close before `to`. */
  ghost predicate ReadsInside(s: string, from: nat, end: nat, to: nat, e: Expr)
    decreases e, 2, 0
  {
    from < end < to <= |s| && Reads(s, from + 1, end, e, 0) && Stops(s, end)
  }

  ghost predicate ReadsInParens(s: string, from: nat, to: nat, e: Expr)
    decreases e, 2
  {
    && from < to <= |s|
    && s[from] == '('
    && Closes(s, from + 1, to, 1)
    && exists end: nat :: ReadsInside(s, from, end, to, e)
  }

  /** `s` begins with a text of `e`, which ends at `end`. */
  ghost predicate BeginsWith<N>(ar: Arithmetic<N>, s: string, e: Expr, end: nat) {
    WellFormed(ar, e) && Reads(s, 0, end, e, 0) && Stops(s, end)
  }

  // ---------------------------------------------------------------------------
  // Evaluating a suffix
  // ---------------------------------------------------------------------------

  /** A text without spaces loses nothing when spaces are removed. */
  lemma {:induction false} StripNothing(s: string)
    requires ' ' !in s
    ensures StripSpaces(s) == s
  {
    if s != [] {
      assert s[0] in s;
      assert forall c :: c in s[1..] ==> c in s;
      StripNothing(s[1..]);
    }
  }

  lemma {:induction false} NumberEndShift(s: string, k: nat, pos: nat)
    requires k + pos <= |s|
    ensures NumberEnd(s, k + pos) == k + NumberEnd(s[k..], pos)
    decreases |s| - pos
  {
    if k + pos < |s| && IsNumberChar(s[k + pos]) {
      NumberEndShift(s, k, pos + 1);
    }
  }

  function Shifted<T>(k: nat, r: Result<(T, nat)>): Result<(T, nat)> {
    match r
    case Err(e) => Err(e)
    case Ok((value, end)) => Ok((value, k + end))
  }

  lemma {:induction false} AfterCloseShift(s: string, k: nat, pos: nat, depth: nat)
    requires k + pos <= |s| && depth > 0
    ensures var here, there := AfterClose(s, k + pos, depth), AfterClose(s[k..], pos, depth);
            if there.Err? then here == there else here == Ok(k + there.value)
    decreases |s| - pos
  {
    if k + pos < |s| {
      assert s[k..][pos] == s[k + pos];
      if s[k + pos] == '(' {
        AfterCloseShift(s, k, pos + 1, depth + 1);
      } else if s[k + pos] == ')' && depth > 1 {
        AfterCloseShift(s, k, pos + 1, depth - 1);
      } else if s[k + pos] != ')' {
        AfterCloseShift(s, k, pos + 1, depth);
      }
    }
  }

  /** A parenthesised operand, read off what the inside is worth and where it is closed. */
  lemma NumberOfParens<N>(ar: Arithmetic<N>, s: string, pos: nat, inner: Result<N>, close: Result<nat>)
    requires pos < |s| && s[pos] == '('
    requires inner == EvalExpression(ar, s[pos + 1..]) && close == AfterClose(s, pos + 1, 1)
    ensures Number(ar, s, pos)
         == if inner.Err? then Err(inner.error) else if close.Err? then Err(close.error)
            else Ok((inner.value, close.value))
  {
  }

  lemma ParensShift<N>(ar: Arithmetic<N>, s: string, k: nat, rest: string, pos: nat)
    requires k + pos < |s| && rest == s[k..] && s[k + pos] == '('
    ensures Number(ar, s, k + pos) == Shifted(k, Number(ar, rest, pos))
  {
    assert rest[pos] == '(';
    assert rest[pos + 1..] == s[k + pos + 1..];
    var inner := EvalExpression(ar, rest[pos + 1..]);
    AfterCloseShift(s, k, pos + 1, 1);
    NumberOfParens(ar, s, k + pos, inner, AfterClose(s, k + pos + 1, 1));
    NumberOfParens(ar, rest, pos, inner, AfterClose(rest, pos + 1, 1));
  }

  lemma SliceShift(s: string, k: nat, rest: string, from: nat, to: nat)
    requires k <= |s| && rest == s[k..] && from <= to <= |rest|
    ensures rest[from..to] == s[k + from..k + to]
  {
  }

  lemma LiteralShift<N>(ar: Arithmetic<N>, s: string, k: nat, rest: string, pos: nat)
    requires k + pos < |s| && rest == s[k..] && s[k + pos] != '('
    ensures Number(ar, s, k + pos) == Shifted(k, Number(ar, rest, pos))
  {
    var start := if s[k + pos] == '-' then pos + 1 else pos;
    NumberEndShift(s, k, start);
    assert rest[pos] == s[k + pos];
    SliceShift(s, k, rest, start, NumberEnd(rest, start));
  }

  lemma NumberShift<N>(ar: Arithmetic<N>, s: string, k: nat, rest: string, pos: nat)
    requires k + pos <= |s| && rest == s[k..]
    ensures Number(ar, s, k + pos) == Shifted(k, Number(ar, rest, pos))
  {
    if k + pos == |s| {
      assert Number(ar, rest, pos) == Err(UnexpectedEnd);
    } else if s[k + pos] == '(' {
      ParensShift(ar, s, k, rest, pos);
    } else {
      LiteralShift(ar, s, k, rest, pos);
    }
  }

  /** What one turn of the product's loop makes of the operand it reads: a new product and where it ends. */
  function Turn<N>(ar: Arithmetic<N>, op: char, left: N, right: Result<(N, nat)>): Result<(N, nat)> {
    match right
    case Err(e) => Err(e)
    case Ok((value, end)) =>
      match Scale(ar, op, left, value)
      case Err(e) => Err(e)
      case Ok(scaled) => Ok((scaled, end))
  }

  lemma TurnOfShifted<N>(ar: Arithmetic<N>, op: char, left: N, k: nat, right: Result<(N, nat)>)
    ensures Turn(ar, op, left, Shifted(k, right)) == Shifted(k, Turn(ar, op, left, right))
  {
  }

  lemma ProductTurn<N>(ar: Arithmetic<N>, s: string, pos: nat, left: N, right: Result<(N, nat)>)
    requires pos < |s| && !NoFactorAt(s, pos) && right == Number(ar, s, pos + 1)
    ensures var next := Turn(ar, s[pos], left, right);
            && (next.Err? ==> MulDivFrom(ar, s, pos, left) == next)
            && (next.Ok? ==> pos < next.value.1 <= |s|
                             && MulDivFrom(ar, s, pos, left) == MulDivFrom(ar, s, next.value.1, next.value.0))
  {
  }

  /** `rest` is what `s` holds from `k` on. */
  ghost predicate Suffix(s: string, k: nat, rest: string) {
    k + |rest| == |s| && forall i :: 0 <= i < |rest| ==> rest[i] == s[k + i]
  }

  lemma SuffixIs(s: string, k: nat, rest: string)
    requires Suffix(s, k, rest)
    ensures rest == s[k..]
  {
  }

  /** What the turns of the loops in the whole text and in the rest of it make of the same product. */
  lemma BothTurn<N>(ar: Arithmetic<N>, s: string, k: nat, rest: string, pos: nat, acc: N)
      returns (here: Result<(N, nat)>, there: Result<(N, nat)>)
    requires Suffix(s, k, rest) && k + pos < |s| && !NoFactorAt(s, k + pos)
    ensures here == Number(ar, s, k + pos + 1) && there == Number(ar, rest, pos + 1)
    ensures Turn(ar, s[k + pos], acc, here) == Shifted(k, Turn(ar, rest[pos], acc, there))
  {
    SuffixIs(s, k, rest);
    here, there := Number(ar, s, k + pos + 1), Number(ar, rest, pos + 1);
    NumberShift(ar, s, k, rest, pos + 1);
    TurnOfShifted(ar, rest[pos], acc, k, there);
  }

  lemma TurnHere<N>(ar: Arithmetic<N>, s: string, k: nat, pos: nat, acc: N, here: Result<(N, nat)>,
                    next: Result<(N, nat)>)
    requires k + pos < |s| && !NoFactorAt(s, k + pos) && here == Number(ar, s, k + pos + 1)
    requires Turn(ar, s[k + pos], acc, here) == Shifted(k, next)
    ensures next.Err? ==> MulDivFrom(ar, s, k + pos, acc) == next
    ensures next.Ok? ==> k + next.value.1 <= |s|
                         && MulDivFrom(ar, s, k + pos, acc) == MulDivFrom(ar, s, k + next.value.1, next.value.0)
  {
    ProductTurn(ar, s, k + pos, acc, here);
  }

  /** Both loops make the same turn: they fail alike, or go on alike. */
  lemma SameTurn<N>(ar: Arithmetic<N>, s: string, k: nat, rest: string, pos: nat, acc: N)
      returns (next: Result<(N, nat)>)
    requires Suffix(s, k, rest) && k + pos < |s| && !NoFactorAt(s, k + pos)
    ensures next.Err? ==> MulDivFrom(ar, s, k + pos, acc) == next && MulDivFrom(ar, rest, pos, acc) == next
    ensures next.Ok? ==>
              && pos < next.value.1 <= |rest|
              && MulDivFrom(ar, s, k + pos, acc) == MulDivFrom(ar, s, k + next.value.1, next.value.0)
              && MulDivFrom(ar, rest, pos, acc) == MulDivFrom(ar, rest, next.value.1, next.value.0)
  {
    var here, there := BothTurn(ar, s, k, rest, pos, acc);
    next := Turn(ar, rest[pos], acc, there);
    TurnHere(ar, s, k, pos, acc, here, next);
    ProductTurn(ar, rest, pos, acc, there);
  }

  /** Both loops stop at once. */
  lemma BothStop<N>(ar: Arithmetic<N>, s: string, k: nat, rest: string, pos: nat, acc: N)
    requires Suffix(s, k, rest) && k + pos <= |s| && NoFactorAt(s, k + pos)
    ensures MulDivFrom(ar, s, k + pos, acc) == Shifted(k, MulDivFrom(ar, rest, pos, acc))
  {
    ProductStops(ar, s, k + pos, acc);
    ProductStops(ar, rest, pos, acc);
  }

  lemma {:induction false} MulDivFromShift<N>(ar: Arithmetic<N>, s: string, k: nat, rest: string, pos: nat, acc: N)
    requires Suffix(s, k, rest) && k + pos <= |s|
    ensures MulDivFrom(ar, s, k + pos, acc) == Shifted(k, MulDivFrom(ar, rest, pos, acc))
    decreases |s| - pos
  {
    if NoFactorAt(s, k + pos) {
      BothStop(ar, s, k, rest, pos, acc);
    } else {
      var next := SameTurn(ar, s, k, rest, pos, acc);
      if next.Ok? {
        MulDivFromShift(ar, s, k, rest, next.value.1, next.value.0);
      }
    }
  }

  lemma ProductStarts<N>(ar: Arithmetic<N>, s: string, pos: nat, first: Result<(N, nat)>)
    requires pos <= |s| && first == Number(ar, s, pos)
    ensures first.Err? ==> MulDiv(ar, s, pos) == first
    ensures first.Ok? ==> MulDiv(ar, s, pos) == MulDivFrom(ar, s, first.value.1, first.value.0)
  {
  }

  lemma BothFirst<N>(ar: Arithmetic<N>, s: string, k: nat, rest: string, pos: nat)
      returns (here: Result<(N, nat)>, there: Result<(N, nat)>)
    requires Suffix(s, k, rest) && k + pos <= |s|
    ensures here == Number(ar, s, k + pos) && there == Number(ar, rest, pos) && here == Shifted(k, there)
    ensures there.Ok? ==> k + there.value.1 <= |s|
  {
    SuffixIs(s, k, rest);
    here, there := Number(ar, s, k + pos), Number(ar, rest, pos);
    NumberShift(ar, s, k, rest, pos);
  }

  lemma FirstHere<N>(ar: Arithmetic<N>, s: string, k: nat, pos: nat, here: Result<(N, nat)>, first: Result<(N, nat)>)
    requires k + pos <= |s| && here == Number(ar, s, k + pos) && here == Shifted(k, first)
    ensures first.Err? ==> MulDiv(ar, s, k + pos) == first
    ensures first.Ok? ==> k + first.value.1 <= |s|
                          && MulDiv(ar, s, k + pos) == MulDivFrom(ar, s, k + first.value.1, first.value.0)
  {
    ProductStarts(ar, s, k + pos, here);
  }

  lemma MulDivShift<N>(ar: Arithmetic<N>, s: string, k: nat, rest: string, pos: nat)
    requires Suffix(s, k, rest) && k + pos <= |s|
    ensures MulDiv(ar, s, k + pos) == Shifted(k, MulDiv(ar, rest, pos))
  {
    var here, there := BothFirst(ar, s, k, rest, pos);
    FirstHere(ar, s, k, pos, here, there);
    ProductStarts(ar, rest, pos, there);
    if there.Ok? {
      MulDivFromShift(ar, s, k, rest, there.value.1, there.value.0);
    }
  }

  /** What one turn of the sum's loop makes of the product it reads. */
  function SumTurn<N>(ar: Arithmetic<N>, op: char, left: N, right: Result<(N, nat)>): Result<(N, nat)> {
    match right
    case Err(e) => Err(e)
    case Ok((value, end)) => Ok((if op == '+' then ar.add(left, value) else ar.sub(left, value), end))
  }

  lemma SumTurnOfShifted<N>(ar: Arithmetic<N>, op: char, left: N, k: nat, right: Result<(N, nat)>)
    ensures SumTurn(ar, op, left, Shifted(k, right)) == Shifted(k, SumTurn(ar, op, left, right))
  {
  }

  lemma SumGoesOn<N>(ar: Arithmetic<N>, s: string, pos: nat, left: N, right: Result<(N, nat)>)
    requires pos < |s| && (s[pos] == '+' || s[pos] == '-') && right == MulDiv(ar, s, pos + 1)
    ensures var next := SumTurn(ar, s[pos], left, right);
            && (next.Err? ==> AddSubFrom(ar, s, pos, left) == Err(next.error))
            && (next.Ok? ==> pos < next.value.1 <= |s|
                             && AddSubFrom(ar, s, pos, left) == AddSubFrom(ar, s, next.value.1, next.value.0))
  {
  }

  lemma BothSum<N>(ar: Arithmetic<N>, s: string, k: nat, rest: string, pos: nat, acc: N)
      returns (here: Result<(N, nat)>, there: Result<(N, nat)>)
    requires Suffix(s, k, rest) && k + pos < |s| && (s[k + pos] == '+' || s[k + pos] == '-')
    ensures here == MulDiv(ar, s, k + pos + 1) && there == MulDiv(ar, rest, pos + 1)
    ensures SumTurn(ar, s[k + pos], acc, here) == Shifted(k, SumTurn(ar, rest[pos], acc, there))
  {
    SuffixIs(s, k, rest);
    here, there := MulDiv(ar, s, k + pos + 1), MulDiv(ar, rest, pos + 1);
    MulDivShift(ar, s, k, rest, pos + 1);
    SumTurnOfShifted(ar, rest[pos], acc, k, there);
  }

  lemma SumHere<N>(ar: Arithmetic<N>, s: string, k: nat, pos: nat, acc: N, here: Result<(N, nat)>,
                   next: Result<(N, nat)>)
    requires k + pos < |s| && (s[k + pos] == '+' || s[k + pos] == '-') && here == MulDiv(ar, s, k + pos + 1)
    requires SumTurn(ar, s[k + pos], acc, here) == Shifted(k, next)
    ensures next.Err? ==> AddSubFrom(ar, s, k + pos, acc) == Err(next.error)
    ensures next.Ok? ==> k + next.value.1 <= |s|
                         && AddSubFrom(ar, s, k + pos, acc) == AddSubFrom(ar, s, k + next.value.1, next.value.0)
  {
    SumGoesOn(ar, s, k + pos, acc, here);
  }

  /** Both loops make the same turn. */
  lemma SameSum<N>(ar: Arithmetic<N>, s: string, k: nat, rest: string, pos: nat, acc: N)
      returns (next: Result<(N, nat)>)
    requires Suffix(s, k, rest) && k + pos < |s| && (s[k + pos] == '+' || s[k + pos] == '-')
    ensures next.Err? ==> AddSubFrom(ar, s, k + pos, acc) == AddSubFrom(ar, rest, pos, acc)
    ensures next.Ok? ==>
              && pos < next.value.1 <= |rest|
              && AddSubFrom(ar, s, k + pos, acc) == AddSubFrom(ar, s, k + next.value.1, next.value.0)
              && AddSubFrom(ar, rest, pos, acc) == AddSubFrom(ar, rest, next.value.1, next.value.0)
  {
    var here, there := BothSum(ar, s, k, rest, pos, acc);
    next := SumTurn(ar, rest[pos], acc, there);
    SumHere(ar, s, k, pos, acc, here, next);
    SumGoesOn(ar, rest, pos, acc, there);
  }

  lemma {:induction false} AddSubFromShift<N>(ar: Arithmetic<N>, s: string, k: nat, rest: string, pos: nat, acc: N)
    requires Suffix(s, k, rest) && k + pos <= |s|
    ensures AddSubFrom(ar, s, k + pos, acc) == AddSubFrom(ar, rest, pos, acc)
    decreases |s| - pos
  {
    if k + pos < |s| && (s[k + pos] == '+' || s[k + pos] == '-') {
      var next := SameSum(ar, s, k, rest, pos, acc);
      if next.Ok? {
        AddSubFromShift(ar, s, k, rest, next.value.1, next.value.0);
      }
    } else {
      assert k + pos < |s| ==> rest[pos] == s[k + pos];
    }
  }

  lemma AddSubShift<N>(ar: Arithmetic<N>, s: string, k: nat)
    requires k <= |s|
    ensures AddSub(ar, s, k) == AddSub(ar, s[k..], 0)
  {
    MulDivShift(ar, s, k, s[k..], 0);
    var left := MulDiv(ar, s[k..], 0);
    if left.Ok? {
      AddSubFromShift(ar, s, k, s[k..], left.value.1, left.value.0);
    }
  }

  /** The inside of a parenthesis is evaluated as if the rest of the text stood alone, and that is the
      same as going on behind the parenthesis. */
  lemma InsideParens<N>(ar: Arithmetic<N>, s: string, k: nat)
    requires ' ' !in s && k <= |s|
    ensures EvalExpression(ar, s[k..]) == AddSub(ar, s, k)
  {
    assert forall c :: c in s[k..] ==> c in s;
    StripNothing(s[k..]);
    AddSubShift(ar, s, k);
  }

  // ---------------------------------------------------------------------------
  // The parenthesis scan
  // ---------------------------------------------------------------------------

  lemma {:induction false} ScanSkipsNumberChars(s: string, from: nat, to: nat, depth: nat)
    requires from <= to <= |s| && depth > 0
    requires forall k :: from <= k < to ==> IsNumberChar(s[k])
    ensures AfterClose(s, from, depth) == AfterClose(s, to, depth)
    decreases |s| - from
  {
    if from < to {
      assert IsNumberChar(s[from]);
      ScanSkipsNumberChars(s, from + 1, to, depth);
    }
  }

  lemma {:induction false} OpenedFrom(s: string, from: nat, end: nat)
    requires from < end <= |s|
    ensures Opened(s, from, end) == Sign(s[from]) + Opened(s, from + 1, end)
    decreases end
  {
    if from + 1 < end {
      OpenedFrom(s, from, end - 1);
    } else {
      assert Opened(s, from, from) == 0;
    }
  }

  lemma ClosesFromNext(s: string, from: nat, to: nat, depth: nat)
    requires from < |s| && depth > 0 && depth + Sign(s[from]) > 0
    ensures Closes(s, from, to, depth) <==> Closes(s, from + 1, to, depth + Sign(s[from]))
  {
    var second, next := from + 1, depth + Sign(s[from]);
    assert Opened(s, from, from) == 0 && Opened(s, second, second) == 0;
    if Closes(s, from, to, depth) {
      OpenedFrom(s, from, to);
      forall i | second <= i < to ensures next + Opened(s, second, i) > 0 {
        OpenedFrom(s, from, i);
      }
    }
    if Closes(s, from + 1, to, next) {
      OpenedFrom(s, from, to);
      forall i | from <= i < to ensures depth + Opened(s, from, i) > 0 {
        if from < i {
          OpenedFrom(s, from, i);
        }
      }
    }
  }

  /** The scan ends at `to` exactly if the outermost parenthesis is closed there. */
  lemma {:induction false} ScanIsExact(s: string, from: nat, to: nat, depth: nat)
    requires from <= |s| && depth > 0
    ensures AfterClose(s, from, depth) == Ok(to) <==> Closes(s, from, to, depth)
    decreases |s| - from
  {
    if from < |s| {
      var next := depth + Sign(s[from]);
      if next == 0 {
        assert Opened(s, from, from) == 0 && Opened(s, from, from + 1) == -1;
      } else {
        ScanIsExact(s, from + 1, to, next);
        ClosesFromNext(s, from, to, depth);
      }
    }
  }

  /** With more parentheses open around it, the scan goes on where it would have ended. */
  lemma {:induction false} ScanDeeper(s: string, i: nat, depth: nat, to: nat, more: nat)
    requires i <= |s| && depth > 0 && more > 0
    requires AfterClose(s, i, depth) == Ok(to)
    ensures AfterClose(s, i, depth + more) == AfterClose(s, to, more)
    decreases |s| - i
  {
    if s[i] == '(' {
      ScanDeeper(s, i + 1, depth + 1, to, more);
    } else if s[i] != ')' {
      ScanDeeper(s, i + 1, depth, to, more);
    } else if depth > 1 {
      ScanDeeper(s, i + 1, depth - 1, to, more);
    }
  }

  /** What is read is balanced: the scan passes over it at the depth at which it entered it. */
  lemma {:induction false} ScanSkipsRead<N>(ar: Arithmetic<N>, s: string, from: nat, to: nat, e: Expr, level: nat,
                                            depth: nat)
    requires WellFormed(ar, e) && Reads(s, from, to, e, level) && depth > 0
    ensures AfterClose(s, from, depth) == AfterClose(s, to, depth)
    decreases e, 1
  {
    match e
    case Num(t) =>
      assert forall k :: from <= k < to ==> s[k] == t[k - from];
      ScanSkipsNumberChars(s, from, to, depth);
    case Neg(t) =>
      assert forall k :: from + 1 <= k < to ==> s[k] == t[k - (from + 1)];
      ScanSkipsNumberChars(s, from + 1, to, depth);
    case Paren(_) =>
      ScanSkipsParens(s, from, to, depth);
    case Bin(op, _, _) =>
      if Level(op) < level {
        ScanSkipsParens(s, from, to, depth);
      } else {
        var mid: nat :| ReadsOperation(s, from, mid, to, e);
        ScanSkipsOperation(ar, s, from, mid, to, e, depth);
      }
  }

  lemma ScanSkipsParens(s: string, from: nat, to: nat, depth: nat)
    requires from < |s| && s[from] == '(' && Closes(s, from + 1, to, 1) && depth > 0
    ensures AfterClose(s, from, depth) == AfterClose(s, to, depth)
  {
    ScanIsExact(s, from + 1, to, 1);
    ScanDeeper(s, from + 1, 1, to, depth);
  }

  lemma {:induction false} ScanSkipsOperation<N>(ar: Arithmetic<N>, s: string, from: nat, mid: nat, to: nat, e: Expr,
                                                 depth: nat)
    requires e.Bin? && WellFormed(ar, e) && ReadsOperation(s, from, mid, to, e) && depth > 0
    ensures AfterClose(s, from, depth) == AfterClose(s, to, depth)
    decreases e, 0
  {
    ScanSkipsRead(ar, s, from, mid, e.left, Level(e.op), depth);
    ScanSkipsSymbol(s, mid, e.op, depth);
    ScanSkipsRead(ar, s, mid + 1, to, e.right, Level(e.op) + 1, depth);
  }

  lemma ScanSkipsSymbol(s: string, pos: nat, op: Op, depth: nat)
    requires pos < |s| && s[pos] == Symbol(op) && depth > 0
    ensures AfterClose(s, pos, depth) == AfterClose(s, pos + 1, depth)
  {
  }

  // ---------------------------------------------------------------------------
  // Printed texts are read
  // ---------------------------------------------------------------------------

  /** `part` occurs in `s` at `pos`. */
  predicate At(s: string, pos: nat, part: string) {
    pos + |part| <= |s| && s[pos..pos + |part|] == part
  }

  /** The parts of a printed operation. */
  lemma AtOperation(s: string, pos: nat, l: string, c: char, r: string)
    requires At(s, pos, l + [c] + r)
    ensures At(s, pos, l)
    ensures pos + |l| < |s| && s[pos + |l|] == c
    ensures At(s, pos + |l| + 1, r)
  {
    var whole := l + [c] + r;
    assert s[pos..pos + |l|] == whole[..|l|];
    assert s[pos + |l|] == whole[|l|];
    assert s[pos + |l| + 1..pos + |l| + 1 + |r|] == whole[|l| + 1..];
  }

  /** The parts of a parenthesised text. */
  lemma AtParens(s: string, pos: nat, t: string)
    requires At(s, pos, "(" + t + ")")
    ensures pos + |t| + 1 < |s|
    ensures s[pos] == '(' && At(s, pos + 1, t) && s[pos + 1 + |t|] == ')'
  {
    assert "(" + t + ")" == "" + ['('] + (t + ")");
    AtOperation(s, pos, "", '(', t + ")");
    assert t + ")" == t + [')'] + "";
    AtOperation(s, pos + 1, t, ')', "");
  }

  lemma PrintedSign(s: string, pos: nat, t: string)
    requires At(s, pos, "-" + t) && t != []
    ensures Reads(s, pos, pos + |t| + 1, Neg(t), 2)
  {
    assert "-" + t == "" + ['-'] + t;
    AtOperation(s, pos, "", '-', t);
  }

  /** The operands of a printed operation stand where its parts are. */
  lemma PrintedOperands(s: string, pos: nat, e: Expr)
    requires e.Bin? && At(s, pos, Print(e, Level(e.op)))
    ensures var mid := pos + |Print(e.left, Level(e.op))|;
            && At(s, pos, Print(e.left, Level(e.op))) && mid < |s| && s[mid] == Symbol(e.op)
            && At(s, mid + 1, Print(e.right, Level(e.op) + 1))
            && pos + |Print(e, Level(e.op))| == mid + 1 + |Print(e.right, Level(e.op) + 1)|
  {
    AtOperation(s, pos, Print(e.left, Level(e.op)), Symbol(e.op), Print(e.right, Level(e.op) + 1));
  }

  lemma {:induction false} PrintedIsRead<N>(ar: Arithmetic<N>, s: string, pos: nat, e: Expr, level: nat)
    requires WellFormed(ar, e) && At(s, pos, Print(e, level))
    ensures Reads(s, pos, pos + |Print(e, level)|, e, level)
    decreases e, if e.Bin? && Level(e.op) < level then 3 else 1
  {
    match e
    case Num(_) =>
    case Neg(t) =>
      PrintedSign(s, pos, t);
    case Paren(inner) =>
      PrintedParens(ar, s, pos, inner);
    case Bin(op, _, _) =>
      if Level(op) < level {
        PrintedParens(ar, s, pos, e);
      } else {
        assert Print(e, level) == Print(e, Level(op));
        PrintedBin(ar, s, pos, e);
        assert Reads(s, pos, pos + |Print(e, level)|, e, Level(op));
      }
  }

  lemma {:induction false} PrintedBin<N>(ar: Arithmetic<N>, s: string, pos: nat, e: Expr)
    requires e.Bin? && WellFormed(ar, e) && At(s, pos, Print(e, Level(e.op)))
    ensures Reads(s, pos, pos + |Print(e, Level(e.op))|, e, Level(e.op))
    decreases e, 0
  {
    var mid := pos + |Print(e.left, Level(e.op))|;
    PrintedOperands(s, pos, e);
    PrintedIsRead(ar, s, pos, e.left, Level(e.op));
    PrintedIsRead(ar, s, mid + 1, e.right, Level(e.op) + 1);
    assert ReadsOperation(s, pos, mid, pos + |Print(e, Level(e.op))|, e);
  }

  lemma {:induction false} PrintedParens<N>(ar: Arithmetic<N>, s: string, pos: nat, e: Expr)
    requires WellFormed(ar, e) && At(s, pos, "(" + Print(e, 0) + ")")
    ensures ReadsInParens(s, pos, pos + |Print(e, 0)| + 2, e)
    decreases e, 2
  {
    var t := Print(e, 0);
    AtParens(s, pos, t);
    PrintedIsRead(ar, s, pos + 1, e, 0);
    var end := pos + 1 + |t|;
    ScanSkipsRead(ar, s, pos + 1, end, e, 0, 1);
    ScanIsExact(s, pos + 1, end + 1, 1);
    assert ReadsInside(s, pos, end, end + 1, e);
  }

  /** The scan that starts behind an opening parenthesis ends behind the one that closes it. */
  lemma ScanFindsMatchingClose<N>(ar: Arithmetic<N>, s: string, pos: nat, e: Expr)
    requires WellFormed(ar, e) && At(s, pos, "(" + Print(e, 0) + ")")
    ensures AfterClose(s, pos + 1, 1) == Ok(pos + |Print(e, 0)| + 2)
  {
    PrintedParens(ar, s, pos, e);
    ScanIsExact(s, pos + 1, pos + |Print(e, 0)| + 2, 1);
  }

  // ---------------------------------------------------------------------------
  // What is read is evaluated
  // ---------------------------------------------------------------------------

  lemma {:induction false} NumberEndsAt(s: string, from: nat, to: nat)
    requires from < to <= |s| && LiteralEnds(s, to)
    requires forall k :: from <= k < to ==> IsNumberChar(s[k])
    ensures NumberEnd(s, from) == to
    decreases |s| - from
  {
    assert IsNumberChar(s[from]);
    if from + 1 < to {
      NumberEndsAt(s, from + 1, to);
    }
  }

  /** A literal with its optional sign. */
  lemma OperandLiteral<N>(ar: Arithmetic<N>, s: string, from: nat, to: nat, e: Expr)
    requires WellFormed(ar, e) && (e.Num? || e.Neg?)
    requires Reads(s, from, to, e, 2) && LiteralEnds(s, to)
    ensures Number(ar, s, from) == Ok((Value(ar, e).value, to))
  {
    var start := if e.Neg? then from + 1 else from;
    assert s[start..to] == e.text;
    assert forall k :: start <= k < to ==> s[k] == e.text[k - start];
    assert IsNumberChar(s[start]);
    NumberEndsAt(s, start, to);
    assert Number(ar, s, from) == SignedLiteral(ar, e.text, e.Neg?, to);
  }

  lemma {:induction false} OperandParens<N>(ar: Arithmetic<N>, s: string, from: nat, to: nat, e: Expr)
    requires WellFormed(ar, e) && ' ' !in s && ReadsInParens(s, from, to, e)
    ensures Value(ar, e).Err? ==> Number(ar, s, from) == Err(Value(ar, e).error)
    ensures Value(ar, e).Ok? ==> Number(ar, s, from) == Ok((Value(ar, e).value, to))
    decreases e, 5
  {
    var end: nat :| ReadsInside(s, from, end, to, e);
    ScanIsExact(s, from + 1, to, 1);
    SumValue(ar, s, from + 1, end, e);
    InsideParens(ar, s, from + 1);
  }

  lemma {:induction false} OperandValue<N>(ar: Arithmetic<N>, s: string, from: nat, to: nat, e: Expr)
    requires WellFormed(ar, e) && ' ' !in s
    requires Reads(s, from, to, e, 2) && LiteralEnds(s, to)
    ensures Value(ar, e).Err? ==> Number(ar, s, from) == Err(Value(ar, e).error)
    ensures Value(ar, e).Ok? ==> Number(ar, s, from) == Ok((Value(ar, e).value, to))
    decreases e, if e.Bin? then 6 else 2
  {
    match e
    case Num(_) => OperandLiteral(ar, s, from, to, e);
    case Neg(_) => OperandLiteral(ar, s, from, to, e);
    case Paren(inner) => OperandParens(ar, s, from, to, inner);
    case Bin(_, _, _) => OperandParens(ar, s, from, to, e);
  }

  lemma ProductStep<N>(ar: Arithmetic<N>, s: string, pos: nat, op: Op, left: N, right: Result<(N, nat)>)
    requires pos < |s| && s[pos] == Symbol(op) && Level(op) == 1
    requires right == Number(ar, s, pos + 1) && right.Ok?
    ensures var scaled := Apply(ar, op, left, right.value.0);
            MulDivFrom(ar, s, pos, left)
            == if scaled.Err? then Err(scaled.error) else MulDivFrom(ar, s, right.value.1, scaled.value)
  {
    ProductTurn(ar, s, pos, left, right);
    assert Apply(ar, op, left, right.value.0) == Scale(ar, s[pos], left, right.value.0);
  }

  /** Parsing the text of a product leaves the loop with the product's value, at the product's end. */
  lemma {:induction false} ProductValue<N>(ar: Arithmetic<N>, s: string, from: nat, to: nat, e: Expr)
    requires WellFormed(ar, e) && ' ' !in s
    requires Reads(s, from, to, e, 1) && LiteralEnds(s, to)
    ensures Value(ar, e).Err? ==> MulDiv(ar, s, from) == Err(Value(ar, e).error)
    ensures Value(ar, e).Ok? ==> MulDiv(ar, s, from) == MulDivFrom(ar, s, to, Value(ar, e).value)
    decreases e, if e.Bin? then (if Level(e.op) == 0 then 7 else 1) else 3
  {
    if e.Bin? && Level(e.op) == 1 {
      ProductOfTwo(ar, s, from, to, e);
    } else {
      assert Reads(s, from, to, e, 2);
      OperandValue(ar, s, from, to, e);
    }
  }

  lemma {:induction false} ProductOfTwo<N>(ar: Arithmetic<N>, s: string, from: nat, to: nat, e: Expr)
    requires WellFormed(ar, e) && ' ' !in s && e.Bin? && Level(e.op) == 1
    requires Reads(s, from, to, e, 1) && LiteralEnds(s, to)
    ensures Value(ar, e).Err? ==> MulDiv(ar, s, from) == Err(Value(ar, e).error)
    ensures Value(ar, e).Ok? ==> MulDiv(ar, s, from) == MulDivFrom(ar, s, to, Value(ar, e).value)
    decreases e, 0
  {
    var mid: nat :| ReadsOperation(s, from, mid, to, e);
    ProductValue(ar, s, from, mid, e.left);
    OperandValue(ar, s, mid + 1, to, e.right);
    var lv, rv := Value(ar, e.left), Value(ar, e.right);
    if lv.Ok? && rv.Ok? {
      ProductStep(ar, s, mid, e.op, lv.value, Number(ar, s, mid + 1));
    }
  }

  /** One turn of the sum's loop. */
  lemma SumStep<N>(ar: Arithmetic<N>, s: string, pos: nat, op: Op, left: N, right: Result<(N, nat)>)
    requires pos < |s| && s[pos] == Symbol(op) && Level(op) == 0
    requires right == MulDiv(ar, s, pos + 1) && right.Ok?
    ensures Apply(ar, op, left, right.value.0).Ok?
    ensures AddSubFrom(ar, s, pos, left) == AddSubFrom(ar, s, right.value.1, Apply(ar, op, left, right.value.0).value)
  {
  }

  /** At the end of a product its loop stops. */
  lemma ProductStops<N>(ar: Arithmetic<N>, s: string, pos: nat, value: N)
    requires pos <= |s| && NoFactorAt(s, pos)
    ensures MulDivFrom(ar, s, pos, value) == Ok((value, pos))
  {
  }

  lemma {:induction false} SumValue<N>(ar: Arithmetic<N>, s: string, from: nat, to: nat, e: Expr)
    requires WellFormed(ar, e) && ' ' !in s
    requires Reads(s, from, to, e, 0) && LiteralEnds(s, to) && NoFactorAt(s, to)
    ensures Value(ar, e).Err? ==> AddSub(ar, s, from) == Err(Value(ar, e).error)
    ensures Value(ar, e).Ok? ==> AddSub(ar, s, from) == AddSubFrom(ar, s, to, Value(ar, e).value)
    decreases e, if e.Bin? && Level(e.op) == 0 then 1 else 4
  {
    if e.Bin? && Level(e.op) == 0 {
      SumOfTwo(ar, s, from, to, e);
    } else {
      assert Reads(s, from, to, e, 1);
      ProductValue(ar, s, from, to, e);
      if Value(ar, e).Ok? {
        ProductStops(ar, s, to, Value(ar, e).value);
      }
    }
  }

  lemma {:induction false} SumOfTwo<N>(ar: Arithmetic<N>, s: string, from: nat, to: nat, e: Expr)
    requires WellFormed(ar, e) && ' ' !in s && e.Bin? && Level(e.op) == 0
    requires Reads(s, from, to, e, 0) && LiteralEnds(s, to) && NoFactorAt(s, to)
    ensures Value(ar, e).Err? ==> AddSub(ar, s, from) == Err(Value(ar, e).error)
    ensures Value(ar, e).Ok? ==> AddSub(ar, s, from) == AddSubFrom(ar, s, to, Value(ar, e).value)
    decreases e, 0
  {
    var mid: nat :| ReadsOperation(s, from, mid, to, e);
    SumValue(ar, s, from, mid, e.left);
    ProductValue(ar, s, mid + 1, to, e.right);
    var lv, rv := Value(ar, e.left), Value(ar, e.right);
    if rv.Ok? {
      ProductStops(ar, s, to, rv.value);
    }
    if lv.Ok? && rv.Ok? {
      SumStep(ar, s, mid, e.op, lv.value, MulDiv(ar, s, mid + 1));
    }
  }

  // ---------------------------------------------------------------------------
  // What is evaluated was read
  // ---------------------------------------------------------------------------

  /** `e` is what has been read between `from` and `to`, and its value is `value`. */
  ghost predicate Has<N>(ar: Arithmetic<N>, s: string, from: nat, to: nat, e: Expr, level: nat, value: N) {
    && WellFormed(ar, e)
    && (e.Bin? ==> Level(e.op) >= level)
    && Reads(s, from, to, e, level)
    && LiteralEnds(s, to)
    && Value(ar, e) == Ok(value)
  }

  lemma ReadLiteral<N>(ar: Arithmetic<N>, s: string, pos: nat) returns (e: Expr)
    requires pos < |s| && s[pos] != '(' && Number(ar, s, pos).Ok?
    ensures Has(ar, s, pos, Number(ar, s, pos).value.1, e, 2, Number(ar, s, pos).value.0)
  {
    var start := if s[pos] == '-' then pos + 1 else pos;
    var end := NumberEnd(s, start);
    var text := s[start..end];
    assert Number(ar, s, pos) == SignedLiteral(ar, text, s[pos] == '-', end);
    assert forall k :: 0 <= k < |text| ==> text[k] == s[start + k];
    e := if s[pos] == '-' then Neg(text) else Num(text);
  }

  lemma {:induction false} ReadOperand<N>(ar: Arithmetic<N>, s: string, pos: nat) returns (e: Expr)
    requires pos <= |s| && ' ' !in s && Number(ar, s, pos).Ok?
    ensures Has(ar, s, pos, Number(ar, s, pos).value.1, e, 2, Number(ar, s, pos).value.0)
    decreases |s| - pos, 0
  {
    if s[pos] == '(' {
      InsideParens(ar, s, pos + 1);
      var inner, end := ReadSum(ar, s, pos + 1);
      var to := AfterClose(s, pos + 1, 1).value;
      ScanSkipsRead(ar, s, pos + 1, end, inner, 0, 1);
      ScanIsExact(s, pos + 1, to, 1);
      assert ReadsInside(s, pos, end, to, inner);
      e := Paren(inner);
    } else {
      e := ReadLiteral(ar, s, pos);
    }
  }

  lemma {:induction false} ReadProduct<N>(ar: Arithmetic<N>, s: string, pos: nat) returns (e: Expr)
    requires pos <= |s| && ' ' !in s && MulDiv(ar, s, pos).Ok?
    ensures Has(ar, s, pos, MulDiv(ar, s, pos).value.1, e, 1, MulDiv(ar, s, pos).value.0)
    ensures NoFactorAt(s, MulDiv(ar, s, pos).value.1)
    decreases |s| - pos, 1
  {
    var first := ReadOperand(ar, s, pos);
    var (value, p) := Number(ar, s, pos).value;
    e := ReadProductFrom(ar, s, pos, p, first, value);
  }

  lemma {:induction false} ReadProductFrom<N>(ar: Arithmetic<N>, s: string, from: nat, pos: nat, left: Expr, acc: N)
      returns (e: Expr)
    requires from < pos <= |s| && ' ' !in s && MulDivFrom(ar, s, pos, acc).Ok?
    requires Has(ar, s, from, pos, left, 1, acc)
    ensures Has(ar, s, from, MulDivFrom(ar, s, pos, acc).value.1, e, 1, MulDivFrom(ar, s, pos, acc).value.0)
    ensures NoFactorAt(s, MulDivFrom(ar, s, pos, acc).value.1)
    decreases |s| - pos, 1
  {
    if NoFactorAt(s, pos) {
      e := left;
    } else {
      var op := if s[pos] == '*' then Times else Over;
      var right := ReadOperand(ar, s, pos + 1);
      var (value, p) := Number(ar, s, pos + 1).value;
      ProductStep(ar, s, pos, op, acc, Number(ar, s, pos + 1));
      var both := Bin(op, left, right);
      assert ReadsOperation(s, from, pos, p, both);
      e := ReadProductFrom(ar, s, from, p, both, Apply(ar, op, acc, value).value);
    }
  }

  lemma {:induction false} ReadSum<N>(ar: Arithmetic<N>, s: string, pos: nat) returns (e: Expr, end: nat)
    requires pos <= |s| && ' ' !in s && AddSub(ar, s, pos).Ok?
    ensures Has(ar, s, pos, end, e, 0, AddSub(ar, s, pos).value) && Stops(s, end)
    decreases |s| - pos, 2
  {
    var first := ReadProduct(ar, s, pos);
    var (value, p) := MulDiv(ar, s, pos).value;
    e, end := ReadSumFrom(ar, s, pos, p, first, value);
  }

  lemma {:induction false} ReadSumFrom<N>(ar: Arithmetic<N>, s: string, from: nat, pos: nat, left: Expr, acc: N)
      returns (e: Expr, end: nat)
    requires from < pos <= |s| && ' ' !in s && AddSubFrom(ar, s, pos, acc).Ok?
    requires Has(ar, s, from, pos, left, 0, acc) && NoFactorAt(s, pos)
    ensures Has(ar, s, from, end, e, 0, AddSubFrom(ar, s, pos, acc).value) && Stops(s, end)
    decreases |s| - pos, 2
  {
    if pos < |s| && (s[pos] == '+' || s[pos] == '-') {
      var op := if s[pos] == '+' then Plus else Minus;
      var right := ReadProduct(ar, s, pos + 1);
      var (value, p) := MulDiv(ar, s, pos + 1).value;
      SumStep(ar, s, pos, op, acc, MulDiv(ar, s, pos + 1));
      var both := Bin(op, left, right);
      assert ReadsOperation(s, from, pos, p, both);
      e, end := ReadSumFrom(ar, s, from, p, both, Apply(ar, op, acc, value).value);
    } else {
      e, end := left, pos;
    }
  }

  // ---------------------------------------------------------------------------
  // Main results
  // ---------------------------------------------------------------------------

  /** A text that begins with an expression evaluates to what the expression is worth, number or error. */
  lemma EvaluatesWhatIsRead<N>(ar: Arithmetic<N>, text: string, e: Expr, end: nat)
    requires BeginsWith(ar, StripSpaces(text), e, end)
    ensures EvalExpression(ar, text) == Value(ar, e)
  {
    SumValue(ar, StripSpaces(text), 0, end, e);
  }

  /** Exactly the texts that begin with an expression of value `v` evaluate to `v`. */
  lemma EvaluatesIffRead<N>(ar: Arithmetic<N>, text: string, v: N)
    ensures EvalExpression(ar, text) == Ok(v)
       <==> exists e: Expr, end: nat :: BeginsWith(ar, StripSpaces(text), e, end) && Value(ar, e) == Ok(v)
  {
    var s := StripSpaces(text);
    if EvalExpression(ar, text) == Ok(v) {
      var e, end := ReadSum(ar, s, 0);
      assert BeginsWith(ar, s, e, end);
      assert Value(ar, e) == Ok(v);
      assert exists e: Expr, end: nat :: BeginsWith(ar, StripSpaces(text), e, end) && Value(ar, e) == Ok(v);
    }
    forall e: Expr, end: nat | BeginsWith(ar, s, e, end) && Value(ar, e) == Ok(v)
      ensures EvalExpression(ar, text) == Ok(v)
    {
      EvaluatesWhatIsRead(ar, text, e, end);
    }
  }

  /** However spaces are spread over the printed text, its evaluation is the value of the tree. */
  lemma EvaluatesPrintedText<N>(ar: Arithmetic<N>, text: string, e: Expr)
    requires WellFormed(ar, e)
    requires StripSpaces(text) == Print(e, 0)
    ensures EvalExpression(ar, text) == Value(ar, e)
  {
    var s := StripSpaces(text);
    PrintedIsRead(ar, s, 0, e, 0);
    EvaluatesWhatIsRead(ar, text, e, |s|);
  }

  /** The grammar is not anchored at the end: whatever follows a complete expression is ignored,
      unless it begins with a character that continues it. */
  lemma TrailingTextIgnored<N>(ar: Arithmetic<N>, e: Expr, junk: string)
    requires WellFormed(ar, e)
    requires ' ' !in Print(e, 0) + junk
    requires junk != [] && !IsNumberChar(junk[0]) && junk[0] !in "+-*/"
    ensures EvalExpression(ar, Print(e, 0) + junk) == Value(ar, e)
  {
    var t := Print(e, 0);
    var s := t + junk;
    StripNothing(s);
    assert s[|t|] == junk[0];
    assert junk[0] in "+-*/" <==> junk[0] == '+' || junk[0] == '-' || junk[0] == '*' || junk[0] == '/';
    assert s[0..|t|] == t;
    PrintedIsRead(ar, s, 0, e, 0);
    EvaluatesWhatIsRead(ar, s, e, |t|);
  }

  /** An error is reported exactly when some divisor is zero, and it is then that error. */
  lemma {:induction false} UndefinedIffZeroDivisor<N>(ar: Arithmetic<N>, e: Expr)
    requires WellFormed(ar, e)
    ensures Value(ar, e).Err? <==> HasZeroDivisor(ar, e)
    ensures Value(ar, e).Err? ==> Value(ar, e).error == DivisionByZero
  {
    match e
    case Num(_) =>
    case Neg(_) =>
    case Paren(inner) => UndefinedIffZeroDivisor(ar, inner);
    case Bin(_, l, r) => UndefinedIffZeroDivisor(ar, l); UndefinedIffZeroDivisor(ar, r);
  }

  // ---------------------------------------------------------------------------
  // Grouping
  // ---------------------------------------------------------------------------

  lemma {:induction false} PrintHasNoSpaces<N>(ar: Arithmetic<N>, e: Expr, level: nat)
    requires WellFormed(ar, e)
    ensures ' ' !in Print(e, level)
    decreases e, if e.Bin? && Level(e.op) < level then 1 else 0
  {
    match e
    case Num(t) => assert forall k :: 0 <= k < |t| ==> IsNumberChar(t[k]);
    case Neg(t) => assert forall k :: 0 <= k < |t| ==> IsNumberChar(t[k]);
    case Paren(inner) => PrintHasNoSpaces(ar, inner, 0);
    case Bin(op, l, r) =>
      if Level(op) < level {
        PrintHasNoSpaces(ar, e, 0);
      } else {
        PrintHasNoSpaces(ar, l, Level(op));
        PrintHasNoSpaces(ar, r, Level(op) + 1);
      }
  }

  lemma PrintedOnce<N>(ar: Arithmetic<N>, text: string, e: Expr)
    requires WellFormed(ar, e) && text == Print(e, 0)
    ensures EvalExpression(ar, text) == Value(ar, e)
  {
    PrintHasNoSpaces(ar, e, 0);
    StripNothing(text);
    EvaluatesPrintedText(ar, text, e);
  }

  function Chain(a: Expr, op1: Op, b: string, op2: Op, c: string): string {
    Print(a, Level(op1)) + [Symbol(op1)] + b + [Symbol(op2)] + c
  }

  lemma PrintedToTheLeft(a: Expr, b: Expr, c: Expr, op1: Op, op2: Op)
    requires Level(op1) == Level(op2)
    ensures Print(Bin(op2, Bin(op1, a, b), c), 0)
         == Chain(a, op1, Print(b, Level(op1) + 1), op2, Print(c, Level(op1) + 1))
  {
    assert Print(Bin(op1, a, b), Level(op1)) == Print(a, Level(op1)) + [Symbol(op1)] + Print(b, Level(op1) + 1);
  }

  lemma PrintedToTheRight(a: Expr, b: Expr, c: Expr, op1: Op, op2: Op)
    requires Level(op1) == Level(op2)
    ensures Print(Bin(op1, a, Bin(op2, b, c)), 0)
         == Chain(a, op1, "(" + Print(b, Level(op1)), op2, Print(c, Level(op1) + 1) + ")")
  {
    var inner, level := Bin(op2, b, c), Level(op1);
    assert Print(inner, level + 1) == "(" + Print(inner, 0) + ")";
    Regroup(Print(a, level) + [Symbol(op1)], Print(b, level), [Symbol(op2)], Print(c, level + 1));
  }

  lemma Regroup(before: string, b: string, symbol: string, c: string)
    ensures before + ("(" + (b + symbol + c) + ")") == before + ("(" + b) + symbol + (c + ")")
  {
  }

  /** A chain of two operators of one level means the tree that groups to the left; the tree that groups
      to the right is what the same chain means with its last two operands in parentheses. */
  lemma GroupsToTheLeft<N>(ar: Arithmetic<N>, a: Expr, b: Expr, c: Expr, op1: Op, op2: Op)
    requires WellFormed(ar, a) && WellFormed(ar, b) && WellFormed(ar, c)
    requires Level(op1) == Level(op2)
    ensures EvalExpression(ar, Chain(a, op1, Print(b, Level(op1) + 1), op2, Print(c, Level(op1) + 1)))
         == Value(ar, Bin(op2, Bin(op1, a, b), c))
    ensures EvalExpression(ar, Chain(a, op1, "(" + Print(b, Level(op1)), op2, Print(c, Level(op1) + 1) + ")"))
         == Value(ar, Bin(op1, a, Bin(op2, b, c)))
  {
    var toLeft, toRight := Bin(op2, Bin(op1, a, b), c), Bin(op1, a, Bin(op2, b, c));
    PrintedToTheLeft(a, b, c, op1, op2);
    PrintedToTheRight(a, b, c, op1, op2);
    assert WellFormed(ar, toLeft) && WellFormed(ar, toRight);
    PrintedOnce(ar, Print(toLeft, 0), toLeft);
    PrintedOnce(ar, Print(toRight, 0), toRight);
  }

  // ---------------------------------------------------------------------------
  // Whole numbers
  // ---------------------------------------------------------------------------

  /** The decimal text of a natural number. */
  function NaturalText(n: nat): (s: string)
    ensures |s| > 0 && AllDigits(s)
  {
    var last := [(n % 10 + '0' as int) as char];
    if n < 10 then last else NaturalText(n / 10) + last
  }

  /** With exact reals, a natural literal is worth the number it writes. */
  lemma NaturalLiteral(n: nat)
    ensures IsNumeral(Reals, NaturalText(n))
    ensures Reals.literal(NaturalText(n)) == Ok(n as real)
  {
    var s := NaturalText(n);
    assert forall k :: 0 <= k < |s| ==> IsDigit(s[k]);
    DigitsOfText(n);
    assert PointIndex(s, 0) == |s|;
    assert s[..|s|] == s;
  }

  lemma {:induction false} DigitsOfText(n: nat)
    ensures Digits(NaturalText(n)) == n
  {
    var s := NaturalText(n);
    if n >= 10 {
      DigitsOfText(n / 10);
      assert s[..|s| - 1] == NaturalText(n / 10);
    }
  }

  /** An exercise in whole numbers, as one would put it to the calculator. */
  datatype Exercise =
    | Whole(n: int)
    | Combined(op: Op, left: Exercise, right: Exercise)

  /** Its answer, if no divisor is zero. */
  function Answer(x: Exercise): Result<real> {
    match x
    case Whole(n) => Ok(n as real)
    case Combined(op, l, r) =>
      if Answer(l).Err? then Answer(l)
      else if Answer(r).Err? then Answer(r)
      else Combine(op, Answer(l).value, Answer(r).value)
  }

  function Combine(op: Op, a: real, b: real): Result<real> {
    match op
    case Plus => Ok(a + b)
    case Minus => Ok(a - b)
    case Times => Ok(a * b)
    case Over => if b == 0.0 then Err(DivisionByZero) else Ok(a / b)
  }

  function Written(x: Exercise): Expr {
    match x
    case Whole(n) => if n < 0 then Neg(NaturalText(-n)) else Num(NaturalText(n))
    case Combined(op, l, r) => Bin(op, Written(l), Written(r))
  }

  lemma CombineIsApply(op: Op, a: real, b: real)
    ensures Combine(op, a, b) == Apply(Reals, op, a, b)
  {
    match op
    case Plus => assert Reals.add(a, b) == a + b;
    case Minus => assert Reals.sub(a, b) == a - b;
    case Times => assert Reals.mul(a, b) == a * b;
    case Over => assert Reals.isZero(b) <==> b == 0.0;
  }

  lemma {:induction false} WrittenValue(x: Exercise)
    ensures WellFormed(Reals, Written(x)) && Value(Reals, Written(x)) == Answer(x)
  {
    match x
    case Whole(n) =>
      var size := if n < 0 then -n else n;
      NaturalLiteral(size);
      assert Reals.neg(size as real) == -(size as real);
    case Combined(op, l, r) =>
      WrittenValue(l);
      WrittenValue(r);
      if Answer(l).Ok? && Answer(r).Ok? {
        CombineIsApply(op, Answer(l).value, Answer(r).value);
      }
  }

  /** Written down with the customary parentheses and any spaces, an exercise evaluates to its answer. */
  lemma ExercisesAreAnswered(x: Exercise, text: string)
    requires StripSpaces(text) == Print(Written(x), 0)
    ensures EvalExpression(Reals, text) == Answer(x)
  {
    WrittenValue(x);
    EvaluatesPrintedText(Reals, text, Written(x));
  }
}
