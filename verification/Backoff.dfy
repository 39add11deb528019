/** The delay between attempts of a tool. Floating-point arithmetic is exact here; durations are int64
    nanoseconds. */
module Backoff {
  import opened Rows
  import opened RunMachine

  const SECOND := 1_000_000_000
  const INT64_LIMIT := 0x8000_0000_0000_0000

  function Pow4(a: int): int {
    a * a * a * a
  }

  /** The conversion of a float64 to an integer truncates toward zero. */
  function Truncate(x: real): int {
    if x >= 0.0 then x.Floor else -((-x).Floor)
  }

  /** What is truncated: `base` nanoseconds, shifted by the draw from [0, 1). */
  function Jittered(base: int, jitter: real, draw: real): real {
    base as real + (draw * 2.0 * (base as real * jitter) - base as real * jitter)
  }

  predicate Draw(draw: real) {
    0.0 <= draw < 1.0
  }

  method NextRetryDelay(jitter: real, attemptCount: int, draw: real) returns (delay: int)
    requires Draw(draw)
    ensures jitter <= 0.0 ==> delay == 0
    ensures jitter > 0.0 ==> delay == DelayOf(jitter, if attemptCount <= 0 then 1 else attemptCount, draw)
  {
    if jitter <= 0.0 {
      return 0;
    }
    var attempt := attemptCount;
    if attempt <= 0 {
      attempt := 1;
    }
    var base := Pow4(attempt);
    delay := base * SECOND;
    var jitterRange := delay as real * jitter;
    var jitterOffset := draw * 2.0 * jitterRange - jitterRange;
    assert delay as real + jitterOffset == Jittered(Pow4(attempt) * SECOND, jitter, draw);
    delay := Truncate(delay as real + jitterOffset);
    if delay < SECOND {
      delay := SECOND;
    }
  }

  function DelayOf(jitter: real, attempt: int, draw: real): int {
    var d := Truncate(Jittered(Pow4(attempt) * SECOND, jitter, draw));
    if d < SECOND then SECOND else d
  }

  lemma ScaleMonotone(base: real, x: real, y: real)
    requires base >= 0.0 && x <= y
    ensures base * x <= base * y
  {
  }

  lemma JitteredBounds(base: int, jitter: real, draw: real)
    requires base >= 0 && 0.0 < jitter && Draw(draw)
    ensures base as real * (1.0 - jitter) <= Jittered(base, jitter, draw) <= base as real * (1.0 + jitter)
    ensures Jittered(base, jitter, draw) == base as real * (1.0 + jitter * (2.0 * draw - 1.0))
  {
    var b := base as real;
    assert draw * 2.0 * (b * jitter) - b * jitter == b * (jitter * (2.0 * draw - 1.0));
    ScaleMonotone(jitter, -1.0, 2.0 * draw - 1.0);
    ScaleMonotone(jitter, 2.0 * draw - 1.0, 1.0);
    ScaleMonotone(b, 1.0 - jitter, 1.0 + jitter * (2.0 * draw - 1.0));
    ScaleMonotone(b, 1.0 + jitter * (2.0 * draw - 1.0), 1.0 + jitter);
  }

  lemma Pow4Positive(a: int)
    requires a >= 1
    ensures Pow4(a) >= a
  {
    ProductMonotone(1, a, a, a);
    ProductMonotone(1, a, a * a, a * a);
    ProductMonotone(1, a, a * a * a, a * a * a);
  }

  lemma Pow4Monotone(a: int, b: int)
    requires 0 <= a <= b
    ensures Pow4(a) <= Pow4(b)
  {
    ProductMonotone(a, b, a, b);
    ProductMonotone(a * a, b * b, a, b);
    ProductMonotone(a * a * a, b * b * b, a, b);
  }

  lemma ProductMonotone(x: int, y: int, z: int, w: int)
    requires 0 <= x <= y && 0 <= z <= w
    ensures 0 <= x * z <= y * w
  {
    assert x * z <= y * z && y * z <= y * w;
  }

  /** With jitter in (0, 1] every delay lies within the jitter of attempt^4 seconds, and is at least one
      second: whatever is drawn. */
  lemma DelayBounds(jitter: real, attempt: int, draw: real)
    requires 0.0 < jitter <= 1.0 && attempt >= 1 && Draw(draw)
    ensures var base := (Pow4(attempt) * SECOND) as real;
            var d := DelayOf(jitter, attempt, draw);
            d >= SECOND && base * (1.0 - jitter) - 1.0 < d as real <= base * (1.0 + jitter)
  {
    var base := Pow4(attempt) * SECOND;
    Pow4Positive(attempt);
    assert base >= SECOND;
    JitteredBounds(base, jitter, draw);
    ScaleMonotone(base as real, 0.0, 1.0 - jitter);
    ScaleMonotone(base as real, 1.0, 1.0 + jitter);
  }

  lemma Fits(base: int, jitter: real, draw: real)
    requires 0 <= base <= 4_569_760_000 * SECOND && 0.0 < jitter <= 1.0 && Draw(draw)
    ensures Jittered(base, jitter, draw) < INT64_LIMIT as real
  {
    JitteredBounds(base, jitter, draw);
    ScaleMonotone(base as real, 1.0 + jitter, 2.0);
  }

  lemma Overflows(base: int)
    requires base >= 4_640_470_641 * SECOND
    ensures Jittered(base, 1.0, 0.9999) >= INT64_LIMIT as real
  {
    JitteredBounds(base, 1.0, 0.9999);
    ScaleMonotone(1.9998, (4_640_470_641 * SECOND) as real, base as real);
  }

  ghost predicate FitsAlways(base: int) {
    forall jitter: real, draw: real :: 0.0 < jitter <= 1.0 && Draw(draw) ==>
      Jittered(base, jitter, draw) < INT64_LIMIT as real
  }

  /** The truncated number fits into int64, for every jitter up to 1 and every draw, exactly up to attempt
      260. */
  lemma FitsExactlyUpTo260(attempt: int)
    requires attempt >= 1
    ensures attempt <= 260 <==> FitsAlways(Pow4(attempt) * SECOND)
  {
    Pow4Positive(attempt);
    if attempt <= 260 {
      Pow4Monotone(attempt, 260);
      assert Pow4(260) == 4_569_760_000;
      forall jitter: real, draw: real | 0.0 < jitter <= 1.0 && Draw(draw)
        ensures Jittered(Pow4(attempt) * SECOND, jitter, draw) < INT64_LIMIT as real
      {
        Fits(Pow4(attempt) * SECOND, jitter, draw);
      }
    } else {
      Pow4Monotone(261, attempt);
      assert Pow4(261) == 4_640_470_641;
      Overflows(Pow4(attempt) * SECOND);
    }
  }

  // ---------------------------------------------------------------------------
  // All retries of one execution
  // ---------------------------------------------------------------------------

  /** One claim of an execution and how it ended. */
  datatype Round = Round(outcome: Outcome, draw: real)

  /** The delays an execution is given while it is claimed again and again: a snooze takes its claim
      back and is not counted here. */
  function TotalDelay(e: ExecRow, rounds: seq<Round>, jitter: real): int
    decreases |rounds|
  {
    if rounds == [] || e.state != ExecPending then 0
    else
      var claimed := ClaimTool(e, "");
      var delay := DelayOf(jitter, claimed.attemptCount, rounds[0].draw);
      match ToolResultRow(claimed, claimed.attemptCount, rounds[0].outcome, delay, 0)
      case None => 0
      case Some(next) =>
        (if rounds[0].outcome.OtherError? && next.state == ExecPending then delay else 0)
        + TotalDelay(next, rounds[1..], jitter)
  }

  /** The sum of a^4 for a from `from` to `to`, exclusively. */
  function SumPow4(from: nat, to: nat): int
    decreases if from < to then to - from else 0
  {
    if from >= to then 0 else Pow4(from) + SumPow4(from + 1, to)
  }

  lemma {:induction false} SumPow4IsPositive(from: nat, to: nat)
    ensures SumPow4(from, to) >= 0
    decreases if from < to then to - from else 0
  {
    if from < to {
      if from > 0 {
        Pow4Positive(from);
      }
      SumPow4IsPositive(from + 1, to);
    }
  }

  lemma {:induction false} SumPow4Last(from: nat, to: nat)
    requires from <= to
    ensures SumPow4(from, to + 1) == SumPow4(from, to) + Pow4(to)
    decreases if from < to then to - from else 0
  {
    if from < to {
      SumPow4Last(from + 1, to);
    }
  }

  function SumFormula(m: int): int {
    (m - 1) * m * (2 * m - 1) * (3 * m * m - 3 * m - 1)
  }

  lemma {:induction false} SumPow4Formula(m: nat)
    requires m >= 1
    ensures 30 * SumPow4(1, m) == SumFormula(m)
  {
    if m > 1 {
      SumPow4Formula(m - 1);
      SumPow4Last(1, m - 1);
      FormulaStep(m - 1);
    }
  }

  lemma FormulaStep(m: int)
    ensures SumFormula(m + 1) == SumFormula(m) + 30 * Pow4(m)
  {
    assert SumFormula(m + 1) == m * (m + 1) * (2 * m + 1) * (3 * m * m + 3 * m - 1) by {
      assert 3 * (m + 1) * (m + 1) - 3 * (m + 1) - 1 == 3 * m * m + 3 * m - 1;
    }
  }

  /** What the attempts from `from` on may cost. */
  ghost function Budget(from: nat, to: nat, jitter: real): real {
    (SumPow4(from, to) * SECOND) as real * (1.0 + jitter)
  }

  lemma BudgetStep(from: nat, to: nat, jitter: real)
    requires from < to
    ensures Budget(from, to, jitter) == (Pow4(from) * SECOND) as real * (1.0 + jitter) + Budget(from + 1, to, jitter)
  {
    assert SumPow4(from, to) * SECOND == Pow4(from) * SECOND + SumPow4(from + 1, to) * SECOND;
  }

  lemma BudgetIsPositive(from: nat, to: nat, jitter: real)
    requires jitter > 0.0
    ensures Budget(from, to, jitter) >= 0.0
  {
    SumPow4IsPositive(from, to);
    ScaleMonotone((SumPow4(from, to) * SECOND) as real, 0.0, 1.0 + jitter);
  }

  /** A retry uses up an attempt, a snooze none; anything else is the end. */
  lemma RoundUsesAttempt(e: ExecRow, outcome: Outcome, delay: int)
    requires e.state == ExecPending && ExecCheck(e)
    ensures var claimed := ClaimTool(e, "");
            match ToolResultRow(claimed, claimed.attemptCount, outcome, delay, 0)
            case None => true
            case Some(next) =>
              && next.maxAttempts == e.maxAttempts && ExecCheck(next)
              && (next.state == ExecPending && outcome.OtherError? ==>
                    next.attemptCount == e.attemptCount + 1 < e.maxAttempts)
              && (next.state == ExecPending && !outcome.OtherError? ==> next.attemptCount == e.attemptCount)
  {
  }

  lemma {:induction false} TotalDelayFrom(e: ExecRow, rounds: seq<Round>, jitter: real)
    requires 0.0 < jitter <= 1.0 && ExecCheck(e)
    requires forall i :: 0 <= i < |rounds| ==> Draw(rounds[i].draw)
    ensures TotalDelay(e, rounds, jitter) as real <= Budget(e.attemptCount + 1, e.maxAttempts, jitter)
    decreases |rounds|
  {
    BudgetIsPositive(e.attemptCount + 1, e.maxAttempts, jitter);
    if rounds != [] && e.state == ExecPending {
      var claimed := ClaimTool(e, "");
      var a := claimed.attemptCount;
      var delay := DelayOf(jitter, a, rounds[0].draw);
      RoundUsesAttempt(e, rounds[0].outcome, delay);
      match ToolResultRow(claimed, a, rounds[0].outcome, delay, 0) {
        case None =>
        case Some(next) =>
          TotalDelayFrom(next, rounds[1..], jitter);
          if next.state == ExecPending && rounds[0].outcome.OtherError? {
            DelayBounds(jitter, a, rounds[0].draw);
            BudgetStep(a, e.maxAttempts, jitter);
          }
      }
    }
  }

  /** All retry delays of an execution with `M` attempts, snoozes or not, total at most
      (1 + j)(M - 1)M(2M - 1)(3M^2 - 3M - 1)/30 seconds. */
  lemma TotalDelayBound(e: ExecRow, rounds: seq<Round>, jitter: real)
    requires 0.0 < jitter <= 1.0 && ExecCheck(e) && e.attemptCount == 0 && e.maxAttempts >= 1
    requires forall i :: 0 <= i < |rounds| ==> Draw(rounds[i].draw)
    ensures 30.0 * TotalDelay(e, rounds, jitter) as real
            <= (1.0 + jitter) * (SumFormula(e.maxAttempts) * SECOND) as real
  {
    TotalDelayFrom(e, rounds, jitter);
    SumPow4Formula(e.maxAttempts);
  }
}
