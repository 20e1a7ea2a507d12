/** Temperature scaling of a raw confidence. */
module Temperature {
  import opened Reals

  /** `math.exp` and `math.log` over exact reals, by the laws that scaling needs. */
  ghost predicate IsExpLog(exp: real -> real, log: real -> real) {
    && (forall x :: exp(x) > 0.0)
    && (forall x, y :: x < y ==> exp(x) < exp(y))
    && (forall x :: exp(x) * exp(-x) == 1.0)
    && (forall y :: y > 0.0 ==> exp(log(y)) == y)
  }

  function Clamped(raw: real): (c: real)
    ensures 0.001 <= c <= 0.999
  {
    var low := if raw < 0.999 then raw else 0.999;
    if low > 0.001 then low else 0.001
  }

  function Logit(log: real -> real, c: real): real
    requires c < 1.0
  {
    log(c / (1.0 - c))
  }

  function Logistic(exp: real -> real, x: real): real
    requires exp(-x) > 0.0
  {
    1.0 / (1.0 + exp(-x))
  }

  /** `_apply_temperature`; dividing by a temperature of 0 is an error of the caller. */
  function Scaled(exp: real -> real, log: real -> real, raw: real, temperature: real): real
    requires IsExpLog(exp, log) && temperature != 0.0
  {
    Logistic(exp, Logit(log, Clamped(raw)) / temperature)
  }

  // ---- The logistic function ----------------------------------------------------

  lemma ExpFacts(exp: real -> real, log: real -> real, x: real, y: real)
    requires IsExpLog(exp, log)
    ensures exp(x) > 0.0 && exp(y) > 0.0
    ensures x < y <==> exp(x) < exp(y)
    ensures exp(x) * exp(-x) == 1.0
  {
    assert x == y ==> exp(x) == exp(y);
    assert y < x ==> exp(y) < exp(x);
  }

  lemma ExpOfLog(exp: real -> real, log: real -> real, y: real)
    requires IsExpLog(exp, log) && y > 0.0
    ensures exp(log(y)) == y
  {
  }

  lemma ReciprocalOrder(a: real, b: real)
    requires 0.0 < a && 0.0 < b
    ensures 1.0 / a < 1.0 / b <==> b < a
  {
    var (p, q) := (1.0 / a, 1.0 / b);
    assert p * a == 1.0 && q * b == 1.0;
    ReciprocalArithmetic(a, b, p, q);
  }

  lemma ReciprocalArithmetic(a: real, b: real, p: real, q: real)
    requires 0.0 < a && 0.0 < b && p * a == 1.0 && q * b == 1.0
    ensures p < q <==> b < a
  {
    MulCancel(p, 0.0, a);
    MulCancel(q, p, b);
    MulCancel(a, b, p);
  }

  lemma LogisticOrder(exp: real -> real, log: real -> real, x: real, y: real)
    requires IsExpLog(exp, log)
    ensures exp(-x) > 0.0 && exp(-y) > 0.0
    ensures Logistic(exp, x) < Logistic(exp, y) <==> x < y
    ensures 0.0 < Logistic(exp, x) < 1.0
  {
    ExpFacts(exp, log, -y, -x);
    hide IsExpLog;
    ReciprocalOrder(1.0 + exp(-x), 1.0 + exp(-y));
    ReciprocalOrder(1.0 + exp(-x), 1.0);
    var r := 1.0 / (1.0 + exp(-x));
    assert r * (1.0 + exp(-x)) == 1.0;
    MulCancel(r, 0.0, 1.0 + exp(-x));
  }

  lemma LogisticAtZero(exp: real -> real, log: real -> real)
    requires IsExpLog(exp, log)
    ensures exp(-0.0) > 0.0 && Logistic(exp, 0.0) == 0.5
  {
    ExpFacts(exp, log, 0.0, 0.0);
    var e := exp(0.0);
    assert -0.0 == 0.0;
    hide IsExpLog;
    SquareIsOne(e);
  }

  lemma SquareIsOne(e: real)
    requires e > 0.0 && e * e == 1.0
    ensures e == 1.0
  {
    SquareOrder(e, 1.0);
    SquareOrder(1.0, e);
  }

  /** Scaling with temperature 1 gives the clamped confidence back. */
  lemma LogisticOfLogit(exp: real -> real, log: real -> real, c: real)
    requires IsExpLog(exp, log) && 0.0 < c < 1.0
    ensures exp(-Logit(log, c)) > 0.0 && Logistic(exp, Logit(log, c)) == c
  {
    var odds := c / (1.0 - c);
    assert odds * (1.0 - c) == c;
    OddsPositive(c, 1.0 - c, odds);
    ExpOfLog(exp, log, odds);
    ExpFacts(exp, log, log(odds), -log(odds));
    var e := exp(-log(odds));
    hide IsExpLog;
    assert odds * e == 1.0;
    OddsInverse(c, odds, e);
    var r := 1.0 / (1.0 + e);
    assert r * (1.0 + e) == 1.0 == c * (1.0 + e);
    MulCancel(r, c, 1.0 + e);
    MulCancel(c, r, 1.0 + e);
  }

  lemma OddsPositive(c: real, d: real, odds: real)
    requires c > 0.0 && d > 0.0 && odds * d == c
    ensures odds > 0.0
  {
    MulCancel(odds, 0.0, d);
  }

  lemma OddsInverse(c: real, odds: real, e: real)
    requires 0.0 < c < 1.0 && odds * (1.0 - c) == c && odds * e == 1.0
    ensures c * (1.0 + e) == 1.0
  {
    assert c * e == (odds * (1.0 - c)) * e == (odds * e) * (1.0 - c) == 1.0 - c;
    assert c * (1.0 + e) == c + c * e;
  }

  // ---- What scaling does ----------------------------------------------------------

  lemma ScaledIsProbability(exp: real -> real, log: real -> real, raw: real, temperature: real)
    requires IsExpLog(exp, log) && temperature != 0.0
    ensures 0.0 < Scaled(exp, log, raw, temperature) < 1.0
  {
    hide Logistic;
    LogisticOrder(exp, log, Logit(log, Clamped(raw)) / temperature, 0.0);
  }

  /** Documented: a temperature of 1 changes nothing but the clamp. */
  lemma NeutralTemperature(exp: real -> real, log: real -> real, raw: real)
    requires IsExpLog(exp, log)
    ensures Scaled(exp, log, raw, 1.0) == Clamped(raw)
  {
    hide Logistic, Logit;
    LogisticOfLogit(exp, log, Clamped(raw));
    var x := Logit(log, Clamped(raw));
    assert x / 1.0 == x;
  }

  /** Scaling divides the log-odds of the clamped confidence by the temperature. */
  lemma LogOddsAreDivided(exp: real -> real, log: real -> real, raw: real, temperature: real)
    requires IsExpLog(exp, log) && temperature != 0.0
    ensures var c := if raw < 0.001 then 0.001 else if raw > 0.999 then 0.999 else raw;
            var s := Scaled(exp, log, raw, temperature);
            0.0 < s < 1.0 && temperature * log(s / (1.0 - s)) == log(c / (1.0 - c))
  {
    hide Logit;
    ScaledIsProbability(exp, log, raw, temperature);
    LogitIs(log, Clamped(raw));
    var l := Logit(log, Clamped(raw));
    var x := l / temperature;
    assert Scaled(exp, log, raw, temperature) == Logistic(exp, x);
    hide Scaled, Logistic;
    LogOddsOfLogistic(exp, log, x);
    hide IsExpLog;
    QuotientTimes(l, temperature);
  }

  lemma QuotientTimes(l: real, t: real)
    requires t != 0.0
    ensures t * (l / t) == l
  {
  }

  lemma LogitIs(log: real -> real, c: real)
    requires c < 1.0
    ensures Logit(log, c) == log(c / (1.0 - c))
  {
  }

  lemma LogOddsOfLogistic(exp: real -> real, log: real -> real, x: real)
    requires IsExpLog(exp, log)
    ensures var s := Logistic(exp, x); 0.0 < s < 1.0 && log(s / (1.0 - s)) == x
  {
    ExpFacts(exp, log, x, -x);
    LogisticOrder(exp, log, x, x);
    LogOfExp(exp, log, x);
    var (s, up, down) := (Logistic(exp, x), exp(x), exp(-x));
    hide IsExpLog;
    OddsOfLogistic(up, down, s);
  }

  lemma OddsOfLogistic(up: real, down: real, s: real)
    requires up > 0.0 && down > 0.0 && up * down == 1.0 && s == 1.0 / (1.0 + down)
    requires 0.0 < s < 1.0
    ensures s / (1.0 - s) == up
  {
    assert s * (1.0 + down) == 1.0;
    assert 1.0 - s == s * down;
    var (odds, rest) := (s / (1.0 - s), 1.0 - s);
    assert odds * rest == s;
    assert up * rest == s by { assert up * (s * down) == s * (up * down); }
    MulCancel(odds, up, rest);
    MulCancel(up, odds, rest);
  }

  lemma LogOfExp(exp: real -> real, log: real -> real, x: real)
    requires IsExpLog(exp, log)
    ensures log(exp(x)) == x
  {
    ExpOfLog(exp, log, exp(x));
    ExpFacts(exp, log, log(exp(x)), x);
    ExpFacts(exp, log, x, log(exp(x)));
  }

  lemma QuotientOrder(x: real, y: real, t: real)
    requires t > 0.0 && x <= y
    ensures x / t <= y / t
  {
    var (p, q) := (x / t, y / t);
    assert p * t == x && q * t == y;
    MulCancel(p, q, t);
  }

  lemma LogitOrder(exp: real -> real, log: real -> real, c: real, d: real)
    requires IsExpLog(exp, log) && 0.0 < c <= d < 1.0
    ensures Logit(log, c) <= Logit(log, d)
  {
    hide Logistic, Logit;
    LogisticOfLogit(exp, log, c);
    LogisticOfLogit(exp, log, d);
    LogisticOrder(exp, log, Logit(log, d), Logit(log, c));
  }

  /** At a positive temperature a higher raw confidence never scales lower. */
  lemma ScalingMonotone(exp: real -> real, log: real -> real, a: real, b: real, temperature: real)
    requires IsExpLog(exp, log) && temperature > 0.0 && a <= b
    ensures Scaled(exp, log, a, temperature) <= Scaled(exp, log, b, temperature)
  {
    hide Logistic, Logit;
    var (x, y) := (Logit(log, Clamped(a)), Logit(log, Clamped(b)));
    LogitOrder(exp, log, Clamped(a), Clamped(b));
    QuotientOrder(x, y, temperature);
    LogisticOrder(exp, log, y / temperature, x / temperature);
  }

  lemma QuotientSize(x: real, t: real)
    requires t > 0.0
    ensures x >= 0.0 ==> x / t >= 0.0 && (t >= 1.0 ==> x / t <= x) && (t <= 1.0 ==> x <= x / t)
    ensures x <= 0.0 ==> x / t <= 0.0 && (t >= 1.0 ==> x <= x / t) && (t <= 1.0 ==> x / t <= x)
  {
    var q := x / t;
    assert q * t == x;
    QuotientArithmetic(x, t, q);
  }

  lemma QuotientArithmetic(x: real, t: real, q: real)
    requires t > 0.0 && q * t == x
    ensures x >= 0.0 ==> q >= 0.0 && (t >= 1.0 ==> q <= x) && (t <= 1.0 ==> x <= q)
    ensures x <= 0.0 ==> q <= 0.0 && (t >= 1.0 ==> x <= q) && (t <= 1.0 ==> q <= x)
  {
    MulCancel(0.0, q, t);
    MulCancel(q, 0.0, t);
    var d := t - 1.0;
    assert x - q == q * d;
    if q >= 0.0 && d >= 0.0 { ProductNonNegative(q, d); }
    if q >= 0.0 && d <= 0.0 { ProductNonNegative(q, -d); assert q * -d == -(q * d); }
    if q <= 0.0 && d >= 0.0 { ProductNonNegative(-q, d); assert -q * d == -(q * d); }
    if q <= 0.0 && d <= 0.0 { ProductNonNegative(-q, -d); assert -q * -d == q * d; }
  }

  /** Documented: a temperature above 1 softens, and one below 1 sharpens.  The
      scaled confidence stays on its side of one half and moves towards it, or
      away from it. */
  lemma TemperatureSoftensOrSharpens(exp: real -> real, log: real -> real, raw: real, temperature: real)
    requires IsExpLog(exp, log) && temperature > 0.0
    ensures var (c, s) := (Clamped(raw), Scaled(exp, log, raw, temperature));
            && (c >= 0.5 ==> s >= 0.5 && (temperature >= 1.0 ==> s <= c) && (temperature <= 1.0 ==> c <= s))
            && (c <= 0.5 ==> s <= 0.5 && (temperature >= 1.0 ==> c <= s) && (temperature <= 1.0 ==> s <= c))
  {
    hide Logistic, Logit;
    var c := Clamped(raw);
    var x := Logit(log, c);
    var q := x / temperature;
    LogisticOfLogit(exp, log, c);
    LogisticAtZero(exp, log);
    LogisticOrder(exp, log, 0.0, x);
    LogisticOrder(exp, log, x, 0.0);
    LogisticOrder(exp, log, 0.0, q);
    LogisticOrder(exp, log, q, 0.0);
    LogisticOrder(exp, log, x, q);
    LogisticOrder(exp, log, q, x);
    QuotientSize(x, temperature);
  }
}
