/** The Wilson score interval, over the reals.  The square root is a parameter `s` known
    only by its square. */
module Wilson {

  const Z := 1.96

  function Max(a: real, b: real): real {
    if a > b then a else b
  }

  function Min(a: real, b: real): real {
    if a < b then a else b
  }

  function Share(k: nat, n: nat): real
    requires n > 0
  {
    k as real / n as real
  }

  /** What the square root is taken of. */
  function Radicand(k: nat, n: nat): real
    requires n > 0
  {
    var p := Share(k, n);
    p * (1.0 - p) / n as real + Z * Z / (4.0 * n as real * n as real)
  }

  function Denominator(n: nat): (d: real)
    requires n > 0
    ensures d > 1.0
  {
    1.0 + Z * Z / n as real
  }

  function Center(k: nat, n: nat): real
    requires n > 0
  {
    (Share(k, n) + Z * Z / (2.0 * n as real)) / Denominator(n)
  }

  function Half(n: nat, s: real): real
    requires n > 0
  {
    Z * s / Denominator(n)
  }

  /** The interval the program reports, clamped to [0, 1]; (0, 0) for no trials. */
  function Interval(k: nat, n: nat, s: real): (real, real) {
    if n == 0 then (0.0, 0.0)
    else (Max(0.0, Center(k, n) - Half(n, s)), Min(1.0, Center(k, n) + Half(n, s)))
  }

  /** x is a share whose distance from the observed one is exactly Z standard errors of x:
      the equation whose solutions the score interval is defined by. */
  predicate ScoreBound(k: nat, n: nat, x: real)
    requires n > 0
  {
    n as real * (Share(k, n) - x) * (Share(k, n) - x) == Z * Z * x * (1.0 - x)
  }

  // ---------- The algebra ----------

  /** The score equation, as a function of x. */
  function Score(n: real, zz: real, p: real, x: real): real {
    n * (p - x) * (p - x) - zz * x * (1.0 - x)
  }

  /** Completing the square, with m = n + zz, a = 2m(x - center), b = 2m*half. */
  lemma {:induction false} CompleteTheSquare(n: real, zz: real, p: real, x: real, a: real, bb: real)
    requires a == 2.0 * (n + zz) * x - (2.0 * n * p + zz)
    requires bb == zz * (4.0 * n * p * (1.0 - p) + zz)
    ensures a * a - bb == 4.0 * (n + zz) * Score(n, zz, p, x)
  {
    var m := n + zz;
    var u, v := 2.0 * m * x, 2.0 * n * p + zz;
    assert a * a == u * u - 2.0 * u * v + v * v;
    assert v * v == 4.0 * n * p * n * p + 4.0 * n * p * zz + zz * zz;
    assert bb == 4.0 * n * p * zz - 4.0 * n * p * p * zz + zz * zz;
    assert v * v - bb == 4.0 * n * p * p * n + 4.0 * n * p * p * zz;
    assert v * v - bb == 4.0 * m * (n * p * p);
    assert u * u == 4.0 * m * (m * x * x);
    assert u * v == 2.0 * m * (x * v);
    assert Score(n, zz, p, x) == m * x * x - x * v + n * p * p;
  }

  lemma {:induction false} SquareOrder(a: real, b: real)
    requires b >= 0.0
    ensures a * a <= b * b <==> -b <= a <= b
    ensures a * a == b * b <==> a == b || a == -b
  {
    assert b * b - a * a == (b - a) * (b + a);
  }

  /** A center and a half width that belong to a score equation. */
  ghost predicate Solves(n: real, zz: real, p: real, c: real, h: real) {
    && n > 0.0 && zz > 0.0 && h >= 0.0
    && 2.0 * (n + zz) * c == 2.0 * n * p + zz
    && (2.0 * (n + zz) * h) * (2.0 * (n + zz) * h) == zz * (4.0 * n * p * (1.0 - p) + zz)
  }

  /** What Center and Half are, without divisions. */
  lemma {:induction false} Undivided(k: nat, n: nat, s: real)
    requires n > 0 && s >= 0.0 && s * s == Radicand(k, n)
    ensures Solves(n as real, Z * Z, Share(k, n), Center(k, n), Half(n, s))
  {
    var nr, zz, p, d := n as real, Z * Z, Share(k, n), Denominator(n);
    assert nr * d == nr + zz;
    var c, h := Center(k, n), Half(n, s);
    assert c * d == p + zz / (2.0 * nr);
    assert 2.0 * nr * (c * d) == 2.0 * nr * p + zz;
    assert h * d == Z * s;
    RadicandTimesSquare(k, n);
    SquaredHalf(nr, zz, p, h * d, s, Radicand(k, n));
    assert 2.0 * (nr + zz) * h == 2.0 * nr * (h * d);
  }

  lemma {:induction false} SquaredHalf(nr: real, zz: real, p: real, hd: real, s: real, radicand: real)
    requires zz == Z * Z && hd == Z * s && s * s == radicand
    requires nr * nr * radicand == nr * p * (1.0 - p) + zz / 4.0
    ensures (2.0 * nr * hd) * (2.0 * nr * hd) == zz * (4.0 * nr * p * (1.0 - p) + zz)
  {
    assert (2.0 * nr * hd) * (2.0 * nr * hd) == 4.0 * zz * (nr * nr * (s * s));
  }

  lemma {:induction false} RadicandTimesSquare(k: nat, n: nat)
    requires n > 0
    ensures n as real * n as real * Radicand(k, n) == n as real * Share(k, n) * (1.0 - Share(k, n)) + Z * Z / 4.0
  {
    var nr, p := n as real, Share(k, n);
    var q := p * (1.0 - p);
    assert nr * (q / nr) == q;
    var t := Z * Z / (4.0 * nr * nr);
    assert t * (4.0 * nr * nr) == Z * Z;
  }

  lemma {:induction false} Scale(m: real, a: real, b: real)
    requires m > 0.0
    ensures m * a <= m * b <==> a <= b
    ensures m * a == m * b <==> a == b
  {
    assert m * b - m * a == m * (b - a);
  }

  /** The score is not positive exactly between the two bounds, and zero exactly at them. */
  lemma {:induction false} ScoreSign(n: real, zz: real, p: real, c: real, h: real, x: real)
    requires Solves(n, zz, p, c, h)
    ensures Score(n, zz, p, x) <= 0.0 <==> -h <= x - c <= h
    ensures Score(n, zz, p, x) == 0.0 <==> x == c - h || x == c + h
  {
    var m := 2.0 * (n + zz);
    var a, b := m * (x - c), m * h;
    assert a == m * x - m * c;
    CompleteTheSquare(n, zz, p, x, a, b * b);
    SquareOrder(a, b);
    Scale(m, x - c, h);
    Scale(m, -h, x - c);
    Scale(m, x - c, -h);
    assert m * -h == -b;
    Scale(2.0 * m, Score(n, zz, p, x), 0.0);
  }

  lemma {:induction false} CenterInRange(n: real, zz: real, p: real, c: real, h: real)
    requires Solves(n, zz, p, c, h) && 0.0 <= p <= 1.0
    ensures 0.0 <= c <= 1.0
  {
    var m := 2.0 * (n + zz);
    assert 0.0 <= n * p <= n;
    Scale(m, 0.0, c);
    Scale(m, c, 1.0);
  }

  lemma {:induction false} NonNegative(a: real, b: real)
    requires a >= 0.0 && b >= 0.0
    ensures a * b >= 0.0
  {
  }

  /** At the observed share the score is not positive; at 0 and at 1 it is not negative. */
  lemma {:induction false} ScoreSigns(n: real, zz: real, p: real)
    requires n > 0.0 && zz > 0.0 && 0.0 <= p <= 1.0
    ensures Score(n, zz, p, p) <= 0.0 && Score(n, zz, p, 0.0) >= 0.0 && Score(n, zz, p, 1.0) >= 0.0
  {
    var q := 1.0 - p;
    NonNegative(p, q);
    NonNegative(zz, p * q);
    assert Score(n, zz, p, p) == -(zz * (p * q));
    NonNegative(p, p);
    NonNegative(n, p * p);
    assert Score(n, zz, p, 0.0) == n * (p * p);
    NonNegative(q, q);
    NonNegative(n, q * q);
    assert Score(n, zz, p, 1.0) == n * (q * q);
  }

  lemma {:induction false} BoundsInRange(n: real, zz: real, p: real, c: real, h: real)
    requires Solves(n, zz, p, c, h) && 0.0 <= p <= 1.0
    ensures 0.0 <= c - h <= p <= c + h <= 1.0
  {
    CenterInRange(n, zz, p, c, h);
    ScoreSigns(n, zz, p);
    ScoreSign(n, zz, p, c, h, p);
    ScoreSign(n, zz, p, c, h, 0.0);
    ScoreSign(n, zz, p, c, h, 1.0);
  }

  lemma {:induction false} ShareRange(k: nat, n: nat)
    requires n > 0 && k <= n
    ensures 0.0 <= Share(k, n) <= 1.0
  {
  }

  // ---------- The interval ----------

  /** The unclamped bounds are the two solutions of the score equation, and there are no
      others. */
  lemma {:induction false} BoundsSolveTheScoreEquation(k: nat, n: nat, s: real, x: real)
    requires n > 0 && s >= 0.0 && s * s == Radicand(k, n)
    ensures ScoreBound(k, n, x) <==> x == Center(k, n) - Half(n, s) || x == Center(k, n) + Half(n, s)
  {
    Undivided(k, n, s);
    ScoreSign(n as real, Z * Z, Share(k, n), Center(k, n), Half(n, s), x);
    ScoreBoundIsZero(k, n, x);
  }

  lemma {:induction false} ScoreBoundIsZero(k: nat, n: nat, x: real)
    requires n > 0
    ensures ScoreBound(k, n, x) <==> Score(n as real, Z * Z, Share(k, n), x) == 0.0
  {
  }

  /** The bounds lie in [0, 1] on either side of the observed share, so the clamps never
      change them. */
  lemma {:induction false} ClampsAreIdle(k: nat, n: nat, s: real)
    requires n > 0 && k <= n && s >= 0.0 && s * s == Radicand(k, n)
    ensures var lo, hi := Center(k, n) - Half(n, s), Center(k, n) + Half(n, s);
            && 0.0 <= lo <= Share(k, n) <= hi <= 1.0
            && Interval(k, n, s) == (lo, hi)
  {
    Undivided(k, n, s);
    ShareRange(k, n);
    BoundsInRange(n as real, Z * Z, Share(k, n), Center(k, n), Half(n, s));
  }

  /** The interval where nothing or everything succeeded, in numbers: with the 1.96 of a 95% interval,
      whose square is 3.8416; and (0, 0) where nothing was tried. */
  lemma {:induction false} EndsOfTheScale(n: nat, s: real)
    requires n > 0 ==> s >= 0.0 && s * s == Radicand(0, n)
    ensures n == 0 ==> Interval(0, n, s) == (0.0, 0.0)
    ensures n > 0 ==> Interval(0, n, s) == (0.0, 3.8416 / (n as real + 3.8416))
  {
    if n > 0 {
      ClampsAreIdle(0, n, s);
      ZeroSolves(n);
      BoundsSolveTheScoreEquation(0, n, s, 0.0);
      BoundsSolveTheScoreEquation(0, n, s, 3.8416 / (n as real + 3.8416));
    }
  }

  lemma {:induction false} ZeroSolves(n: nat)
    requires n > 0
    ensures ScoreBound(0, n, 0.0) && ScoreBound(0, n, 3.8416 / (n as real + 3.8416))
    ensures 3.8416 / (n as real + 3.8416) > 0.0
  {
    var nr, m := n as real, n as real + 3.8416;
    var x := 3.8416 / m;
    assert x * m == 3.8416;
    assert nr * x == 3.8416 * (1.0 - x);
    assert nr * x * x == 3.8416 * x * (1.0 - x);
  }
}
