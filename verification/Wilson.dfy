/** The Wilson score interval over exact reals. */
module Wilson {
  import opened Records

  datatype Interval = Interval(lower: real, upper: real)

  const Z_95: real := 1.959963984540054

  function MaxReal(a: real, b: real): real { if a < b then b else a }

  function MinReal(a: real, b: real): real { if b < a then b else a }

  /** What the source takes the square root of. */
  function Radicand(z: real, successes: nat, total: int): real
    requires total > 0
  {
    var n := total as real;
    var p := successes as real / n;
    (p * (1.0 - p) + z * z / (4.0 * n)) / n
  }

  ghost predicate IsRoot(root: real, x: real) { root >= 0.0 && root * root == x }

  function Center(z: real, successes: nat, total: int): real
    requires total > 0 && 1.0 + z * z / total as real != 0.0
  {
    var n := total as real;
    (successes as real / n + z * z / (2.0 * n)) / (1.0 + z * z / n)
  }

  function Margin(z: real, total: int, root: real): real
    requires total > 0 && 1.0 + z * z / total as real != 0.0
  {
    z * root / (1.0 + z * z / total as real)
  }

  lemma DenominatorPositive(z: real, total: int)
    requires total > 0
    ensures 1.0 + z * z / total as real > 0.0
  {
    assert z * z >= 0.0;
    assert z * z / total as real >= 0.0;
  }

  /** `root` is the square root of the radicand. */
  function WilsonInterval(z: real, successes: nat, total: int, root: real): Outcome<Interval> {
    if total <= 0 then Err(InvalidArgument)
    else
      DenominatorPositive(z, total);
      var center := Center(z, successes, total);
      var margin := Margin(z, total, root);
      Ok(Interval(MaxReal(0.0, center - margin), MinReal(1.0, center + margin)))
  }

  // ----- the quadratic behind it, with w = z^2 / total -----

  /** Zero at both ends of the interval and negative exactly between them. */
  function Score(p: real, w: real, x: real): real { (p - x) * (p - x) - w * x * (1.0 - x) }

  lemma Square(a: real, b: real)
    requires b >= 0.0 && a * a <= b * b
    ensures -b <= a <= b
  {
    if a > b { Larger(a, b); }
    if a < -b { Larger(-a, b); }
  }

  lemma Larger(a: real, b: real)
    requires a > b >= 0.0
    ensures a * a > b * b
  {
    Positive(a - b, a + b);
    assert a * a - b * b == (a - b) * (a + b);
  }

  lemma Positive(a: real, b: real)
    requires a > 0.0 && b > 0.0
    ensures a * b > 0.0
  {}

  lemma NonNegative(a: real, b: real)
    requires a >= 0.0 && b >= 0.0
    ensures a * b >= 0.0
  {}

  /** `q` is the root of the discriminant. */
  ghost predicate Discriminant(p: real, w: real, q: real) {
    0.0 <= p <= 1.0 && w >= 0.0 && q >= 0.0 && q * q == w * (p * (1.0 - p)) + w * w / 4.0
  }

  lemma LowEnd(p: real, w: real, q: real)
    requires Discriminant(p, w, q)
    ensures q <= p + w / 2.0
  {
    NonNegative(p, p);
    NonNegative(1.0 + w, p * p);
    Expand(p, w);
    Square(q, p + w / 2.0);
  }

  lemma HighEnd(p: real, w: real, q: real)
    requires Discriminant(p, w, q)
    ensures p + w / 2.0 + q <= 1.0 + w
  {
    NonNegative(1.0 - p, 1.0 - p);
    NonNegative(1.0 + w, (1.0 - p) * (1.0 - p));
    ExpandOther(p, w);
    Square(q, 1.0 + w - (p + w / 2.0));
  }

  lemma Middle(p: real, w: real, q: real)
    requires Discriminant(p, w, q)
    ensures p + w / 2.0 - q <= (1.0 + w) * p <= p + w / 2.0 + q
  {
    NonNegative(p, 1.0 - p);
    NonNegative(w, p * (1.0 - p));
    NonNegative(1.0 + w, w * (p * (1.0 - p)));
    ExpandMiddle(p, w);
    Square((1.0 + w) * p - (p + w / 2.0), q);
  }

  lemma Expand(p: real, w: real)
    ensures (p + w / 2.0) * (p + w / 2.0) - (w * (p * (1.0 - p)) + w * w / 4.0) == (1.0 + w) * (p * p)
  {}

  lemma ExpandOther(p: real, w: real)
    ensures (1.0 + w - (p + w / 2.0)) * (1.0 + w - (p + w / 2.0)) - (w * (p * (1.0 - p)) + w * w / 4.0) ==
            (1.0 + w) * ((1.0 - p) * (1.0 - p))
  {}

  lemma ExpandMiddle(p: real, w: real)
    ensures (w * (p * (1.0 - p)) + w * w / 4.0) - ((1.0 + w) * p - (p + w / 2.0)) * ((1.0 + w) * p - (p + w / 2.0)) ==
            (1.0 + w) * (w * (p * (1.0 - p)))
  {}

  /** (b + q) / d is a zero of the score for either sign of q. */
  lemma EndIsZero(p: real, w: real, q: real, x: real)
    requires w >= 0.0 && q * q == w * (p * (1.0 - p)) + w * w / 4.0
    requires (1.0 + w) * x == p + w / 2.0 + q
    ensures Score(p, w, x) == 0.0
  {
    var d, b := 1.0 + w, p + w / 2.0;
    assert d * Score(p, w, x) == (d * x - b) * (d * x - b) - (b * b - d * (p * p)) by { Complete(p, w, x); }
    Expand(p, w);
    assert d * Score(p, w, x) == 0.0;
    ZeroFactor(d, Score(p, w, x));
  }

  lemma Complete(p: real, w: real, x: real)
    ensures var d := 1.0 + w; var b := p + w / 2.0;
            d * Score(p, w, x) == (d * x - b) * (d * x - b) - (b * b - d * (p * p))
  {
    var d, b := 1.0 + w, p + w / 2.0;
    assert Score(p, w, x) == d * (x * x) - 2.0 * b * x + p * p;
  }

  lemma ZeroFactor(d: real, y: real)
    requires d >= 1.0 && d * y == 0.0
    ensures y == 0.0
  {}

  /** The score is not positive exactly between the ends. */
  lemma Inside(p: real, w: real, q: real, x: real)
    requires Discriminant(p, w, q)
    ensures Score(p, w, x) <= 0.0 <==> p + w / 2.0 - q <= (1.0 + w) * x <= p + w / 2.0 + q
  {
    var d, b := 1.0 + w, p + w / 2.0;
    var y := d * x - b;
    Complete(p, w, x);
    Expand(p, w);
    assert d * Score(p, w, x) == y * y - q * q;
    SignOf(d, Score(p, w, x));
    if y * y <= q * q {
      Square(y, q);
    } else if -q <= y <= q {
      WithinSquare(y, q);
    }
  }

  lemma SignOf(d: real, y: real)
    requires d >= 1.0
    ensures d * y <= 0.0 <==> y <= 0.0
  {
    if y > 0.0 { Positive(d, y); }
    if y < 0.0 { Positive(d, -y); }
  }

  lemma WithinSquare(y: real, q: real)
    requires -q <= y <= q
    ensures y * y <= q * q
  {
    NonNegative(q - y, q + y);
    assert q * q - y * y == (q - y) * (q + y);
  }

  // ----- the source's formulas in these terms -----

  lemma DiscriminantHolds(z: real, successes: nat, total: int, root: real)
    requires total > 0 && successes <= total && z >= 0.0 && IsRoot(root, Radicand(z, successes, total))
    ensures Discriminant(successes as real / total as real, z * z / total as real, z * root)
  {
    var n := total as real;
    var p := successes as real / n;
    var v := z * z;
    var w := v / n;
    var pq := p * (1.0 - p);
    assert 0.0 <= p <= 1.0 by { ShareOf(successes, total); }
    NonNegative(z, z);
    NonNegative(z, root);
    Quotient(v, n);
    calc {
      (z * root) * (z * root);
      v * (root * root);
      v * ((pq + v / (4.0 * n)) / n);
      (v / n) * (pq + v / (4.0 * n));
      { FourthOf(v, n); }
      w * (pq + w / 4.0);
      w * pq + w * w / 4.0;
    }
  }

  lemma ShareOf(successes: nat, total: int)
    requires total > 0 && successes <= total
    ensures 0.0 <= successes as real / total as real <= 1.0
  {}

  lemma Quotient(v: real, n: real)
    requires v >= 0.0 && n > 0.0
    ensures v / n >= 0.0
  {}

  lemma FourthOf(v: real, n: real)
    requires n > 0.0
    ensures v / (4.0 * n) == v / n / 4.0 && v / (2.0 * n) == v / n / 2.0
  {}

  lemma SignOfAny(d: real, y: real)
    requires d > 0.0
    ensures d * y <= 0.0 <==> y <= 0.0
  {
    if y > 0.0 { Positive(d, y); }
    if y < 0.0 { Positive(d, -y); }
  }

  /** The proportions that a two-sided score test at `z` does not reject. */
  ghost predicate Accepted(z: real, successes: nat, total: int, x: real)
    requires total > 0
  {
    var n := total as real;
    var p := successes as real / n;
    n * ((p - x) * (p - x)) <= z * z * (x * (1.0 - x))
  }

  lemma AcceptedScore(z: real, successes: nat, total: int, x: real)
    requires total > 0
    ensures Accepted(z, successes, total, x) <==> Score(successes as real / total as real, z * z / total as real, x) <= 0.0
  {
    var n := total as real;
    var p := successes as real / n;
    var w := z * z / n;
    var y := x * (1.0 - x);
    var sq := (p - x) * (p - x);
    assert n * w == z * z;
    assert Score(p, w, x) == sq - w * y;
    assert n * Score(p, w, x) == n * sq - (n * w) * y;
    SignOfAny(n, Score(p, w, x));
  }

  /** The clamps never act, the observed proportion is inside, the interval is inside [0, 1], and it
      consists of exactly the proportions the score test accepts. */
  lemma WilsonIsScoreTest(z: real, successes: nat, total: int, root: real, x: real)
    requires total > 0 && successes <= total && z >= 0.0 && IsRoot(root, Radicand(z, successes, total))
    ensures 1.0 + z * z / total as real > 0.0 && WilsonInterval(z, successes, total, root).Ok?
    ensures var i := WilsonInterval(z, successes, total, root).value;
            && i.lower == Center(z, successes, total) - Margin(z, total, root)
            && i.upper == Center(z, successes, total) + Margin(z, total, root)
            && 0.0 <= i.lower <= successes as real / total as real <= i.upper <= 1.0
            && (i.lower <= x <= i.upper <==> Accepted(z, successes, total, x))
  {
    DenominatorPositive(z, total);
    hide Radicand, Accepted, Discriminant, Score, Center, Margin, Times, IsRoot;
    var p := successes as real / total as real;
    var w := z * z / total as real;
    var center, margin := CenterAndMargin(z, successes, total, root);
    DiscriminantHolds(z, successes, total, root);
    AcceptedScore(z, successes, total, x);
    var q := z * root;
    Ends(p, w, q, center, margin);
    EndsOrdered(p, w, q, center - margin, center + margin, x);
  }

  lemma CenterAndMargin(z: real, successes: nat, total: int, root: real) returns (center: real, margin: real)
    requires total > 0
    ensures var w := z * z / total as real;
            && 1.0 + w > 0.0 && center == Center(z, successes, total) && margin == Margin(z, total, root)
            && (1.0 + w) * center == successes as real / total as real + w / 2.0 && (1.0 + w) * margin == z * root
  {
    DenominatorPositive(z, total);
    FourthOf(z * z, total as real);
    center, margin := Center(z, successes, total), Margin(z, total, root);
  }

  /** A product the solver is not to expand. */
  function Times(d: real, x: real): real { d * x }

  lemma Ordered(d: real, u: real, v: real)
    requires d > 0.0
    ensures Times(d, u) <= Times(d, v) <==> u <= v
    ensures Times(d, 0.0) == 0.0 && Times(d, 1.0) == d
  {
    SignOfAny(d, u - v);
    assert d * (u - v) == d * u - d * v;
  }

  lemma Ends(p: real, w: real, q: real, center: real, margin: real)
    requires Discriminant(p, w, q)
    requires (1.0 + w) * center == p + w / 2.0 && (1.0 + w) * margin == q
    ensures Times(1.0 + w, center - margin) == p + w / 2.0 - q && Times(1.0 + w, center + margin) == p + w / 2.0 + q
    ensures Score(p, w, center - margin) == 0.0 && Score(p, w, center + margin) == 0.0
  {
    assert (1.0 + w) * (center - margin) == (1.0 + w) * center - (1.0 + w) * margin;
    assert (1.0 + w) * (center + margin) == (1.0 + w) * center + (1.0 + w) * margin;
    EndIsZero(p, w, -q, center - margin);
    EndIsZero(p, w, q, center + margin);
  }

  lemma AroundP(p: real, w: real, q: real, x: real)
    requires Discriminant(p, w, q)
    ensures 0.0 <= p + w / 2.0 - q <= Times(1.0 + w, p) <= p + w / 2.0 + q <= 1.0 + w && 1.0 + w > 0.0
    ensures Score(p, w, x) <= 0.0 <==> p + w / 2.0 - q <= Times(1.0 + w, x) <= p + w / 2.0 + q
  {
    LowEnd(p, w, q);
    HighEnd(p, w, q);
    Middle(p, w, q);
    Inside(p, w, q, x);
  }

  lemma EndsOrdered(p: real, w: real, q: real, low: real, high: real, x: real)
    requires Discriminant(p, w, q)
    requires Times(1.0 + w, low) == p + w / 2.0 - q && Times(1.0 + w, high) == p + w / 2.0 + q
    ensures 0.0 <= low <= p <= high <= 1.0
    ensures low <= x <= high <==> Score(p, w, x) <= 0.0
  {
    hide Score, Times, Discriminant;
    var d := 1.0 + w;
    AroundP(p, w, q, x);
    Ordered(d, 0.0, low);
    Ordered(d, low, p);
    Ordered(d, p, high);
    Ordered(d, high, 1.0);
    Ordered(d, low, x);
    Ordered(d, x, high);
  }

  lemma CenterScores(z: real, successes: nat, total: int, root: real)
    requires total > 0 && successes <= total && z >= 0.0 && IsRoot(root, Radicand(z, successes, total))
    ensures 1.0 + z * z / total as real > 0.0
    ensures var center := Center(z, successes, total); var margin := Margin(z, total, root);
            var p := successes as real / total as real; var w := z * z / total as real;
            Score(p, w, center - margin) == 0.0 && Score(p, w, center + margin) == 0.0
  {
    hide Radicand, Score, Discriminant, Center, Margin, Times, IsRoot;
    DiscriminantHolds(z, successes, total, root);
    var center, margin := CenterAndMargin(z, successes, total, root);
    Ends(successes as real / total as real, z * z / total as real, z * root, center, margin);
  }

  /** Both ends solve the score equation. */
  lemma EndsSolveScore(z: real, successes: nat, total: int, root: real)
    requires total > 0 && successes <= total && z >= 0.0 && IsRoot(root, Radicand(z, successes, total))
    ensures WilsonInterval(z, successes, total, root).Ok?
    ensures var i := WilsonInterval(z, successes, total, root).value;
            Solves(z, successes, total, i.lower) && Solves(z, successes, total, i.upper)
  {
    hide Radicand, Score, Discriminant, Solves, Center, Margin, Times, IsRoot, WilsonInterval, Accepted;
    WilsonIsScoreTest(z, successes, total, root, 0.0);
    CenterScores(z, successes, total, root);
    var i := WilsonInterval(z, successes, total, root).value;
    SolvesScore(z, successes, total, i.lower);
    SolvesScore(z, successes, total, i.upper);
  }

  /** total * (p - x)^2 == z^2 * x * (1 - x) */
  ghost predicate Solves(z: real, successes: nat, total: int, x: real)
    requires total > 0
  {
    var n := total as real;
    var p := successes as real / n;
    n * ((p - x) * (p - x)) == z * z * (x * (1.0 - x))
  }

  lemma SolvesScore(z: real, successes: nat, total: int, x: real)
    requires total > 0 && Score(successes as real / total as real, z * z / total as real, x) == 0.0
    ensures Solves(z, successes, total, x)
  {
    var n := total as real;
    var p := successes as real / n;
    var w := z * z / n;
    var y := x * (1.0 - x);
    assert n * w == z * z;
    assert Score(p, w, x) == (p - x) * (p - x) - w * y;
    assert n * ((p - x) * (p - x)) == n * (w * y) == (n * w) * y;
  }
}
