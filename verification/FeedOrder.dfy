/** The order in which the download engine feeds chunk indices to its workers:
    a walk `start, start + step, start + 2*step, ...` modulo the chunk count,
    with a randomly drawn `step` that is first made coprime to the count. */
module FeedOrder {
  import opened Integers

  // ----- Greatest common divisors -----

  ghost predicate Divides(d: int, n: int) {
    exists k :: d * k == n
  }

  function Gcd(a: nat, b: nat): nat
    decreases b
  {
    if b == 0 then a else Gcd(b, a % b)
  }

  ghost predicate Coprime(a: nat, b: nat) {
    forall d: nat :: Divides(d, a) && Divides(d, b) ==> d == 1
  }

  /** Bezout's identity: the common divisor that Euclid's algorithm ends on is an
      integer combination of its arguments. */
  lemma {:induction false} Bezout(a: nat, b: nat) returns (x: int, y: int)
    ensures a * x + b * y == Gcd(a, b)
    decreases b
  {
    if b == 0 {
      x, y := 1, 0;
    } else {
      var u, v := Bezout(b, a % b);
      x, y := v, u - (a / b) * v;
      EuclidStep(a, b, a / b, u, v);
    }
  }

  lemma EuclidStep(a: int, b: int, q: int, u: int, v: int)
    ensures a * v + b * (u - q * v) == b * u + (a - b * q) * v
  {
  }

  lemma {:induction false} GcdDivides(a: nat, b: nat)
    ensures Divides(Gcd(a, b), a) && Divides(Gcd(a, b), b)
    decreases b
  {
    var g := Gcd(a, b);
    if b == 0 {
      assert g * 1 == a && g * 0 == b;
    } else {
      GcdDivides(b, a % b);
      var k :| g * k == b;
      var l :| g * l == a % b;
      var q := a / b;
      calc {
        g * (q * k + l);
        q * (g * k) + g * l;
        q * b + a % b;
        a;
      }
    }
  }

  /** Euclid's algorithm tells exactly whether two numbers are coprime. */
  lemma GcdOneIffCoprime(a: nat, b: nat)
    ensures Gcd(a, b) == 1 <==> Coprime(a, b)
  {
    GcdDivides(a, b);
    var x, y := Bezout(a, b);
    if Gcd(a, b) == 1 {
      forall d: nat | Divides(d, a) && Divides(d, b) ensures d == 1 {
        var k :| d * k == a;
        var l :| d * l == b;
        calc {
          1;
          (d * k) * x + (d * l) * y;
          d * (k * x) + d * (l * y);
          d * (k * x + l * y);
        }
        OnlyOneDividesOne(d, k * x + l * y);
      }
    }
  }

  lemma OnlyOneDividesOne(d: nat, k: int)
    requires d * k == 1
    ensures d == 1
  {
    MultipleBounds(d, k);
  }

  lemma MultipleBounds(m: int, k: int)
    ensures 0 <= m && k >= 1 ==> m * k >= m
    ensures 0 <= m && k <= -1 ==> m * k <= -m
  {
  }

  /** The only multiple of `m` strictly between `-m` and `m` is zero. */
  lemma SmallMultiple(m: int, k: int)
    requires 0 <= m && -m < m * k < m
    ensures k == 0
  {
    MultipleBounds(m, k);
  }

  method ComputeGcd(a: int64, b: int64) returns (r: int64)
    requires 0 <= a && 0 <= b
    ensures 0 <= r && r as int == Gcd(a as int, b as int)
  {
    var x, y := a, b;
    while y != 0
      invariant 0 <= x && 0 <= y
      invariant Gcd(x as int, y as int) == Gcd(a as int, b as int)
      decreases y
    {
      x, y := y, x % y;
    }
    return x;
  }

  // ----- The step search -----

  lemma PredecessorCoprime(count: nat)
    requires count >= 2
    ensures Gcd(count - 1, count) == 1
  {
    assert (count - 1) % count == count - 1;
    assert count % (count - 1) == if count == 2 then 0 else 1 by {
      if count > 2 {
        assert count == 1 * (count - 1) + 1;
      }
    }
    if count == 2 {
      assert Gcd(1, 2) == Gcd(2, 1 % 2) == Gcd(2, 1) == Gcd(1, 0) == 1;
    } else {
      assert Gcd(count - 1, count) == Gcd(count, count - 1) == Gcd(count - 1, 1);
      assert Gcd(count - 1, 1) == Gcd(1, (count - 1) % 1) == Gcd(1, 0);
    }
  }

  ghost predicate NoneCoprime(lo: int, hi: int, count: nat) {
    forall s: nat | lo <= s < hi :: Gcd(s, count) != 1
  }

  /** Whatever is drawn, the search ends, and it ends on the smallest coprime step
      that is not below the drawn one: it never has to wrap around. */
  method FindStep(draw: int64, count: int64) returns (step: int64)
    requires 1 < count && 0 <= draw < count - 1
    ensures draw + 1 <= step < count
    ensures Coprime(step as int, count as int)
    ensures forall s: nat {:trigger Coprime(s, count as int)} ::
              draw as int + 1 <= s < step as int ==> !Coprime(s, count as int)
  {
    step := draw + 1;
    var g := ComputeGcd(step, count);
    PredecessorCoprime(count as int);
    while g != 1
      invariant draw + 1 <= step < count
      invariant 0 <= g && g as int == Gcd(step as int, count as int)
      invariant NoneCoprime(draw as int + 1, step as int, count as int)
      decreases count - step
    {
      assert step < count - 1;
      SmallMod(step, count - 1);
      step := step % (count - 1) + 1;
      g := ComputeGcd(step, count);
    }
    GcdOneIffCoprime(step as int, count as int);
    forall s: nat {:trigger Coprime(s, count as int)} | draw as int + 1 <= s < step as int
        ensures !Coprime(s, count as int) {
      GcdOneIffCoprime(s, count as int);
    }
  }

  lemma SmallMod(x: int64, m: int64)
    requires 0 <= x < m
    ensures x % m == x
  {
    DivModUnique(x as int, 0, x as int, m as int);
  }

  // ----- The walk -----

  /** The index fed in round `n`. */
  function FeedAt(start: nat, step: nat, count: nat, n: nat): (i: nat)
    requires start < count
    ensures i < count
  {
    if n == 0 then start else (FeedAt(start, step, count, n - 1) + step) % count
  }

  lemma ModShift(x: int, y: int, k: int, m: int)
    requires m > 0 && x == y + m * k
    ensures x % m == y % m
  {
    var q := y / m;
    assert x == m * (q + k) + y % m;
    DivModUnique(x, q + k, y % m, m);
  }

  lemma DivModUnique(x: int, q: int, r: int, m: int)
    requires m > 0 && 0 <= r < m && x == m * q + r
    ensures x % m == r
  {
    var d := q - x / m;
    assert m * d == x % m - r;
    SmallMultiple(m, d);
  }

  lemma {:induction false} FeedAtClosed(start: nat, step: nat, count: nat, n: nat)
    requires start < count
    ensures FeedAt(start, step, count, n) == (start + n * step) % count
  {
    if n > 0 {
      FeedAtClosed(start, step, count, n - 1);
      AddThenMod(start + (n - 1) * step, step, count);
      assert (n - 1) * step + step == n * step;
    }
  }

  lemma AddThenMod(x: int, y: int, m: int)
    requires m > 0
    ensures (x % m + y) % m == (x + y) % m
  {
    ModShift(x + y, x % m + y, x / m, m);
  }

  /** Every chunk index comes up in some round... */
  lemma FeedSurjective(start: nat, step: nat, count: nat, t: nat) returns (n: nat)
    requires start < count && t < count && Coprime(step, count)
    ensures n < count && FeedAt(start, step, count, n) == t
  {
    GcdOneIffCoprime(step, count);
    var x, y := Bezout(step, count);
    var d := t - start;
    n := (d * x) % count;
    var q := (d * x) / count;
    SolveWalk(d, x, y, step, count, q);
    assert start + n * step == t + count * (-(d * y) - q * step);
    ModShift(start + n * step, t, -(d * y) - q * step, count);
    DivModUnique(t, 0, t, count);
    FeedAtClosed(start, step, count, n);
  }

  lemma SolveWalk(d: int, x: int, y: int, step: int, count: int, q: int)
    requires step * x + count * y == 1
    ensures (d * x - count * q) * step == d + count * (-(d * y) - q * step)
  {
  }

  /** ... and in one round only. */
  lemma FeedInjective(start: nat, step: nat, count: nat, m: nat, n: nat)
    requires start < count && Coprime(step, count)
    requires m < n < count
    ensures FeedAt(start, step, count, m) != FeedAt(start, step, count, n)
  {
    FeedAtClosed(start, step, count, m);
    FeedAtClosed(start, step, count, n);
    var a, b := start + m * step, start + n * step;
    if a % count == b % count {
      var k := EqualModDifference(a, b, count);
      assert (n - m) * step == b - a;
      var z := CoprimeFactor(step, count, n - m, k);
      SmallMultiple(count, z);
    }
  }

  lemma EqualModDifference(a: int, b: int, m: int) returns (k: int)
    requires m > 0 && a % m == b % m
    ensures b - a == m * k
  {
    k := b / m - a / m;
  }

  /** A number coprime to `step` that divides `d * step` divides `d`. */
  lemma CoprimeFactor(step: nat, count: nat, d: int, k: int) returns (z: int)
    requires Coprime(step, count) && d * step == count * k
    ensures d == count * z
  {
    GcdOneIffCoprime(step, count);
    var x, y := Bezout(step, count);
    z := k * x + d * y;
    Regroup(d, step, x, count, y, k);
  }

  lemma Regroup(d: int, step: int, x: int, count: int, y: int, k: int)
    requires step * x + count * y == 1 && d * step == count * k
    ensures d == count * (k * x + d * y)
  {
  }

  ghost predicate Permutation(order: seq<int64>, count: int) {
    && |order| == count
    && (forall k :: 0 <= k < |order| ==> 0 <= order[k] as int < count)
    && (forall j, k :: 0 <= j < k < |order| ==> order[j] != order[k])
    && (forall t: int64 :: 0 <= t as int < count ==> t in order)
  }

  ghost predicate Follows(order: seq<int64>, start: int, step: int, count: int) {
    && 0 <= start < count && 0 <= step
    && forall k :: 0 <= k < |order| ==> order[k] as int == FeedAt(start, step, count, k)
  }

  lemma FullWalkIsPermutation(order: seq<int64>, start: nat, step: nat, count: nat)
    requires Follows(order, start, step, count) && |order| == count && Coprime(step, count)
    ensures Permutation(order, count)
  {
    forall j, k | 0 <= j < k < |order| ensures order[j] != order[k] {
      FeedInjective(start, step, count, j, k);
    }
    forall t: int64 | 0 <= t as int < count ensures t in order {
      var k := FeedSurjective(start, step, count, t as int);
      assert order[k] == t;
    }
  }

  /** The largest chunk count that the metadata check lets through: 2^50 bytes in
      chunks of 2^22. */
  const MAX_COUNT: int64 := 0x1000_0000

  /** The whole walk: for any draws it is a permutation of the chunk indices, and no
      intermediate value leaves the 64-bit range. */
  method Walk(count: int64, startDraw: int64, stepDraw: int64) returns (order: seq<int64>)
    requires 0 <= count <= MAX_COUNT
    requires count > 0 ==> 0 <= startDraw < count
    requires count > 1 ==> 0 <= stepDraw < count - 1
    ensures Permutation(order, count as int)
  {
    var start: int64, step: int64 := 0, 1;
    if count > 0 {
      start := startDraw;
    }
    if count > 1 {
      step := FindStep(stepDraw, count);
    } else {
      GcdOneIffCoprime(1, count as int);
      assert count == 1 ==> Gcd(1, 1) == Gcd(1, 0) == 1;
    }
    order := [];
    var n: int64, i: int64 := 0, start;
    while n < count
      invariant 0 <= n <= count && |order| == n as int
      invariant 0 < count ==> Follows(order, start as int, step as int, count as int)
      invariant 0 < count ==> i as int == FeedAt(start as int, step as int, count as int, n as int)
    {
      order := order + [i];
      n, i := n + 1, (i + step) % (if 1 < count then count else 1);
    }
    if 0 < count {
      FullWalkIsPermutation(order, start as int, step as int, count as int);
    }
  }
}
