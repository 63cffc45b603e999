// Euclidean division facts the verifier does not find unaided.
module Division {
  lemma {:induction false} MulAtLeast(x: nat, d: nat)
    requires x >= 1
    ensures x * d >= d
  {
    assert x * d == d + (x - 1) * d;
  }

  // Euclidean division is determined by its defining equation.
  lemma {:induction false} QuotientIs(n: nat, d: nat, q: nat, r: nat)
    requires d > 0 && n == q * d + r && r < d
    ensures n / d == q && n % d == r
  {
    var q', r' := n / d, n % d;
    assert n == q' * d + r';
    assert (q - q') * d == r' - r;
    if q' < q {
      MulAtLeast(q - q', d);
    } else if q' > q {
      assert (q' - q) * d == r - r';
      MulAtLeast(q' - q, d);
    }
  }

  lemma Decompose(n: nat, base: nat)
    requires base >= 2 && n != 0
    ensures n == n / base * base + n % base
    ensures n / base < n
  {
  }

  lemma {:induction false} DivDiv(n: nat, a: nat, b: nat)
    requires a > 0 && b > 0
    ensures a * b > 0
    ensures n / a / b == n / (a * b)
  {
    var q := n / a / b;
    var r := n / a % b;
    assert n == (q * b + r) * a + n % a;
    assert (q * b + r) * a == q * (a * b) + r * a;
    var rest := r * a + n % a;
    assert r * a <= (b - 1) * a;
    assert (b - 1) * a == a * b - a;
    assert n == q * (a * b) + rest && 0 <= rest < a * b;
    QuotientIs(n, a * b, q, rest);
  }

  lemma DivMonotone(m: nat, n: nat, d: nat)
    requires d > 0 && m <= n
    ensures m / d <= n / d
  {
    var q, q' := m / d, n / d;
    assert m == q * d + m % d && n == q' * d + n % d;
    if q' < q {
      NextMultiple(q', q, d);
    }
  }

  lemma MulMonotone(q: nat, d: nat, e: nat)
    requires d <= e
    ensures q * d <= q * e
  {
    assert q * e == q * d + q * (e - d);
  }

  lemma NextMultiple(p: nat, q: nat, d: nat)
    requires p < q
    ensures q * d >= p * d + d
  {
    assert q * d == p * d + (q - p) * d;
    MulAtLeast(q - p, d);
  }
}
