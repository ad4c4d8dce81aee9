/** Modular arithmetic behind slot alignment, channel hopping and the two-slotframe
    schedule. Coprimality is the textbook one; Bezout's identity is proved from it. */
module NumberTheory {

  predicate Divides(d: int, n: int)
    requires d != 0
  {
    n % d == 0
  }

  ghost predicate Coprime(a: nat, b: nat) {
    forall d: nat | d > 0 && Divides(d, a) && Divides(d, b) :: d == 1
  }

  lemma MultipleAtLeast(k: int, n: int)
    requires k >= 1 && n > 0
    ensures k * n >= n
  {
    assert k * n == (k - 1) * n + n;
  }

  lemma MultipleMono(i: int, j: int, n: int)
    requires i <= j && n > 0
    ensures i * n <= j * n
  {
  }

  lemma ModUnique(a: int, n: int, q: int, r: int)
    requires n > 0 && 0 <= r < n && a == q * n + r
    ensures a % n == r && a / n == q
  {
    var d := a / n - q;
    assert d * n == r - a % n by {
      assert a == n * (a / n) + a % n;
      assert d * n == n * (a / n) - q * n;
    }
    if d > 0 {
      MultipleAtLeast(d, n);
    } else if d < 0 {
      MultipleAtLeast(-d, n);
    }
  }

  lemma ModRange(a: int, n: int)
    requires n > 0
    ensures 0 <= a % n < n
  {
  }

  lemma Distribute(a: int, b: int, c: int)
    ensures (a + b) * c == a * c + b * c
  {
  }

  lemma ModAdd(a: int, b: int, n: int)
    requires n > 0
    ensures (a % n + b) % n == (a + b) % n
  {
    var c := a % n + b;
    assert a == (a / n) * n + a % n;
    assert a + b == (a / n + c / n) * n + c % n by {
      assert (a / n + c / n) * n == (a / n) * n + (c / n) * n;
    }
    ModUnique(a + b, n, a / n + c / n, c % n);
  }

  /** Equal remainders: the difference is a multiple. */
  lemma ModEqual(a: int, b: int, n: int)
    requires n > 0
    ensures a % n == b % n <==> Divides(n, a - b)
  {
    var d := a - b;
    ModAdd(b, d, n);
    if Divides(n, d) {
      ModAdd(d, b, n);
    } else {
      ModAdd(a, -b, n);
      ModAdd(b, -b, n);
    }
  }

  lemma DividesScaled(d: int, a: int, k: int)
    requires d > 0 && Divides(d, a)
    ensures Divides(d, a * k)
  {
    assert a == (a / d) * d;
    assert a * k == ((a / d) * k) * d + 0 by {
      assert ((a / d) * d) * k == ((a / d) * k) * d;
    }
    ModUnique(a * k, d, (a / d) * k, 0);
  }

  lemma DividesSum(d: int, a: int, b: int)
    requires d > 0 && Divides(d, a) && Divides(d, b)
    ensures Divides(d, a + b)
  {
    ModAdd(a, b, d);
  }

  lemma {:induction false} Bezout(a: nat, b: nat) returns (x: int, y: int)
    requires a > 0 && Coprime(a, b)
    ensures a * x + b * y == 1
    decreases b
  {
    if b == 0 {
      assert Divides(a, a) && Divides(a, b);
      return 1, 0;
    }
    var q, r := a / b, a % b;
    assert a == b * q + r;
    forall d: nat | d > 0 && Divides(d, b) && Divides(d, r) ensures d == 1 {
      DividesScaled(d, b, q);
      DividesSum(d, b * q, r);
    }
    var x', y' := Bezout(b, r);
    x, y := y', x' - q * y';
    assert b * (q * y') == (b * q) * y';
    assert a * x + b * y == (b * q + r) * y' + b * x' - (b * q) * y';
  }

  /** Euclid's lemma. */
  lemma CoprimeFactor(m: nat, step: nat, k: int)
    requires m > 0 && Coprime(m, step) && Divides(m, k * step)
    ensures Divides(m, k)
  {
    var x, y := Bezout(m, step);
    DividesScaled(m, m, x * k);
    DividesScaled(m, k * step, y);
    DividesSum(m, m * (x * k), (k * step) * y);
    assert m * (x * k) + (k * step) * y == (m * x + step * y) * k;
  }

  /** Whole periods later the phase is the same. */
  lemma SamePhase(a: nat, k: nat, n: nat)
    requires n > 0
    ensures (a + k * n) % n == a % n
  {
    ModAdd(k * n, a, n);
    ModUnique(k * n, n, k, 0);
  }

  /** The residue modulo m of the k-th number of start, start + step, start + 2 * step, ... */
  function Residue(m: nat, step: nat, start: nat, k: nat): (r: nat)
    requires m > 0
  {
    (start + k * step) % m
  }

  lemma OrbitInjective(m: nat, step: nat, start: nat, i: nat, j: nat)
    requires m > 0 && Coprime(m, step) && i < j < m
    ensures (start + i * step) % m != (start + j * step) % m
  {
    if (start + i * step) % m == (start + j * step) % m {
      ModEqual(start + j * step, start + i * step, m);
      assert (start + j * step) - (start + i * step) == (j - i) * step;
      CoprimeFactor(m, step, j - i);
      ModUnique(j - i, m, 0, j - i);
    }
  }

  function Range(n: nat): (s: set<nat>)
    ensures |s| == n
    ensures forall x :: x in s <==> 0 <= x < n
  {
    if n == 0 then {} else Range(n - 1) + {n - 1}
  }

  lemma SubsetOfSameSize<T>(a: set<T>, b: set<T>)
    requires a <= b && |a| == |b|
    ensures a == b
  {
    if x :| x in b && x !in a {
      assert a <= b - {x};
      assert |a| <= |b - {x}| by { SubsetSize(a, b - {x}); }
    }
  }

  lemma {:induction false} SubsetSize<T>(a: set<T>, b: set<T>)
    requires a <= b
    ensures |a| <= |b|
  {
    if x :| x in a {
      SubsetSize(a - {x}, b - {x});
    }
  }

  function Elements(s: seq<nat>): set<nat> {
    set x | x in s
  }

  lemma {:induction false} DistinctSize(s: seq<nat>)
    requires forall i, j | 0 <= i < j < |s| :: s[i] != s[j]
    ensures |Elements(s)| == |s|
  {
    if s == [] {
      assert Elements(s) == {};
    } else {
      var t, z := s[..|s| - 1], s[|s| - 1];
      DistinctSize(t);
      assert s == t + [z] && z !in t;
      assert Elements(s) == Elements(t) + {z};
    }
  }

  /** A sequence of m distinct numbers below m contains each of them exactly once. */
  lemma DistinctCovers(s: seq<nat>, v: nat) returns (k: nat)
    requires forall x | x in s :: x < |s|
    requires forall i, j | 0 <= i < j < |s| :: s[i] != s[j]
    requires v < |s|
    ensures k < |s| && s[k] == v
  {
    DistinctSize(s);
    SubsetOfSameSize(Elements(s), Range(|s|));
    assert v in Elements(s);
    k :| 0 <= k < |s| && s[k] == v;
  }

  /** Coprime step: m consecutive terms visit every residue, and none twice. */
  lemma OrbitVisitsAll(m: nat, step: nat, start: nat, v: nat) returns (k: nat)
    requires m > 0 && Coprime(m, step) && v < m
    ensures k < m && (start + k * step) % m == v
    ensures forall j: nat {:trigger Residue(m, step, start, j)} | j < m && Residue(m, step, start, j) == v :: j == k
  {
    var s := seq(m, k requires 0 <= k => Residue(m, step, start, k));
    forall i, j | 0 <= i < j < |s| ensures s[i] != s[j] {
      OrbitInjective(m, step, start, i, j);
    }
    k := DistinctCovers(s, v);
    forall j: nat | j < m && Residue(m, step, start, j) == v ensures j == k {
      assert s[j] == s[k];
    }
  }
}
