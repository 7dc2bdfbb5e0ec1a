/**
 * Numeric vocabulary shared by every component of the synthesizer model.
 * Floating-point numbers are modelled as `real`; the transcendental
 * functions the DSP code calls are left uninterpreted (see `Maths`).
 */
module Base {

  datatype Option<T> = None | Some(value: T)

  /** The float value of `np.pi`. */
  const PI: real := 3.141592653589793

  /** `2 * np.pi`, the period every phase accumulator wraps at. */
  const TWO_PI: real := 2.0 * PI

  /** The sample rate hard-coded in the DSP classes (44100 Hz). */
  const SAMPLE_RATE: real := 44100.0

  /**
   * The transcendental functions used by the source, passed in as values so
   * that the model says nothing about them beyond what each lemma requires.
   * `pow(x, y)` stands for Python's `x ** y`.
   */
  datatype Maths = Maths(sin: real -> real, cos: real -> real, pow: (real, real) -> real)

  function Min(a: real, b: real): real { if a <= b then a else b }

  function Max(a: real, b: real): real { if a >= b then a else b }

  /** `min(max(x, lo), hi)`: the clamp the parameter setters use. */
  function Clamp(x: real, lo: real, hi: real): (r: real)
    requires lo <= hi
    ensures lo <= r <= hi
    ensures lo <= x <= hi ==> r == x
    ensures x < lo ==> r == lo
    ensures hi < x ==> r == hi
  {
    Min(Max(x, lo), hi)
  }

  /**
   * Real division where a zero divisor yields 0. The source divides floats
   * and would produce an infinity there; the model does not track those.
   */
  function Div(x: real, y: real): real { if y == 0.0 then 0.0 else x / y }

  /** The integer part `floor(x / m)` that `PyMod` takes away. */
  function Quotient(x: real, m: real): int
    requires m > 0.0
  {
    (x / m).Floor
  }

  /** Python's float `x % m` for a positive modulus: floor semantics. */
  function PyMod(x: real, m: real): (r: real)
    requires m > 0.0
    ensures 0.0 <= r < m
    ensures x == r + Quotient(x, m) as real * m
    ensures 0.0 <= x < m ==> r == x
  {
    var q := x / m;
    var f := q.Floor;
    var a := q - f as real;
    FractionTimesPeriod(a, m);
    assert q * m == x;
    assert x - f as real * m == a * m;
    assert 0.0 <= x < m ==> f == 0 by {
      if 0.0 <= x < m {
        DivBelowOne(x, m);
      }
    }
    x - f as real * m
  }

  lemma FractionTimesPeriod(a: real, m: real)
    requires 0.0 <= a < 1.0 && m > 0.0
    ensures 0.0 <= a * m < m
  {
    assert m - a * m == (1.0 - a) * m;
  }

  lemma DivBelowOne(x: real, m: real)
    requires 0.0 <= x < m
    ensures 0.0 <= x / m < 1.0 && (x / m).Floor == 0
  {
    assert (x / m) * m == x;
  }

  /** Reducing an already reduced phase again changes nothing. */
  lemma PyModIdempotent(x: real, m: real)
    requires m > 0.0
    ensures PyMod(PyMod(x, m), m) == PyMod(x, m)
  {
  }

  /** A remainder in [0, m) that differs from x by whole periods is the remainder. */
  lemma PyModUnique(x: real, m: real, r: real, j: int)
    requires m > 0.0 && 0.0 <= r < m && x == r + j as real * m
    ensures PyMod(x, m) == r
  {
    var p := PyMod(x, m);
    var d := Quotient(x, m) - j;
    assert d as real * m == r - p by {
      assert Quotient(x, m) as real * m - j as real * m == d as real * m;
    }
    ShorterThanPeriod(d, m, r - p);
  }

  /** A whole number of periods strictly shorter than one period is zero periods. */
  lemma ShorterThanPeriod(d: int, m: real, e: real)
    requires m > 0.0 && e == d as real * m && -m < e < m
    ensures d == 0 && e == 0.0
  {
    if d != 0 {
      WholePeriods(d, m);
      assert false;
    }
  }

  /** A nonzero whole number of periods is at least one period long. */
  lemma WholePeriods(d: int, m: real)
    requires m > 0.0
    ensures d >= 1 ==> d as real * m >= m
    ensures d <= -1 ==> d as real * m <= -m
  {
    if d >= 1 {
      assert d as real * m - m == (d - 1) as real * m;
    } else if d <= -1 {
      assert d as real * m + m == (d + 1) as real * m;
    }
  }

  /** Two values that differ by a whole number of periods reduce alike. */
  lemma PyModShift(x: real, m: real, k: int)
    requires m > 0.0
    ensures PyMod(x + k as real * m, m) == PyMod(x, m)
  {
    var q := Quotient(x, m);
    assert x + k as real * m == PyMod(x, m) + (q + k) as real * m by {
      assert (q + k) as real * m == q as real * m + k as real * m;
    }
    PyModUnique(x + k as real * m, m, PyMod(x, m), q + k);
  }

  /** `np.sign`. */
  function Sign(x: real): (r: real)
    ensures r == -1.0 || r == 0.0 || r == 1.0
    ensures r * x >= 0.0
    ensures r == 0.0 <==> x == 0.0
  {
    if x > 0.0 then 1.0 else if x < 0.0 then -1.0 else 0.0
  }

  /** `|x|`. */
  function Abs(x: real): real { if x < 0.0 then -x else x }

  /** `np.zeros(n)`. */
  function Zeros(n: nat): (r: seq<real>)
    ensures |r| == n
    ensures forall k :: 0 <= k < n ==> r[k] == 0.0
  {
    seq(n, k => 0.0)
  }

  /** Element-wise `s * g`. */
  function Scale(s: seq<real>, g: real): (r: seq<real>)
    ensures |r| == |s|
    ensures forall k :: 0 <= k < |s| ==> r[k] == s[k] * g
  {
    seq(|s|, k requires 0 <= k < |s| => s[k] * g)
  }

  /** Scaling commutes with splitting a buffer in two. */
  lemma ScaleAppend(a: seq<real>, b: seq<real>, g: real)
    ensures Scale(a + b, g) == Scale(a, g) + Scale(b, g)
  {
    assert forall k :: 0 <= k < |a| + |b| ==> (Scale(a, g) + Scale(b, g))[k] == (a + b)[k] * g;
  }
}
