/** Small shared vocabulary: an optional value (a dictionary key that may be
    missing, a Python `None`) and real-valued helpers used by several modules. */
module Common {

  /** A value that may be absent; `GetOr` is Python's `d.get(key, default)`. */
  datatype Option<T> = None | Some(value: T) {
    function GetOr(default: T): T {
      if Some? then value else default
    }
  }

  /** Python's `abs` on a number. */
  function Abs(x: real): real {
    if x < 0.0 then -x else x
  }

  function Max(a: real, b: real): real {
    if a >= b then a else b
  }

  function Min(a: real, b: real): real {
    if a <= b then a else b
  }

  /** Python's `int(x)` on a float: truncation toward zero. */
  function Trunc(x: real): (r: int)
    ensures 0.0 <= x ==> r as real <= x < r as real + 1.0
    ensures x < 0.0 ==> r as real - 1.0 < x <= r as real
  {
    if x >= 0.0 then x.Floor else -((-x).Floor)
  }

  /** Multiplying both sides by a positive number keeps an inequality. */
  lemma ScaleMonotone(x: real, y: real, c: real)
    requires c > 0.0
    ensures x <= y <==> x * c <= y * c
    ensures x < y <==> x * c < y * c
  {
    if x <= y {
      assert (y - x) * c >= 0.0;
    }
    if x < y {
      assert (y - x) * c > 0.0;
    }
    if x * c <= y * c {
      assert (y - x) * c >= 0.0;
    }
    if x * c < y * c {
      assert (y - x) * c > 0.0;
    }
  }

  lemma RatioAtMost(d: real, t: real, c: real)
    requires t > 0.0
    ensures d / t <= c <==> d <= c * t
  {
    ScaleMonotone(d / t, c, t);
    assert d / t * t == d;
  }

  lemma RatioAtLeast(d: real, t: real, c: real)
    requires t > 0.0
    ensures c <= d / t <==> c * t <= d
  {
    ScaleMonotone(c, d / t, t);
    assert d / t * t == d;
  }

  lemma NegatedRatio(d: real, t: real)
    requires t > 0.0
    ensures -d / t == -(d / t)
  {
    assert d / t * t == d;
    assert -d / t * t == -d;
  }

  /** A count over a larger count is a fraction in [0, 1]. */
  lemma RatioInUnit(c: nat, n: nat)
    requires c <= n && n > 0
    ensures 0.0 <= c as real / n as real <= 1.0
  {
  }
}
