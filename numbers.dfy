/** Python's numeric conversions used by the game, stated over exact integers and reals.
    Python's `//` is floor division; every `//` in the game has a positive divisor, for which
    Dafny's Euclidean `/` is the same operation, so plain `/` is used for it. */
module Numbers {

  /** `int(r)` on a float: truncation toward zero. */
  function Trunc(r: real): (t: int)
    ensures 0.0 <= r ==> 0 <= t && t as real <= r < t as real + 1.0
    ensures r <= 0.0 ==> t <= 0 && t as real - 1.0 < r <= t as real
  {
    if r >= 0.0 then r.Floor else -((-r).Floor)
  }

  /** Python's one-argument `round`: the nearest integer, ties to the even one. */
  function Round(r: real): (n: int)
    ensures -0.5 <= r - n as real <= 0.5
    ensures (r - n as real == 0.5 || r - n as real == -0.5) ==> n % 2 == 0
  {
    var f := r.Floor;
    var frac := r - f as real;
    if frac < 0.5 then f
    else if frac > 0.5 then f + 1
    else if f % 2 == 0 then f
    else f + 1
  }

  /** The nearest-integer, ties-to-even rule has exactly one answer. */
  lemma RoundUnique(r: real, n: int)
    requires -0.5 <= r - n as real <= 0.5
    requires (r - n as real == 0.5 || r - n as real == -0.5) ==> n % 2 == 0
    ensures Round(r) == n
  {
    var m := Round(r);
    assert -1.0 <= (n - m) as real <= 1.0;
  }

  /** `round(factor * 0.7)` is the half-up rounding `(7 * factor + 5) / 10` except when the
      product ends in .5 with an odd integer part below it, i.e. when factor % 20 == 15. */
  lemma {:induction false} RoundSevenTenths(factor: int)
    ensures factor % 20 != 15 ==> Round(factor as real * 0.7) == (7 * factor + 5) / 10
    ensures factor % 20 == 15 ==> Round(factor as real * 0.7) == (7 * factor + 5) / 10 - 1
  {
    var q, s := factor / 20, factor % 20;
    var n := (7 * factor + 5) / 10;
    var m := (7 * s + 5) / 10;
    var d := (7 * s + 5) % 10;
    ShiftTenths(factor, q, s);
    assert n == 14 * q + m && 7 * factor + 5 == 10 * n + d;
    var r := factor as real * 0.7;
    assert r - n as real == (d - 5) as real / 10.0;
    if s != 15 {
      if d == 0 {
        // a tie: only s == 5 and s == 15 give one, and for s == 5 the lower neighbour is even
        assert s == 5 && m == 4;
        EvenShift(q, m);
      }
      RoundUnique(r, n);
    } else {
      assert d == 0 && m == 11;
      EvenShift(q, m - 1);
      RoundUnique(r, n - 1);
    }
  }

  /** Splitting `factor` into whole twenties `q` and a remainder `s` splits `7 * factor + 5`
      into tens the same way. */
  lemma ShiftTenths(factor: int, q: int, s: int)
    requires q == factor / 20 && s == factor % 20
    ensures (7 * factor + 5) / 10 == 14 * q + (7 * s + 5) / 10
    ensures 7 * factor + 5 == 10 * ((7 * factor + 5) / 10) + (7 * s + 5) % 10
  {
    var m, d := (7 * s + 5) / 10, (7 * s + 5) % 10;
    assert 7 * factor + 5 == 10 * (14 * q + m) + d;
  }

  lemma EvenShift(q: int, m: int)
    requires m % 2 == 0
    ensures (14 * q + m) % 2 == 0
  {
    assert 14 * q + m == 2 * (7 * q + m / 2);
  }
}
