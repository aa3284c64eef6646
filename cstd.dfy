/**
 * The pieces of C that the watchface's arithmetic depends on: integer
 * division that truncates toward zero, float-to-int conversion that
 * truncates toward zero, the fields of `struct tm` that are read, and
 * an Option for pointers that may be NULL.
 */
module CStd {

  datatype Option<T> = None | Some(value: T)

  /**
   * C's `a / b` on `int` for a positive divisor: the quotient rounded toward
   * zero, so the remainder `a - q * b` has the sign of `a` and is smaller
   * than `b` in magnitude.
   */
  function Div(a: int, b: int): (q: int)
    requires b > 0
    ensures a >= 0 ==> q * b <= a < q * b + b
    ensures a < 0 ==> q * b - b < a <= q * b
  {
    if a >= 0 then a / b else -((-a) / b)
  }

  /** C's `(int) r` for a float `r`: drops the fraction, rounding toward zero. */
  function Trunc(r: real): (i: int)
    ensures 0.0 <= r ==> i as real <= r < i as real + 1.0
    ensures r < 0.0 ==> i as real - 1.0 < r <= i as real
    ensures 0.0 <= r ==> i >= 0
  {
    if r >= 0.0 then r.Floor else -((-r).Floor)
  }

  /** Adding a whole number to a real shifts its floor by that number. */
  lemma FloorShift(x: real, k: int)
    ensures (x + k as real).Floor == x.Floor + k
  {
  }

  /** For a positive divisor, the floor of the exact quotient is Euclidean division. */
  lemma FloorOfQuotient(a: int, b: int)
    requires b > 0
    ensures ((a as real) / (b as real)).Floor == a / b
  {
    var q, r := a / b, a % b;
    assert a == q * b + r;
    var x := (a as real) / (b as real);
    assert (a as real) == (q as real) * (b as real) + (r as real);
    assert x == (q as real) + (r as real) / (b as real);
    assert 0.0 <= (r as real) / (b as real) < 1.0;
    FloorShift((r as real) / (b as real), q);
  }

  /** The first index of a NUL in `buf`, searching from `i`. */
  function NulFrom(buf: seq<char>, i: nat): (k: Option<nat>)
    requires i <= |buf|
    ensures k.Some? ==> i <= k.value < |buf| && buf[k.value] == '\0'
                        && forall j | i <= j < k.value :: buf[j] != '\0'
    ensures k.None? ==> forall j | i <= j < |buf| :: buf[j] != '\0'
    decreases |buf| - i
  {
    if i == |buf| then None else if buf[i] == '\0' then Some(i) else NulFrom(buf, i + 1)
  }

  /**
   * The string a C reader of the buffer sees: the characters before the
   * first NUL, or None when there is no NUL and the reader runs past the end.
   */
  function CStringOf(buf: seq<char>): Option<string>
  {
    match NulFrom(buf, 0)
    case None => None
    case Some(k) => Some(buf[..k])
  }

  /** A NUL with no NUL before it is the one CStringOf stops at. */
  lemma {:induction false} NulFromFirst(buf: seq<char>, i: nat, k: nat)
    requires i <= k < |buf| && buf[k] == '\0'
    requires forall j | i <= j < k :: buf[j] != '\0'
    ensures NulFrom(buf, i) == Some(k)
    decreases k - i
  {
    if i < k {
      NulFromFirst(buf, i + 1, k);
    }
  }

  /**
   * The `struct tm` fields read by the watchface: `year` counts from 1900
   * and `mon` from 0, as in C.
   */
  datatype Tm = Tm(year: int, mon: int, mday: int, hour: int, min: int)
}
