/** Pieces of JavaScript semantics that the relay and both browser clients rely on. */
module Js {

  /** A value that may be `null` or `undefined`; the model never needs to tell the two apart. */
  datatype Option<+T> = None | Some(value: T) {

    /** The nullish-coalescing operator: `x ?? fallback`. Only `null` and
        `undefined` fall back; every other value, `""` included, is kept. */
    function OrElse(fallback: T): (r: T)
      ensures Some? ==> r == value
      ensures None? ==> r == fallback
    {
      match this
      case Some(v) => v
      case None => fallback
    }
  }

  /** A string is truthy in a condition exactly when it is not empty. */
  predicate Truthy(s: string) {
    s != ""
  }

  /** `v || fallback` for a string that may be undefined: both `undefined`
      and `""` are falsy and give the fallback. */
  function Or(v: Option<string>, fallback: string): (r: string)
    ensures v.Some? && Truthy(v.value) ==> r == v.value
    ensures v.None? || !Truthy(v.value) ==> r == fallback
  {
    if v.Some? && Truthy(v.value) then v.value else fallback
  }

  /** `Math.floor(r * n)` where `r` is a value of `Math.random()`, which lies in [0, 1). */
  function PickIndex(r: real, n: nat): (i: nat)
    requires 0.0 <= r < 1.0 && n > 0
    ensures i < n
  {
    var m := n as real;
    var x := r * m;
    assert 0.0 <= x by {
      assert 0.0 <= r && 0.0 < m;
    }
    assert x < m by {
      assert m - x == (1.0 - r) * m;
      assert 0.0 < 1.0 - r && 0.0 < m;
    }
    x.Floor
  }

  /** `Response.ok`: the status is in the range 200-299. */
  predicate IsOkStatus(status: nat) {
    200 <= status <= 299
  }

  predicate IsDigit(c: char) {
    '0' <= c <= '9'
  }

  function DigitChar(d: nat): (c: char)
    requires d < 10
    ensures IsDigit(c) && (c as int) - ('0' as int) == d
  {
    ('0' as int + d) as char
  }

  /** Decimal rendering of a non-negative integer, as template-literal interpolation `${n}` gives it. */
  function Decimal(n: nat): (s: string)
    ensures s != []
    ensures forall i :: 0 <= i < |s| ==> IsDigit(s[i])
    ensures s[0] == '0' ==> n == 0
    decreases n
  {
    if n < 10 then [DigitChar(n)] else Decimal(n / 10) + [DigitChar(n % 10)]
  }

  /** The number a string of decimal digits denotes. */
  ghost function DecimalValue(s: string): nat
    requires forall i :: 0 <= i < |s| ==> IsDigit(s[i])
  {
    if s == [] then 0
    else
      assert IsDigit(s[|s| - 1]);
      DecimalValue(s[..|s| - 1]) * 10 + ((s[|s| - 1] as int) - ('0' as int))
  }

  /** Rendering a status code loses nothing: reading the digits back gives the code. */
  lemma {:induction false} DecimalRoundTrip(n: nat)
    ensures DecimalValue(Decimal(n)) == n
    decreases n
  {
    var s := Decimal(n);
    if n >= 10 {
      DecimalRoundTrip(n / 10);
      assert s[..|s| - 1] == Decimal(n / 10);
    }
  }
}
