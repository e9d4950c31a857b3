/** The two pieces of JavaScript Number semantics the player relies on:
    the `%` operator used for wrap-around navigation, and the conversion of a
    track number to its decimal text in the list view. */
module JsNumber {

  /** JavaScript's `%` on integers: the remainder truncates toward zero, so it
      carries the sign of the dividend (Dafny's `%` is Euclidean instead). */
  function Rem(a: int, n: int): (r: int)
    requires n > 0
    ensures -n < r < n
    ensures (a - r) % n == 0
    ensures a >= 0 ==> 0 <= r && r == a % n
    ensures a < 0 ==> r <= 0
  {
    if a >= 0 then
      RemUnique(a - a % n, a / n, 0, n);
      a % n
    else
      var q := (-a) / n;
      RemUnique(a + (-a) % n, -q, 0, n);
      -((-a) % n)
  }

  /** The remainder is the unique `r` in `[0, n)` with `x == q * n + r`. */
  lemma RemUnique(x: int, q: int, r: int, n: int)
    requires n > 0 && x == q * n + r && 0 <= r < n
    ensures x % n == r
  {
    var d := q - x / n;
    assert d * n == x % n - r;
  }

  /** The character of one decimal digit. */
  function DigitChar(d: nat): (c: char)
    requires d < 10
    ensures '0' <= c <= '9'
    ensures c as int - '0' as int == d
  {
    ('0' as int + d) as char
  }

  predicate IsDigits(s: string)
  {
    forall i :: 0 <= i < |s| ==> '0' <= s[i] <= '9'
  }

  /** `${n}` for a non-negative integer below 10^21 (JavaScript switches to
      exponent notation from there on; the script only numbers list items):
      its decimal digits, most significant first. */
  function Show(n: nat): (r: string)
    ensures |r| > 0 && IsDigits(r)
    ensures r[0] == '0' ==> n == 0
  {
    if n < 10 then [DigitChar(n)] else Show(n / 10) + [DigitChar(n % 10)]
  }

  /** The number a string of decimal digits denotes. */
  function Value(s: string): nat
    requires IsDigits(s)
  {
    if s == [] then 0
    else 10 * Value(s[..|s| - 1]) + (s[|s| - 1] as int - '0' as int)
  }

  /** Reading back the text of `${n}` gives `n`: the list numbering is unambiguous. */
  lemma {:induction false} ValueOfShow(n: nat)
    ensures Value(Show(n)) == n
  {
    if n >= 10 {
      var s := Show(n);
      assert s[..|s| - 1] == Show(n / 10);
      ValueOfShow(n / 10);
    }
  }
}
