/**
 * The host's connection code (src/App.js:13): a uniformly drawn number in
 * [100000, 999999] written in decimal, so always six digits, and the
 * client-side rule that accepts only six-character codes (src/App.js:217).
 */
module RoomCode {
  import JsString

  function Pow10(k: nat): (r: nat)
    ensures r >= 1
  {
    if k == 0 then 1 else 10 * Pow10(k - 1)
  }

  function DigitChar(d: nat): (c: char)
    requires d < 10
    ensures '0' <= c <= '9'
  {
    ['0', '1', '2', '3', '4', '5', '6', '7', '8', '9'][d]
  }

  function DigitValue(c: char): nat
    requires '0' <= c <= '9'
  {
    c as nat - '0' as nat
  }

  predicate IsDigits(s: string) {
    forall i :: 0 <= i < |s| ==> '0' <= s[i] <= '9'
  }

  /** `Number.prototype.toString()` for a non-negative integer. */
  function DecimalString(n: nat): (s: string)
    ensures s != [] && IsDigits(s)
  {
    if n < 10 then [DigitChar(n)] else DecimalString(n / 10) + [DigitChar(n % 10)]
  }

  /** Reads a string of decimal digits back as a number. */
  function ParseDecimal(s: string): nat
    requires IsDigits(s)
  {
    if s == [] then 0 else 10 * ParseDecimal(s[..|s| - 1]) + DigitValue(s[|s| - 1])
  }

  /** Reading the decimal string of a number gives the number back. */
  lemma {:induction false} DecimalRoundTrip(n: nat)
    ensures ParseDecimal(DecimalString(n)) == n
  {
    var s := DecimalString(n);
    if n < 10 {
      assert s[..|s| - 1] == [];
    } else {
      assert s[..|s| - 1] == DecimalString(n / 10);
      DecimalRoundTrip(n / 10);
    }
  }

  /** A number with k+1 decimal digits is written with exactly k+1 characters. */
  lemma {:induction false} DecimalLength(n: nat, k: nat)
    requires Pow10(k) <= n < Pow10(k + 1)
    ensures |DecimalString(n)| == k + 1
  {
    if k > 0 {
      assert Pow10(k - 1) <= n / 10 < Pow10(k);
      DecimalLength(n / 10, k - 1);
    }
  }

  /** `Math.floor(100000 + r * 900000).toString()` for a draw `r` of `Math.random()`. */
  function GenerateCode(r: real): (code: string)
    requires 0.0 <= r < 1.0
    ensures |code| == 6 && IsDigits(code)
    ensures 100000 <= ParseDecimal(code) <= 999999
    ensures ValidCode(code)
  {
    var n := (100000.0 + r * 900000.0).Floor;
    assert Pow10(5) == 100000 && Pow10(6) == 1000000;
    DecimalLength(n, 5);
    DecimalRoundTrip(n);
    JsString.BmpLength(DecimalString(n));
    DecimalString(n)
  }

  /** The client accepts a connection code only when its JavaScript length is six. */
  predicate ValidCode(code: string) { JsString.Length(code) == 6 }
}
