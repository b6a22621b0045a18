/**
 * JavaScript string length: `.length` counts UTF-16 code units, so a
 * character outside the Basic Multilingual Plane counts twice.
 */
module JsString {

  /** The UTF-16 code units needed for one character. */
  function Units(c: char): (n: nat)
    ensures n == 1 || n == 2
  {
    if c as int < 0x1_0000 then 1 else 2
  }

  /** `s.length` in JavaScript. */
  function Length(s: string): (n: nat)
    ensures n >= |s|
  {
    if s == [] then 0 else Units(s[0]) + Length(s[1..])
  }

  predicate InBmp(s: string) {
    forall i :: 0 <= i < |s| ==> s[i] as int < 0x1_0000
  }

  /** A string of Basic Multilingual Plane characters has one code unit per character. */
  lemma {:induction false} BmpLength(s: string)
    requires InBmp(s)
    ensures Length(s) == |s|
  {
    if s != [] {
      assert InBmp(s[1..]) by {
        forall i | 0 <= i < |s[1..]| ensures s[1..][i] as int < 0x1_0000 {
          assert s[1..][i] == s[i + 1];
        }
      }
      BmpLength(s[1..]);
    }
  }

  /** A string of JavaScript length 1 is exactly one BMP character. */
  lemma LengthOne(s: string)
    ensures Length(s) == 1 <==> |s| == 1 && s[0] as int < 0x1_0000
  {
    if |s| == 1 {
      assert s[1..] == [];
    }
  }
}
