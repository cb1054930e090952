/**
 * The regular expressions the prompts validate with all have the shape
 * `^\d{min,max}$` (with `\d{n}` meaning `\d{n,n}`).  `\d` in a JavaScript
 * regular expression is the ASCII digit class `[0-9]`, and without the `m`
 * flag `^` and `$` match only at the ends of the whole string.
 */
module DigitPattern {

  /** The regular expression `^\d{min,max}$`. */
  datatype Pattern = Pattern(min: nat, max: nat)

  predicate IsDigit(c: char)
  {
    '0' <= c <= '9'
  }

  ghost predicate AllDigits(s: string)
  {
    forall i :: 0 <= i < |s| ==> IsDigit(s[i])
  }

  /**
   * Does `\d{lo,hi}$` match the whole of `s`?  Each step consumes one digit
   * and one repetition; at the end of the string the minimum must be used up.
   */
  function MatchesFrom(s: string, lo: nat, hi: nat): bool
    decreases |s|
  {
    if |s| == 0 then lo == 0
    else hi > 0 && IsDigit(s[0]) && MatchesFrom(s[1..], if lo > 0 then lo - 1 else 0, hi - 1)
  }

  /** `RegExp.prototype.test` for a pattern of this shape. */
  function Test(p: Pattern, s: string): bool
  {
    MatchesFrom(s, p.min, p.max)
  }

  /** The matcher accepts exactly the strings of `lo` to `hi` ASCII digits. */
  lemma {:induction false} MatchesFromSpec(s: string, lo: nat, hi: nat)
    ensures MatchesFrom(s, lo, hi) <==> lo <= |s| <= hi && AllDigits(s)
    decreases |s|
  {
    if |s| > 0 {
      var lo' := if lo > 0 then lo - 1 else 0;
      if hi > 0 {
        MatchesFromSpec(s[1..], lo', hi - 1);
        if AllDigits(s) {
          assert AllDigits(s[1..]) by {
            forall i | 0 <= i < |s[1..]| ensures IsDigit(s[1..][i]) { assert s[1..][i] == s[i + 1]; }
          }
        }
        if IsDigit(s[0]) && AllDigits(s[1..]) {
          forall i | 0 <= i < |s| ensures IsDigit(s[i]) {
            if i > 0 { assert s[i] == s[1..][i - 1]; }
          }
        }
      }
    }
  }
}
