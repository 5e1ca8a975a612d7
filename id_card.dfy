/**
 * The ID-card pattern `(^\d{15}$)|(^\d{18}$)|(^\d{17}(\d|X|x)$)` that the
 * order-confirm page and the login page both test with `RegExp.test`.
 */
module IdCard {
  import opened Strings

  /** `^\d{n}$`: exactly `n` digits. */
  predicate DigitsExactly(s: string, n: nat) {
    |s| == n && AllDigits(s)
  }

  /** The check digit of an 18-character card: `\d|X|x`. */
  predicate IsCheckChar(c: char) {
    IsDigit(c) || c == 'X' || c == 'x'
  }

  /** The pattern's three alternatives, in the order they are written. */
  predicate ValidateIdCard(s: string)
    ensures ValidateIdCard(s) ==> (|s| == 15 || |s| == 18) && IsDigit(s[0])
  {
    DigitsExactly(s, 15)
    || DigitsExactly(s, 18)
    || (|s| == 18 && DigitsExactly(s[..17], 17) && IsCheckChar(s[17]))
  }

  /**
   * What the pattern accepts, described position by position: 15 digits, or
   * 18 characters all digits except the last, which may also be X or x.
   */
  predicate IdCardShape(s: string) {
    (|s| == 15 || |s| == 18)
    && (forall i :: 0 <= i < |s| - 1 ==> IsDigit(s[i]))
    && (if |s| == 15 then IsDigit(s[14]) else IsCheckChar(s[17]))
  }

  /** The pattern accepts exactly the strings of that shape. */
  lemma IdCardExactly(s: string)
    ensures ValidateIdCard(s) <==> IdCardShape(s)
  {
    if IdCardShape(s) && |s| == 18 {
      assert DigitsExactly(s[..17], 17);
    }
  }

  /** The 18-digit alternative adds nothing: the third alternative already covers it. */
  lemma EighteenDigitsRedundant(s: string)
    ensures ValidateIdCard(s)
       <==> DigitsExactly(s, 15) || (|s| == 18 && DigitsExactly(s[..17], 17) && IsCheckChar(s[17]))
  {
    if DigitsExactly(s, 18) {
      assert DigitsExactly(s[..17], 17);
    }
  }

  /** An accepted number has no whitespace at either end, so trimming it changes nothing. */
  lemma AcceptedIsTrimmed(s: string)
    requires ValidateIdCard(s)
    ensures Trim(s) == s
  {
    IdCardExactly(s);
    TrimIdle(s);
  }
}
