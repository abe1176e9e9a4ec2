/** Phone normalisation applied before a document or a session is created. */
module Phone {

  predicate IsDigit(c: char) { '0' <= c <= '9' }

  function DigitsOf(s: string): string {
    if s == "" then ""
    else DigitsOf(s[..|s| - 1]) + if IsDigit(s[|s| - 1]) then [s[|s| - 1]] else ""
  }

  function Canonical(phone: string): string {
    var digits := DigitsOf(phone);
    var seven := if |digits| == 11 && digits[0] == '8' then "7" + digits[1..] else digits;
    if |seven| == 11 && seven[0] == '7' then "+" + seven else phone
  }

  predicate ValidPhone(phone: string) {
    |phone| == 12 && phone[..2] == "+7"
  }

  method NormalizePhone(phone: string) returns (r: string)
    ensures r == Canonical(phone)
  {
    var digits := "";
    for i := 0 to |phone|
      invariant digits == DigitsOf(phone[..i])
    {
      assert phone[..i + 1][..i] == phone[..i];
      if IsDigit(phone[i]) {
        digits := digits + [phone[i]];
      }
    }
    assert phone[..|phone|] == phone;
    if |digits| == 11 && digits[0] == '8' {
      digits := "7" + digits[1..];
    }
    if |digits| == 11 && digits[0] == '7' {
      return "+" + digits;
    }
    return phone;
  }

  lemma {:induction false} DigitsOfDigits(s: string)
    requires forall i | 0 <= i < |s| :: IsDigit(s[i])
    ensures DigitsOf(s) == s
  {
    if s != "" {
      DigitsOfDigits(s[..|s| - 1]);
    }
  }

  lemma {:induction false} DigitsOfPlus(s: string)
    ensures DigitsOf("+" + s) == DigitsOf(s)
  {
    var p := "+" + s;
    if s == "" {
      assert p[..0] == "";
    } else {
      DigitsOfPlus(s[..|s| - 1]);
      assert p[..|p| - 1] == "+" + s[..|s| - 1] && p[|p| - 1] == s[|s| - 1];
    }
  }

  lemma {:induction false} OnlyDigits(s: string)
    ensures forall i | 0 <= i < |DigitsOf(s)| :: IsDigit(DigitsOf(s)[i])
  {
    if s != "" { OnlyDigits(s[..|s| - 1]); }
  }

  /** The digits of a text are those of its parts. */
  lemma {:induction false} DigitsOfParts(s: string, t: string)
    ensures DigitsOf(s + t) == DigitsOf(s) + DigitsOf(t)
    ensures forall c: char :: DigitsOf([c]) == if '0' <= c <= '9' then [c] else ""
  {
    forall c: char ensures DigitsOf([c]) == if '0' <= c <= '9' then [c] else "" { assert [c][..0] == ""; }
    if t == "" {
      assert s + t == s;
    } else {
      DigitsOfParts(s, t[..|t| - 1]);
      assert (s + t)[..|s + t| - 1] == s + t[..|t| - 1];
    }
  }

  lemma PlusSeven(tail: string)
    ensures "+" + ("7" + tail) == "+7" + tail
  {
  }

  /** Eleven digits that start with 7 or 8, however spaced, become +7 and the other ten; anything else stays. */
  lemma CanonicalForm(phone: string)
    ensures var digits := DigitsOf(phone);
            Canonical(phone) ==
              if |digits| == 11 && (digits[0] == '7' || digits[0] == '8') then "+7" + digits[1..] else phone
  {
    var digits := DigitsOf(phone);
    if |digits| == 11 {
      PlusSeven(digits[1..]);
      assert digits == [digits[0]] + digits[1..];
    }
  }

  /** Normalising is idempotent, so a stored phone compares equal to any later normalisation of it, and every
      number it rewrites is accepted. */
  lemma CanonicalIdempotent(phone: string)
    ensures Canonical(Canonical(phone)) == Canonical(phone)
    ensures Canonical(phone) != phone ==> ValidPhone(Canonical(phone))
  {
    OnlyDigits(phone);
    var digits := DigitsOf(phone);
    var seven := if |digits| == 11 && digits[0] == '8' then "7" + digits[1..] else digits;
    DigitsOfDigits(seven);
    DigitsOfPlus(seven);
  }
}
