/** The string helpers of .NET that the model needs. */
module Text {

  /** `char.IsWhiteSpace`: the Unicode separators and the control characters U+0009..U+000D, U+0085. */
  predicate IsWhiteSpace(c: char)
  {
    ('\U{9}' <= c <= '\U{D}') || c == ' ' || c == '\U{85}' || c == '\U{A0}' || c == '\U{1680}'
    || ('\U{2000}' <= c <= '\U{200A}') || c == '\U{2028}' || c == '\U{2029}' || c == '\U{202F}'
    || c == '\U{205F}' || c == '\U{3000}'
  }

  /** `string.IsNullOrWhiteSpace` on a non-null string: empty or white space only. */
  predicate IsBlank(s: string)
  {
    forall i :: 0 <= i < |s| ==> IsWhiteSpace(s[i])
  }

  /** A string is blank exactly when both of its halves are. */
  lemma BlankConcat(a: string, b: string)
    ensures IsBlank(a + b) <==> IsBlank(a) && IsBlank(b)
  {
    if IsBlank(a + b) {
      forall i | 0 <= i < |a| ensures IsWhiteSpace(a[i]) {
        assert (a + b)[i] == a[i];
      }
      forall i | 0 <= i < |b| ensures IsWhiteSpace(b[i]) {
        assert (a + b)[|a| + i] == b[i];
      }
    }
    if IsBlank(a) && IsBlank(b) {
      forall i | 0 <= i < |a + b| ensures IsWhiteSpace((a + b)[i]) {
        if i < |a| {
          assert (a + b)[i] == a[i];
        } else {
          assert (a + b)[i] == b[i - |a|];
        }
      }
    }
  }

  /** The character of a decimal digit. */
  function DigitChar(d: int): (c: char)
    requires 0 <= d < 10
    ensures '0' <= c <= '9'
  {
    ['0', '1', '2', '3', '4', '5', '6', '7', '8', '9'][d]
  }

  function DigitValue(c: char): (d: nat)
    requires '0' <= c <= '9'
    ensures d < 10
  {
    c as int - '0' as int
  }

  lemma DigitRoundTrip(d: int)
    requires 0 <= d < 10
    ensures DigitValue(DigitChar(d)) == d
  {
  }

  /** The invariant-culture text of a natural number: its decimal digits, no leading zeros. */
  function NatToText(n: nat): (s: string)
    ensures |s| >= 1
    ensures forall i :: 0 <= i < |s| ==> '0' <= s[i] <= '9'
    ensures |s| > 1 ==> s[0] != '0'
  {
    if n < 10 then [DigitChar(n)] else NatToText(n / 10) + [DigitChar(n % 10)]
  }

  /** Reads a string of decimal digits back into its number. */
  function ParseNat(s: string): nat
    requires forall i :: 0 <= i < |s| ==> '0' <= s[i] <= '9'
  {
    if |s| == 0 then 0 else 10 * ParseNat(s[..|s| - 1]) + DigitValue(s[|s| - 1])
  }

  /** Printing a number and reading it back gives the number. */
  lemma {:induction false} NatTextRoundTrip(n: nat)
    ensures ParseNat(NatToText(n)) == n
  {
    if n < 10 {
      DigitRoundTrip(n);
    } else {
      var s := NatToText(n);
      assert s[..|s| - 1] == NatToText(n / 10);
      NatTextRoundTrip(n / 10);
      DigitRoundTrip(n % 10);
    }
  }

  /** Ordinal string order: character by character, a proper prefix first. */
  predicate OrdinalLe(a: string, b: string)
  {
    |a| == 0 || (|b| > 0 && (a[0] < b[0] || (a[0] == b[0] && OrdinalLe(a[1..], b[1..]))))
  }

  /** Any two strings are comparable. */
  lemma {:induction false} OrdinalTotal(a: string, b: string)
    ensures OrdinalLe(a, b) || OrdinalLe(b, a)
  {
    if |a| > 0 && |b| > 0 && a[0] == b[0] {
      OrdinalTotal(a[1..], b[1..]);
    }
  }

  lemma {:induction false} OrdinalTransitive(a: string, b: string, c: string)
    requires OrdinalLe(a, b) && OrdinalLe(b, c)
    ensures OrdinalLe(a, c)
  {
    if |a| > 0 && a[0] == b[0] && b[0] == c[0] {
      OrdinalTransitive(a[1..], b[1..], c[1..]);
    }
  }

  /** The order is antisymmetric: strings each at most the other are equal. */
  lemma {:induction false} OrdinalAntisymmetric(a: string, b: string)
    requires OrdinalLe(a, b) && OrdinalLe(b, a)
    ensures a == b
  {
    if |a| > 0 {
      OrdinalAntisymmetric(a[1..], b[1..]);
      assert a == [a[0]] + a[1..] && b == [b[0]] + b[1..];
    }
  }
}
