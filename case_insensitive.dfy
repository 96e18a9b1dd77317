/**
 * The case-insensitive string comparison the catalog is sorted with
 * (PHP's strcasecmp): both strings are compared character by character after
 * ASCII lower-casing; the first differing pair decides, and when one string
 * is a prefix of the other the shorter one comes first.
 */
module CaseInsensitive {

  /** ASCII lower-casing of one character; every other character is kept. */
  function LowerAscii(c: char): char
  {
    if 'A' <= c <= 'Z' then (c as int + 32) as char else c
  }

  /** The whole string lower-cased, character by character. */
  function ToLower(s: string): string
  {
    seq(|s|, i requires 0 <= i < |s| => LowerAscii(s[i]))
  }

  /**
   * strcasecmp: negative when a sorts before b, zero when they are equal up
   * to ASCII case, positive otherwise. The value is the difference of the
   * first differing lower-cased characters, or the difference of the lengths
   * when one string is a prefix of the other; PHP 8.2 and later return only
   * -1, 0 or 1, and the sign, which is all usort uses, agrees with PHP's.
   */
  function StrCaseCmp(a: string, b: string): int
    decreases |a|
  {
    if a == [] || b == [] then |a| - |b|
    else if LowerAscii(a[0]) != LowerAscii(b[0]) then LowerAscii(a[0]) as int - LowerAscii(b[0]) as int
    else StrCaseCmp(a[1..], b[1..])
  }

  /** Swapping the arguments negates the result. */
  lemma {:induction false} StrCaseCmpSwapped(a: string, b: string)
    ensures StrCaseCmp(b, a) == -StrCaseCmp(a, b)
    decreases |a|
  {
    if a != [] && b != [] && LowerAscii(a[0]) == LowerAscii(b[0]) {
      StrCaseCmpSwapped(a[1..], b[1..]);
    }
  }

  /** "Sorts no later than" is transitive. */
  lemma {:induction false} StrCaseCmpTransitive(a: string, b: string, c: string)
    requires StrCaseCmp(a, b) <= 0 && StrCaseCmp(b, c) <= 0
    ensures StrCaseCmp(a, c) <= 0
    decreases |a|
  {
    if a != [] && b != [] && c != [] {
      if LowerAscii(a[0]) == LowerAscii(b[0]) && LowerAscii(b[0]) == LowerAscii(c[0]) {
        StrCaseCmpTransitive(a[1..], b[1..], c[1..]);
      }
    }
  }

  /** Two strings compare equal exactly when their lower-cased forms are equal. */
  lemma {:induction false} StrCaseCmpZeroIff(a: string, b: string)
    ensures StrCaseCmp(a, b) == 0 <==> ToLower(a) == ToLower(b)
    decreases |a|
  {
    if a != [] && b != [] {
      assert ToLower(a) == [LowerAscii(a[0])] + ToLower(a[1..]);
      assert ToLower(b) == [LowerAscii(b[0])] + ToLower(b[1..]);
      if LowerAscii(a[0]) == LowerAscii(b[0]) {
        StrCaseCmpZeroIff(a[1..], b[1..]);
        assert ToLower(a) == ToLower(b) ==> ToLower(a)[1..] == ToLower(b)[1..];
      } else {
        assert ToLower(a)[0] != ToLower(b)[0];
      }
    } else if a != [] || b != [] {
      assert |ToLower(a)| != |ToLower(b)|;
    }
  }

  /** Every string compares equal to itself and to its lower-cased form. */
  lemma StrCaseCmpIgnoresCase(a: string)
    ensures StrCaseCmp(a, a) == 0
    ensures StrCaseCmp(a, ToLower(a)) == 0
  {
    StrCaseCmpZeroIff(a, a);
    var l := ToLower(a);
    assert ToLower(l) == l by {
      forall i | 0 <= i < |l| ensures ToLower(l)[i] == l[i] {
      }
    }
    StrCaseCmpZeroIff(a, l);
  }
}
