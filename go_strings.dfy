/**
 * The parts of Go's `strings` and `fmt` packages the webhook relies on,
 * restricted to ASCII: `strings.Replace(s, old, new, -1)`, `strings.ToLower`,
 * `strings.EqualFold` and the `%d` formatting of a non-negative index,
 * together with the decimal parser that inverts it.
 */
module GoStrings {

  /** `strings.Replace(s, pat, rep, -1)` for a non-empty pattern: every
      non-overlapping occurrence, scanning from the left. */
  function ReplaceAll(s: string, pat: string, rep: string): (r: string)
    requires pat != []
    // a replacement as long as the pattern keeps the length; a longer one
    // can only grow the string and a shorter one only shrink it
    ensures |pat| <= |rep| ==> |s| <= |r|
    ensures |rep| <= |pat| ==> |r| <= |s|
    // replacing the pattern by itself changes nothing
    ensures rep == pat ==> r == s
    decreases |s|
  {
    if s == [] then []
    else if |pat| <= |s| && s[..|pat|] == pat then rep + ReplaceAll(s[|pat|..], pat, rep)
    else [s[0]] + ReplaceAll(s[1..], pat, rep)
  }

  /** Without an occurrence of the pattern's first character, the string
      comes back unchanged. */
  lemma {:induction false} ReplaceAllNoMatch(s: string, pat: string, rep: string)
    requires pat != []
    ensures pat[0] !in s ==> ReplaceAll(s, pat, rep) == s
    decreases |s|
  {
    if s != [] && pat[0] !in s {
      assert s[0] != pat[0];
      ReplaceAllNoMatch(s[1..], pat, rep);
    }
  }

  /** Reference definition for a one-character pattern: every character is
      replaced or copied on its own. */
  function ReplaceEachChar(s: string, c: char, rep: string): string
  {
    if s == [] then [] else (if s[0] == c then rep else [s[0]]) + ReplaceEachChar(s[1..], c, rep)
  }

  /** With a one-character pattern, the left-to-right scan agrees with the
      character-by-character reference. */
  lemma {:induction false} ReplaceAllOneChar(s: string, c: char, rep: string)
    ensures ReplaceAll(s, [c], rep) == ReplaceEachChar(s, c, rep)
    decreases |s|
  {
    if s != [] {
      ReplaceAllOneChar(s[1..], c, rep);
      assert s[..1] == [s[0]];
    }
  }

  /** Replacing a single character works character by character, so it
      distributes over concatenation. */
  lemma {:induction false} ReplaceCharAppend(a: string, b: string, pat: string, rep: string)
    requires |pat| == 1
    ensures ReplaceAll(a + b, pat, rep) == ReplaceAll(a, pat, rep) + ReplaceAll(b, pat, rep)
    decreases |a|
  {
    if a == [] {
      assert a + b == b;
    } else {
      var s := a + b;
      assert s[..1] == a[..1] == [a[0]];
      assert s[1..] == a[1..] + b;
      ReplaceCharAppend(a[1..], b, pat, rep);
      if a[0] == pat[0] {
        assert a[..1] == pat;
        calc {
          ReplaceAll(s, pat, rep);
          rep + ReplaceAll(a[1..] + b, pat, rep);
          rep + (ReplaceAll(a[1..], pat, rep) + ReplaceAll(b, pat, rep));
          (rep + ReplaceAll(a[1..], pat, rep)) + ReplaceAll(b, pat, rep);
        }
      } else {
        assert a[..1] != pat;
        calc {
          ReplaceAll(s, pat, rep);
          [a[0]] + ReplaceAll(a[1..] + b, pat, rep);
          [a[0]] + (ReplaceAll(a[1..], pat, rep) + ReplaceAll(b, pat, rep));
          ([a[0]] + ReplaceAll(a[1..], pat, rep)) + ReplaceAll(b, pat, rep);
        }
      }
    }
  }

  /** A character that cannot start the pattern is copied unchanged. */
  lemma ReplaceAllSkip(c: char, t: string, pat: string, rep: string)
    requires pat != [] && c != pat[0]
    ensures ReplaceAll([c] + t, pat, rep) == [c] + ReplaceAll(t, pat, rep)
  {
    var s := [c] + t;
    assert s[1..] == t;
    assert |pat| <= |s| ==> s[..|pat|][0] == c;
  }

  /** An occurrence of the pattern at the front is rewritten. */
  lemma ReplaceAllMatch(t: string, pat: string, rep: string)
    requires pat != []
    ensures ReplaceAll(pat + t, pat, rep) == rep + ReplaceAll(t, pat, rep)
  {
    var s := pat + t;
    assert s[..|pat|] == pat;
    assert s[|pat|..] == t;
  }

  /** `unicode.ToLower` on the ASCII range; other characters are left alone. */
  function LowerChar(c: char): char
  {
    if 'A' <= c <= 'Z' then (c as int - 'A' as int + 'a' as int) as char else c
  }

  /** `strings.ToLower`, ASCII only. */
  function ToLower(s: string): (r: string)
    ensures |r| == |s|
    ensures forall i :: 0 <= i < |s| ==> r[i] == LowerChar(s[i])
  {
    if s == [] then [] else [LowerChar(s[0])] + ToLower(s[1..])
  }

  /** A string with no upper-case ASCII letter. */
  predicate IsLower(s: string)
  {
    forall i :: 0 <= i < |s| ==> !('A' <= s[i] <= 'Z')
  }

  /** `strings.EqualFold`, ASCII only: equal up to letter case. */
  predicate EqualFold(a: string, b: string)
  {
    |a| == |b| && forall i :: 0 <= i < |a| ==> LowerChar(a[i]) == LowerChar(b[i])
  }

  /** Comparing the lower-cased string with a lower-case literal is
      case-insensitive comparison with that literal. */
  lemma LowerEqualsIffEqualFold(v: string, w: string)
    requires IsLower(w)
    ensures ToLower(v) == w <==> EqualFold(v, w)
  {
    if EqualFold(v, w) {
      assert forall i :: 0 <= i < |w| ==> LowerChar(w[i]) == w[i];
      assert forall i :: 0 <= i < |v| ==> ToLower(v)[i] == w[i];
    }
  }

  function DigitChar(d: nat): char
    requires d < 10
  {
    ('0' as int + d) as char
  }

  predicate IsDigit(c: char)
  {
    '0' <= c <= '9'
  }

  /** `fmt.Sprintf("%d", n)` for a non-negative `n`. */
  function Itoa(n: nat): (r: string)
    ensures r != []
    ensures forall i :: 0 <= i < |r| ==> IsDigit(r[i])
    ensures |r| > 1 ==> r[0] != '0'
    decreases n
  {
    if n < 10 then [DigitChar(n)] else Itoa(n / 10) + [DigitChar(n % 10)]
  }

  /** The decimal value of a string of digits. */
  function Atoi(s: string): nat
    requires forall i :: 0 <= i < |s| ==> IsDigit(s[i])
    decreases |s|
  {
    if s == [] then 0
    else
      assert IsDigit(s[|s| - 1]);
      Atoi(s[..|s| - 1]) * 10 + (s[|s| - 1] as int - '0' as int)
  }

  /** Parsing what `Itoa` prints gives the number back. */
  lemma {:induction false} AtoiItoa(n: nat)
    ensures Atoi(Itoa(n)) == n
    decreases n
  {
    var s := Itoa(n);
    if n >= 10 {
      AtoiItoa(n / 10);
      assert s[..|s| - 1] == Itoa(n / 10);
    }
  }

  /** Different numbers print differently. */
  lemma ItoaInjective(m: nat, n: nat)
    ensures Itoa(m) == Itoa(n) ==> m == n
  {
    AtoiItoa(m);
    AtoiItoa(n);
  }
}
