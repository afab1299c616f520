/**
 * Escaping of one JSON Pointer reference token (section 4 of RFC 6901), as
 * the patch builder does it for the status annotation key: `~` becomes `~0`
 * first, then `/` becomes `~1`. Unescaping, as the server applying the
 * patch does it, turns `~1` back into `/` and then `~0` into `~`.
 */
module JsonPointer {
  import opened GoStrings

  /** `escapeJSONPointerValue`: `~` to `~0`, then `/` to `~1`. */
  function EscapeJsonPointerValue(s: string): (r: string)
    // escaping never shortens, and a value with neither special character
    // is its own reference token
    ensures |s| <= |r|
    ensures '~' !in s && '/' !in s ==> r == s
  {
    var t := ReplaceAll(s, "~", "~0");
    ReplaceAllNoMatch(s, "~", "~0");
    ReplaceAllNoMatch(t, "/", "~1");
    ReplaceAll(t, "/", "~1")
  }

  /** The decoding of a reference token: `~1` to `/`, then `~0` to `~`. */
  function UnescapeJsonPointerValue(s: string): (r: string)
    // decoding never lengthens, and a token without '~' decodes to itself
    ensures |r| <= |s|
    ensures '~' !in s ==> r == s
  {
    var t := ReplaceAll(s, "~1", "/");
    ReplaceAllNoMatch(s, "~1", "/");
    ReplaceAllNoMatch(t, "~0", "~");
    ReplaceAll(t, "~0", "~")
  }

  /** What one character of the input becomes. */
  function EscapedChar(c: char): (r: string)
    ensures '/' !in r
    ensures |r| == (if c == '~' || c == '/' then 2 else 1)
  {
    if c == '~' then "~0" else if c == '/' then "~1" else [c]
  }

  /** The two passes applied to a single character. */
  lemma EscapeOneChar(c: char)
    ensures ReplaceAll(ReplaceAll([c], "~", "~0"), "/", "~1") == EscapedChar(c)
  {
    if c == '~' {
      ReplaceAllMatch([], "~", "~0");
      assert "~" + [] == [c] && "~0" + [] == "~0";
      ReplaceCharAppend("~", "0", "/", "~1");
      ReplaceAllSkip('~', [], "/", "~1");
      ReplaceAllSkip('0', [], "/", "~1");
    } else if c == '/' {
      ReplaceAllSkip('/', [], "~", "~0");
      ReplaceAllMatch([], "/", "~1");
      assert "/" + [] == [c] && "~1" + [] == "~1";
    } else {
      ReplaceAllSkip(c, [], "~", "~0");
      ReplaceAllSkip(c, [], "/", "~1");
      assert [c] + [] == [c];
    }
  }

  /** Escaping works character by character. */
  lemma EscapeCons(c: char, s: string)
    ensures EscapeJsonPointerValue([c] + s) == EscapedChar(c) + EscapeJsonPointerValue(s)
  {
    ReplaceCharAppend([c], s, "~", "~0");
    ReplaceCharAppend(ReplaceAll([c], "~", "~0"), ReplaceAll(s, "~", "~0"), "/", "~1");
    EscapeOneChar(c);
  }

  /** The escaped token holds no `/`, so it is a single path segment. */
  lemma {:induction false} EscapeHasNoSlash(s: string)
    ensures '/' !in EscapeJsonPointerValue(s)
    decreases |s|
  {
    if s == [] {
    } else {
      assert s == [s[0]] + s[1..];
      EscapeCons(s[0], s[1..]);
      EscapeHasNoSlash(s[1..]);
    }
  }

  /** Unescaping an escaped character followed by any text gives back the
      character followed by the unescaped text. */
  lemma UnescapeStep(c: char, e: string)
    ensures UnescapeJsonPointerValue(EscapedChar(c) + e) == [c] + UnescapeJsonPointerValue(e)
  {
    var u := ReplaceAll(e, "~1", "/");
    if c == '~' {
      // first pass: neither "~0" nor "0" starts with "~1"
      assert "~0" + e == [c] + ("0" + e);
      ReplaceAllSkip('0', e, "~1", "/");
      assert ReplaceAll("~0" + e, "~1", "/") == "~0" + u by {
        var t := "~0" + e;
        assert t[..2] == "~0" != "~1";
        assert t[1..] == "0" + e;
      }
      // second pass: the leading "~0" becomes '~'
      ReplaceAllMatch(u, "~0", "~");
    } else if c == '/' {
      ReplaceAllMatch(e, "~1", "/");
      ReplaceAllSkip('/', u, "~0", "~");
    } else {
      ReplaceAllSkip(c, e, "~1", "/");
      ReplaceAllSkip(c, u, "~0", "~");
    }
  }

  /** Unescaping recovers the original token. */
  lemma {:induction false} UnescapeEscape(s: string)
    ensures UnescapeJsonPointerValue(EscapeJsonPointerValue(s)) == s
    decreases |s|
  {
    if s != [] {
      var c, rest := s[0], s[1..];
      assert s == [c] + rest;
      EscapeCons(c, rest);
      UnescapeStep(c, EscapeJsonPointerValue(rest));
      UnescapeEscape(rest);
    }
  }

  /** Escaping `/` before `~` would not round-trip: the `~` it introduces
      would itself be escaped. */
  lemma SlashFirstBreaksRoundTrip()
    ensures var wrong := ReplaceAll(ReplaceAll("/", "/", "~1"), "~", "~0");
      wrong == "~01" && UnescapeJsonPointerValue(wrong) == "~1"
  {
    ReplaceAllMatch([], "/", "~1");
    assert "/" + [] == "/";
    assert ReplaceAll("/", "/", "~1") == "~1";
    assert "~1" == "~" + "1";
    ReplaceAllMatch("1", "~", "~0");
    ReplaceAllSkip('1', [], "~", "~0");
    assert ReplaceAll("~1", "~", "~0") == "~01";
    // first pass of unescaping: no `~1` in "~01"
    ReplaceAllSkip('1', [], "~1", "/");
    ReplaceAllSkip('0', "1", "~1", "/");
    assert ReplaceAll("~01", "~1", "/") == "~01" by {
      var t := "~01";
      assert t[..2] == "~0";
      assert t[1..] == "01";
    }
    // second pass: the `~0` at the front becomes `~`
    assert "~01" == "~0" + "1";
    ReplaceAllMatch("1", "~0", "~");
    ReplaceAllSkip('1', [], "~0", "~");
  }
}
