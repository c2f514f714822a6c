/**
 * The string operations the app's keyword rules and input checks are built
 * from: `String.contains`, `lowercase()` (for ASCII letters), removal of the
 * regex class `\s`, `trim()` and the UTF-16 `length` of a string.
 */
module Text {

  /** `needle` starts at position `i` of `s`. */
  predicate OccursAt(s: string, needle: string, i: int)
  {
    0 <= i && i + |needle| <= |s| && s[i..i + |needle|] == needle
  }

  /** `s.contains(needle)`: some suffix of `s` starts with `needle`. */
  predicate Contains(s: string, needle: string)
    decreases |s|
  {
    |needle| <= |s| && (s[..|needle|] == needle || Contains(s[1..], needle))
  }

  /** `Contains` holds exactly when the needle occurs at some position. */
  lemma {:induction false} ContainsIffOccurs(s: string, needle: string)
    ensures Contains(s, needle) <==> exists i :: OccursAt(s, needle, i)
    decreases |s|
  {
    if |needle| <= |s| && s[..|needle|] == needle {
      assert OccursAt(s, needle, 0);
    } else if |needle| <= |s| {
      assert |s| > 0;
      ContainsIffOccurs(s[1..], needle);
      if Contains(s[1..], needle) {
        var i :| OccursAt(s[1..], needle, i);
        assert s[i + 1..i + 1 + |needle|] == s[1..][i..i + |needle|];
        assert OccursAt(s, needle, i + 1);
      }
      if exists i :: OccursAt(s, needle, i) {
        var i :| OccursAt(s, needle, i);
        assert i != 0;
        assert s[1..][i - 1..i - 1 + |needle|] == s[i..i + |needle|];
        assert OccursAt(s[1..], needle, i - 1);
      }
    }
  }

  /** A needle that occurs somewhere inside `s` is contained in it. */
  lemma OccursContains(s: string, needle: string, i: int)
    requires OccursAt(s, needle, i)
    ensures Contains(s, needle)
  {
    ContainsIffOccurs(s, needle);
  }

  /** A needle placed between two strings is contained in the whole. */
  lemma ContainsInfix(a: string, needle: string, b: string)
    ensures Contains(a + needle + b, needle)
  {
    var s := a + needle + b;
    assert s[|a|..|a| + |needle|] == needle;
    OccursContains(s, needle, |a|);
  }

  /** `Char.lowercaseChar()` restricted to ASCII: `A`-`Z` map to `a`-`z`. */
  function LowerChar(c: char): (d: char)
    ensures 'A' <= c <= 'Z' ==> d as int == c as int + 32
    ensures !('A' <= c <= 'Z') ==> d == c
  {
    if 'A' <= c <= 'Z' then (c as int + 32) as char else c
  }

  /** `String.lowercase()`, character by character. */
  function Lower(s: string): (r: string)
    ensures |r| == |s|
    ensures forall i :: 0 <= i < |s| ==> r[i] == LowerChar(s[i])
  {
    seq(|s|, i requires 0 <= i < |s| => LowerChar(s[i]))
  }

  lemma LowerConcat(a: string, b: string)
    ensures Lower(a + b) == Lower(a) + Lower(b)
  {
    assert forall i :: 0 <= i < |a + b| ==> Lower(a + b)[i] == (Lower(a) + Lower(b))[i];
  }

  /** No ASCII capital letter: `lowercase()` leaves the string alone. */
  predicate NoCapitals(s: string)
  {
    forall i :: 0 <= i < |s| ==> !('A' <= s[i] <= 'Z')
  }

  /** Lowercasing is idempotent, and fixes exactly the strings without capitals. */
  lemma LowerFixes(s: string)
    ensures NoCapitals(Lower(s))
    ensures Lower(Lower(s)) == Lower(s)
    ensures Lower(s) == s <==> NoCapitals(s)
  {
    if Lower(s) == s {
      forall i | 0 <= i < |s|
        ensures !('A' <= s[i] <= 'Z')
      {
        assert Lower(s)[i] == LowerChar(s[i]);
      }
    }
  }

  /**
   * The regex class `\s` as Android's ICU-backed regex engine matches it:
   * the Unicode White_Space characters. Besides the ASCII space and the
   * controls TAB..CR these are NEL, NO-BREAK SPACE, OGHAM SPACE MARK, the
   * spaces EN QUAD..HAIR SPACE, the line and paragraph separators, NARROW
   * NO-BREAK SPACE, MEDIUM MATHEMATICAL SPACE and the IDEOGRAPHIC SPACE
   * that Japanese input methods produce.
   */
  predicate IsRegexSpace(c: char)
  {
    c == ' ' || ('\t' <= c <= '\r') || c == '\U{0085}' || c == '\U{00A0}' || c == '\U{1680}' ||
    ('\U{2000}' <= c <= '\U{200A}') || c == '\U{2028}' || c == '\U{2029}' || c == '\U{202F}' ||
    c == '\U{205F}' || c == '\U{3000}'
  }

  /** `replace("\\s+".toRegex(), "")`: every `\s` character removed, all others kept in order. */
  function RemoveSpaces(s: string): (r: string)
    ensures |r| <= |s|
    ensures forall i :: 0 <= i < |r| ==> !IsRegexSpace(r[i])
  {
    if |s| == 0 then []
    else if IsRegexSpace(s[0]) then RemoveSpaces(s[1..])
    else [s[0]] + RemoveSpaces(s[1..])
  }

  lemma {:induction false} RemoveSpacesConcat(a: string, b: string)
    ensures RemoveSpaces(a + b) == RemoveSpaces(a) + RemoveSpaces(b)
    decreases |a|
  {
    if |a| > 0 {
      assert (a + b)[0] == a[0];
      assert (a + b)[1..] == a[1..] + b;
      RemoveSpacesConcat(a[1..], b);
    } else {
      assert a + b == b;
    }
  }

  /** Only `\s` characters: the regex removes all of it. */
  predicate AllRegexSpace(w: string)
  {
    forall i :: 0 <= i < |w| ==> IsRegexSpace(w[i])
  }

  /** A string free of `\s` characters is left as it is. */
  lemma {:induction false} RemoveSpacesKeeps(s: string)
    requires forall i :: 0 <= i < |s| ==> !IsRegexSpace(s[i])
    ensures RemoveSpaces(s) == s
    decreases |s|
  {
    if |s| > 0 {
      RemoveSpacesKeeps(s[1..]);
      assert [s[0]] + s[1..] == s;
    }
  }

  /** A run of `\s` characters vanishes. */
  lemma {:induction false} RemoveSpacesDrops(w: string)
    requires AllRegexSpace(w)
    ensures RemoveSpaces(w) == []
    decreases |w|
  {
    if |w| > 0 {
      assert IsRegexSpace(w[0]);
      RemoveSpacesDrops(w[1..]);
    }
  }

  /** The normalisation of `parseCommand`: lowercase, then strip every `\s`. */
  function Normalize(text: string): (n: string)
    ensures NoCapitals(n)
    ensures forall i :: 0 <= i < |n| ==> !IsRegexSpace(n[i])
  {
    LowerFixes(text);
    NoCapitalsRemoved(Lower(text));
    RemoveSpaces(Lower(text))
  }

  lemma {:induction false} NoCapitalsRemoved(s: string)
    requires NoCapitals(s)
    ensures NoCapitals(RemoveSpaces(s))
    decreases |s|
  {
    if |s| > 0 {
      NoCapitalsRemoved(s[1..]);
    }
  }

  lemma NormalizeConcat(a: string, b: string)
    ensures Normalize(a + b) == Normalize(a) + Normalize(b)
  {
    LowerConcat(a, b);
    RemoveSpacesConcat(Lower(a), Lower(b));
  }

  /** Inserting whitespace anywhere leaves the normalised text unchanged. */
  lemma NormalizeIgnoresSpaces(a: string, w: string, b: string)
    requires AllRegexSpace(w)
    ensures Normalize(a + w + b) == Normalize(a + b)
  {
    assert Lower(w) == w;
    RemoveSpacesDrops(w);
    assert Normalize(w) == [];
    NormalizeConcat(a, w);
    assert Normalize(a + w) == Normalize(a);
    NormalizeConcat(a + w, b);
    NormalizeConcat(a, b);
  }

  /** A keyword already in normal form (no capitals, no spaces) is itself normalised. */
  predicate IsKeyword(k: string)
  {
    NoCapitals(k) && forall i :: 0 <= i < |k| ==> !IsRegexSpace(k[i])
  }

  lemma NormalizeKeyword(k: string)
    requires IsKeyword(k)
    ensures Normalize(k) == k
  {
    LowerFixes(k);
    RemoveSpacesKeeps(k);
  }

  /** A keyword written in the raw text survives normalisation. */
  lemma KeywordSurvives(text: string, k: string)
    requires IsKeyword(k) && Contains(text, k)
    ensures Contains(Normalize(text), k)
  {
    ContainsIffOccurs(text, k);
    var i :| OccursAt(text, k, i);
    var a, b := text[..i], text[i + |k|..];
    assert text == a + k + b;
    NormalizeConcat(a + k, b);
    NormalizeConcat(a, k);
    NormalizeKeyword(k);
    ContainsInfix(Normalize(a), k, Normalize(b));
  }

  /**
   * `Char.isWhitespace()` on the JVM: `Character.isWhitespace` (the ASCII
   * controls 9-13 and 28-31 and the Unicode separators other than no-break
   * space) together with `Character.isSpaceChar` (every Unicode space
   * separator, no-break spaces included, and the line and paragraph separators).
   */
  predicate IsWhitespace(c: char)
  {
    ('\t' <= c <= '\r') || ('\U{001C}' <= c <= ' ') || c == '\U{00A0}' || c == '\U{1680}' ||
    ('\U{2000}' <= c <= '\U{200A}') || c == '\U{2028}' || c == '\U{2029}' ||
    c == '\U{202F}' || c == '\U{205F}' || c == '\U{3000}'
  }

  predicate AllWhitespace(s: string)
  {
    forall i :: 0 <= i < |s| ==> IsWhitespace(s[i])
  }

  /** Leading whitespace removed. */
  function TrimStart(s: string): (r: string)
    ensures |r| <= |s| && r == s[|s| - |r|..]
    ensures AllWhitespace(s[..|s| - |r|])
    ensures r == [] || !IsWhitespace(r[0])
  {
    if |s| > 0 && IsWhitespace(s[0]) then
      var r := TrimStart(s[1..]);
      PrefixAfterFirst(s, |s| - |r|);
      WhitespaceCons(s[0], s[1..][..|s[1..]| - |r|]);
      r
    else s
  }

  /** Trailing whitespace removed. */
  function TrimEnd(s: string): (r: string)
    ensures |r| <= |s| && r == s[..|r|]
    ensures AllWhitespace(s[|r|..])
    ensures r == [] || !IsWhitespace(r[|r| - 1])
  {
    if |s| > 0 && IsWhitespace(s[|s| - 1]) then
      var r := TrimEnd(s[..|s| - 1]);
      SuffixBeforeLast(s, |r|);
      WhitespaceSnoc(s[..|s| - 1][|r|..], s[|s| - 1]);
      r
    else s
  }

  /** `s` with whitespace `s[..i]` cut in front and `s[j..]` behind leaves `r`. */
  predicate TrimmedAt(s: string, r: string, i: int, j: int)
  {
    0 <= i <= j <= |s| && r == s[i..j] && AllWhitespace(s[..i]) && AllWhitespace(s[j..])
  }

  /**
   * `String.trim()`: the infix of `s` left after whitespace is cut from both
   * ends, which starts and ends with a non-whitespace character.
   */
  function Trim(s: string): (r: string)
    ensures exists i, j :: TrimmedAt(s, r, i, j)
    ensures r == [] || (!IsWhitespace(r[0]) && !IsWhitespace(r[|r| - 1]))
  {
    TrimBothEnds(s, TrimStart(s), TrimEnd(TrimStart(s)));
    TrimEnd(TrimStart(s))
  }

  lemma PrefixAfterFirst(s: string, n: nat)
    requires 0 < n <= |s|
    ensures s[..n] == [s[0]] + s[1..][..n - 1]
  {
  }

  lemma WhitespaceCons(c: char, w: string)
    requires IsWhitespace(c) && AllWhitespace(w)
    ensures AllWhitespace([c] + w)
  {
    assert forall i :: 0 < i < |w| + 1 ==> ([c] + w)[i] == w[i - 1];
  }

  lemma WhitespaceSnoc(w: string, c: char)
    requires AllWhitespace(w) && IsWhitespace(c)
    ensures AllWhitespace(w + [c])
  {
    assert forall i :: 0 <= i < |w| ==> (w + [c])[i] == w[i];
  }

  lemma SuffixBeforeLast(s: string, n: nat)
    requires n < |s|
    ensures s[n..] == s[..|s| - 1][n..] + [s[|s| - 1]]
  {
  }

  /**
   * A suffix `t` of `s` after whitespace, and a prefix `r` of `t` before
   * whitespace: `r` is an infix of `s` with whitespace on both sides.
   */
  lemma TrimBothEnds(s: string, t: string, r: string)
    requires |t| <= |s| && t == s[|s| - |t|..] && AllWhitespace(s[..|s| - |t|])
    requires |r| <= |t| && r == t[..|r|] && AllWhitespace(t[|r|..])
    ensures TrimmedAt(s, r, |s| - |t|, |s| - |t| + |r|)
    ensures r != [] ==> r[0] == t[0]
  {
    var i := |s| - |t|;
    SliceOfSuffix(s, i, |r|);
    assert s[i + |r|..] == t[|r|..];
  }

  lemma SliceOfSuffix(s: string, i: nat, n: nat)
    requires i + n <= |s|
    ensures s[i..][..n] == s[i..i + n] && s[i..][n..] == s[i + n..]
  {
  }

  /** Trimming a string that starts and ends with non-whitespace changes nothing. */
  lemma TrimFixes(s: string)
    requires s == [] || (!IsWhitespace(s[0]) && !IsWhitespace(s[|s| - 1]))
    ensures Trim(s) == s
  {
  }

  /** `trim()` is idempotent. */
  lemma TrimIdempotent(s: string)
    ensures Trim(Trim(s)) == Trim(s)
  {
    TrimFixes(Trim(s));
  }

  /** Whitespace in front is ignored by trimming. */
  lemma {:induction false} TrimStartSkips(w: string, s: string)
    requires AllWhitespace(w)
    ensures TrimStart(w + s) == TrimStart(s)
    decreases |w|
  {
    if |w| > 0 {
      assert (w + s)[0] == w[0];
      assert (w + s)[1..] == w[1..] + s;
      TrimStartSkips(w[1..], s);
    } else {
      assert w + s == s;
    }
  }

  /** Whitespace behind is ignored by trimming. */
  lemma {:induction false} TrimEndSkips(s: string, w: string)
    requires AllWhitespace(w)
    ensures TrimEnd(s + w) == TrimEnd(s)
    decreases |w|
  {
    if |w| > 0 {
      assert (s + w)[|s + w| - 1] == w[|w| - 1];
      assert (s + w)[..|s + w| - 1] == s + w[..|w| - 1];
      TrimEndSkips(s, w[..|w| - 1]);
    } else {
      assert s + w == s;
    }
  }

  /** Trailing characters do not change where the leading whitespace ends, unless all of `s` is whitespace. */
  lemma {:induction false} TrimStartAppend(s: string, w: string)
    requires !AllWhitespace(s)
    ensures TrimStart(s + w) == TrimStart(s) + w
    decreases |s|
  {
    assert |s| > 0;
    assert (s + w)[0] == s[0];
    if IsWhitespace(s[0]) {
      assert (s + w)[1..] == s[1..] + w;
      assert !AllWhitespace(s[1..]) by {
        var k :| 0 <= k < |s| && !IsWhitespace(s[k]);
        assert s[1..][k - 1] == s[k];
      }
      TrimStartAppend(s[1..], w);
    }
  }

  /** An all-whitespace string trims to nothing. */
  lemma {:induction false} TrimStartBlank(s: string)
    requires AllWhitespace(s)
    ensures TrimStart(s) == []
    decreases |s|
  {
    if |s| > 0 {
      assert IsWhitespace(s[0]);
      TrimStartBlank(s[1..]);
    }
  }

  /** Surrounding whitespace is ignored by `trim()`. */
  lemma TrimIgnoresSurrounding(w1: string, s: string, w2: string)
    requires AllWhitespace(w1) && AllWhitespace(w2)
    ensures Trim(w1 + s + w2) == Trim(s)
  {
    assert w1 + s + w2 == w1 + (s + w2);
    TrimStartSkips(w1, s + w2);
    if AllWhitespace(s) {
      assert AllWhitespace(s + w2);
      TrimStartBlank(s + w2);
      TrimStartBlank(s);
    } else {
      TrimStartAppend(s, w2);
      TrimEndSkips(TrimStart(s), w2);
    }
  }

  /** `String.length`: UTF-16 code units, two for a character beyond the Basic Multilingual Plane. */
  function Utf16Length(s: string): (n: nat)
    ensures |s| <= n <= 2 * |s|
    ensures n == 0 <==> s == []
  {
    if |s| == 0 then 0
    else (if s[0] as int > 0xFFFF then 2 else 1) + Utf16Length(s[1..])
  }
}
