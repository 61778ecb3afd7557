/** The string operations the pipeline uses: `startswith`, the substring test of `in`,
    prefix removal, `replace(" ", "%20")` and `strip()`. */
module Text {

  /** Python's `s.startswith(prefix)`. */
  predicate StartsWith(s: string, prefix: string) {
    |prefix| <= |s| && s[..|prefix|] == prefix
  }

  /** Python's `needle in hay` on two strings. */
  predicate IsSubstring(needle: string, hay: string)
    decreases |hay|
  {
    StartsWith(hay, needle) || (|hay| > 0 && IsSubstring(needle, hay[1..]))
  }

  /** The needle occurs in the hay starting at position `i`. */
  predicate OccursAt(needle: string, hay: string, i: int) {
    0 <= i && i + |needle| <= |hay| && hay[i..i + |needle|] == needle
  }

  /** `IsSubstring` holds exactly when the needle occurs at some position of the hay. */
  lemma {:induction false} IsSubstringAt(needle: string, hay: string)
    ensures IsSubstring(needle, hay) <==> exists i :: OccursAt(needle, hay, i)
    decreases |hay|
  {
    assert StartsWith(hay, needle) <==> OccursAt(needle, hay, 0) by {
      if |needle| <= |hay| { assert hay[0..|needle|] == hay[..|needle|]; }
    }
    if |hay| > 0 {
      IsSubstringAt(needle, hay[1..]);
      forall i | OccursAt(needle, hay[1..], i) ensures OccursAt(needle, hay, i + 1) {
        assert hay[1..][i..i + |needle|] == hay[i + 1..i + 1 + |needle|];
      }
      forall i | OccursAt(needle, hay, i) && i > 0 ensures OccursAt(needle, hay[1..], i - 1) {
        assert hay[1..][i - 1..i - 1 + |needle|] == hay[i..i + |needle|];
      }
    } else {
      forall i | OccursAt(needle, hay, i) ensures i == 0 { }
    }
  }

  /** `raw[len(prefix):] if raw.startswith(prefix) else raw`. */
  function StripPrefix(raw: string, prefix: string): (r: string)
    ensures StartsWith(raw, prefix) ==> prefix + r == raw
    ensures !StartsWith(raw, prefix) ==> r == raw
  {
    if StartsWith(raw, prefix) then raw[|prefix|..] else raw
  }

  /** The prefix is removed once only: a text that carried it twice keeps one copy. */
  lemma StripPrefixOnce(prefix: string, t: string)
    ensures StripPrefix(prefix + t, prefix) == t
  {
    assert (prefix + t)[..|prefix|] == prefix;
    assert (prefix + t)[|prefix|..] == t;
  }

  /** Python's `s.replace(" ", "%20")`. */
  function EncodeSpaces(s: string): (r: string)
    ensures ' ' !in r
    ensures ' ' !in s ==> r == s
  {
    if s == [] then []
    else (if s[0] == ' ' then "%20" else [s[0]]) + EncodeSpaces(s[1..])
  }

  /** The inverse reading: every `%20` becomes a space again. */
  function DecodeSpaces(r: string): string
    decreases |r|
  {
    if StartsWith(r, "%20") then " " + DecodeSpaces(r[3..])
    else if r == [] then []
    else [r[0]] + DecodeSpaces(r[1..])
  }

  /** Encoding loses nothing: an address without `%` of its own is recovered from its encoding. */
  lemma {:induction false} DecodeEncodeSpaces(s: string)
    requires '%' !in s
    ensures DecodeSpaces(EncodeSpaces(s)) == s
  {
    if s != [] {
      DecodeEncodeSpaces(s[1..]);
      var rest := EncodeSpaces(s[1..]);
      if s[0] == ' ' {
        assert EncodeSpaces(s) == "%20" + rest;
        assert StartsWith("%20" + rest, "%20");
        assert ("%20" + rest)[3..] == rest;
      } else {
        assert EncodeSpaces(s) == [s[0]] + rest;
        assert s[0] in s;
        assert ([s[0]] + rest)[0] == s[0];
        assert !StartsWith([s[0]] + rest, "%20");
        assert ([s[0]] + rest)[1..] == rest;
      }
      assert s == [s[0]] + s[1..];
    }
  }

  /** The characters `str.strip()` removes: those for which Python's `str.isspace` holds. */
  predicate IsSpace(c: char) {
    ('\U{9}' <= c <= '\U{D}') || ('\U{1C}' <= c <= '\U{20}') || c == '\U{85}' || c == '\U{A0}' ||
    c == '\U{1680}' || ('\U{2000}' <= c <= '\U{200A}') || c == '\U{2028}' || c == '\U{2029}' ||
    c == '\U{202F}' || c == '\U{205F}' || c == '\U{3000}'
  }

  /** The number of whitespace characters at the start of `s`. */
  function LeadingSpaces(s: string): (k: nat)
    ensures k <= |s|
    ensures forall i :: 0 <= i < k ==> IsSpace(s[i])
    ensures k < |s| ==> !IsSpace(s[k])
  {
    if s != [] && IsSpace(s[0]) then 1 + LeadingSpaces(s[1..]) else 0
  }

  /** The number of whitespace characters at the end of `s`. */
  function TrailingSpaces(s: string): (k: nat)
    ensures k <= |s|
    ensures forall i :: |s| - k <= i < |s| ==> IsSpace(s[i])
    ensures k < |s| ==> !IsSpace(s[|s| - k - 1])
  {
    if s != [] && IsSpace(s[|s| - 1]) then 1 + TrailingSpaces(s[..|s| - 1]) else 0
  }

  /** Python's `s.strip()`. */
  function Strip(s: string): (r: string)
    ensures |r| <= |s|
    ensures r == [] || (!IsSpace(r[0]) && !IsSpace(r[|r| - 1]))
  {
    var t := s[LeadingSpaces(s)..];
    t[..|t| - TrailingSpaces(t)]
  }

  predicate AllSpaces(w: string) {
    forall i :: 0 <= i < |w| ==> IsSpace(w[i])
  }

  /** `strip()` removes exactly the whitespace padding around a text and nothing of the text. */
  lemma StripPadded(w1: string, t: string, w2: string)
    requires AllSpaces(w1) && AllSpaces(w2)
    requires t == [] || (!IsSpace(t[0]) && !IsSpace(t[|t| - 1]))
    ensures Strip(w1 + t + w2) == t
  {
    var s := w1 + t + w2;
    var k := LeadingSpaces(s);
    if t == [] {
      assert AllSpaces(s) by {
        forall i | 0 <= i < |s| ensures IsSpace(s[i]) {
          if i < |w1| { assert s[i] == w1[i]; } else { assert s[i] == w2[i - |w1|]; }
        }
      }
      assert k == |s|;
    } else {
      assert s[|w1|] == t[0];
      assert forall i :: 0 <= i < |w1| ==> s[i] == w1[i];
      assert k == |w1|;
      var u := s[k..];
      assert u == t + w2;
      var m := TrailingSpaces(u);
      assert u[|t| - 1] == t[|t| - 1];
      assert forall i :: |t| <= i < |u| ==> u[i] == w2[i - |t|];
      assert m == |w2|;
      assert u[..|u| - m] == t;
    }
  }

  /** Stripping twice changes nothing more. */
  lemma StripIdempotent(s: string)
    ensures Strip(Strip(s)) == Strip(s)
  {
    StripPadded([], Strip(s), []);
    assert [] + Strip(s) + [] == Strip(s);
  }
}
