/**
 The normalisation the request helper applies to a reply's `result` message
 and `success` flag: markup replaced by spaces, runs of spaces collapsed, white
 space trimmed, and the `parseBoolean` coercion.
 */
module Normalize {
  import opened Text

  /** What follows a markup match that started at a `<`: everything through the next `>`, or all of it if none. */
  function SkipTag(s: string): (r: string)
    ensures |r| <= |s| && r == s[|s| - |r|..]
    ensures '>' !in s ==> r == []
  {
    if s == [] then []
    else if s[0] == '>' then s[1..]
    else SkipTag(s[1..])
  }

  /**
   The regular-expression replacement of `<[^>]*>?` by a space: every `<`
   starts a match that runs to the next `>` inclusive, or to the end of the
   text when no `>` follows.
   */
  function StripTags(s: string): (r: string)
    ensures '<' !in r
    ensures |r| <= |s|
    decreases |s|
  {
    if s == [] then []
    else if s[0] == '<' then " " + StripTags(SkipTag(s[1..]))
    else [s[0]] + StripTags(s[1..])
  }

  /** Text without any `<` passes through tag stripping unchanged. */
  lemma {:induction false} StripTagsPlain(s: string)
    requires '<' !in s
    ensures StripTags(s) == s
  {
    if s != [] {
      assert s[0] != '<' && '<' !in s[1..];
      StripTagsPlain(s[1..]);
    }
  }

  /** Plain text, then one closed element `<m>`: the element becomes one space and the rest is stripped alike. */
  lemma {:induction false} StripTagsElement(a: string, m: string, b: string)
    requires '<' !in a && '>' !in m
    ensures StripTags(a + "<" + m + ">" + b) == a + " " + StripTags(b)
  {
    if a == [] {
      assert a + "<" + m + ">" + b == "<" + (m + ">" + b);
      SkipTagThrough(m, b);
    } else {
      assert (a + "<" + m + ">" + b)[1..] == a[1..] + "<" + m + ">" + b;
      assert '<' !in a[1..];
      StripTagsElement(a[1..], m, b);
    }
  }

  /** An unclosed `<` swallows the rest of the text. */
  lemma {:induction false} StripTagsUnclosed(a: string, m: string)
    requires '<' !in a && '>' !in m
    ensures StripTags(a + "<" + m) == a + " "
  {
    if a == [] {
      assert a + "<" + m == "<" + m;
      assert ("<" + m)[1..] == m;
    } else {
      assert (a + "<" + m)[1..] == a[1..] + "<" + m;
      assert '<' !in a[1..];
      StripTagsUnclosed(a[1..], m);
    }
  }

  lemma {:induction false} SkipTagThrough(m: string, b: string)
    requires '>' !in m
    ensures SkipTag(m + ">" + b) == b
  {
    if m != [] {
      assert (m + ">" + b)[1..] == m[1..] + ">" + b;
      assert '>' !in m[1..];
      SkipTagThrough(m[1..], b);
    } else {
      assert m + ">" + b == [ '>' ] + b;
    }
  }

  /** No two adjacent U+0020 spaces. */
  predicate NoDoubleSpace(s: string) {
    forall i :: 0 <= i < |s| - 1 ==> !(s[i] == ' ' && s[i + 1] == ' ')
  }

  /** The text with every U+0020 space removed. */
  function Unspaced(s: string): string {
    if s == [] then []
    else (if s[0] == ' ' then [] else [s[0]]) + Unspaced(s[1..])
  }

  /**
   The replacement of `/ +(?= )/` by nothing: each space followed by another
   space is dropped, so a run of spaces becomes one space. Other white space is
   left alone.
   */
  function CollapseSpaces(s: string): (r: string)
    ensures NoDoubleSpace(r)
    ensures Unspaced(r) == Unspaced(s)
    ensures forall c :: c in r ==> c in s
    ensures |r| <= |s|
    ensures s != [] ==> r != [] && r[0] == s[0] && r[|r| - 1] == s[|s| - 1]
  {
    if |s| < 2 then s
    else if s[0] == ' ' && s[1] == ' ' then CollapseSpaces(s[1..])
    else
      var r := [s[0]] + CollapseSpaces(s[1..]);
      assert r[1..] == CollapseSpaces(s[1..]);
      r
  }

  /** Text with no double space is left unchanged. */
  lemma {:induction false} CollapseSpacesNoDouble(s: string)
    requires NoDoubleSpace(s)
    ensures CollapseSpaces(s) == s
  {
    if |s| >= 2 {
      assert !(s[0] == ' ' && s[1] == ' ');
      assert NoDoubleSpace(s[1..]) by {
        forall i | 0 <= i < |s[1..]| - 1
          ensures !(s[1..][i] == ' ' && s[1..][i + 1] == ' ')
        {
          assert s[1..][i] == s[i + 1] && s[1..][i + 1] == s[i + 2];
        }
      }
      CollapseSpacesNoDouble(s[1..]);
    }
  }

  /** Only the length of a run of spaces is forgotten: dropping one space of a pair changes nothing. */
  lemma {:induction false} CollapseSpacesRunLength(a: string, b: string)
    ensures CollapseSpaces(a + "  " + b) == CollapseSpaces(a + " " + b)
  {
    if a == [] {
      assert a + "  " + b == " " + (" " + b);
      assert (" " + (" " + b))[1..] == a + " " + b;
    } else {
      var x, y := a + "  " + b, a + " " + b;
      assert x[0] == y[0] == a[0];
      assert x[1] == y[1];
      assert x[1..] == a[1..] + "  " + b;
      assert y[1..] == a[1..] + " " + b;
      CollapseSpacesRunLength(a[1..], b);
    }
  }

  /** A result message as delivered: no markup opener, no double space, nothing to trim. */
  predicate IsNormalized(s: string) {
    '<' !in s && NoDoubleSpace(s) && IsTrimmed(s)
  }

  /** The normalisation of a non-empty `result` message. */
  function NormalizeResult(s: string): (r: string)
    ensures IsNormalized(r)
  {
    var c := CollapseSpaces(StripTags(s));
    TrimKeeps(c);
    Trim(c)
  }

  /** Trimming keeps the absence of `<` and of double spaces. */
  lemma {:induction false} TrimKeeps(c: string)
    requires '<' !in c && NoDoubleSpace(c)
    ensures '<' !in Trim(c) && NoDoubleSpace(Trim(c))
  {
    var t := TrimStart(c);
    SuffixKeeps(c, t);
    PrefixKeeps(t, TrimEnd(t));
  }

  /** A suffix keeps the absence of `<` and of double spaces. */
  lemma {:induction false} SuffixKeeps(c: string, t: string)
    requires |t| <= |c| && t == c[|c| - |t|..]
    requires '<' !in c && NoDoubleSpace(c)
    ensures '<' !in t && NoDoubleSpace(t)
  {
    forall i | 0 <= i < |t|
      ensures t[i] == c[|c| - |t| + i]
    {
    }
  }

  /** A prefix keeps the absence of `<` and of double spaces. */
  lemma {:induction false} PrefixKeeps(t: string, r: string)
    requires |r| <= |t| && r == t[..|r|]
    requires '<' !in t && NoDoubleSpace(t)
    ensures '<' !in r && NoDoubleSpace(r)
  {
    forall i | 0 <= i < |r|
      ensures r[i] == t[i]
    {
    }
  }

  /** Normalising an already normalised message changes nothing; in particular normalisation is idempotent. */
  lemma {:induction false} NormalizeResultFixpoint(s: string)
    requires IsNormalized(s)
    ensures NormalizeResult(s) == s
  {
    StripTagsPlain(s);
    CollapseSpacesNoDouble(s);
    TrimTrimmed(s);
  }

  lemma {:induction false} NormalizeResultIdempotent(s: string)
    ensures NormalizeResult(NormalizeResult(s)) == NormalizeResult(s)
  {
    NormalizeResultFixpoint(NormalizeResult(s));
  }

  /** A run of `n` U+0020 spaces. */
  function Spaces(n: nat): (r: string)
    ensures |r| == n
    ensures forall c :: c in r ==> c == ' '
  {
    if n == 0 then [] else " " + Spaces(n - 1)
  }

  /** A run of spaces of any length collapses exactly as a single space does. */
  lemma {:induction false} CollapseSpacesRun(a: string, n: nat, b: string)
    ensures CollapseSpaces(a + " " + Spaces(n) + b) == CollapseSpaces(a + " " + b)
  {
    SpacesRegroup(a, n, b);
    if n > 0 {
      CollapseSpacesRunLength(a, Spaces(n - 1) + b);
      CollapseSpacesRun(a, n - 1, b);
    }
  }

  lemma {:induction false} SpacesRegroup(a: string, n: nat, b: string)
    ensures n == 0 ==> a + " " + Spaces(n) + b == a + " " + b
    ensures n > 0 ==> a + " " + Spaces(n) + b == a + "  " + (Spaces(n - 1) + b)
    ensures n > 0 ==> a + " " + (Spaces(n - 1) + b) == a + " " + Spaces(n - 1) + b
  {
  }

  /** A word: non-empty, no markup opener, no space, and not white space at the given end. */
  predicate IsWord(w: string) {
    w != [] && '<' !in w && ' ' !in w
  }

  /**
   Two words, each after an element tag, with any run of spaces before the
   second: the tags go, the gap becomes one space and the ends are trimmed.
   For instance `"<b>OK</b>   done"` becomes `"OK done"`.
   */
  lemma {:induction false} NormalizeTaggedWords(m1: string, w1: string, m2: string, n: nat, w2: string)
    requires '>' !in m1 && '>' !in m2
    requires IsWord(w1) && !IsWhitespace(w1[0])
    requires IsWord(w2) && !IsWhitespace(w2[|w2| - 1])
    ensures NormalizeResult("<" + m1 + ">" + w1 + "<" + m2 + ">" + Spaces(n) + w2) == w1 + " " + w2
  {
    StripTaggedWords(m1, w1, m2, n, w2);
    CollapseSpacesRun(" " + w1, n, w2);
    CollapseSeparatedWords(w1, w2);
    JoinedWords(w1, w2);
    TrimLeadingSpace(w1 + " " + w2);
  }

  lemma {:induction false} JoinedWords(w1: string, w2: string)
    requires w1 != [] && !IsWhitespace(w1[0])
    requires w2 != [] && !IsWhitespace(w2[|w2| - 1])
    ensures " " + w1 + " " + w2 == " " + (w1 + " " + w2)
    ensures IsTrimmed(w1 + " " + w2)
  {
    var j := w1 + " " + w2;
    assert j[0] == w1[0] && j[|j| - 1] == w2[|w2| - 1];
  }

  lemma {:induction false} StripTaggedWords(m1: string, w1: string, m2: string, n: nat, w2: string)
    requires '>' !in m1 && '>' !in m2 && '<' !in w1 && '<' !in w2
    ensures StripTags("<" + m1 + ">" + w1 + "<" + m2 + ">" + Spaces(n) + w2) == " " + w1 + " " + Spaces(n) + w2
  {
    var tail := Spaces(n) + w2;
    TaggedWordsRegroup(m1, w1, m2, n, w2);
    StripTagsElement([], m1, w1 + "<" + m2 + ">" + tail);
    StripTagsElement(w1, m2, tail);
    StripTagsPlain(tail);
  }

  lemma {:induction false} TaggedWordsRegroup(m1: string, w1: string, m2: string, n: nat, w2: string)
    ensures "<" + m1 + ">" + w1 + "<" + m2 + ">" + Spaces(n) + w2
      == [] + "<" + m1 + ">" + (w1 + "<" + m2 + ">" + (Spaces(n) + w2))
    ensures [] + " " + (w1 + " " + (Spaces(n) + w2)) == " " + w1 + " " + Spaces(n) + w2
  {
  }

  lemma {:induction false} CollapseSeparatedWords(w1: string, w2: string)
    requires IsWord(w1) && IsWord(w2)
    ensures CollapseSpaces(" " + w1 + " " + w2) == " " + w1 + " " + w2
  {
    var t := " " + w1 + " " + w2;
    forall i | 0 <= i < |t| - 1
      ensures !(t[i] == ' ' && t[i + 1] == ' ')
    {
      if i < |w1| {
        assert t[i + 1] == w1[i];
      } else if i == |w1| {
        assert t[i] == w1[i - 1];
      } else {
        assert t[i + 1] == w2[i - |w1| - 1];
      }
    }
    CollapseSpacesNoDouble(t);
  }

  lemma {:induction false} TrimLeadingSpace(t: string)
    requires IsTrimmed(t) && t != []
    ensures Trim(" " + t) == t
  {
    assert (" " + t)[1..] == t;
    assert TrimStart(" " + t) == t;
  }

  /**
   A normalised message wrapped in one element, such as `<p>…</p>`, comes out
   as the message itself: each tag becomes a space and trimming removes both.
   */
  lemma {:induction false} NormalizeWrapped(m1: string, s: string, m2: string)
    requires '>' !in m1 && '>' !in m2
    requires IsNormalized(s) && s != []
    ensures NormalizeResult("<" + m1 + ">" + s + "<" + m2 + ">") == s
  {
    WrappedRegroup(m1, s, m2);
    StripTagsElement([], m1, s + "<" + m2 + ">" + []);
    StripTagsElement(s, m2, []);
    StripTagsPlain([]);
    PaddedNoDouble(s);
    CollapseSpacesNoDouble(" " + s + " ");
    TrimPadded(s);
  }

  lemma {:induction false} WrappedRegroup(m1: string, s: string, m2: string)
    ensures "<" + m1 + ">" + s + "<" + m2 + ">" == [] + "<" + m1 + ">" + (s + "<" + m2 + ">" + [])
    ensures [] + " " + (s + " " + []) == " " + s + " "
  {
  }

  lemma {:induction false} PaddedNoDouble(s: string)
    requires IsNormalized(s) && s != []
    ensures NoDoubleSpace(" " + s + " ")
  {
    var t := " " + s + " ";
    forall i | 0 <= i < |t| - 1
      ensures !(t[i] == ' ' && t[i + 1] == ' ')
    {
      if i == 0 {
        assert t[1] == s[0];
      } else if i < |s| {
        assert t[i] == s[i - 1] && t[i + 1] == s[i];
      } else {
        assert t[i] == s[|s| - 1];
      }
    }
  }

  lemma {:induction false} TrimPadded(s: string)
    requires IsTrimmed(s) && s != []
    ensures Trim(" " + s + " ") == s
  {
    var t := " " + s + " ";
    assert t[1..] == s + " ";
    assert TrimStart(s + " ") == s + " ";
    assert TrimStart(t) == s + " ";
    assert (s + " ")[..|s|] == s;
    assert TrimEnd(s) == s;
  }

  /** Visible text: non-empty, with neither white space nor a markup opener. */
  predicate IsSolid(w: string) {
    w != [] && forall i :: 0 <= i < |w| ==> w[i] != '<' && !IsWhitespace(w[i])
  }

  /** Visible text is in normal form. */
  lemma {:induction false} SolidNormalized(w: string)
    requires IsSolid(w)
    ensures IsNormalized(w)
  {
  }

  /**
   Two normalised texts joined by one space are again in normal form, so text
   built word by word is.
   */
  lemma {:induction false} JoinNormalized(a: string, b: string)
    requires IsNormalized(a) && a != [] && IsNormalized(b) && b != []
    ensures IsNormalized(a + " " + b)
  {
    var r := a + " " + b;
    forall i | 0 <= i < |r|
      ensures r[i] != '<'
    {
      if i < |a| {
        assert r[i] == a[i];
      } else if i > |a| {
        assert r[i] == b[i - |a| - 1];
      }
    }
    forall i | 0 <= i < |r| - 1
      ensures !(r[i] == ' ' && r[i + 1] == ' ')
    {
      if i < |a| - 1 {
        assert r[i] == a[i] && r[i + 1] == a[i + 1];
      } else if i == |a| - 1 {
        assert r[i] == a[|a| - 1];
      } else if i == |a| {
        assert r[i + 1] == b[0];
      } else {
        assert r[i] == b[i - |a| - 1] && r[i + 1] == b[i - |a|];
      }
    }
    assert r[0] == a[0] && r[|r| - 1] == b[|b| - 1];
  }

  /** A sample: markup around a word and a run of spaces after it. */
  lemma {:induction false} NormalizeResultExample()
    ensures NormalizeResult("<b>OK</b>   done") == "OK done"
  {
    SampleSpelling();
    NormalizeTaggedWords("b", "OK", "/b", 3, "done");
  }

  lemma {:induction false} SampleSpelling()
    ensures "<" + "b" + ">" + "OK" + "<" + "/b" + ">" + Spaces(3) + "done" == "<b>OK</b>   done"
    ensures "OK" + " " + "done" == "OK done"
    ensures IsWord("OK") && IsWord("done")
  {
    assert Spaces(3) == "   ";
  }

  /**
   `parseBoolean`: the lower-cased text `"true"` is true and `"false"` is
   false; anything else is its truthiness, which for a string means non-empty.
   The `null` case of the switch cannot match a string and is not modelled.
   */
  function ParseBoolean(s: string): (b: bool)
    ensures b <==> s != [] && ToLower(s) != "false"
  {
    var lower := ToLower(s);
    if lower == "true" then true
    else if lower == "false" then false
    else s != []
  }

  /** The coercion ignores the case of ASCII letters. */
  lemma {:induction false} ParseBooleanCaseInsensitive(a: string, b: string)
    requires ToLower(a) == ToLower(b)
    ensures ParseBoolean(a) == ParseBoolean(b)
  {
    assert |a| == |ToLower(a)| == |b|;
  }

  /** Sample coercions: `"TRUE"` and `"0"` are true, `"False"` and `""` are false. */
  lemma {:induction false} ParseBooleanExamples()
    ensures ParseBoolean("TRUE") && ParseBoolean("0") && ParseBoolean("yes")
    ensures !ParseBoolean("False") && !ParseBoolean("")
  {
    assert ToLower("False") == "false";
    assert ToLower("0") != "false";
    assert ToLower("yes") != "false";
    assert ToLower("TRUE") != "false";
  }
}
