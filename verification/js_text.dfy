/** The few JavaScript string operations the site's classifier relies on:
    `String.prototype.toLowerCase`, `String.prototype.includes` and
    `Array.prototype.join`. */
module JsText {

  /** `toLowerCase` on one character. Only the ASCII capitals are mapped. */
  function LowerChar(c: char): char
  {
    if 'A' <= c <= 'Z' then (c as int - 'A' as int + 'a' as int) as char else c
  }

  /** `s.toLowerCase()`. */
  function Lower(s: string): string
  {
    seq(|s|, i requires 0 <= i < |s| => LowerChar(s[i]))
  }

  /** `pat` occurs in `text` starting at index `i`. */
  ghost predicate OccursAt(text: string, pat: string, i: int)
  {
    0 <= i && i + |pat| <= |text| && text[i..i + |pat|] == pat
  }

  /** `text.includes(pat)`: `pat` is a prefix of `text` or of one of its
      suffixes (so the empty pattern is contained in every text). */
  predicate Contains(text: string, pat: string)
    decreases |text|
  {
    pat <= text || (text != [] && Contains(text[1..], pat))
  }

  /** `Contains` holds exactly when the pattern occurs at some index. */
  lemma {:induction false} ContainsAt(text: string, pat: string)
    ensures Contains(text, pat) <==> exists i :: OccursAt(text, pat, i)
    decreases |text|
  {
    if pat <= text {
      assert OccursAt(text, pat, 0);
    } else if text != [] && Contains(text[1..], pat) {
      ContainsAt(text[1..], pat);
      var i :| OccursAt(text[1..], pat, i);
      assert text[i + 1..i + 1 + |pat|] == text[1..][i..i + |pat|];
      assert OccursAt(text, pat, i + 1);
    } else if exists i :: OccursAt(text, pat, i) {
      var i :| OccursAt(text, pat, i);
      if i > 0 {
        assert text[1..][i - 1..i - 1 + |pat|] == text[i..i + |pat|];
        assert OccursAt(text[1..], pat, i - 1);
        ContainsAt(text[1..], pat);
      }
    }
  }

  /** A pattern found at a known index is contained. */
  lemma ContainsFromOccurrence(text: string, pat: string, i: int)
    requires OccursAt(text, pat, i)
    ensures Contains(text, pat)
  {
    ContainsAt(text, pat);
  }

  /** An occurrence of an occurrence is an occurrence. */
  lemma ContainsTransitive(text: string, mid: string, pat: string)
    requires Contains(text, mid) && Contains(mid, pat)
    ensures Contains(text, pat)
  {
    ContainsAt(text, mid);
    ContainsAt(mid, pat);
    var i :| OccursAt(text, mid, i);
    var j :| OccursAt(mid, pat, j);
    var found, inner := text[i + j..i + j + |pat|], mid[j..j + |pat|];
    assert found == inner by {
      var window := text[i..i + |mid|];
      assert window == mid;
      forall k | 0 <= k < |pat|
        ensures found[k] == inner[k]
      {
        assert window[j + k] == found[k];
      }
    }
    ContainsFromOccurrence(text, pat, i + j);
  }

  /** A pattern holding a character the text lacks is not contained in it. */
  lemma AbsentCharNotContained(text: string, pat: string, j: int)
    requires 0 <= j < |pat| && pat[j] !in text
    ensures !Contains(text, pat)
  {
    ContainsAt(text, pat);
    forall i | 0 <= i <= |text| - |pat|
      ensures !OccursAt(text, pat, i)
    {
      assert text[i..i + |pat|][j] == text[i + j];
    }
  }

  /** A pattern holding two neighbouring characters that never stand side
      by side in the text is not contained in it. */
  lemma AbsentPairNotContained(text: string, pat: string, j: int)
    requires 0 <= j < |pat| - 1
    requires forall i :: 0 <= i < |text| - 1 ==> !(text[i] == pat[j] && text[i + 1] == pat[j + 1])
    ensures !Contains(text, pat)
  {
    ContainsAt(text, pat);
    forall i | 0 <= i <= |text| - |pat|
      ensures !OccursAt(text, pat, i)
    {
      assert text[i..i + |pat|][j] == text[i + j];
      assert text[i..i + |pat|][j + 1] == text[i + j + 1];
    }
  }

  /** Lower-casing distributes over concatenation. */
  lemma LowerAppend(a: string, b: string)
    ensures Lower(a + b) == Lower(a) + Lower(b)
  {
  }

  /** Lower-casing a joined string lowers each part (the separators used
      here have no capitals). */
  lemma {:induction false} LowerJoin(parts: seq<string>, sep: string)
    requires Lower(sep) == sep
    ensures Lower(Join(parts, sep)) == Join(LowerAll(parts), sep)
  {
    if |parts| > 1 {
      LowerJoin(parts[1..], sep);
      assert LowerAll(parts)[1..] == LowerAll(parts[1..]);
      LowerAppend(parts[0] + sep, Join(parts[1..], sep));
      LowerAppend(parts[0], sep);
    }
  }

  /** Every string of a list, lowered. */
  function LowerAll(parts: seq<string>): seq<string>
  {
    seq(|parts|, i requires 0 <= i < |parts| => Lower(parts[i]))
  }

  /** Lower-casing both sides keeps an occurrence: what `includes` found in
      the original text it also finds in the lowered text. */
  lemma LowerPreservesContains(text: string, pat: string)
    requires Contains(text, pat)
    ensures Contains(Lower(text), Lower(pat))
  {
    ContainsAt(text, pat);
    var i :| OccursAt(text, pat, i);
    assert Lower(text)[i..i + |pat|] == Lower(pat) by {
      forall k | 0 <= k < |pat|
        ensures Lower(text)[i..i + |pat|][k] == Lower(pat)[k]
      {
        assert text[i..i + |pat|][k] == pat[k];
      }
    }
    ContainsFromOccurrence(Lower(text), Lower(pat), i);
  }

  /** A pattern contained in the tail of a concatenation is contained in
      the whole. */
  lemma {:induction false} ContainsInSuffix(prefix: string, text: string, pat: string)
    requires Contains(text, pat)
    ensures Contains(prefix + text, pat)
    decreases |prefix|
  {
    if prefix != [] {
      assert (prefix + text)[1..] == prefix[1..] + text;
      ContainsInSuffix(prefix[1..], text, pat);
    } else {
      assert prefix + text == text;
    }
  }

  /** `parts.join(sep)`. */
  function Join(parts: seq<string>, sep: string): string
  {
    if |parts| == 0 then ""
    else if |parts| == 1 then parts[0]
    else parts[0] + sep + Join(parts[1..], sep)
  }

  /** Every part of a joined string is contained in it. */
  lemma {:induction false} JoinContainsPart(parts: seq<string>, sep: string, i: int)
    requires 0 <= i < |parts|
    ensures Contains(Join(parts, sep), parts[i])
  {
    if i == 0 {
      assert parts[0] <= Join(parts, sep);
    } else {
      JoinContainsPart(parts[1..], sep, i - 1);
      ContainsInSuffix(parts[0] + sep, Join(parts[1..], sep), parts[i]);
    }
  }
}
