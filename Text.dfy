/**
 * String primitives the tokenizer relies on: the whitespace class of a
 * regular expression `\s`, substring containment (`word in text`) and the
 * single-space join of a token list (`' '.join(tokens)`).
 */
module Text {

  /**
   * The characters matched by `\s` in a Unicode string pattern. Every
   * character of the ASCII class (tab, line feed, vertical tab, form feed,
   * carriage return and space) is among them.
   */
  predicate IsWhitespace(c: char)
    ensures c == ' ' || '\t' <= c <= '\r' ==> IsWhitespace(c)
  {
    var v := c as int;
    (0x09 <= v <= 0x0D) || (0x1C <= v <= 0x20) || v == 0x85 || v == 0xA0 ||
    v == 0x1680 || (0x2000 <= v <= 0x200A) || v == 0x2028 || v == 0x2029 ||
    v == 0x202F || v == 0x205F || v == 0x3000
  }

  /** The number of matches of `\s` in `s` (the length of `findall`). */
  function CountWhitespace(s: string): (r: nat)
    ensures r <= |s|
    ensures r == 0 <==> forall k :: 0 <= k < |s| ==> !IsWhitespace(s[k])
  {
    if |s| == 0 then 0
    else (if IsWhitespace(s[0]) then 1 else 0) + CountWhitespace(s[1..])
  }

  lemma {:induction false} CountWhitespaceAppend(a: string, b: string)
    ensures CountWhitespace(a + b) == CountWhitespace(a) + CountWhitespace(b)
  {
    if |a| == 0 {
      assert a + b == b;
    } else {
      assert (a + b)[0] == a[0];
      assert (a + b)[1..] == a[1..] + b;
      CountWhitespaceAppend(a[1..], b);
    }
  }

  /** `w` occurs in `text` starting at offset `k`. */
  predicate OccursAt(text: string, w: string, k: nat) {
    k + |w| <= |text| && text[k..k + |w|] == w
  }

  /** `w in text`: `w` occurs in `text` at some offset (the empty string occurs everywhere). */
  predicate Contains(text: string, w: string)
    ensures |w| == 0 ==> Contains(text, w)
    ensures Contains(text, w) ==> |w| <= |text|
  {
    assert |w| == 0 ==> OccursAt(text, w, 0);
    exists k: nat | k <= |text| :: OccursAt(text, w, k)
  }

  /** A word holding a character that never occurs in `text` cannot occur in `text`. */
  lemma AvoidedCharNotContained(text: string, w: string, p: nat, avoid: string)
    requires p < |w| && w[p] in avoid
    requires forall k :: 0 <= k < |text| ==> text[k] !in avoid
    ensures !Contains(text, w)
  {
    forall k: nat | k <= |text|
      ensures !OccursAt(text, w, k)
    {
      if k + |w| <= |text| {
        assert text[k..k + |w|][p] != w[p];
      }
    }
  }

  /**
   * `' '.join(xs)`: it starts with the first token, followed by a space when
   * there is a second, and ends with the last token.
   */
  function Join(xs: seq<string>): (r: string)
    ensures |xs| > 0 ==> |xs[0]| <= |r| && r[..|xs[0]|] == xs[0]
    ensures |xs| > 1 ==> |xs[0]| < |r| && r[|xs[0]|] == ' '
  {
    if |xs| == 0 then ""
    else if |xs| == 1 then xs[0]
    else xs[0] + " " + Join(xs[1..])
  }

  /** Joining two non-empty lists puts exactly one space between their joins. */
  lemma {:induction false} JoinAppend(a: seq<string>, b: seq<string>)
    requires |a| > 0 && |b| > 0
    ensures Join(a + b) == Join(a) + " " + Join(b)
  {
    assert (a + b)[0] == a[0];
    if |a| == 1 {
      assert (a + b)[1..] == b;
    } else {
      assert (a + b)[1..] == a[1..] + b;
      JoinAppend(a[1..], b);
      assert a[0] + " " + (Join(a[1..]) + " " + Join(b))
          == (a[0] + " " + Join(a[1..])) + " " + Join(b);
    }
  }

  /** Replacing a non-empty run by its join leaves the join of the whole list unchanged. */
  lemma JoinCollapse(a: seq<string>, w: seq<string>, b: seq<string>)
    requires |w| > 0
    ensures Join(a + [Join(w)] + b) == Join(a + w + b)
  {
    var jw := [Join(w)];
    assert Join(jw) == Join(w);
    var mid := if |b| == 0 then Join(w) else Join(w) + " " + Join(b);
    if |b| == 0 {
      assert jw + b == jw;
      assert w + b == w;
    } else {
      JoinAppend(jw, b);
      JoinAppend(w, b);
    }
    assert Join(jw + b) == mid && Join(w + b) == mid;
    if |a| == 0 {
      assert a + jw + b == jw + b;
      assert a + w + b == w + b;
    } else {
      assert a + jw + b == a + (jw + b);
      assert a + w + b == a + (w + b);
      JoinAppend(a, jw + b);
      JoinAppend(a, w + b);
    }
  }

  /** A join of `n` tokens holds at least the `n - 1` separating spaces. */
  lemma {:induction false} JoinWhitespace(xs: seq<string>)
    ensures CountWhitespace(Join(xs)) + 1 >= |xs|
  {
    if |xs| >= 2 {
      JoinWhitespace(xs[1..]);
      CountWhitespaceAppend(xs[0] + " ", Join(xs[1..]));
      CountWhitespaceAppend(xs[0], " ");
      assert IsWhitespace(" "[0]);
    }
  }

  /** A join of `n > 0` tokens free of whitespace holds exactly the `n - 1` separating spaces. */
  lemma {:induction false} JoinWhitespaceExact(xs: seq<string>)
    requires |xs| > 0
    requires forall p :: 0 <= p < |xs| ==> CountWhitespace(xs[p]) == 0
    ensures CountWhitespace(Join(xs)) == |xs| - 1
  {
    if |xs| >= 2 {
      JoinWhitespaceExact(xs[1..]);
      CountWhitespaceAppend(xs[0] + " ", Join(xs[1..]));
      CountWhitespaceAppend(xs[0], " ");
      assert IsWhitespace(" "[0]);
    }
  }
}
