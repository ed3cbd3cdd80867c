/**
 * The tokenizer: a base tokenizer supplied by the caller, a list of
 * multi-word entities, and the loop that applies the merge step until it
 * no longer changes the token list.
 */
module Tokenizer {
  import opened Text
  import opened Keywords
  import opened MergeStep

  /**
   * What one call of the merge step returns: the keywords are the entities
   * occurring in `text`, and the scan bound is their `MaxWindow`.
   */
  function Step(entities: seq<string>, text: string, tokens: seq<string>): (r: seq<string>)
    ensures r == tokens || |r| < |tokens|
    ensures Join(r) == Join(tokens)
    ensures forall t :: t in r ==> t in tokens || (t in entities && Contains(text, t))
  {
    var keywords := ActiveKeywords(entities, text);
    MergeOnceJoin(tokens, keywords, MaxWindow(keywords));
    MergeOnceTokens(tokens, keywords, MaxWindow(keywords));
    ActiveKeywordsMembers(entities, text);
    MergeOnce(tokens, keywords, MaxWindow(keywords))
  }

  /**
   * The merge step repeated until it returns its input. The result is a fixed
   * point of the step, never longer than the input, and empty only when the
   * input is.
   */
  function Merged(tokens: seq<string>, keywords: seq<string>, n: nat): (r: seq<string>)
    ensures MergeOnce(r, keywords, n) == r
    ensures |r| <= |tokens|
    ensures |r| == 0 <==> |tokens| == 0
    decreases |tokens|
  {
    var next := MergeOnce(tokens, keywords, n);
    if next == tokens then tokens else Merged(next, keywords, n)
  }

  /**
   * The output of tokenizing `text` whose base tokenization is `base`: a
   * list on which the step changes nothing, no longer than `base`, and
   * empty only when `base` is.
   */
  function Tokenized(entities: seq<string>, base: seq<string>, text: string): (r: seq<string>)
    ensures Step(entities, text, r) == r
    ensures |r| <= |base|
    ensures |r| == 0 <==> |base| == 0
  {
    var keywords := ActiveKeywords(entities, text);
    Merged(base, keywords, MaxWindow(keywords))
  }

  /** The number of merges the loop makes before the step returns its input. */
  function Merges(tokens: seq<string>, keywords: seq<string>, n: nat): (r: nat)
    ensures r == 0 <==> MergeOnce(tokens, keywords, n) == tokens
    decreases |tokens|
  {
    var next := MergeOnce(tokens, keywords, n);
    if next == tokens then 0 else 1 + Merges(next, keywords, n)
  }

  /**
   * Each merge removes at least one token, and the fixed point keeps at least
   * one: a list of `m > 0` tokens is merged at most `m - 1` times.
   */
  lemma {:induction false} MergesBound(tokens: seq<string>, keywords: seq<string>, n: nat)
    ensures Merges(tokens, keywords, n) + |Merged(tokens, keywords, n)| <= |tokens|
    ensures |tokens| > 0 ==> Merges(tokens, keywords, n) <= |tokens| - 1
    decreases |tokens|
  {
    var next := MergeOnce(tokens, keywords, n);
    if next != tokens {
      MergesBound(next, keywords, n);
    }
  }

  /** When no entity occurs in `text`, the step returns its input. */
  lemma StepWithoutEntities(entities: seq<string>, text: string, tokens: seq<string>)
    requires forall w :: w in entities ==> !Contains(text, w)
    ensures Step(entities, text, tokens) == tokens
  {
    NoActiveKeywords(entities, text);
  }

  /** Merging to the fixed point keeps the single-space join of the list. */
  lemma {:induction false} MergedJoin(tokens: seq<string>, keywords: seq<string>, n: nat)
    ensures Join(Merged(tokens, keywords, n)) == Join(tokens)
    decreases |tokens|
  {
    var next := MergeOnce(tokens, keywords, n);
    if next != tokens {
      MergeOnceJoin(tokens, keywords, n);
      MergedJoin(next, keywords, n);
    }
  }

  /** Every token of the fixed point is an input token or a keyword. */
  lemma {:induction false} MergedTokens(tokens: seq<string>, keywords: seq<string>, n: nat)
    ensures forall t :: t in Merged(tokens, keywords, n) ==> t in tokens || t in keywords
    decreases |tokens|
  {
    var next := MergeOnce(tokens, keywords, n);
    if next != tokens {
      MergeOnceTokens(tokens, keywords, n);
      MergedTokens(next, keywords, n);
    }
  }

  /** A list on which the step changes nothing is its own fixed point. */
  lemma MergedOfFixedPoint(tokens: seq<string>, keywords: seq<string>, n: nat)
    requires MergeOnce(tokens, keywords, n) == tokens
    ensures Merged(tokens, keywords, n) == tokens
  {
  }

  /** Running the step once more on the output of tokenizing changes nothing. */
  lemma TokenizedIsFixedPoint(entities: seq<string>, base: seq<string>, text: string)
    ensures Step(entities, text, Tokenized(entities, base, text)) == Tokenized(entities, base, text)
    ensures |Tokenized(entities, base, text)| <= |base|
  {
  }

  /**
   * Bounded by `MaxWindow`, the fixed point holds no window of two or more
   * tokens, of any size, whose join is a keyword.
   */
  lemma MergedNoHit(tokens: seq<string>, keywords: seq<string>)
    ensures forall i: nat, j: nat :: 2 <= i ==>
              !IsHit(Merged(tokens, keywords, MaxWindow(keywords)), keywords, i, j)
  {
    MergeOnceUnchangedAnyWindow(Merged(tokens, keywords, MaxWindow(keywords)), keywords);
  }

  /** Tokenizing keeps the single-space join of the base tokens. */
  lemma TokenizedJoin(entities: seq<string>, base: seq<string>, text: string)
    ensures Join(Tokenized(entities, base, text)) == Join(base)
  {
    var keywords := ActiveKeywords(entities, text);
    MergedJoin(base, keywords, MaxWindow(keywords));
  }

  /** Every output token is a base token or an entity occurring in `text`. */
  lemma TokenizedTokens(entities: seq<string>, base: seq<string>, text: string)
    ensures forall t :: t in Tokenized(entities, base, text) ==>
              t in base || (t in entities && Contains(text, t))
  {
    var keywords := ActiveKeywords(entities, text);
    MergedTokens(base, keywords, MaxWindow(keywords));
    ActiveKeywordsMembers(entities, text);
  }

  /** When no entity occurs in `text`, the output is the base tokenization. */
  lemma TokenizedWithoutEntities(entities: seq<string>, base: seq<string>, text: string)
    requires forall w :: w in entities ==> !Contains(text, w)
    ensures Tokenized(entities, base, text) == base
  {
    NoActiveKeywords(entities, text);
    StepWithoutEntities(entities, text, base);
  }

  /** `s[j] = x` leaves the tokens before and after `j` in place. */
  lemma SetAsSplice(s: seq<string>, j: nat, x: string)
    requires j < |s|
    ensures s[j := x] == s[..j] + [x] + s[j + 1..]
  {
  }

  /**
   * With the window from `j` collapsed up to its `k`-th token, popping index
   * `j + 1` collapses one token more.
   */
  lemma PopAfter(tokens: seq<string>, j: nat, k: nat, x: string)
    requires j + k < |tokens|
    ensures var s := tokens[..j] + [x] + tokens[j + k..];
            s[..j + 1] + s[j + 2..] == tokens[..j] + [x] + tokens[j + k + 1..]
  {
    var s := tokens[..j] + [x] + tokens[j + k..];
    assert s[..j + 1] == tokens[..j] + [x];
    assert s[j + 2..] == tokens[j + k + 1..];
  }

  /**
   * The tokenizer object: a base tokenizer and the entity list, both fixed at
   * construction.
   */
  class MultiWordTokenizer {
    const func: string -> seq<string>
    const entities: seq<string>

    constructor (func: string -> seq<string>, entities: seq<string>)
      ensures this.func == func && this.entities == entities
    {
      this.func := func;
      this.entities := entities;
    }

    /**
     * Calls the base tokenizer once, then applies the merge step until it
     * returns a list equal to its input.
     */
    method Tokenize(text: string) returns (tokens: seq<string>)
      ensures tokens == Tokenized(entities, func(text), text)
      ensures Step(entities, text, tokens) == tokens
      ensures Join(tokens) == Join(func(text))
      ensures forall t :: t in tokens ==> t in func(text) || (t in entities && Contains(text, t))
    {
      tokens := func(text);
      ghost var keywords := ActiveKeywords(entities, text);
      ghost var n := MaxWindow(keywords);
      while true
        invariant Merged(tokens, keywords, n) == Merged(func(text), keywords, n)
        invariant Join(tokens) == Join(func(text))
        invariant forall t :: t in tokens ==> t in func(text) || t in keywords
        decreases |tokens|
      {
        var newTokens := ReplaceOneWord(text, tokens);
        if newTokens == tokens {
          MergedOfFixedPoint(tokens, keywords, n);
          ActiveKeywordsMembers(entities, text);
          return newTokens;
        }
        MergeOnceJoin(tokens, keywords, n);
        MergeOnceTokens(tokens, keywords, n);
        tokens := newTokens;
      }
    }

    /**
     * One merge step on a copy of `tokenized`: window sizes 2..n outer,
     * positions inner; a window running past the end ends that size; the
     * first window whose join is a keyword is collapsed into its first slot
     * and the rest of it popped.
     */
    method ReplaceOneWord(text: string, tokenized: seq<string>) returns (r: seq<string>)
      ensures r == Step(entities, text, tokenized)
    {
      var copied := tokenized;
      var keywords := ActiveKeywords(entities, text);
      if |keywords| == 0 {
        return tokenized;
      }
      var n := GetNIteration(keywords);
      var i := 2;
      while i <= n
        invariant 2 <= i
        invariant copied == tokenized
        invariant forall i': nat, j': nat :: 2 <= i' < i ==> !IsHit(tokenized, keywords, i', j')
      {
        var j := 0;
        while j < |copied|
          invariant copied == tokenized
          invariant forall j': nat :: j' < j ==> !IsHit(tokenized, keywords, i, j')
        {
          if j + i > |copied| {
            break;
          }
          var combined := Join(copied[j..j + i]);
          if combined in keywords {
            assert IsFirstHit(tokenized, keywords, n, i, j);
            MergeOnceAtFirstHit(tokenized, keywords, n, i, j);
            copied := copied[j := combined];
            SetAsSplice(tokenized, j, combined);
            var popIndex := -1;
            var k := 1;
            while k < i
              invariant 1 <= k <= i
              invariant popIndex == if k == 1 then -1 else j + 1
              invariant copied == tokenized[..j] + [combined] + tokenized[j + k..]
            {
              if popIndex == -1 {
                popIndex := j + k;
              }
              PopAfter(tokenized, j, k, combined);
              copied := copied[..popIndex] + copied[popIndex + 1..];
              k := k + 1;
            }
            return copied;
          }
          ScanPositionMiss(tokenized, keywords, i, j);
          j := j + 1;
        }
        ScanSizeDone(tokenized, keywords, i, j);
        i := i + 1;
      }
      MergeOnceUnchanged(tokenized, keywords, n);
      return copied;
    }

    /**
     * The scan bound for `keywords`: one more than the largest whitespace
     * count among the keywords holding whitespace, 0 when none does.
     */
    method GetNIteration(keywords: seq<string>) returns (n: nat)
      ensures n == MaxWindow(keywords)
    {
      n := 0;
      for p := 0 to |keywords|
        invariant n == MaxWindow(keywords[..p])
      {
        assert keywords[..p + 1][..p] == keywords[..p];
        var spaces := CountWhitespace(keywords[p]);
        if spaces > 0 {
          if spaces + 1 > n {
            n := spaces + 1;
          }
        }
      }
      assert keywords[..|keywords|] == keywords;
    }
  }
}
