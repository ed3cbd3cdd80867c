/**
 * The keyword side of the tokenizer: which configured entities are active
 * for a text, and how many tokens the longest of them can span.
 */
module Keywords {
  import opened Text

  /**
   * `[word for word in entities if word in text]`: the entities occurring in
   * `text`, in their configured order, duplicates kept.
   */
  function ActiveKeywords(entities: seq<string>, text: string): (r: seq<string>)
    ensures |r| <= |entities|
  {
    if |entities| == 0 then []
    else
      (if Contains(text, entities[0]) then [entities[0]] else [])
      + ActiveKeywords(entities[1..], text)
  }

  /** The active keywords are exactly the entities occurring in `text`. */
  lemma {:induction false} ActiveKeywordsMembers(entities: seq<string>, text: string)
    ensures forall w :: w in ActiveKeywords(entities, text) <==> w in entities && Contains(text, w)
  {
    if |entities| > 0 {
      ActiveKeywordsMembers(entities[1..], text);
      assert entities == [entities[0]] + entities[1..];
    }
  }

  /**
   * The window bound of the merge scan: the largest whitespace count plus one
   * over the keywords holding whitespace, and 0 when none does. Written over
   * the prefix so that it follows the left-to-right accumulation.
   */
  function MaxWindow(keywords: seq<string>): (r: nat)
    ensures r == 0 || r >= 2
  {
    if |keywords| == 0 then 0
    else
      var m := MaxWindow(keywords[..|keywords| - 1]);
      var spaces := CountWhitespace(keywords[|keywords| - 1]);
      if spaces > 0 && spaces + 1 > m then spaces + 1 else m
  }

  /**
   * `MaxWindow` is 0 exactly when no keyword holds whitespace; otherwise it
   * is the largest whitespace count plus one, attained by some keyword.
   */
  lemma {:induction false} MaxWindowSpec(keywords: seq<string>)
    ensures MaxWindow(keywords) == 0 <==>
            forall p :: 0 <= p < |keywords| ==> CountWhitespace(keywords[p]) == 0
    ensures forall p :: 0 <= p < |keywords| && CountWhitespace(keywords[p]) > 0 ==>
              CountWhitespace(keywords[p]) + 1 <= MaxWindow(keywords)
    ensures MaxWindow(keywords) > 0 ==>
            exists p :: 0 <= p < |keywords| && CountWhitespace(keywords[p]) + 1 == MaxWindow(keywords)
  {
    if |keywords| > 0 {
      var init := keywords[..|keywords| - 1];
      MaxWindowSpec(init);
      assert forall p :: 0 <= p < |init| ==> init[p] == keywords[p];
    }
  }

  /** With no entity occurring in the text, there is no active keyword. */
  lemma NoActiveKeywords(entities: seq<string>, text: string)
    requires forall w :: w in entities ==> !Contains(text, w)
    ensures ActiveKeywords(entities, text) == []
  {
    ActiveKeywordsMembers(entities, text);
  }
}
