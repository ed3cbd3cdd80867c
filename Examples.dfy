/**
 * Worked examples of the tokenizer, proved: the documented usage example,
 * the two unit tests (with the base tokenization written out by hand) and
 * two inputs that show the scan order. Each merge step is its own lemma.
 */
module Examples {
  import opened Text
  import opened Keywords
  import opened MergeStep
  import opened Tokenizer

  /** A join starts with the first character of its first token. */
  lemma JoinHead(xs: seq<string>)
    requires |xs| > 0 && |xs[0]| > 0
    ensures |Join(xs)| > 0 && Join(xs)[0] == xs[0][0]
  {
  }

  /** A window whose first token starts differently from every keyword is no hit. */
  lemma HeadMismatch(tokens: seq<string>, keywords: seq<string>, i: nat, j: nat)
    requires 1 <= i && j < |tokens| && |tokens[j]| > 0
    requires forall w :: w in keywords ==> |w| > 0 && w[0] != tokens[j][0]
    ensures !IsHit(tokens, keywords, i, j)
  {
    if j + i <= |tokens| {
      JoinHead(tokens[j..j + i]);
    }
  }

  lemma Join2(a: string, b: string)
    ensures Join([a, b]) == a + " " + b
  {
    assert [a, b][1..] == [b];
  }

  lemma Join3(a: string, b: string, c: string)
    ensures Join([a, b, c]) == a + " " + b + " " + c
  {
    assert [a, b, c][1..] == [b, c];
    Join2(b, c);
  }

  /** `s` consists of ASCII letters (and the few signs between `Z` and `a`). */
  predicate Letters(s: string) {
    forall k :: 0 <= k < |s| ==> 'A' <= s[k] <= 'z'
  }

  /** Three whitespace-free words joined by single spaces hold two whitespace characters. */
  lemma ThreeWordsWhitespace(a: string, b: string, c: string)
    requires Letters(a) && Letters(b) && Letters(c)
    ensures CountWhitespace(Join([a, b, c])) == 2
  {
    JoinWhitespaceExact([a, b, c]);
  }

  /** Two whitespace-free words joined by a single space hold one whitespace character. */
  lemma TwoWordsWhitespace(a: string, b: string)
    requires Letters(a) && Letters(b)
    ensures CountWhitespace(a + " " + b) == 1
  {
    Join2(a, b);
    JoinWhitespaceExact([a, b]);
  }

  /** The join of the two tokens from `j`. */
  lemma PairWindow(tokens: seq<string>, j: nat)
    requires j + 2 <= |tokens|
    ensures Join(tokens[j..j + 2]) == tokens[j] + " " + tokens[j + 1]
  {
    assert tokens[j..j + 2] == [tokens[j], tokens[j + 1]];
    Join2(tokens[j], tokens[j + 1]);
  }

  /** A hit of two tokens with no two-token hit further left is the step's merge. */
  lemma FirstPairHit(tokens: seq<string>, keywords: seq<string>, n: nat, j: nat)
    requires 2 <= n && IsHit(tokens, keywords, 2, j)
    requires forall j': nat :: j' < j ==> !IsHit(tokens, keywords, 2, j')
    ensures MergeOnce(tokens, keywords, n) == Splice(tokens, 2, j)
  {
    assert IsFirstHit(tokens, keywords, n, 2, j);
    MergeOnceAtFirstHit(tokens, keywords, n, 2, j);
  }

  /** Collapsing the two tokens from `j`. */
  lemma SplicePair(tokens: seq<string>, j: nat)
    requires j + 2 <= |tokens|
    ensures Splice(tokens, 2, j) == tokens[..j] + [tokens[j] + " " + tokens[j + 1]] + tokens[j + 2..]
  {
    PairWindow(tokens, j);
  }

  /** Two merges in a row, then a fixed point. */
  lemma MergedTwice(t0: seq<string>, t1: seq<string>, t2: seq<string>, keywords: seq<string>, n: nat)
    requires MergeOnce(t0, keywords, n) == t1 != t0
    requires MergeOnce(t1, keywords, n) == t2 != t1
    requires MergeOnce(t2, keywords, n) == t2
    ensures Merged(t0, keywords, n) == t2
  {
    assert Merged(t1, keywords, n) == Merged(t2, keywords, n);
  }

  /**
   * The two three-word entities of the unit tests, written as the join of
   * their words (the same strings).
   */
  const PythonLanguage: string := Join(["Python", "programming", "language"])
  const GuidoVanRossum: string := Join(["Guido", "van", "Rossum"])

  /** The entity list of the unit tests. */
  const TestEntities: seq<string> := [
    "New York", "San Francisco", "New Orleans",
    PythonLanguage, GuidoVanRossum,
    "Python Software Foundation"
  ]

  // ---------------------------------------------------------------------------
  // First unit test and usage example (same text).

  const Text1: string := "A Python event was held in New York."
  const Base1: seq<string> := ["A", "Python", "event", "was", "held", "in", "New", "York", "."]
  const Out1: seq<string> := ["A", "Python", "event", "was", "held", "in", "New York", "."]

  lemma Text1Avoids()
    ensures forall k :: 0 <= k < |Text1| ==> Text1[k] !in "FOgGS"
  {
  }

  lemma Text1Misses()
    ensures !Contains(Text1, "San Francisco")
    ensures !Contains(Text1, "New Orleans")
    ensures !Contains(Text1, "Python Software Foundation")
  {
    Text1Avoids();
    AvoidedCharNotContained(Text1, "San Francisco", 4, "FOgGS");
    AvoidedCharNotContained(Text1, "New Orleans", 4, "FOgGS");
    AvoidedCharNotContained(Text1, "Python Software Foundation", 7, "FOgGS");
  }

  lemma Text1MissesPythonLanguage()
    ensures !Contains(Text1, PythonLanguage)
  {
    Join3("Python", "programming", "language");
    Text1Avoids();
    AvoidedCharNotContained(Text1, PythonLanguage, 10, "FOgGS");
  }

  lemma Text1MissesGuidoVanRossum()
    ensures !Contains(Text1, GuidoVanRossum)
  {
    Join3("Guido", "van", "Rossum");
    Text1Avoids();
    AvoidedCharNotContained(Text1, GuidoVanRossum, 0, "FOgGS");
  }

  /** Of the test entities only "New York" occurs in the first text. */
  lemma Text1Keywords()
    ensures ActiveKeywords(TestEntities, Text1) == ["New York"]
  {
    assert OccursAt(Text1, "New York", 27);
    Text1Misses();
    Text1MissesPythonLanguage();
    Text1MissesGuidoVanRossum();
    assert ActiveKeywords(TestEntities[5..], Text1) == [];
    assert ActiveKeywords(TestEntities[4..], Text1) == [];
    assert ActiveKeywords(TestEntities[3..], Text1) == [];
    assert ActiveKeywords(TestEntities[2..], Text1) == [];
    assert ActiveKeywords(TestEntities[1..], Text1) == [];
  }

  lemma Test1FirstHit()
    ensures IsFirstHit(Base1, ["New York"], 2, 2, 6)
  {
    var kw := ["New York"];
    forall j: nat | j < 6
      ensures !IsHit(Base1, kw, 2, j)
    {
      HeadMismatch(Base1, kw, 2, j);
    }
    assert Base1[6..8] == ["New", "York"];
    assert Join(["New", "York"]) == "New York";
  }

  lemma Test1Merge()
    ensures MergeOnce(Base1, ["New York"], 2) == Out1
  {
    Test1FirstHit();
    MergeOnceAtFirstHit(Base1, ["New York"], 2, 2, 6);
    assert Splice(Base1, 2, 6) == Out1;
  }

  lemma Test1Fixed()
    ensures MergeOnce(Out1, ["New York"], 2) == Out1
  {
    var kw := ["New York"];
    forall i: nat, j: nat | 2 <= i <= 2
      ensures !IsHit(Out1, kw, i, j)
    {
      if j == 6 {
        assert Out1[6..8] == ["New York", "."];
        assert Join(["New York", "."]) == "New York .";
      } else if j < |Out1| {
        HeadMismatch(Out1, kw, i, j);
      }
    }
    MergeOnceUnchanged(Out1, kw, 2);
  }

  /** The first unit test: "New York" becomes one token. */
  lemma Test1()
    ensures Tokenized(TestEntities, Base1, Text1) == Out1
  {
    Text1Keywords();
    Keywords1Window();
    Test1Merged();
  }

  lemma Keywords1Window()
    ensures MaxWindow(["New York"]) == 2
  {
    assert CountWhitespace("New York") == 1;
  }

  lemma Test1Merged()
    ensures Merged(Base1, ["New York"], 2) == Out1
  {
    Test1Merge();
    Test1Fixed();
    assert Merged(Out1, ["New York"], 2) == Out1;
  }

  /** The entity list of the usage example. */
  const DocEntities: seq<string> := ["New York", "San Francisco", "New Orleans"]

  lemma DocKeywords()
    ensures ActiveKeywords(DocEntities, Text1) == ["New York"]
  {
    assert OccursAt(Text1, "New York", 27);
    Text1Misses();
    assert ActiveKeywords(DocEntities[2..], Text1) == [];
    assert ActiveKeywords(DocEntities[1..], Text1) == [];
  }

  /** The usage example: with three city entities, "New York" becomes one token. */
  lemma DocExample()
    ensures Tokenized(DocEntities, Base1, Text1) == Out1
  {
    DocKeywords();
    Keywords1Window();
    Test1Merged();
  }

  // ---------------------------------------------------------------------------
  // Second unit test: a three-word entity at the start and one near the end.

  const Text2a: string := "Python programming language"
  const Text2b: string := " is an awesome "
  const Text2c: string := "language, created by Guido van Rossum."
  const Text2: string := Text2a + Text2b + Text2c
  const Base2: seq<string> := [
    "Python", "programming", "language", "is", "an", "awesome", "language", ",",
    "created", "by", "Guido", "van", "Rossum", "."
  ]
  const Keywords2: seq<string> := [PythonLanguage, GuidoVanRossum]
  const Mid2: seq<string> := [
    PythonLanguage, "is", "an", "awesome", "language", ",",
    "created", "by", "Guido", "van", "Rossum", "."
  ]
  const Out2: seq<string> := [
    PythonLanguage, "is", "an", "awesome", "language", ",",
    "created", "by", GuidoVanRossum, "."
  ]

  lemma Text2Avoids()
    ensures forall k :: 0 <= k < |Text2| ==> Text2[k] !in "NSY"
  {
    assert forall k :: 0 <= k < |Text2a| ==> Text2a[k] !in "NSY";
    assert forall k :: 0 <= k < |Text2b| ==> Text2b[k] !in "NSY";
    assert forall k :: 0 <= k < |Text2c| ==> Text2c[k] !in "NSY";
  }

  lemma Text2HasPythonLanguage()
    ensures Contains(Text2, PythonLanguage)
  {
    Join3("Python", "programming", "language");
    assert Text2[0..27] == Text2a;
    assert OccursAt(Text2, PythonLanguage, 0);
  }

  lemma Text2HasGuidoVanRossum()
    ensures Contains(Text2, GuidoVanRossum)
  {
    Join3("Guido", "van", "Rossum");
    assert Text2[63..79] == Text2c[21..37];
    assert OccursAt(Text2, GuidoVanRossum, 63);
  }

  lemma Text2Misses()
    ensures !Contains(Text2, "New York")
    ensures !Contains(Text2, "San Francisco")
    ensures !Contains(Text2, "New Orleans")
    ensures !Contains(Text2, "Python Software Foundation")
  {
    Text2Avoids();
    AvoidedCharNotContained(Text2, "New York", 0, "NSY");
    AvoidedCharNotContained(Text2, "San Francisco", 0, "NSY");
    AvoidedCharNotContained(Text2, "New Orleans", 0, "NSY");
    AvoidedCharNotContained(Text2, "Python Software Foundation", 7, "NSY");
  }

  /** Of the test entities the two three-word ones occur in the second text. */
  lemma Text2Keywords()
    ensures ActiveKeywords(TestEntities, Text2) == Keywords2
  {
    Text2HasPythonLanguage();
    Text2HasGuidoVanRossum();
    Text2Misses();
    assert ActiveKeywords(TestEntities[5..], Text2) == [];
    assert ActiveKeywords(TestEntities[4..], Text2) == [GuidoVanRossum];
    assert ActiveKeywords(TestEntities[3..], Text2) == Keywords2;
    assert ActiveKeywords(TestEntities[2..], Text2) == Keywords2;
    assert ActiveKeywords(TestEntities[1..], Text2) == Keywords2;
  }

  lemma Base2Windows()
    ensures Join(Base2[0..2]) == "Python programming"
    ensures Join(Base2[0..3]) == PythonLanguage
    ensures Join(Base2[10..12]) == "Guido van"
  {
    assert Base2[0..2] == ["Python", "programming"];
    Join2("Python", "programming");
    assert Base2[0..3] == ["Python", "programming", "language"];
    Join3("Python", "programming", "language");
    assert Base2[10..12] == ["Guido", "van"];
    Join2("Guido", "van");
  }

  lemma Mid2PairAt0()
    ensures Join(Mid2[0..2]) == PythonLanguage + " is"
  {
    assert Mid2[0..2] == [PythonLanguage, "is"];
    Join2(PythonLanguage, "is");
  }

  lemma Mid2TripleAt0()
    ensures Join(Mid2[0..3]) == PythonLanguage + " is an"
  {
    assert Mid2[0..3] == [PythonLanguage, "is", "an"];
    Join3(PythonLanguage, "is", "an");
  }

  lemma Mid2PairAt8()
    ensures Join(Mid2[8..10]) == "Guido van"
  {
    assert Mid2[8..10] == ["Guido", "van"];
    Join2("Guido", "van");
  }

  lemma Mid2TripleAt8()
    ensures Join(Mid2[8..11]) == GuidoVanRossum
  {
    assert Mid2[8..11] == ["Guido", "van", "Rossum"];
  }

  lemma Out2PairAt0()
    ensures Join(Out2[0..2]) == PythonLanguage + " is"
  {
    assert Out2[0..2] == [PythonLanguage, "is"];
    Join2(PythonLanguage, "is");
  }

  lemma Out2TripleAt0()
    ensures Join(Out2[0..3]) == PythonLanguage + " is an"
  {
    assert Out2[0..3] == [PythonLanguage, "is", "an"];
    Join3(PythonLanguage, "is", "an");
  }

  lemma Out2PairAt8()
    ensures Join(Out2[8..10]) == GuidoVanRossum + " ."
  {
    assert Out2[8..10] == [GuidoVanRossum, "."];
    Join2(GuidoVanRossum, ".");
  }

  lemma Test2FirstHit()
    ensures IsFirstHit(Base2, Keywords2, 3, 3, 0)
  {
    var kw := Keywords2;
    Base2Windows();
    forall i: nat, j: nat | 2 <= i < 3
      ensures !IsHit(Base2, kw, i, j)
    {
      if j != 0 && j != 10 && j < |Base2| {
        HeadMismatch(Base2, kw, i, j);
      }
    }
  }

  lemma Test2FirstMerge()
    ensures MergeOnce(Base2, Keywords2, 3) == Mid2
  {
    Test2FirstHit();
    MergeOnceAtFirstHit(Base2, Keywords2, 3, 3, 0);
    assert Splice(Base2, 3, 0) == Mid2;
  }

  lemma Test2SecondHit()
    ensures IsFirstHit(Mid2, Keywords2, 3, 3, 8)
  {
    var kw := Keywords2;
    Mid2PairAt0();
    Mid2TripleAt0();
    Mid2PairAt8();
    Mid2TripleAt8();
    forall i: nat, j: nat | 2 <= i < 3
      ensures !IsHit(Mid2, kw, i, j)
    {
      if j != 0 && j != 8 && j < |Mid2| {
        HeadMismatch(Mid2, kw, i, j);
      }
    }
    forall j: nat | j < 8
      ensures !IsHit(Mid2, kw, 3, j)
    {
      if j != 0 {
        HeadMismatch(Mid2, kw, 3, j);
      }
    }
  }

  lemma Test2SecondMerge()
    ensures MergeOnce(Mid2, Keywords2, 3) == Out2
  {
    Test2SecondHit();
    MergeOnceAtFirstHit(Mid2, Keywords2, 3, 3, 8);
    assert Splice(Mid2, 3, 8) == Out2;
  }

  lemma Test2Fixed()
    ensures MergeOnce(Out2, Keywords2, 3) == Out2
  {
    var kw := Keywords2;
    Out2PairAt0();
    Out2TripleAt0();
    Out2PairAt8();
    forall i: nat, j: nat | 2 <= i <= 3
      ensures !IsHit(Out2, kw, i, j)
    {
      if j != 0 && j != 8 && j < |Out2| {
        HeadMismatch(Out2, kw, i, j);
      }
    }
    MergeOnceUnchanged(Out2, kw, 3);
  }

  /**
   * The second unit test: "Python programming language" and "Guido van
   * Rossum" each become one token, in two merges.
   */
  lemma Test2()
    ensures Tokenized(TestEntities, Base2, Text2) == Out2
  {
    Text2Keywords();
    Keywords2Window();
    Test2Merged();
  }

  lemma PythonLanguageWhitespace()
    ensures CountWhitespace(PythonLanguage) == 2
  {
    ThreeWordsWhitespace("Python", "programming", "language");
  }

  lemma GuidoVanRossumWhitespace()
    ensures CountWhitespace(GuidoVanRossum) == 2
  {
    ThreeWordsWhitespace("Guido", "van", "Rossum");
  }

  /**
   * Two keywords with at most two whitespace characters each, one of them
   * with exactly two, give a window bound of three.
   */
  lemma TwoKeywordsWindow(a: string, b: string)
    requires CountWhitespace(a) <= 2 && CountWhitespace(b) <= 2
    requires CountWhitespace(a) == 2 || CountWhitespace(b) == 2
    ensures MaxWindow([a, b]) == 3
  {
    assert [a, b][..1] == [a];
    assert MaxWindow([a]) <= 3;
  }

  lemma Keywords2Window()
    ensures MaxWindow(Keywords2) == 3
  {
    PythonLanguageWhitespace();
    GuidoVanRossumWhitespace();
    TwoKeywordsWindow(PythonLanguage, GuidoVanRossum);
  }

  lemma Test2Merged()
    ensures MergeOnce(Base2, Keywords2, 3) == Mid2
    ensures MergeOnce(Mid2, Keywords2, 3) == Out2
    ensures Merged(Base2, Keywords2, 3) == Out2
  {
    Test2FirstMerge();
    Test2SecondMerge();
    Test2Fixed();
    MergedTwice(Base2, Mid2, Out2, Keywords2, 3);
  }

  // ---------------------------------------------------------------------------
  // Scan order: every position with two tokens before any with three.

  const CityKeywords: seq<string> := ["New York City", "City Hall"]
  const CityTokens: seq<string> := ["New", "York", "City", "Hall"]
  const CityOut: seq<string> := ["New", "York", "City Hall"]
  const CityText: string := "New York City Hall"

  lemma CityKeywordsActive()
    ensures ActiveKeywords(CityKeywords, CityText) == CityKeywords
  {
    assert OccursAt(CityText, CityKeywords[0], 0);
    assert OccursAt(CityText, CityKeywords[1], 9);
    assert ActiveKeywords(CityKeywords[1..], CityText) == [CityKeywords[1]];
  }

  lemma NewYorkCityWhitespace()
    ensures CountWhitespace("New York City") == 2
  {
    ThreeWordsWhitespace("New", "York", "City");
    Join3("New", "York", "City");
    assert "New" + " " + "York" + " " + "City" == "New York City";
  }

  lemma CityHallWhitespace()
    ensures CountWhitespace("City Hall") == 1
  {
    TwoWordsWhitespace("City", "Hall");
    assert "City" + " " + "Hall" == "City Hall";
  }

  lemma CityWindow()
    ensures MaxWindow(CityKeywords) == 3
  {
    NewYorkCityWhitespace();
    CityHallWhitespace();
    TwoKeywordsWindow(CityKeywords[0], CityKeywords[1]);
  }

  lemma CityNoPairBefore()
    ensures forall j: nat :: j < 2 ==> !IsHit(CityTokens, CityKeywords, 2, j)
  {
    PairWindow(CityTokens, 0);
    HeadMismatch(CityTokens, CityKeywords, 2, 1);
  }

  lemma CityPairHit()
    ensures IsHit(CityTokens, CityKeywords, 2, 2)
  {
    PairWindow(CityTokens, 2);
    assert "City" + " " + "Hall" == CityKeywords[1];
  }

  lemma CityMerge()
    ensures MergeOnce(CityTokens, CityKeywords, 3) == CityOut
  {
    CityNoPairBefore();
    CityPairHit();
    FirstPairHit(CityTokens, CityKeywords, 3, 2);
    SplicePair(CityTokens, 2);
  }

  lemma CityFixed()
    ensures MergeOnce(CityOut, CityKeywords, 3) == CityOut
  {
    var kw := CityKeywords;
    PairWindow(CityOut, 0);
    assert CityOut[0..3] == ["New", "York", "City Hall"];
    Join3("New", "York", "City Hall");
    forall i: nat, j: nat | 2 <= i <= 3
      ensures !IsHit(CityOut, kw, i, j)
    {
      if j == 1 {
        HeadMismatch(CityOut, kw, i, j);
      }
    }
    MergeOnceUnchanged(CityOut, kw, 3);
  }

  /**
   * Tokenizing "New York City Hall" with entities "New York City" and
   * "City Hall": both occur, so the bound is three. The two-token window
   * "City Hall" is met before the three-token window "New York City" that
   * starts further left, and once "City Hall" is one token "New York City"
   * can no longer form.
   */
  lemma CityOrder()
    ensures Tokenized(CityKeywords, CityTokens, CityText) == CityOut
  {
    CityKeywordsActive();
    CityWindow();
    CityMerge();
    CityFixed();
    assert Merged(CityOut, CityKeywords, 3) == CityOut;
  }

  // ---------------------------------------------------------------------------
  // A merged token holds spaces and can be merged again with its neighbours.

  const NestedKeywords: seq<string> := ["New York", "New York City"]
  const NestedTokens: seq<string> := ["I", "love", "New", "York", "City"]
  const NestedMid: seq<string> := ["I", "love", "New York", "City"]
  const NestedOut: seq<string> := ["I", "love", "New York City"]
  const NestedText: string := "I love New York City"

  lemma NestedKeywordsActive()
    ensures ActiveKeywords(NestedKeywords, NestedText) == NestedKeywords
  {
    assert OccursAt(NestedText, NestedKeywords[0], 7);
    assert OccursAt(NestedText, NestedKeywords[1], 7);
    assert ActiveKeywords(NestedKeywords[1..], NestedText) == [NestedKeywords[1]];
  }

  lemma NestedWindow()
    ensures MaxWindow(NestedKeywords) == 3
  {
    assert CountWhitespace("New York") == 1;
    NewYorkCityWhitespace();
    TwoKeywordsWindow(NestedKeywords[0], NestedKeywords[1]);
  }

  lemma NestedFirstHit()
    ensures forall j: nat :: j < 2 ==> !IsHit(NestedTokens, NestedKeywords, 2, j)
    ensures IsHit(NestedTokens, NestedKeywords, 2, 2)
  {
    HeadMismatch(NestedTokens, NestedKeywords, 2, 0);
    HeadMismatch(NestedTokens, NestedKeywords, 2, 1);
    PairWindow(NestedTokens, 2);
    assert "New" + " " + "York" == NestedKeywords[0];
  }

  lemma NestedFirstMerge()
    ensures MergeOnce(NestedTokens, NestedKeywords, 3) == NestedMid
  {
    NestedFirstHit();
    FirstPairHit(NestedTokens, NestedKeywords, 3, 2);
    SplicePair(NestedTokens, 2);
  }

  lemma NestedSecondHit()
    ensures forall j: nat :: j < 2 ==> !IsHit(NestedMid, NestedKeywords, 2, j)
    ensures IsHit(NestedMid, NestedKeywords, 2, 2)
  {
    HeadMismatch(NestedMid, NestedKeywords, 2, 0);
    HeadMismatch(NestedMid, NestedKeywords, 2, 1);
    PairWindow(NestedMid, 2);
    assert "New York" + " " + "City" == NestedKeywords[1];
  }

  lemma NestedSecondMerge()
    ensures MergeOnce(NestedMid, NestedKeywords, 3) == NestedOut
  {
    NestedSecondHit();
    FirstPairHit(NestedMid, NestedKeywords, 3, 2);
    SplicePair(NestedMid, 2);
  }

  lemma NestedFixed()
    ensures MergeOnce(NestedOut, NestedKeywords, 3) == NestedOut
  {
    var kw := NestedKeywords;
    forall i: nat, j: nat | 2 <= i <= 3
      ensures !IsHit(NestedOut, kw, i, j)
    {
      if j < 2 {
        HeadMismatch(NestedOut, kw, i, j);
      }
    }
    MergeOnceUnchanged(NestedOut, kw, 3);
  }

  /**
   * Tokenizing "I love New York City" with entities "New York" and
   * "New York City": both occur, so the bound is three. The first step
   * merges "New York" and the second merges that token with "City".
   */
  lemma NestedMerge()
    ensures Step(NestedKeywords, NestedText, NestedTokens) == NestedMid
    ensures Step(NestedKeywords, NestedText, NestedMid) == NestedOut
    ensures Tokenized(NestedKeywords, NestedTokens, NestedText) == NestedOut
  {
    NestedKeywordsActive();
    NestedWindow();
    NestedFirstMerge();
    NestedSecondMerge();
    NestedFixed();
    MergedTwice(NestedTokens, NestedMid, NestedOut, NestedKeywords, 3);
  }
}
