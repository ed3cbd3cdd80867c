/**
 * One merge step: the scan that tries window sizes 2..n (outer) and start
 * positions left to right (inner), and collapses the first window whose
 * single-space join is a keyword into one token.
 */
module MergeStep {
  import opened Text
  import opened Keywords

  datatype Option<T> = None | Some(value: T)

  /** The window of `i` tokens starting at `j` lies inside `tokens` and its join is a keyword. */
  predicate IsHit(tokens: seq<string>, keywords: seq<string>, i: nat, j: nat) {
    j + i <= |tokens| && Join(tokens[j..j + i]) in keywords
  }

  /**
   * `(i, j)` is the hit the scan meets first: no hit with a smaller window
   * size anywhere, and none with the same size further left.
   */
  ghost predicate IsFirstHit(tokens: seq<string>, keywords: seq<string>, n: nat, i: nat, j: nat) {
    2 <= i <= n && IsHit(tokens, keywords, i, j) &&
    (forall i': nat, j': nat :: 2 <= i' < i ==> !IsHit(tokens, keywords, i', j')) &&
    (forall j': nat :: j' < j ==> !IsHit(tokens, keywords, i, j'))
  }

  /** The inner scan: the leftmost hit of window size `i` at a position from `j` on. */
  function FindPos(tokens: seq<string>, keywords: seq<string>, i: nat, j: nat): (r: Option<nat>)
    ensures r.Some? ==> j <= r.value && IsHit(tokens, keywords, i, r.value)
    ensures r.Some? ==> forall j': nat :: j <= j' < r.value ==> !IsHit(tokens, keywords, i, j')
    ensures r.None? ==> forall j': nat :: j <= j' ==> !IsHit(tokens, keywords, i, j')
    decreases |tokens| + 1 - j
  {
    if j + i > |tokens| then None
    else if Join(tokens[j..j + i]) in keywords then Some(j)
    else FindPos(tokens, keywords, i, j + 1)
  }

  /** The outer scan: the first hit over window sizes `i..n`, as `(size, position)`. */
  function FindWindow(tokens: seq<string>, keywords: seq<string>, i: nat, n: nat): (r: Option<(nat, nat)>)
    ensures r.Some? ==> i <= r.value.0 <= n && IsHit(tokens, keywords, r.value.0, r.value.1)
    ensures r.Some? ==> forall i': nat, j': nat :: i <= i' < r.value.0 ==> !IsHit(tokens, keywords, i', j')
    ensures r.Some? ==> forall j': nat :: j' < r.value.1 ==> !IsHit(tokens, keywords, r.value.0, j')
    ensures r.None? ==> forall i': nat, j': nat :: i <= i' <= n ==> !IsHit(tokens, keywords, i', j')
    decreases n + 1 - i
  {
    if i > n then None
    else match FindPos(tokens, keywords, i, 0)
      case Some(j) => Some((i, j))
      case None => FindWindow(tokens, keywords, i + 1, n)
  }

  /** The inner scan moves past a position whose window is no hit. */
  lemma ScanPositionMiss(tokens: seq<string>, keywords: seq<string>, i: nat, j: nat)
    requires j + i <= |tokens| && Join(tokens[j..j + i]) !in keywords
    requires forall j': nat :: j' < j ==> !IsHit(tokens, keywords, i, j')
    ensures forall j': nat :: j' < j + 1 ==> !IsHit(tokens, keywords, i, j')
  {
  }

  /**
   * The inner scan ends for size `i` once the window from `j` runs past the
   * end: then no position holds a hit of that size.
   */
  lemma ScanSizeDone(tokens: seq<string>, keywords: seq<string>, i: nat, j: nat)
    requires j + i > |tokens|
    requires forall j': nat :: j' < j ==> !IsHit(tokens, keywords, i, j')
    requires forall i': nat, j': nat :: 2 <= i' < i ==> !IsHit(tokens, keywords, i', j')
    ensures forall i': nat, j': nat :: 2 <= i' < i + 1 ==> !IsHit(tokens, keywords, i', j')
  {
  }

  /**
   * `tokens` with the `i` tokens from `j` on replaced by their join. The
   * tokens around the window stay in place.
   */
  function Splice(tokens: seq<string>, i: nat, j: nat): (r: seq<string>)
    requires j + i <= |tokens|
    ensures |r| == |tokens| - i + 1
    ensures forall k :: 0 <= k < j ==> r[k] == tokens[k]
    ensures forall k :: j < k < |r| ==> r[k] == tokens[k + i - 1]
    ensures r[j] == Join(tokens[j..j + i])
  {
    tokens[..j] + [Join(tokens[j..j + i])] + tokens[j + i..]
  }

  /**
   * One merge step over window sizes up to `n`: the first hit collapsed, or
   * `tokens` itself when there is none. A change always shortens the list.
   */
  function MergeOnce(tokens: seq<string>, keywords: seq<string>, n: nat): (r: seq<string>)
    ensures r == tokens || |r| < |tokens|
    ensures |r| == 0 <==> |tokens| == 0
  {
    match FindWindow(tokens, keywords, 2, n)
    case None => tokens
    case Some((i, j)) => Splice(tokens, i, j)
  }

  /** The step leaves the list unchanged exactly when no window of size 2..n is a hit. */
  lemma MergeOnceUnchanged(tokens: seq<string>, keywords: seq<string>, n: nat)
    ensures MergeOnce(tokens, keywords, n) == tokens <==>
            forall i: nat, j: nat :: 2 <= i <= n ==> !IsHit(tokens, keywords, i, j)
  {
    match FindWindow(tokens, keywords, 2, n)
    case None =>
    case Some((i, j)) =>
      assert |Splice(tokens, i, j)| < |tokens|;
  }

  /** Whenever some window is a hit, there is a first one in scan order. */
  lemma FirstHitExists(tokens: seq<string>, keywords: seq<string>, n: nat, i: nat, j: nat)
    requires 2 <= i <= n && IsHit(tokens, keywords, i, j)
    ensures exists i': nat, j': nat :: IsFirstHit(tokens, keywords, n, i', j')
  {
    match FindWindow(tokens, keywords, 2, n)
    case None =>
      assert false;
    case Some((i', j')) =>
      assert IsFirstHit(tokens, keywords, n, i', j');
  }

  /** The scan order is total: there is at most one first hit. */
  lemma FirstHitUnique(tokens: seq<string>, keywords: seq<string>, n: nat, i: nat, j: nat, i': nat, j': nat)
    requires IsFirstHit(tokens, keywords, n, i, j) && IsFirstHit(tokens, keywords, n, i', j')
    ensures i == i' && j == j'
  {
  }

  /** At the first hit `(i, j)` the step is the splice of that window. */
  lemma MergeOnceAtFirstHit(tokens: seq<string>, keywords: seq<string>, n: nat, i: nat, j: nat)
    requires IsFirstHit(tokens, keywords, n, i, j)
    ensures MergeOnce(tokens, keywords, n) == Splice(tokens, i, j)
  {
    match FindWindow(tokens, keywords, 2, n)
    case None =>
      assert false;
    case Some((i', j')) =>
      FirstHitUnique(tokens, keywords, n, i, j, i', j');
  }

  /**
   * At the first hit `(i, j)` the step replaces the window by its join and
   * keeps every token before and after it: the length drops by `i - 1`.
   */
  lemma MergeOnceFirstHit(tokens: seq<string>, keywords: seq<string>, n: nat, i: nat, j: nat)
    requires IsFirstHit(tokens, keywords, n, i, j)
    ensures var r := MergeOnce(tokens, keywords, n);
            |r| == |tokens| - (i - 1) &&
            r[..j] == tokens[..j] &&
            r[j] == Join(tokens[j..j + i]) && r[j] in keywords &&
            r[j + 1..] == tokens[j + i..]
  {
    MergeOnceAtFirstHit(tokens, keywords, n, i, j);
    var r := Splice(tokens, i, j);
    assert r[..j] == tokens[..j];
    assert r[j + 1..] == tokens[j + i..];
  }

  /**
   * When the step changes the list, it has collapsed the first hit in scan
   * order: some `(i, j)` with `2 <= i <= n` that is the first hit.
   */
  lemma MergeOnceChanged(tokens: seq<string>, keywords: seq<string>, n: nat)
    requires MergeOnce(tokens, keywords, n) != tokens
    ensures exists i: nat, j: nat :: IsFirstHit(tokens, keywords, n, i, j) &&
              j + i <= |tokens| && MergeOnce(tokens, keywords, n) == Splice(tokens, i, j)
  {
    match FindWindow(tokens, keywords, 2, n)
    case None =>
    case Some((i, j)) =>
      assert IsFirstHit(tokens, keywords, n, i, j);
  }

  /** A merge never changes the single-space join of the whole list. */
  lemma MergeOnceJoin(tokens: seq<string>, keywords: seq<string>, n: nat)
    ensures Join(MergeOnce(tokens, keywords, n)) == Join(tokens)
  {
    match FindWindow(tokens, keywords, 2, n)
    case None =>
    case Some((i, j)) =>
      JoinCollapse(tokens[..j], tokens[j..j + i], tokens[j + i..]);
      assert tokens[..j] + tokens[j..j + i] + tokens[j + i..] == tokens;
  }

  /** Every token after a merge was already a token, or is a keyword. */
  lemma MergeOnceTokens(tokens: seq<string>, keywords: seq<string>, n: nat)
    ensures forall t :: t in MergeOnce(tokens, keywords, n) ==> t in tokens || t in keywords
  {
    match FindWindow(tokens, keywords, 2, n)
    case None =>
    case Some((i, j)) =>
      forall t | t in Splice(tokens, i, j)
        ensures t in tokens || t in keywords
      {
        if t in tokens[..j] {
        } else if t in tokens[j + i..] {
        }
      }
  }

  /**
   * No keyword can match a window longer than `MaxWindow(keywords)`: a join
   * of `i` tokens holds at least `i - 1` spaces. So bounding the scan by
   * `MaxWindow` never misses a merge.
   */
  lemma WindowBound(tokens: seq<string>, keywords: seq<string>, i: nat, j: nat)
    requires 2 <= i && IsHit(tokens, keywords, i, j)
    ensures i <= MaxWindow(keywords)
  {
    var w := Join(tokens[j..j + i]);
    JoinWhitespace(tokens[j..j + i]);
    var p :| 0 <= p < |keywords| && keywords[p] == w;
    MaxWindowSpec(keywords);
    assert CountWhitespace(keywords[p]) > 0;
  }

  /**
   * Bounded by `MaxWindow`, the step changes nothing exactly when no window
   * of two or more tokens, of any size, joins to a keyword.
   */
  lemma MergeOnceUnchangedAnyWindow(tokens: seq<string>, keywords: seq<string>)
    ensures MergeOnce(tokens, keywords, MaxWindow(keywords)) == tokens <==>
            forall i: nat, j: nat :: 2 <= i ==> !IsHit(tokens, keywords, i, j)
  {
    var n := MaxWindow(keywords);
    MergeOnceUnchanged(tokens, keywords, n);
    if MergeOnce(tokens, keywords, n) != tokens {
      var i: nat, j: nat :| 2 <= i <= n && IsHit(tokens, keywords, i, j);
    } else {
      forall i: nat, j: nat | 2 <= i
        ensures !IsHit(tokens, keywords, i, j)
      {
        if IsHit(tokens, keywords, i, j) {
          WindowBound(tokens, keywords, i, j);
        }
      }
    }
  }

  /** Any scan bound at or above `MaxWindow` yields the same step. */
  lemma MergeOnceWindowSufficient(tokens: seq<string>, keywords: seq<string>, m: nat)
    requires m >= MaxWindow(keywords)
    ensures MergeOnce(tokens, keywords, m) == MergeOnce(tokens, keywords, MaxWindow(keywords))
  {
    var n := MaxWindow(keywords);
    match FindWindow(tokens, keywords, 2, m)
    case None =>
      assert FindWindow(tokens, keywords, 2, n).None?;
    case Some((i, j)) =>
      WindowBound(tokens, keywords, i, j);
      assert IsFirstHit(tokens, keywords, m, i, j);
      match FindWindow(tokens, keywords, 2, n)
      case None =>
        assert false;
      case Some((i', j')) =>
        FirstHitUnique(tokens, keywords, m, i, j, i', j');
  }
}
