# Multi-word tokenization, modelled in Dafny

`MultiWordTokenizer` wraps a caller-supplied base tokenizer and a list of
multi-word entities ("New York", "Guido van Rossum", ...). `tokenize(text)`
first runs the base tokenizer on `text`. It then merges runs of consecutive
tokens whose single-space join is an entity. It makes one merge at a time and
stops when a step changes nothing.

The merge step (`__replace_one_word`) works like this:
- It keeps the entities that occur in `text` as substrings. These are the
  keywords.
- It bounds the window size by `__get_n_iteration`: one more than the largest
  whitespace count of a keyword that holds whitespace, and 0 when none does.
- It scans window sizes `i = 2..n` in the outer loop and start positions `j`
  in the inner loop. A window that runs past the end of the list ends the scan
  for that size.
- At the first window whose join is a keyword, it writes the join into
  position `j`, pops the other `i - 1` tokens and returns.

The project has these files:
- `Text.dfy`: the string primitives. These are the `\s` whitespace class,
  substring containment (`word in text`) and `' '.join`.
- `Keywords.dfy`: the keyword filter and the window bound, as functions with
  their characterising lemmas.
- `MergeStep.dfy`: the merge step as a specification.
  - `FindPos` and `FindWindow` are the inner and outer scans, written as
    recursion.
  - `IsFirstHit` states declaratively which window the scan meets first.
  - `MergeOnce` is the step, and lemmas cover what it changes and what it
    keeps.
- `Tokenizer.dfy` has two parts:
  - The fixed point `Merged` and the whole-run function `Tokenized`, with
    their lemmas.
  - The class `MultiWordTokenizer`. Its three methods are written as the
    source's loops and proved against those functions.
- `Examples.dfy`: worked examples, each proved as a lemma. They are the
  usage example from the class docstring, the two unit tests (with the base
  tokenization written out), and two inputs that show the scan order.

The scan is window-size-major. Every position is tried with two tokens before
any position is tried with three. So a two-token entity further right wins
over a three-token entity further left (`Examples.CityOrder`). The
longer-window-first-at-each-position order that a reader might expect is not
what the code does, and the model follows the code. A merged token holds
spaces, so a later step can merge it again with its neighbours
(`Examples.NestedMerge`).

## Model

| member | source | states |
|---|---|---|
| `Text.IsWhitespace` | multiword_tokenization/tokenize.py:43 | the `\s` class includes every ASCII whitespace character (tab, line feed, vertical tab, form feed, carriage return, space), so the separating space of a join is counted |
| `Text.Contains` | multiword_tokenization/tokenize.py:78 | `word in text` holds for the empty word, and only for words no longer than `text` |
| `Text.Join` | multiword_tokenization/tokenize.py:85 | `' '.join` starts with the first token, followed by a single space when there is a second |
| `Text.CountWhitespace` | multiword_tokenization/tokenize.py:118-119 | the number of `\s` matches is at most the length, and is zero exactly when no character is whitespace |
| `Text.JoinCollapse` | multiword_tokenization/tokenize.py:85-94 | replacing a non-empty run of tokens by its join leaves the join of the whole list unchanged |
| `Text.JoinWhitespace` | multiword_tokenization/tokenize.py:85 | a join of `n` tokens holds at least `n - 1` whitespace characters |
| `Text.JoinWhitespaceExact` | multiword_tokenization/tokenize.py:85 | a join of `n > 0` whitespace-free tokens holds exactly `n - 1` whitespace characters |
| `Keywords.ActiveKeywords` | multiword_tokenization/tokenize.py:78 | the filtered keyword list is no longer than the entity list |
| `Keywords.ActiveKeywordsMembers` | multiword_tokenization/tokenize.py:78 | a string is a keyword exactly when it is an entity and occurs in `text` |
| `Keywords.MaxWindow` | multiword_tokenization/tokenize.py:116-122 | the window bound is 0 or at least 2 |
| `Keywords.MaxWindowSpec` | multiword_tokenization/tokenize.py:116-122 | the bound is 0 exactly when no keyword holds whitespace; otherwise it is at least whitespace count + 1 of every keyword holding whitespace, and some keyword attains it |
| `Keywords.NoActiveKeywords` | multiword_tokenization/tokenize.py:78-80 | with no entity occurring in `text`, the keyword list is empty |
| `MergeStep.FindPos` | multiword_tokenization/tokenize.py:83-97 | the inner scan returns the leftmost position from `j` whose window is a hit, or none when no position from `j` is one |
| `MergeStep.FindWindow` | multiword_tokenization/tokenize.py:82-98 | the outer scan returns a hit of the smallest size in range, at the leftmost position for that size, or none when no window of any size in range is a hit |
| `MergeStep.Splice` | multiword_tokenization/tokenize.py:89-94 | overwriting position `j` with the join of the `i`-token window and popping the rest shortens the list by `i - 1`, keeps every token before `j` in place, and shifts every token after the window left by `i - 1` |
| `MergeStep.MergeOnce` | multiword_tokenization/tokenize.py:82-98 | one step either returns its input or a strictly shorter list, and empties the list only when it was empty |
| `MergeStep.MergeOnceUnchanged` | multiword_tokenization/tokenize.py:82-98 | the step returns its input exactly when no window of size 2..n at any position joins to a keyword |
| `MergeStep.MergeOnceChanged` | multiword_tokenization/tokenize.py:82-95 | a step that changes the list has collapsed a window that is the first hit in scan order |
| `MergeStep.FirstHitExists` | multiword_tokenization/tokenize.py:82-88 | whenever some window of size 2..n is a hit, the scan meets a first one |
| `MergeStep.FirstHitUnique` | multiword_tokenization/tokenize.py:82-83 | the scan order is total: two first hits are the same window |
| `MergeStep.MergeOnceAtFirstHit` | multiword_tokenization/tokenize.py:85-95 | at the first hit the step is the splice of that window |
| `MergeStep.MergeOnceFirstHit` | multiword_tokenization/tokenize.py:85-95 | at the first hit `(i, j)` the result is `i - 1` shorter, keeps every token before `j` and after `j + i - 1`, and holds at `j` the window's join, which is a keyword |
| `MergeStep.MergeOnceJoin` | multiword_tokenization/tokenize.py:85-94 | a step never changes the single-space join of the whole list |
| `MergeStep.MergeOnceTokens` | multiword_tokenization/tokenize.py:88-89 | every token after a step was a token before it or is a keyword |
| `MergeStep.WindowBound` | multiword_tokenization/tokenize.py:100-122 | no window longer than the bound can join to a keyword |
| `MergeStep.MergeOnceUnchangedAnyWindow` | multiword_tokenization/tokenize.py:100-109 | bounded by `MaxWindow`, the step returns its input exactly when no window of any size of two or more joins to a keyword |
| `MergeStep.MergeOnceWindowSufficient` | multiword_tokenization/tokenize.py:100-109 | any bound at or above `MaxWindow` gives the same step |
| `Tokenizer.Step` | multiword_tokenization/tokenize.py:62-98 | one call of the merge step returns its input or a strictly shorter list, keeps the single-space join, and every token it returns was an input token or is an entity occurring in `text` |
| `Tokenizer.Merged` | multiword_tokenization/tokenize.py:54-60 | repeating the step until it returns its input gives a fixed point of the step, no longer than the input, and empty only when the input is |
| `Tokenizer.Tokenized` | multiword_tokenization/tokenize.py:53-60 | the output of `tokenize` is a list on which the step changes nothing, no longer than the base tokenization, and empty only when that is |
| `Tokenizer.Merges` | multiword_tokenization/tokenize.py:54-60 | the number of merges the loop makes is zero exactly when the first step returns its input |
| `Tokenizer.MergesBound` | multiword_tokenization/tokenize.py:54-60 | every merge removes at least one token: merges plus output length are at most the input length, so a list of `m > 0` tokens is merged at most `m - 1` times |
| `Tokenizer.StepWithoutEntities` | multiword_tokenization/tokenize.py:78-80 | with no entity occurring in `text`, the step returns its input |
| `Tokenizer.MergedJoin` | multiword_tokenization/tokenize.py:54-60 | the fixed point keeps the single-space join of its input |
| `Tokenizer.MergedTokens` | multiword_tokenization/tokenize.py:54-60 | every token of the fixed point is an input token or a keyword |
| `Tokenizer.MergedOfFixedPoint` | multiword_tokenization/tokenize.py:57-58 | a list on which the step changes nothing is returned as it is |
| `Tokenizer.TokenizedIsFixedPoint` | multiword_tokenization/tokenize.py:53-60 | one more step on the output of tokenizing changes nothing, and the output is no longer than the base tokenization |
| `Tokenizer.MergedNoHit` | multiword_tokenization/tokenize.py:54-60 | the fixed point holds no window of two or more tokens, of any size, that joins to a keyword |
| `Tokenizer.TokenizedJoin` | multiword_tokenization/tokenize.py:53-60 | tokenizing keeps the single-space join of the base tokens |
| `Tokenizer.TokenizedTokens` | multiword_tokenization/tokenize.py:53-60 | every output token is a base token or an entity occurring in `text` |
| `Tokenizer.TokenizedWithoutEntities` | multiword_tokenization/tokenize.py:78-80 | with no entity occurring in `text`, the output is the base tokenization |
| `Tokenizer.MultiWordTokenizer.constructor` | multiword_tokenization/tokenize.py:33-43 | the object keeps the base tokenizer and the entity list it is given |
| `Tokenizer.MultiWordTokenizer.Tokenize` | multiword_tokenization/tokenize.py:45-60 | the loop ends with the fixed point of the step applied to the base tokenization; the output is a fixed point of the step, keeps the join of the base tokens, and each of its tokens is a base token or an entity occurring in `text` |
| `Tokenizer.MultiWordTokenizer.ReplaceOneWord` | multiword_tokenization/tokenize.py:62-98 | the nested loops, the break on a window past the end, and the overwrite-and-pop compute exactly the step on the keywords occurring in `text`; the caller's list is a value and is left as it was |
| `Tokenizer.MultiWordTokenizer.GetNIteration` | multiword_tokenization/tokenize.py:100-122 | the accumulator loop returns the window bound `MaxWindow` |
| `Examples.DocExample` | multiword_tokenization/tokenize.py:24-29 | with entities New York, San Francisco and New Orleans, the documented sentence tokenizes with "New York" as one token |
| `Examples.Text1Keywords` | test/test_tokenize.py:13-22 | of the six test entities only "New York" occurs in the first test sentence |
| `Examples.Test1` | test/test_tokenize.py:20-24 | the first unit test's expected output |
| `Examples.Text2Keywords` | test/test_tokenize.py:13-30 | of the six test entities exactly "Python programming language" and "Guido van Rossum" occur in the second test sentence |
| `Examples.Test2Merged` | test/test_tokenize.py:26-34 | on the second test's tokens the first step merges "Python programming language", the second merges "Guido van Rossum", and the result is the fixed point |
| `Examples.Test2` | test/test_tokenize.py:26-34 | the second unit test's expected output |
| `Examples.CityOrder` | multiword_tokenization/tokenize.py:82-83 | tokenizing "New York City Hall" with entities "New York City" and "City Hall" merges the two-token hit further right before the three-token hit further left, and the output keeps "New", "York" apart |
| `Examples.NestedMerge` | multiword_tokenization/tokenize.py:54-60 | tokenizing "I love New York City" with entities "New York" and "New York City": the first step merges only "New York" (size-major order), the second merges that token again with "City", and that is the output |

## Left out

- The base tokenizer (`self.func`, nltk's `word_tokenize` in the tests) is a
  foreign callable. It is the class's constant `func`, a total function from
  text to tokens with no further properties. The examples write its output
  out by hand.
- `re.compile(r'\s')` is replaced by the predicate `Text.IsWhitespace`. This
  predicate lists the code points that Python 3's `\s` matches in a `str`
  pattern. No regular-expression engine is modelled. The package also
  declares Python 2.7 (`setup.py:38-39`). There, `re.compile(r'\s')` without
  `re.UNICODE` matches only tab, newline, vertical tab, form feed, carriage
  return and space. The model follows Python 3. The output of a step does not
  depend on this choice. A window of `i` tokens always joins with `i - 1`
  ASCII spaces, which both classes count. So `MergeStep.WindowBound` holds
  under either class, and by `MergeStep.MergeOnceWindowSufficient` the larger
  Python 3 bound gives the same step.
- `deepcopy` and list mutation become value semantics. `copied` is a local
  sequence that the method reassigns. Because the caller's list is a value,
  the model cannot express aliasing between the two. The model states the
  source's intent, that the argument is not altered, by giving
  `ReplaceOneWord` no `modifies` clause.
- Python's `IndexError` control flow becomes the explicit bound test
  `j + i > |copied|` followed by `break`.
- `multiword_tokenization/__init__.py` is not part of this model. It only
  re-exports the class and a version string.
- `setup.py` is not part of this model. It is packaging: file input and
  version scraping.
- The unit-test file is not run. Its entity list, sentences and expected
  outputs are restated as lemmas, with the base tokenization written out by
  hand.
- Strings are sequences of Dafny `char`, which holds every Unicode scalar
  value. The only Python `str` values with no counterpart are strings that
  contain lone surrogates (U+D800 to U+DFFF).
