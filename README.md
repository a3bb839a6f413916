# A verified model of the sova-asr text and sequence core

sova-asr is a Russian speech recogniser. Around its acoustic network sits
deterministic text and sequence processing, and this project models that
processing in Dafny and proves what it promises:

- **CTC output segmentation** (`decoder.dfy`, module `Decoder`). The greedy
  decoder takes the per-frame arg-max path, in which the first maximum wins,
  and collapses it into maximal runs of equal labels. Blank runs are dropped
  and each letter run adds one character. A `|` delimiter run emits the open
  word with its start and end frame indices and adds the span to `words_len`.
  The trie decoder's post-processing loop applies the same rule to the token
  sequence the beam search returns. That loop also skips a token equal to the
  one before it. The model proves that it emits exactly the greedy decoder's
  words when silence and blank coincide, as `get_trie` sets them.
- **The BERT tokenizer** (`tokenizer.dfy`, module `Tokenizer`). It covers:
  - text cleaning;
  - whitespace and punctuation splitting;
  - greedy longest-match-first WordPiece with `##` continuation pieces and the
    `[UNK]` fallback;
  - the vocabulary built from the lines of the vocabulary file;
  - the token and id conversions.
- **The punctuator's windowing and text rebuild** (`punctuator.py` →
  `punctuator.dfy`, module `Punctuator`). It covers:
  - the punctuation code tables;
  - the cyclically padded id windows with the 0 mask in the middle;
  - attaching each word's predicted mark, with the forced final full stop;
  - capitalisation after `.` and `?`.
- **The Russian numeral parser** (`russian_numbers.dfy`, module
  `RussianNumbers`). Its token loop recognises numerals through the main and
  fraction tables. It groups them by level and leaves a `""` placeholder per
  group in the text. It then evaluates every group with a local and a global
  accumulator and an error score.
- **Splicing numbers back into the text** (`text2numbers.dfy`, module
  `TextToNumbers`). `convert` fills every placeholder with its group's value
  and joins the elements with single spaces. Then the "минус" rewrite of
  `float_postprocessing` runs.
- **Frame and pad arithmetic** (`utils.py` → `signal_utils.dfy`, module
  `SignalUtils`): `pad_center`, `frame` on 1-D input along the last axis,
  and the length check that `get_window` applies to an explicit list.

`pytext.dfy` (module `PyText`) gives Python's built-in behaviour where the
core relies on it:
- `sep.join`, `str.split()`, `str.strip()` and `str.replace`;
- slicing, indexing and `list.insert`, with negative and out-of-range indices.

`wrappers.dfy` holds `Option` and `Result`.

Every exception the source can raise on some input is an `Err` value of the
operation that raises it. This covers:
- the unbound `start_idx`;
- `score` left as `None`;
- IndexError and KeyError;
- the failed tuple unpacking in `convert`;
- ZeroDivisionError in the group error.

Each loop of the source is a `method` with a `while` or `for` loop. The
method is proved equal to a recursive specification function, and the
properties are lemmas about that function. There is one exception. The loop
over sub-lists in `get_token_sum_error_from_lists`
(number_utils/russian_numbers.py:468-470) sits inside a recursive function.
It is modelled as the mutually recursive functions `RussianNumbers.SumError`
and `RussianNumbers.SumErrors`.

Two facts of the code shape the decoder model:
- `Decoder.py:37` subtracts the maximum of the whole probability matrix, not
  of each row. Confidences are not part of this model.
- `Decoder.py:86` makes the silence index equal to the blank index. So the
  silence branch at lines 121-122 is never taken, and
  `Decoder.TrieMatchesGreedy` uses that equality.

`parse` and `convert` take the group evaluation rule as a parameter, a
`RussianNumbers.Rule`. The source's own evaluation is `AsWritten`. The other
rule, `Corrected`, applies the lowering multiplier of
number_utils/russian_numbers.py:679-690 as evidently intended (see
"## Findings"). Every property of `parse` and `convert` is stated for both
rules.

## Model

| member | source | states |
|---|---|---|
| Decoder.IndexOf | Decoder.py:17 | `labels.index`: a position is found exactly when the label occurs, and it is the first position holding it |
| Decoder.NewGreedyDecoder | Decoder.py:15-17 | construction succeeds exactly when `"|"` is a label, keeps the labels and blank index, and records the first position of `"|"`; otherwise it fails with the `index` error |
| Decoder.ArgMax | Decoder.py:21 | `np.argmax` of one frame: the result is a maximum of the row and no earlier entry reaches it |
| Decoder.BestPath | Decoder.py:21 | one label per frame, each the first maximum of its frame; fails exactly when some frame has no classes |
| Decoder.ExtendSame | Decoder.py:28 | a frame equal to the last run's label lengthens that run and keeps the runs a labelled, gap-free cover with distinct neighbours |
| Decoder.ExtendNew | Decoder.py:28 | any other frame opens a new run of length one and keeps the same three properties |
| Decoder.RunsTile | Decoder.py:28 | the groupby runs tile the path: gap-free from frame 0 to the frame count, each run non-empty with every frame carrying its label, neighbouring runs with different labels (so the runs are maximal), the last run carrying the last frame's label |
| Decoder.RunLensSum | Decoder.py:54 | the lengths of a gap-free cover of frames `from..to` add up to `to - from` |
| Decoder.RunStartsAreSums | Decoder.py:54 | in a gap-free cover each run starts at `from` plus the lengths of the runs before it |
| Decoder.RunsStartAtSums | Decoder.py:28-54 | advancing `i` by each group's length: the run lengths add up to the frame count and run k starts at the sum of the lengths of runs 0..k-1 |
| Decoder.GroupEnd | Decoder.py:54 | the group starting at frame `i` ends at the first later frame with another label, or at the end of the path: it is maximal and non-empty |
| Decoder.Step | Decoder.py:29-52 | one run of the loop keeps the words so far as a prefix and appends at most one word, exactly when the run is the delimiter and not the blank |
| Decoder.FoldSnoc | Decoder.py:28-54 | the loop over one more run is one more loop body after the loop over the runs before it |
| Decoder.FoldAppend | Decoder.py:28-54 | the loop over two consecutive run sequences is the loop over the second, started from the state after the first, and an error in the first is final |
| Decoder.FoldRunsSnoc | Decoder.py:28-54 | one more frame either lengthens the last run, which changes nothing, or is one more loop body for a new run of that label at that frame |
| Decoder.ThenIgnoresLen | Decoder.py:29-52 | the loop body reads a run's label and first frame, never its length |
| Decoder.FoldRunsErrSticks | Decoder.py:28-54 | once the loop fails on the runs of a prefix of the path, the whole decode fails with that error |
| Decoder.FoldOneRun | Decoder.py:28-54 | feeding the frames of one run frame by frame is one loop body for that run |
| Decoder.StepKeepsInv | Decoder.py:22-54 | one loop body keeps the loop invariant: a word is open whenever `new_word` is false, right after a delimiter the open word is the last emitted one, `words_len` is the total span, and every emitted word begins before it ends inside the frames seen, in order |
| Decoder.FoldKeepsInv | Decoder.py:22-54 | the loop over a gap-free cover of frames keeps that invariant from its first to its last frame |
| Decoder.GreedySpec | Decoder.py:20-58 | a successful decode has at least one word, `words_len` equals the sum of `end_idx - start_idx`, and every word has `start_idx < end_idx` below the frame count, words ordered by their end frames |
| Decoder.FailsAt | Decoder.py:28-56 | a failure of the loop on a prefix of the best path is the decoder's failure |
| Decoder.RunStep | Decoder.py:29-52 | the loop body on the loop's own variables (`current_word`, `start_idx` as possibly unbound) does what the one-run rule does, including its errors |
| Decoder.GreedyDecode | Decoder.py:20-58 | `decode` returns exactly the greedy specification: the words and `words_len`, or the error on the first failing run or on `score` being `None` |
| Decoder.BlankRunsChangeNothing | Decoder.py:29 | blank runs leave `words`, `current_word`, `start_idx`, `new_word` and `words_len` unchanged |
| Decoder.LettersOpenWord | Decoder.py:30-52 | from `new_word` true, letter runs (blanks between) open a word at the first frame of the first letter run whose text is one label per letter run |
| Decoder.WordFromLetters | Decoder.py:30-52 | when the delimiter arrives after such letters, exactly one word is emitted: its text is one label per letter run (so repeated frames give one letter), `start_idx` is the first frame of its first letter run, `end_idx` the first frame of the delimiter run, and `words_len` grows by their difference |
| Decoder.StepCloses | Decoder.py:34-49 | a delimiter run with a word open emits that word ending at the delimiter's first frame and sets `new_word` |
| Decoder.ReemitPrevious | Decoder.py:34-49 | a delimiter run with no letter since the previous delimiter emits the previous word's text and start again, ending at the new delimiter |
| Decoder.DelimiterBeforeLetter | Decoder.py:31-37 | a delimiter run before any letter fails on the unbound `start_idx`, whatever follows |
| Decoder.WordsOnlyAtDelimiters | Decoder.py:34-49 | words are only appended, one per delimiter run, and earlier words never change |
| Decoder.TrailingLettersDropped | Decoder.py:28-52 | runs after the last delimiter run add no word: letters after the last delimiter are never emitted |
| Decoder.NoDelimiterNoResult | Decoder.py:22-56 | a best path with no delimiter run leaves `score` as `None`, and the decode fails |
| Decoder.Texts | Decoder.py:11 | the `word` fields of the words, in order |
| Decoder.TextSplitsIntoWords | Decoder.py:11 | `DecodeResult.text` joins the words by single spaces: when the words are non-empty and hold no whitespace, splitting the text on whitespace gives the words back in order |
| Decoder.TrieErrSticks | Decoder.py:116-143 | a failure on the first n tokens is the failure of the whole token loop |
| Decoder.TrieDecode | Decoder.py:111-143 | the token loop returns exactly the token-by-token specification: the words, `words_len`, the language model's states and scores, or the error |
| Decoder.TrieStepAgrees | Decoder.py:116-143 | with silence equal to blank, one token of the token loop does what the greedy rule does for the run it starts, and a repeated token is skipped |
| Decoder.TrieMatchesGreedy | Decoder.py:86-143 | with silence equal to blank (as `get_trie` sets them), the token loop fails exactly when the greedy rule over the token runs fails, and otherwise emits the same words with the same frame indices and `words_len`: skipping repeated tokens is the run collapse and the silence branch is never taken |
| Decoder.TrieWordsIgnoreLm | Decoder.py:132-140 | the emitted words, `words_len` and the loop state do not depend on the language model; it only supplies one score per word |
| Tokenizer.IsPunctuation | bert_punctuator/tokenizer.py:176-184 | every code point in 33-47, 58-64, 91-96 and 123-126 is punctuation whatever its category, and a character that is not punctuation has no "P" category |
| Tokenizer.CleanText | bert_punctuator/tokenizer.py:107-117 | the loop builds exactly the character-by-character cleaning of the text |
| Tokenizer.CleanShape | bert_punctuator/tokenizer.py:107-117 | cleaning never lengthens the text, and every output character is a space or a character that is neither NUL, U+FFFD, a control character nor whitespace |
| Tokenizer.CleanAppend | bert_punctuator/tokenizer.py:107-117 | cleaning treats each character on its own and keeps their order: the cleaning of a concatenation is the concatenation of the cleanings |
| Tokenizer.CleanIdempotent | bert_punctuator/tokenizer.py:107-117 | cleaning an already cleaned text changes nothing, provided the space itself is not a control character |
| Tokenizer.WhitespaceTokenize | bert_punctuator/tokenizer.py:20-25 | the result is empty exactly when the text is blank; every token is non-empty and holds no whitespace; together the tokens hold the text's non-whitespace characters in order |
| Tokenizer.DropMarksProperties | bert_punctuator/tokenizer.py:78-86 | dropping the "Mn" characters never lengthens the text, leaves no "Mn" character, and leaves a text without one unchanged |
| Tokenizer.RunStripAccents | bert_punctuator/tokenizer.py:78-86 | the loop returns the NFD form of the text without its "Mn" characters |
| Tokenizer.SplitPuncConcat | bert_punctuator/tokenizer.py:88-105 | the pieces concatenate to the text |
| Tokenizer.PuncStepShape | bert_punctuator/tokenizer.py:94-103 | one character keeps the pieces well formed: single punctuation characters and non-empty punctuation-free runs, no two runs adjacent |
| Tokenizer.SplitPuncShape | bert_punctuator/tokenizer.py:88-105 | every piece is one punctuation character or a non-empty run without punctuation, and no two runs are adjacent, so the runs are maximal and no piece is empty |
| Tokenizer.RunSplitOnPunc | bert_punctuator/tokenizer.py:88-105 | the loop, with `start_new_word` and its appends to the last piece, returns exactly the pieces of the character-by-character rule |
| Tokenizer.BasicTokenize | bert_punctuator/tokenizer.py:63-76 | every token is non-empty and holds no whitespace |
| Tokenizer.LongestMatch | bert_punctuator/tokenizer.py:140-147 | the end found is the largest end whose piece (with "##" past the word start) is in the vocabulary; none is found exactly when no end gives a vocabulary piece |
| Tokenizer.Greedy | bert_punctuator/tokenizer.py:137-152 | when the greedy loop succeeds, its ends cut the rest of the word into longest vocabulary pieces, each end strictly after the previous one |
| Tokenizer.CutsAreGreedy | bert_punctuator/tokenizer.py:137-152 | whenever the rest of the word can be cut into longest vocabulary pieces, the greedy loop finds exactly those cuts |
| Tokenizer.Pieces | bert_punctuator/tokenizer.py:141-151 | one piece per cut, every piece in the vocabulary, and all of them "##"-prefixed past the start of the word |
| Tokenizer.GlueRestRebuilds | bert_punctuator/tokenizer.py:141-152 | past the start of the word, the pieces with "##" taken off spell the rest of the word |
| Tokenizer.WordPieceOf | bert_punctuator/tokenizer.py:128-157 | a word longer than the limit, or one with no cut into vocabulary pieces, becomes just the unknown token with no partial pieces; otherwise every piece is in the vocabulary |
| Tokenizer.WordPieceSuccess | bert_punctuator/tokenizer.py:137-157 | for a word within the limit that has longest-match cuts, the result is those pieces: all in the vocabulary, "##" on every piece after the first, and with "##" taken off they spell the word |
| Tokenizer.PiecesPrefixed | bert_punctuator/tokenizer.py:142-143 | every piece after the first carries the "##" prefix |
| Tokenizer.GlueRebuilds | bert_punctuator/tokenizer.py:137-152 | the first piece and the others with "##" taken off spell the word |
| Tokenizer.LongestVocabPiece | bert_punctuator/tokenizer.py:138-147 | the inner loop, with `end` strictly decreasing, stops at the longest vocabulary piece at `start`, or leaves `cur_substr` as `None` when there is none |
| Tokenizer.GreedyUnfold | bert_punctuator/tokenizer.py:137-152 | one round of the outer loop: the longest piece at `start`, then the cuts of the rest from its end |
| Tokenizer.WordpieceWord | bert_punctuator/tokenizer.py:129-157 | the outer loop, with `start` strictly increasing, returns exactly the WordPiece result for the token, `[UNK]` included |
| Tokenizer.WordpieceTokenize | bert_punctuator/tokenizer.py:126-158 | every output token is the unknown token or in the vocabulary |
| Tokenizer.BertTokenize | bert_punctuator/tokenizer.py:39-44 | every token is `[UNK]` or in the vocabulary |
| Tokenizer.StrippedLines | bert_punctuator/tokenizer.py:10-14 | one stripped token per line |
| Tokenizer.StrippedSnoc | bert_punctuator/tokenizer.py:11-14 | one more line adds its stripped text |
| Tokenizer.VocabSnoc | bert_punctuator/tokenizer.py:15-16 | one more token is entered with the next index, overriding an earlier entry |
| Tokenizer.IndexedSnoc | bert_punctuator/tokenizer.py:15-16 | entering the next token at the next index keeps the vocabulary indexing the tokens |
| Tokenizer.VocabOfIndexed | bert_punctuator/tokenizer.py:6-17 | every line's token is in the vocabulary, each token's id is a line holding it, and no later line holds it |
| Tokenizer.LoadVocab | bert_punctuator/tokenizer.py:6-17 | the loop maps each stripped line to its line index, later lines overriding earlier ones |
| Tokenizer.LoadedVocabInjective | bert_punctuator/tokenizer.py:6-17 | a vocabulary built that way never gives two tokens the same id |
| Tokenizer.InvertVocab | bert_punctuator/tokenizer.py:34-35 | `ids_to_tokens` is the inverse of an injective vocabulary, in both directions |
| Tokenizer.LookupAll | bert_punctuator/tokenizer.py:46-56 | looking every token (or id) up succeeds exactly when all are keys and gives their values in order; otherwise the error is the first missing key |
| Tokenizer.ConvertAll | bert_punctuator/tokenizer.py:46-56 | the append loops of `convert_tokens_to_ids` and `convert_ids_to_tokens` return exactly the lookup of every element |
| Tokenizer.IdsRoundTrip | bert_punctuator/tokenizer.py:34-56 | for tokens in the vocabulary, converting to ids and back gives the tokens |
| Punctuator.DecInvertsEnc | punctuator.py:22-28 | `punctuation_dec` has exactly the codes 0..3 as keys and is the inverse of `punctuation_enc` in both directions |
| Punctuator.WindowsSnoc | punctuator.py:40-43 | appending window n to the first n windows gives the first n+1 windows |
| Punctuator.MakeWindow | punctuator.py:41-42 | the loop body: the slice `x_pad[i:i+S-1]` with 0 inserted at `(S-1)//2` |
| Punctuator.Segment | punctuator.py:36-45 | `segment` produces `len(x_pad) - S + 2` segments (none when that is negative), segment i being the window at i of the cyclically padded ids |
| Punctuator.WindowFull | punctuator.py:38-43 | with a positive segment size every window is full: S - 1 padded ids plus the mask, length S |
| Punctuator.PaddedHoldsIds | punctuator.py:38 | when `(S-1)//2 - 1` is between 1 and `len(ids)`, the front padding is that long and `ids[j]` sits right after it in `x_pad` |
| Punctuator.WindowCentre | punctuator.py:38-43 | in that case segment j is full, holds `ids[j]` at index `(S-1)//2 - 1`, just before the mask, and the mask at `(S-1)//2` is 0 |
| Punctuator.OneSegmentPerId | punctuator.py:38-40 | when both paddings are complete there is exactly one segment per id |
| Punctuator.Mark | punctuator.py:75-78 | the mark after the word whose running count is i is the decoded prediction `y[i-1]`, with Python's negative indexing; it fails with IndexError when that index is out of range and with KeyError when the code has no mark; at `i == len(y)` it is always `". "` or `"? "`, replacing any other mark by `". "` |
| Punctuator.Sentence | punctuator.py:72-79 | building the sentence fails exactly when the mark of one of the words does |
| Punctuator.MarkAfter | punctuator.py:75-78 | the lookup in the first loop is that mark, errors included |
| Punctuator.BuildSentence | punctuator.py:72-79 | the first loop accumulates `i` and `s` and returns exactly that sentence |
| Punctuator.Capitalise | punctuator.py:81-86 | the second loop returns exactly the capitalisation pass over `s` |
| Punctuator.ConvertPredictions | punctuator.py:71-88 | `convert_predictions` returns the capitalised sentence without its final character, or the first error, including the IndexError on a sentence shorter than two characters |
| Punctuator.SentenceErrSticks | punctuator.py:74-79 | once a mark fails, the sentence stays failed with that error |
| Punctuator.Parts | punctuator.py:74-79 | one part per word |
| Punctuator.PartAt | punctuator.py:75-79 | part k is word k followed by its own mark, which is the prediction at its last sub-token |
| Punctuator.SentenceWords | punctuator.py:72-79 | the sentence is the words in order, each followed by its own mark |
| Punctuator.EndsWithStop | punctuator.py:74-88 | when the sub-token counts add up to `len(y)`, the sentence ends with `". "` or `"? "` and the result ends with that `.` or `?` |
| Punctuator.CapitalisedAfterStops | punctuator.py:81-88 | with `upper` mapping each character to one character, the result is one shorter than `s`; its first character is `s[0]` upper-cased, the second is `s[1]`, and a later character i is `s[i]` upper-cased exactly when `s[i-2]` is `.` or `?`, unchanged otherwise |
| RussianNumbers.ErrorSumAppend | number_utils/russian_numbers.py:462-472 | the error sum of two token lists is the sum of their error sums |
| RussianNumbers.SumErrorIsLeafSum | number_utils/russian_numbers.py:462-472 | `get_token_sum_error_from_lists` is the sum of `.error` over the token leaves of a nested list, however they are nested |
| RussianNumbers.SumErrorsIsLeafSum | number_utils/russian_numbers.py:468-470 | the loop over sub-lists sums the errors of all their leaves |
| RussianNumbers.ErrorSumBounds | number_utils/russian_numbers.py:462-472 | with token errors in [0, 1] the sum lies between 0 and the number of tokens |
| RussianNumbers.ParseTokens | number_utils/russian_numbers.py:474-480 | `parse_tokens` gives a fresh token from the main table when the word is there, else from the fraction table in a fraction context, raising KeyError exactly when the context is a fraction one and neither table holds the word; outside a fraction context an unknown word gives `[None]` |
| RussianNumbers.OneOfIsIn | number_utils/russian_numbers.py:506-539 | membership in a Python list of words is sequence membership |
| RussianNumbers.NoPunctClean | number_utils/russian_numbers.py:502 | a word without ASCII characters, such as any Cyrillic word, loses nothing to `strip(string.punctuation)` |
| RussianNumbers.Candidates | number_utils/russian_numbers.py:502-542 | the candidates of a raw token after the main-table lookup and the fraction contexts: the only exception is the KeyError of a fraction word in neither table, and a numeral candidate is one fresh token |
| RussianNumbers.SpecialKind | number_utils/russian_numbers.py:544-597 | the rule that extends the candidates with a leading one applies only to "тысяча", and the zero rule only to "ноль" |
| RussianNumbers.LevelSplit | number_utils/russian_numbers.py:599-608 | the level-split step raises AttributeError exactly when the candidate list starts with a token and then holds `None`; a non-numeral leaves the state unchanged |
| RussianNumbers.Screen | number_utils/russian_numbers.py:610-622 | screening never produces a candidate list that starts with a token and then holds `None` |
| RussianNumbers.FoldErrSticks | number_utils/russian_numbers.py:501-639 | once an iteration raises, that exception is the outcome of the whole token loop |
| RussianNumbers.TokeniseNext | number_utils/russian_numbers.py:501-639 | the state after token n+1 is one loop iteration after the state after token n |
| RussianNumbers.TokeniseFails | number_utils/russian_numbers.py:501-643 | an exception at token n is the outcome of the token loop |
| RussianNumbers.SpecialRule | number_utils/russian_numbers.py:544-597 | the special-word rules on the loop's own variables do what the rule function says |
| RussianNumbers.LevelRule | number_utils/russian_numbers.py:599-608 | the level-split code does what the rule function says, including the AttributeError |
| RussianNumbers.ScreenRule | number_utils/russian_numbers.py:610-622 | the search for a token within the error limit replaces the candidates by `[None]` exactly as the rule function says |
| RussianNumbers.AcceptRule | number_utils/russian_numbers.py:624-639 | the placeholder and group code does what the rule function says |
| RussianNumbers.Tokenise | number_utils/russian_numbers.py:500-643 | the token loop and the final flush return exactly the groups and text list of the token-by-token specification, or its exception |
| RussianNumbers.PlaceholdersSnoc | number_utils/russian_numbers.py:624-634 | appending to the text list adds one placeholder exactly when the element is `""` |
| RussianNumbers.FlushKeeps | number_utils/russian_numbers.py:549-553 | closing the group, as the special rules do, keeps the loop's bookkeeping and leaves the group empty |
| RussianNumbers.InitInv | number_utils/russian_numbers.py:494-498 | the loop's initial variables satisfy its invariant |
| RussianNumbers.KnownCandidate | number_utils/russian_numbers.py:503-542 | a word of the main table is read from it, in a fraction context or not |
| RussianNumbers.ThousandCandidate | number_utils/russian_numbers.py:503 | "тысяча", which line 544 extends, is read from the main table |
| RussianNumbers.ZeroCandidate | number_utils/russian_numbers.py:503 | "ноль", which line 588 handles, is read from the main table |
| RussianNumbers.SpecialKeeps | number_utils/russian_numbers.py:544-597 | after the special-word rules the candidates are a non-empty list of fresh tokens or `[None]` (a non-numeral leaving the state alone), and a non-zero level with an empty group comes only from the leading one of "тысяча" |
| RussianNumbers.LevelSplitKeeps | number_utils/russian_numbers.py:599-608 | after the special rules the level split never raises, and a non-numeral restores the invariant |
| RussianNumbers.AcceptKeeps | number_utils/russian_numbers.py:610-639 | accepting a screened candidate restores the loop invariant: a `""` placeholder is open (`left_space_for_number`) exactly while a group is being collected, closed groups are non-empty and fresh, there is one placeholder per closed or open group, and a non-zero level implies an open group |
| RussianNumbers.StepKeeps | number_utils/russian_numbers.py:501-639 | one iteration keeps the loop invariant |
| RussianNumbers.StepFails | number_utils/russian_numbers.py:501-639 | the only exception an iteration raises is the KeyError of a fraction word missing from both tables |
| RussianNumbers.SpecialCandidates | number_utils/russian_numbers.py:544-597 | "тысяча" and "ноль" come from the main table before their rules extend them |
| RussianNumbers.FoldKeeps | number_utils/russian_numbers.py:501-639 | a loop whose body keeps a property and raises only some exceptions ends in that property or one of those exceptions |
| RussianNumbers.TokeniseKeeps | number_utils/russian_numbers.py:501-639 | every state the token loop reaches keeps the invariant, and the only exception is a missing fraction word |
| RussianNumbers.TokenisedGroups | number_utils/russian_numbers.py:501-643 | after the final flush every group is non-empty and made of fresh tokens, and there is exactly one `""` placeholder per group |
| RussianNumbers.EvalToken | number_utils/russian_numbers.py:657-722 | a token over the error limit is skipped and changes nothing; otherwise it becomes significant, its numeral is kept, its error changes only to 1, and `critical_error` is set exactly when the error changed |
| RussianNumbers.EvalUpTo | number_utils/russian_numbers.py:656-722 | after the loop each token keeps its numeral, is significant exactly when it was within the limit, changed its error only to 1, and the group is critical exactly when some token's error changed |
| RussianNumbers.SigCount | number_utils/russian_numbers.py:730-735 | the significant-token count is at most the length, and zero exactly when no token is significant |
| RussianNumbers.SigSumBounds | number_utils/russian_numbers.py:732-735 | with errors in [0, 1] the significant error sum lies between 0 and the significant count |
| RussianNumbers.SigSumZero | number_utils/russian_numbers.py:732-735 | with non-negative errors the sum is zero exactly when every significant token has error 0 |
| RussianNumbers.SigSumNonNegative | number_utils/russian_numbers.py:732-735 | with non-negative errors the sum is non-negative |
| RussianNumbers.SigCountAll | number_utils/russian_numbers.py:732-735 | when every token is significant, all are counted |
| RussianNumbers.EvalGroup | number_utils/russian_numbers.py:647-754 | evaluating a group raises exactly when it is non-empty and every token is over the error limit, and the exception is ZeroDivisionError |
| RussianNumbers.GroupErrorBounds | number_utils/russian_numbers.py:724-745 | with token errors in [0, 1] the group error, the mean over significant tokens doubled or capped after a critical error, stays in [0, 1] |
| RussianNumbers.GroupErrorZero | number_utils/russian_numbers.py:656-745 | a non-empty group of fresh tokens evaluates without exception, with error 0 exactly when it is not critical |
| RussianNumbers.AnnotatedFresh | number_utils/russian_numbers.py:656-722 | in a fresh group every token becomes significant; a critical group has a significant token with a positive error, and otherwise every error stays 0 |
| RussianNumbers.CritZero | number_utils/russian_numbers.py:724-745 | for such tokens the group error exists and is 0 exactly when the group is not critical |
| RussianNumbers.CritIsZero | number_utils/russian_numbers.py:739-745 | the critical adjustment of a non-negative error is 0 exactly when the error is 0 |
| RussianNumbers.FreshGroupOk | number_utils/russian_numbers.py:647-754 | a non-empty group of fresh tokens evaluates without exception |
| RussianNumbers.EvaluateToken | number_utils/russian_numbers.py:657-722 | the loop body on the accumulators and the token's fields does what the one-token rule says |
| RussianNumbers.UpdateSlices | number_utils/russian_numbers.py:677-721 | writing token i's new fields extends the processed prefix by it and leaves the rest alone |
| RussianNumbers.AnnotateGroup | number_utils/russian_numbers.py:656-722 | the evaluation loop returns exactly the accumulators and annotated tokens of the specification |
| RussianNumbers.Tally | number_utils/russian_numbers.py:729-735 | the loop returns the significant error sum and the significant count |
| RussianNumbers.GroupError | number_utils/russian_numbers.py:724-745 | the group error is 1 for an empty group, otherwise the significant mean, raising ZeroDivisionError when nothing is significant; after a critical error 1 if at least 0.5, doubled otherwise |
| RussianNumbers.EvaluateGroup | number_utils/russian_numbers.py:647-754 | one group's `ParserResult` is `global + local`, a missing accumulator counting as 0, with the group error, exactly as specified |
| RussianNumbers.Collect | number_utils/russian_numbers.py:647-754 | a loop that stops at the first exception succeeds exactly when every outcome does, and then returns all the values in order |
| RussianNumbers.CollectSnoc | number_utils/russian_numbers.py:647-754 | one more successful group appends its result |
| RussianNumbers.CollectFails | number_utils/russian_numbers.py:647-754 | the first failing group's exception is the outcome of the loop |
| RussianNumbers.GroupResults | number_utils/russian_numbers.py:647-754 | one outcome per group, each that group's evaluation |
| RussianNumbers.Parse | number_utils/russian_numbers.py:482-486 | under either evaluation rule (the source's is `AsWritten`), `parse` returns the single `ParserResult(0, 1)` exactly when the stripped, lower-cased text is empty |
| RussianNumbers.ParseText | number_utils/russian_numbers.py:482-756 | for the evaluation rule it is given (the source's is `AsWritten`), the method returns exactly what `parse` specifies |
| RussianNumbers.EvaluateAll | number_utils/russian_numbers.py:645-756 | the loop over the groups returns the results in order, or the first exception |
| RussianNumbers.ParseShape | number_utils/russian_numbers.py:482-756 | for the source's evaluation rule and the corrected one alike: with the special words in the main table `parse` raises only the KeyError of a missing fraction word; otherwise there is exactly one result per `""` placeholder, each with an error in [0, 1] |
| RussianNumbers.WordsNonEmpty | number_utils/russian_numbers.py:493 | no word of the split is empty |
| RussianNumbers.GroupsEvaluate | number_utils/russian_numbers.py:645-756 | non-empty groups of fresh tokens all evaluate, each with an error in [0, 1] |
| RussianNumbers.LeafError | number_utils/russian_numbers.py:465-466 | a single token's error sum is its own error |
| RussianNumbers.CompoundTrace | number_utils/russian_numbers.py:656-722 | the accumulators after a numeral, a higher multiplier, a numeral and a lower multiplier: the first product becomes global and the lower multiplier then applies its rule |
| RussianNumbers.CompoundLowering | number_utils/russian_numbers.py:679-690 | as written, a lower multiplier that is not a fraction order after a pending local value leaves `global_value` unchanged and drops the local product; the corrected rule adds it |
| RussianNumbers.MillionGroupValue | number_utils/russian_numbers.py:679-690 | "один миллион двести тысяч", with the table rows of lines 61, 333, 439 and 444, evaluates to 1000000 as written and to 1200000 with the corrected rule |
| RussianNumbers.MissingThousandth | number_utils/russian_numbers.py:533-536 | as written, "тысячной" after a numeral passes the third-order check, and neither the main table nor the fraction table of lines 28-50 holds it: KeyError |
| RussianNumbers.NotInSourceFractions | number_utils/russian_numbers.py:28-50 | the source's fraction table has no "тысячной" |
| RussianNumbers.NotWholeWord | number_utils/russian_numbers.py:506 | "тысячной" is not a whole-part word |
| RussianNumbers.MissingThousandthText | number_utils/russian_numbers.py:501-542 | the whole token loop on "пять тысячной" stops with that KeyError |
| RussianNumbers.ListCovered | number_utils/russian_numbers.py:506-539 | a word of a list whose words are all in a map or a set is in one of them |
| RussianNumbers.CorrectedFractionsComplete | number_utils/russian_numbers.py:506-542 | every word that can reach a fraction lookup is in the corrected fraction table, or is one of the two order words of the main table |
| RussianNumbers.ParseNeverFails | number_utils/russian_numbers.py:482-756 | with the corrected fraction table `parse` never raises, under either evaluation rule |
| RussianNumbers.StepPasses | number_utils/russian_numbers.py:501-639 | an iteration whose table lookup succeeds raises nothing |
| RussianNumbers.StepRaises | number_utils/russian_numbers.py:502-542 | a table lookup that raises ends the iteration with that same exception |
| RussianNumbers.JoinStep | number_utils/russian_numbers.py:599-628 | an iteration on a main-table numeral that triggers no special rule, has an error within `max_token_error` and does not split the group appends it to `token_list`, adds a `""` placeholder exactly when `left_space_for_number` was false, and takes its level |
| RussianNumbers.JoinRun | number_utils/russian_numbers.py:501-639 | after n numerals of such a run, with no split between neighbours, `token_list` holds exactly those n tokens, `all_token_list` is empty, `result_text_list` is one `""` and the level is that of the last token |
| RussianNumbers.OneRun | number_utils/russian_numbers.py:500-643 | after the final flush such a run is a single group behind a single placeholder |
| RussianNumbers.MillionTokenised | number_utils/russian_numbers.py:500-643 | "один миллион двести тысяч", with the table rows of lines 61, 333, 439 and 444, becomes one group of four tokens behind one placeholder |
| RussianNumbers.OneGroupParse | number_utils/russian_numbers.py:482-756 | for text whose words form one group, `parse` returns that group's evaluation and a single placeholder |
| RussianNumbers.MillionParse | number_utils/russian_numbers.py:482-756 | `parse("один миллион двести тысяч")` returns `[ParserResult(1000000, 0)]` under the source's rule and `[ParserResult(1200000, 0)]` under the corrected rule |
| RussianNumbers.NoMissingFraction | number_utils/russian_numbers.py:474-480 | with the corrected fraction table no lookup raises KeyError |
| TextToNumbers.Fill | number_utils/text2numbers.py:18-24 | the splice loop gets through the first n elements exactly when they hold no more placeholders than there are results; it then has one piece per element and `parsed_idx` equals the placeholders seen; otherwise the error is IndexError |
| TextToNumbers.FillPieces | number_utils/text2numbers.py:18-24 | the k-th placeholder becomes the shown value of the k-th result, and every other element is copied |
| TextToNumbers.PlaceholdersPrefix | number_utils/text2numbers.py:19-21 | each element adds one to the placeholder count exactly when it is `""` |
| TextToNumbers.PlaceholdersMonotone | number_utils/text2numbers.py:18-21 | a longer prefix holds at least as many placeholders, so a shortage of results is final |
| TextToNumbers.SpliceShape | number_utils/text2numbers.py:14-27 | the splice succeeds exactly when there is a result for every placeholder, and fails with IndexError otherwise; its length is the pieces' lengths plus one space between neighbours, with no trailing space |
| TextToNumbers.SplicedSnoc | number_utils/text2numbers.py:19-27 | one more element extends the text by its piece and, unless it is the last element, one space |
| TextToNumbers.SplicePiece | number_utils/text2numbers.py:19-24 | the element's piece is the next result's value for a placeholder, failing exactly when none is left, and otherwise the element itself |
| TextToNumbers.SpliceText | number_utils/text2numbers.py:14-27 | the loop returns exactly the spliced text, or IndexError; on success `parsed_idx` ends at the number of `""` elements |
| TextToNumbers.MinusDisjoint | number_utils/text2numbers.py:38 | the replacement `"-"` shares no character with `"минус "` |
| TextToNumbers.MinusRuleIdempotent | number_utils/text2numbers.py:35-38 | when the text holds "минус" and a digit but not `" и "`, no `"минус "` is left afterwards; applying the rule again changes nothing |
| TextToNumbers.MinusRewrite | number_utils/text2numbers.py:35-38 | the loop over the ten digits, replacing again for each digit present, gives the same text as one replacement |
| TextToNumbers.FloatPostprocessingUnchanged | number_utils/text2numbers.py:33-113 | text with none of "минус", "точка", "запятая" and `" и "` comes back unchanged |
| TextToNumbers.PostProcess | number_utils/text2numbers.py:33-113 | `float_postprocessing` is the "минус" rewrite followed by the remaining branches |
| TextToNumbers.Convert | number_utils/text2numbers.py:9-31 | under either evaluation rule of `parse` (the source's is `AsWritten`): empty text comes back unchanged; `convert` fails on unpacking exactly when the text is non-empty but blank |
| TextToNumbers.ConvertFails | number_utils/text2numbers.py:9-31 | with the source's tables and under either evaluation rule, `convert` fails only on blank text or on a fraction word missing from the fraction table |
| TextToNumbers.ConvertCorrected | number_utils/text2numbers.py:9-31 | with a complete fraction table and under either evaluation rule, `convert` succeeds exactly on empty or non-blank text |
| TextToNumbers.ConvertLine | number_utils/text2numbers.py:9-31 | for the evaluation rule it is given (the source's is `AsWritten`), the method returns exactly what `convert` specifies |
| SignalUtils.GetWindow | utils.py:18-23 | an explicit list of coefficients is returned unchanged exactly when its length is `nx`, and otherwise the size-mismatch exception carries both lengths |
| SignalUtils.PadCenter | utils.py:28-42 | `pad_center` fails exactly when the target size is smaller than the data; otherwise the result has the target size, holds the data from `lpad = (size - n) // 2` on, is zero on both sides, and the right padding is the left one or one more |
| SignalUtils.FramesFit | utils.py:62 | with `n_frames = 1 + (len - frame_length) // hop_length` the last frame fits inside the signal and one more frame would not |
| SignalUtils.FrameStartFits | utils.py:62-69 | every frame k < `n_frames` lies inside the signal |
| SignalUtils.Frame | utils.py:45-78 | `frame` on 1-D input succeeds exactly when `0 <= frame_length <= len(x)` and `hop_length >= 1`, raising the too-short check first and the hop check second; the result is a `frame_length x n_frames` matrix |
| SignalUtils.FrameColumns | utils.py:62-78 | column k of the framed signal is `x[k*hop_length : k*hop_length + frame_length]`, which lies inside the signal |
| PyText.PyNorm | punctuator.py:38 | a Python slice bound on a sequence of length n, negative bounds counting from the end, clamped into `0..n` |
| PyText.PyInsert | punctuator.py:42 | `list.insert` lengthens the list by one and, for an index within it, puts the element there and shifts the rest |
| PyText.PyIndex | punctuator.py:76 | `y[a]` exists exactly for `-len(y) <= a < len(y)`, a negative index counting from the end; otherwise IndexError |
| PyText.JoinSnoc | number_utils/text2numbers.py:26-27 | joining one more part adds exactly one separator |
| PyText.JoinLength | number_utils/text2numbers.py:26-27 | the joined text is as long as the parts plus one separator between neighbours |
| PyText.WordLen | bert_punctuator/tokenizer.py:24 | the leading run of non-whitespace characters of a text that starts with one is non-empty and maximal |
| PyText.SplitWsProperties | bert_punctuator/tokenizer.py:21-25 | `str.split()` returns non-empty words holding no whitespace, returns nothing exactly for blank text, and keeps every non-whitespace character in order |
| PyText.NoSpaceSlice | bert_punctuator/tokenizer.py:24 | a slice of text without whitespace has none either |
| PyText.NonSpacePrefix | bert_punctuator/tokenizer.py:24 | a non-whitespace prefix is kept as it is |
| PyText.NonSpaceAppend | bert_punctuator/tokenizer.py:24 | the non-whitespace content of a concatenation is the concatenation of the contents |
| PyText.NonSpaceBlank | bert_punctuator/tokenizer.py:21-23 | blank text has no non-whitespace content |
| PyText.ConcatSnoc | bert_punctuator/tokenizer.py:105 | concatenating one more string appends it |
| PyText.SplitJoin | Decoder.py:11 | `split()` undoes `" ".join` of non-empty words without whitespace |
| PyText.SplitWord | bert_punctuator/tokenizer.py:24 | a word followed by nothing or by whitespace splits off whole |
| PyText.LStrip | bert_punctuator/tokenizer.py:21 | the left strip is a suffix of the text, only whitespace is cut, and it does not start with whitespace |
| PyText.RStrip | bert_punctuator/tokenizer.py:21 | the right strip is a prefix of the text, only whitespace is cut, and it does not end with whitespace |
| PyText.StripUnchanged | bert_punctuator/tokenizer.py:14 | text that neither starts nor ends with whitespace is its own strip |
| PyText.StripSlice | bert_punctuator/tokenizer.py:21 | `str.strip()` is a slice of the text with only whitespace cut off at both ends |
| PyText.StripSliceText | bert_punctuator/tokenizer.py:21 | the strip is the slice between its start and end positions |
| PyText.StripSliceBlank | bert_punctuator/tokenizer.py:21 | what the strip cuts off at either end is whitespace |
| PyText.StripEnds | bert_punctuator/tokenizer.py:21-23 | the strip is empty exactly for blank text, and otherwise starts and ends with non-whitespace |
| PyText.StripNonSpace | bert_punctuator/tokenizer.py:21 | stripping keeps the whole non-whitespace content |
| PyText.NonSpaceTrim | bert_punctuator/tokenizer.py:21 | cutting whitespace off both ends keeps the non-whitespace content |
| PyText.ReplaceAbsent | number_utils/text2numbers.py:38 | `replace` leaves text without the pattern unchanged |
| PyText.ReplacePrefix | number_utils/text2numbers.py:38 | a prefix of the replaced text holding no character of the replacement is a prefix of the original |
| PyText.OccursPastPrefix | number_utils/text2numbers.py:38 | an occurrence of the pattern cannot begin inside a replacement that shares no character with it |
| PyText.ReplaceRemoves | number_utils/text2numbers.py:38 | when the replacement shares no character with the pattern, no occurrence of the pattern is left |
| PyText.ReplaceIdempotent | number_utils/text2numbers.py:38 | such a replacement is idempotent |

## Left out

- The Unicode database is a parameter, the `UnicodeDb` record. It covers `unicodedata.category`, NFD normalisation, `str.lower` and `str.isspace`. The string `upper` used in capitalisation is a per-character parameter. Python's Unicode tables are not available to the model.
- `np.round` in the group evaluation is an uninterpreted `round` parameter. The facts a lemma needs about it are preconditions, for example `round(1000000.0, 5) == 1000000.0`. It is floating-point rounding.
- `re.split(r'\s+', ...)` in `parse` is modelled as `str.split()` on whitespace.
- Of `float_postprocessing` only the "минус" rewrite is modelled. The "точка", "запятая" and `" и "` branches are one `decimals` parameter applied after it. They scan with IndexError as control flow and end in a `np.float32` re-parse.
- The native trie decoder is left out. This covers `LexiconDecoder`, `Trie`, `KenLM`, `Dictionary`, `load_words`, `TrieDecoder.__init__` and `get_trie`, which are foreign bindings. The beam search's token sequence is an input and the language model is an abstract `lm` function. Only its per-word score is threaded through.
- All floating-point scoring is left out: softmax, log, exp, per-word and overall confidences, and timestamps. Words carry frame indices instead of seconds.
- Reading the vocabulary file in `load_vocab` is left out, and the lines are an input. The `os.path.isfile` check in the tokenizer's constructor is left out too.
- NumPy arrays are sequences of reals. The `as_strided` memory layout, the Fortran-order copy, the `axis=0` path and the `ndarray` type check of `frame` are not modelled. `pad_center` is modelled on 1-D data.
- `get_window`'s callable, string, tuple and scalar branches are not modelled. They call `scipy.signal.get_window`.
- The Levenshtein matrix that `parse` builds and never uses (number_utils/russian_numbers.py:489-490) is left out.
- The evaluation loop writes `.error` and `.is_significant` into the token objects. The model works on values and returns the annotated tokens. Each token object is created fresh for its group, so nothing else observes the writes.
- The lookup tables are parameters of type `map<string, Numeral>`. The lemmas ask of them only what they need: "тысяча" and "ноль" present, and the entries that the two findings cite. The source's fraction table is written out in full as `SourceFractions`.
- `bert.py`, `modules.py`, `predict` and `get_predictions` are left out: neural-network inference. So are `preprocess_data`, `stft` and `DataLoader.py` (FFT numerics) and `train.py` (training and WER/CER). `SpeechRecognizer.py`, `FileHandler.py`, `file_handler.py`, `app.py` and the browser JavaScript are I/O glue and are left out too.
- Tokenizer.BasicTokenize: states only that every token is a non-empty word without whitespace, not the exact token list. Its stages are stated exactly by their own members: `CleanText`, `WhitespaceTokenize`, `RunStripAccents` and `RunSplitOnPunc`.
- Tokenizer.WordpieceTokenize: states membership in the vocabulary or `[UNK]`. The exact pieces are stated per word by `Tokenizer.WordPieceSuccess` and `Tokenizer.WordPieceOf`.
- Tokenizer.BertTokenize: states membership only, for the same reason.
- Decoder.ReemitPrevious: assumes that `new_word` is set and that the open word is the last emitted one. This holds right after a delimiter, as `Decoder.StepKeepsInv` states.
- Punctuator.CapitalisedAfterStops: `upper` maps a character to one character, so the model does not capture upper-casing that changes length, as Python's `'ß'.upper() == "SS"` does. With such a character the source's `pred[:-1]` and the indices of later characters shift; the lemma's "one shorter than `s`" and its index-by-index statement hold only for length-preserving upper-casing. Punctuator.Converted, Punctuator.ConvertPredictions and Punctuator.EndsWithStop share this limit.
- TextToNumbers.Convert: a parsed value is a real, and `str(...)` of it is the parameter `show`. In the source the value is an `int` when the group involved no fraction and a `float` otherwise (number_utils/russian_numbers.py:747-753), so `convert` writes "5" for one and "5.0" for the other. The model does not keep that type, so it does not determine the spliced text. `show` stands for whatever text the value gets. TextToNumbers.ConvertLine and TextToNumbers.FillPieces share this limit.
- Tokenizer.IsPunctuation: for characters outside the ASCII ranges it states one direction only: a character whose category starts with "P" is punctuation. The category itself is a parameter.

## Findings

| source | as written | input that shows it | evidently intended | confidence | as-written member | corrected member |
|---|---|---|---|---|---|---|
| number_utils/russian_numbers.py:679-690 | a multiplier below the global level, arriving while a local value is pending, changes `global_value` only when it is 0.1, 0.01, 0.001 or 0.0001; for any other multiplier the pending local product is dropped | "один миллион двести тысяч" (table rows 61, 333, 439, 444) evaluates to 1000000 | `global_value += local_value * value`, giving 1200000 | not executed | RussianNumbers.MillionParse, RussianNumbers.MillionGroupValue, RussianNumbers.CompoundLowering (rule `AsWritten`) | RussianNumbers.MillionParse, RussianNumbers.MillionGroupValue, RussianNumbers.CompoundLowering (rule `Corrected`) |
| number_utils/russian_numbers.py:533-539 | "тысячной", "десятитысячной" and "десятитысячным" pass the fraction-order checks but are in neither the main table nor the fraction table of lines 29-47, so `parse_tokens(..., fraction=True)` raises KeyError | "пять тысячной" | the three words in `tokens_fractions`, like the other forms of their orders | not executed | RussianNumbers.MissingThousandth, RussianNumbers.MissingThousandthText | RussianNumbers.CorrectedFractionsComplete, RussianNumbers.ParseNeverFails, RussianNumbers.NoMissingFraction, TextToNumbers.ConvertCorrected |
