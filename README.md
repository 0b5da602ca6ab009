# lexifuzz-ner: the matching pipeline in Dafny

lexifuzz-ner finds named entities in a text by fuzzy-matching word n-grams
against a dictionary of categories and their phrases. `find_entity(text,
dictionary, min_ratio)` runs four steps:

1. It splits the text on whitespace.
2. It offers every window of 1 to `max_ngrams` tokens to
   `getFuzzySimilarity`. `max_ngrams` is the largest token count of any
   dictionary phrase. The first category whose best ratio reaches
   `min_ratio` gives the match.
3. Each match is located with `text.find` from a cursor and recorded
   with an id, a category, a score and an inclusive `[start, end]` range.
   `handle_slicing` then keeps a set of non-overlapping entities: a stable
   sort by descending score, then a greedy pass.
4. `annotate_text` wraps each kept entity in the text as `[entity]{id}`.

The model has one module per part of `src/lexifuzz_ner/ner.py`:

- `Matcher` holds `getFuzzySimilarity`, a recursive first-hit search over
  the ordered category list. The fuzzy scorer is a function parameter
  whose ratio lies in 0..100.
- `Ner` holds `find_entity`. `CollectEntities` and `ScanWindows` are its
  two nested loops and `Visit` is the inner loop's body. They are proved
  against `Scan`, a left fold over `Candidates`, the candidate texts in
  visiting order.
- `Resolver` holds `handle_slicing`. `HandleSlicing` is a method of the
  module that takes the result dictionary (an `Entities.Detection` object)
  and updates its entities in place. The new entities are proved equal
  to `Resolve`: a stable insertion sort by descending score followed by a
  greedy fold.
- `Annotator` holds `annotate_text`. `AnnotateText` is proved equal to
  `Annotate`, a left fold of `Splice` over the entity list.
- `PyStr` restates the Python builtins the code relies on: `str.find`,
  `str.split()` with Python's `isspace` set, and `' '.join`. `Wrappers`
  and `Seqs` hold an `Option` type and two facts about sequence
  concatenation.

Three behaviours of the code that the model keeps as written:

- After a match, the generator's cursor becomes `end + 1`, one past the
  recorded entity (ner.py:127-130). When `find` fails, the start is 0 and
  the cursor becomes `len(candidate)`, so it can move backwards.
- The end marker `]{id}` is the f-string `f"]{{{entity['id']}}}"` (ner.py:78).
  Each splice therefore lengthens the text by `4 + len(id)`.
- When the annotator's `find` fails, the start falls back to 0 and the
  splice still replaces `text[0:len(entity)]` (ner.py:82-97). The guard
  `start_index != -1` is always true there.

## Model

| member | source | states |
|---|---|---|
| PyStr.Find | src/lexifuzz_ner/ner.py:81 | `str.find(sub, start)` answers -1 or an offset at or after `start` where `sub` still fits in the text |
| PyStr.FindOccurrence | src/lexifuzz_ner/ner.py:124 | a `find` result other than -1 is an occurrence of the substring at that offset |
| PyStr.FindIsLeast | src/lexifuzz_ner/ner.py:124 | `find` gives the least occurrence at or after the cursor, and it gives -1 exactly when there is no occurrence from the cursor on |
| PyStr.WordLen | src/lexifuzz_ner/ner.py:114 | the first token of `split()` is the maximal run of non-whitespace characters at the front |
| PyStr.SplitTokens | src/lexifuzz_ner/ner.py:114 | every token of `text.split()` is non-empty and holds no whitespace |
| PyStr.SplitKeepsNonSpace | src/lexifuzz_ner/ner.py:114 | the tokens of `split()`, put back together, are the text with every whitespace character deleted |
| PyStr.SplitJoin | src/lexifuzz_ner/ner.py:114-120 | `' '.join` of whitespace-free, non-empty tokens splits back into exactly those tokens |
| Matcher.FirstHitFromIsFirst | src/lexifuzz_ner/ner.py:23-29 | the category loop from position `i` on answers the first category at or after `i` whose best ratio reaches the threshold, and answers nothing when there is none |
| Matcher.FirstQualifyingCategory | src/lexifuzz_ner/ner.py:10-29 | `getFuzzySimilarity` returns `(phrase, score, category)` of the first category in dictionary order with `min_ratio <= ratio`; it returns `None` exactly when every category's ratio is below `min_ratio` |
| Matcher.ThresholdBoundary | src/lexifuzz_ner/ner.py:28 | a first category scoring exactly `min_ratio` is accepted; when all score `min_ratio - 1`, there is no match |
| Ner.MaxByIsMax | src/lexifuzz_ner/ner.py:115 | the inner `max` bounds every phrase's count and is reached by one phrase |
| Ner.MaxOverCategoriesIsMax | src/lexifuzz_ner/ner.py:115 | the outer `max` bounds every phrase of every category and is reached by one of them |
| Ner.MaxNgramsIsMax | src/lexifuzz_ner/ner.py:115 | `max_ngrams` is the largest whitespace-token count over all dictionary phrases |
| Ner.NgramsUpTo | src/lexifuzz_ner/ner.py:118-120 | the first `i` joined windows of one width are `i` strings |
| Ner.NgramsUpToWindows | src/lexifuzz_ner/ner.py:118-120 | entry `j` of the joined `ngrams(tokens, n)` list is the window of `n` tokens starting at token `j` |
| Ner.Candidates | src/lexifuzz_ner/ner.py:117-120 | the candidate list has one entry per window of every width from 1 to `max_ngrams` |
| Ner.WindowCountMonotone | src/lexifuzz_ner/ner.py:117 | allowing more widths never yields fewer candidates |
| Ner.CandidateAt | src/lexifuzz_ner/ner.py:117-120 | the window of `n` tokens at token `i` is visited after every shorter window and after the windows of its width further left |
| Ner.CandidateIsWindow | src/lexifuzz_ner/ner.py:117-120 | every candidate is the space-joined window of some 1 to `max_ngrams` consecutive tokens |
| Ner.CandidateTokenCount | src/lexifuzz_ner/ner.py:114-120 | every candidate over `text.split()` itself has between 1 and `max_ngrams` tokens |
| Ner.Scan | src/lexifuzz_ner/ner.py:119-143 | the scan emits at most one entity per candidate |
| Ner.StepAdds | src/lexifuzz_ner/ner.py:122-143 | one step adds nothing on a miss; on a match it appends one entity (text, next id, category, score, `end == start + len - 1`) and sets the cursor to `end + 1` |
| Ner.ScanMatches | src/lexifuzz_ner/ner.py:119-143 | the emitted entity texts are exactly the accepted candidates, in candidate order |
| Ner.ScanScores | src/lexifuzz_ner/ner.py:134-137 | entity `k` has id `ids[k]`, and the category and score the matcher gives its text |
| Ner.ScanIndexing | src/lexifuzz_ner/ner.py:116-130 | every entity has `end == start + len - 1`; on a successful search, `start` is at or after the previous cursor and the text from `start` to `end` is the entity; on a failed search, `start` is 0; the cursor is shared by all widths |
| Ner.GenerateMatches | src/lexifuzz_ner/ner.py:112-143 | the collected entities are the accepted candidates in order, with matcher scores and injected ids; distinct ids give distinct entity ids |
| Ner.GenerateIndexing | src/lexifuzz_ner/ner.py:116-143 | every collected entity is placed as `ScanIndexing` states |
| Ner.Visit | src/lexifuzz_ner/ner.py:120-143 | the inner loop's body takes the state the visited candidates left to the state of one more candidate |
| Ner.ScanWindows | src/lexifuzz_ner/ner.py:118-143 | the inner loop over all windows of one width continues the scan by exactly those windows, left to right |
| Ner.CollectEntities | src/lexifuzz_ner/ner.py:112-143 | the nested loops build exactly `Generate`, the scan over all candidates |
| Ner.FindEntity | src/lexifuzz_ner/ner.py:100-147 | the result holds the resolved entities (pairwise disjoint, drawn from the generated ones), the original text, and the text annotated with those entities |
| Resolver.InsertIsPermutation | src/lexifuzz_ner/ner.py:42 | inserting into the sorted prefix adds exactly that one entity |
| Resolver.SortIsPermutation | src/lexifuzz_ner/ner.py:42 | `sorted` rearranges the entities without losing or adding any |
| Resolver.InsertKeepsDescending | src/lexifuzz_ner/ner.py:42 | an insertion keeps the scores non-increasing |
| Resolver.InsertIsStable | src/lexifuzz_ner/ner.py:42 | an insertion places the new entity after every entity of equal score |
| Resolver.SortIsDescending | src/lexifuzz_ner/ner.py:42 | sorting with key `-score` gives non-increasing scores |
| Resolver.SortIsStable | src/lexifuzz_ner/ner.py:42 | entities of equal score keep their input order (Python's sort is stable) |
| Resolver.Greedy | src/lexifuzz_ner/ner.py:49-58 | the kept entities have pairwise disjoint inclusive ranges |
| Resolver.GreedyIsSubsequence | src/lexifuzz_ner/ner.py:49-55 | the greedy pass keeps some of its input, in input order |
| Resolver.GreedyPrefix | src/lexifuzz_ner/ner.py:49-58 | later iterations only append: what is kept after a prefix stays kept |
| Resolver.SubsequenceMultiset | src/lexifuzz_ner/ner.py:55 | a subsequence holds no entity more often than the list it is taken from |
| Resolver.SubsequenceDescending | src/lexifuzz_ner/ner.py:42-55 | a subsequence of a score-descending list is score-descending |
| Resolver.SubsequenceWithScore | src/lexifuzz_ner/ner.py:42-55 | taking a subsequence keeps the relative order of each group of equal scores |
| Resolver.ResolveShape | src/lexifuzz_ner/ner.py:42-58 | the output is pairwise disjoint and a subsequence of the stable descending sort; scores never increase; only input records appear, never duplicated; equal scores keep input order |
| Resolver.KeptBeforeScoresHigher | src/lexifuzz_ner/ner.py:42-55 | an entity kept before position `j` of the sorted list scores at least as high as entry `j` |
| Resolver.GreedyDominance | src/lexifuzz_ner/ner.py:49-58 | in the sorted list, every entity left out overlaps a kept entity with at least its score |
| Resolver.ResolveDominance | src/lexifuzz_ner/ner.py:42-58 | every entity `handle_slicing` drops overlaps a kept entity with a score at least as high |
| Resolver.ResolveKeepsBest | src/lexifuzz_ner/ner.py:42-58 | for a non-empty input, the first entity of the sorted list is kept, first, and no input entity scores higher |
| Resolver.HandleSlicing | src/lexifuzz_ner/ner.py:31-64 | `data['entities']` is replaced by the resolved list, the same dictionary is returned, and no other field changes |
| Annotator.SpliceFound | src/lexifuzz_ner/ner.py:81-97 | when the search succeeds, `[` + entity + `]{id}` replaces the occurrence; the text on either side is unchanged; the text grows by `4 + len(id)`; the cursor moves to one past the occurrence |
| Annotator.SpliceMissed | src/lexifuzz_ner/ner.py:81-97 | when the search fails, the start falls back to 0; the wrapped entity replaces the first `len(entity)` characters; the cursor becomes `len(entity) + 1` |
| Annotator.SpliceLength | src/lexifuzz_ner/ner.py:92-97 | one splice of an entity no longer than the text adds exactly `4 + len(id)` characters |
| Annotator.Annotate | src/lexifuzz_ner/ner.py:73-75 | with an empty entity list the text is returned unchanged |
| Annotator.RunLength | src/lexifuzz_ner/ner.py:75-97 | after the loop the text has grown by `4 + len(id)` per entity |
| Annotator.AnnotateLength | src/lexifuzz_ner/ner.py:73-98 | the annotated text is the original length plus `4 + len(id)` per entity, when no entity is longer than the text |
| Annotator.InOrderCanHitId | src/lexifuzz_ner/ner.py:81-97 | two disjoint entities in text order, `x` with id `a` then `a`, annotate `"x a"` as `"[x]{[a]{q}} a"`: the cursor `start + len + 1` lands on the inserted `]`, so the second search finds `a` inside the first id |
| Annotator.AnnotateText | src/lexifuzz_ner/ner.py:66-98 | the loop's result is the left fold of `Splice` over the entity list in list order |
| Entities.Detection.constructor | src/lexifuzz_ner/ner.py:112-113 | a new result dictionary starts with no entities |

## Left out

- The fuzzy scoring internals (`process.extractOne` with `fuzz.ratio`, ner.py:25) come from the thefuzz library. They are the parameter `bestMatch`, which returns a phrase and a ratio in 0..100.
- `uuid4()` (ner.py:134) is randomness. The ids are an injected sequence `ids`, one per possible candidate, and entity `k` takes `ids[k]`. Distinctness of ids is a hypothesis of `Ner.GenerateMatches`.
- nltk's `ngrams` and Python's `str.split` are restated directly as `Ner.Window` / `Ner.Ngrams` and `PyStr.Split`, not modelled as libraries. The unused `re` and `word_tokenize` imports are ignored.
- The `isinstance` assertions (ner.py:19-21, 39, 71, 108-110) are enforced by Dafny's static types.
- The `ValueError` that `max()` raises on an empty dictionary or an empty phrase list (ner.py:115) is the precondition `Ner.Configured`.
- Matcher.GetFuzzySimilarity: requires every category to have at least one phrase. The source fails (on `None[1]`) only when the loop reaches a category without phrases, so a first hit before such a category is not modelled.
- Annotator.Annotate: no claim that the annotated text is correct as a whole, not even for disjoint entities in text order. After a splice the cursor `start + len + 1` is kept in the coordinates of the text before the splice, so it points at the `]` just inserted and the next search runs through `{id}` first; `Annotator.InOrderCanHitId` shows an entity tagged inside the previous id while its real occurrence stays bare. Annotating twice, or annotating in order, therefore has no general guarantee; only the per-splice facts hold: `SpliceFound`, `SpliceMissed`, `SpliceLength`.
- Annotator.AnnotateLength: the growth of `4 + len(id)` per entity is stated only when no entity is longer than the text. A longer entity that is not found overwrites the whole text, which changes the growth.
- Python strings are modelled as sequences of code points (`seq<char>`). There is no encoding or normalisation.
- The mutable result dictionary is the class `Entities.Detection`. Its entity records are values: `handle_slicing` passes the same dict objects through, and record identity (aliasing) is not modelled.
