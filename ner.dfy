/**
 * `find_entity`: candidate generation over whitespace n-grams, then
 * `handle_slicing` and `annotate_text` on the result dictionary.
 */
module Ner {

  import opened Wrappers
  import opened Seqs
  import opened PyStr
  import opened Entities
  import opened Matcher
  import opened Resolver
  import opened Annotator

  /**
   * The arguments of `find_entity(text, dictionary, min_ratio)`, with the
   * fuzzy scorer it calls made explicit.
   */
  datatype Request = Request(text: string, dictionary: Dictionary, minRatio: int, bestMatch: Scorer)

  /** `max()` raises on an empty sequence: at least one category, and a phrase in each. */
  predicate Configured(dictionary: Dictionary) {
    dictionary != [] && PhrasesPresent(dictionary)
  }

  function Max(a: nat, b: nat): nat {
    if a >= b then a else b
  }

  /** `len(phrase.split())`. */
  function TokenCount(phrase: string): nat {
    |Split(phrase)|
  }

  /** `max(count(phrase) for phrase in phrases)`. */
  function MaxBy(phrases: seq<string>, count: string -> nat): nat
    requires phrases != []
  {
    if |phrases| == 1 then count(phrases[0])
    else Max(MaxBy(phrases[..|phrases| - 1], count), count(phrases[|phrases| - 1]))
  }

  /** `MaxBy` bounds every phrase's count and is reached by one of them. */
  lemma {:induction false} MaxByIsMax(phrases: seq<string>, count: string -> nat)
    requires phrases != []
    ensures forall k :: 0 <= k < |phrases| ==> count(phrases[k]) <= MaxBy(phrases, count)
    ensures exists k :: 0 <= k < |phrases| && count(phrases[k]) == MaxBy(phrases, count)
  {
    if |phrases| > 1 {
      var front := phrases[..|phrases| - 1];
      MaxByIsMax(front, count);
      assert forall k :: 0 <= k < |front| ==> front[k] == phrases[k];
      var k :| 0 <= k < |front| && count(front[k]) == MaxBy(front, count);
      if MaxBy(phrases, count) == MaxBy(front, count) {
        assert count(phrases[k]) == MaxBy(phrases, count);
      } else {
        assert count(phrases[|phrases| - 1]) == MaxBy(phrases, count);
      }
    } else {
      assert count(phrases[0]) == MaxBy(phrases, count);
    }
  }

  /** The largest count of any phrase of any category. */
  function MaxOverCategories(dictionary: Dictionary, count: string -> nat): nat
    requires Configured(dictionary)
  {
    var last := MaxBy(dictionary[|dictionary| - 1].1, count);
    if |dictionary| == 1 then last
    else Max(MaxOverCategories(dictionary[..|dictionary| - 1], count), last)
  }

  lemma {:induction false} MaxOverCategoriesIsMax(dictionary: Dictionary, count: string -> nat)
    requires Configured(dictionary)
    ensures forall i, k :: 0 <= i < |dictionary| && 0 <= k < |dictionary[i].1| ==>
              count(dictionary[i].1[k]) <= MaxOverCategories(dictionary, count)
    ensures exists i, k :: 0 <= i < |dictionary| && 0 <= k < |dictionary[i].1| &&
              count(dictionary[i].1[k]) == MaxOverCategories(dictionary, count)
  {
    var last := |dictionary| - 1;
    MaxByIsMax(dictionary[last].1, count);
    var kl :| 0 <= kl < |dictionary[last].1| && count(dictionary[last].1[kl]) == MaxBy(dictionary[last].1, count);
    if |dictionary| > 1 {
      var front := dictionary[..last];
      MaxOverCategoriesIsMax(front, count);
      assert forall i :: 0 <= i < |front| ==> front[i] == dictionary[i];
      var i, k :| 0 <= i < |front| && 0 <= k < |front[i].1| && count(front[i].1[k]) == MaxOverCategories(front, count);
      if MaxOverCategories(dictionary, count) == MaxOverCategories(front, count) {
        assert count(dictionary[i].1[k]) == MaxOverCategories(dictionary, count);
      } else {
        assert count(dictionary[last].1[kl]) == MaxOverCategories(dictionary, count);
      }
    } else {
      assert count(dictionary[last].1[kl]) == MaxOverCategories(dictionary, count);
    }
  }

  /**
   * `max_ngrams = max([max(len(phrase.split()) for phrase in phrases) for phrases in dictionary.values()])`.
   */
  function MaxNgrams(dictionary: Dictionary): nat
    requires Configured(dictionary)
  {
    MaxOverCategories(dictionary, TokenCount)
  }

  /** `max_ngrams` bounds the token count of every phrase of every category and is reached by one. */
  lemma MaxNgramsIsMax(dictionary: Dictionary)
    requires Configured(dictionary)
    ensures forall i, k :: 0 <= i < |dictionary| && 0 <= k < |dictionary[i].1| ==>
              |Split(dictionary[i].1[k])| <= MaxNgrams(dictionary)
    ensures exists i, k :: 0 <= i < |dictionary| && 0 <= k < |dictionary[i].1| &&
              |Split(dictionary[i].1[k])| == MaxNgrams(dictionary)
  {
    MaxOverCategoriesIsMax(dictionary, TokenCount);
  }

  // ---------------------------------------------------------------------
  // The candidates: for n in range(1, max_ngrams + 1): for g in ngrams(tokens, n)

  /** How many windows `ngrams` yields for `t` tokens and width `n` (none when `n > t`). */
  function NgramCount(t: nat, n: nat): nat {
    if n <= t then t - n + 1 else 0
  }

  /** `' '.join(g)` for the window `g` of `n` tokens starting at token `i`. */
  function Window(tokens: seq<string>, i: nat, n: nat): string
    requires i + n <= |tokens|
  {
    Join(tokens[i..i + n])
  }

  /** The first `i` joined windows of `n` tokens, left to right. */
  function NgramsUpTo(tokens: seq<string>, n: nat, i: nat): (r: seq<string>)
    requires i <= NgramCount(|tokens|, n)
    ensures |r| == i
  {
    if i == 0 then [] else NgramsUpTo(tokens, n, i - 1) + [Window(tokens, i - 1, n)]
  }

  /** One more window, appended after candidates `earlier`. */
  lemma NgramsUpToNext(earlier: seq<string>, tokens: seq<string>, n: nat, i: nat)
    requires i < NgramCount(|tokens|, n)
    ensures earlier + NgramsUpTo(tokens, n, i + 1) == (earlier + NgramsUpTo(tokens, n, i)) + [Window(tokens, i, n)]
  {
    assert NgramsUpTo(tokens, n, i + 1) == NgramsUpTo(tokens, n, i) + [Window(tokens, i, n)];
    AppendAssoc(earlier, NgramsUpTo(tokens, n, i), [Window(tokens, i, n)]);
  }

  /** Entry `j` of the list is the window of `n` tokens starting at token `j`. */
  lemma {:induction false} NgramsUpToWindows(tokens: seq<string>, n: nat, i: nat)
    requires i <= NgramCount(|tokens|, n)
    ensures forall j :: 0 <= j < i ==> j + n <= |tokens| && NgramsUpTo(tokens, n, i)[j] == Window(tokens, j, n)
  {
    if i > 0 {
      NgramsUpToWindows(tokens, n, i - 1);
    }
  }

  /** `[' '.join(g) for g in ngrams(tokens, n)]`: all joined windows of `n` tokens, left to right. */
  function Ngrams(tokens: seq<string>, n: nat): seq<string> {
    NgramsUpTo(tokens, n, NgramCount(|tokens|, n))
  }

  /** How many candidates widths 1 to `maxN` give over `t` tokens. */
  function WindowCount(t: nat, maxN: nat): nat {
    if maxN == 0 then 0 else WindowCount(t, maxN - 1) + NgramCount(t, maxN)
  }

  /** The candidate texts in visiting order: every 1-gram, then every 2-gram, ..., up to `maxN`. */
  function Candidates(tokens: seq<string>, maxN: nat): (r: seq<string>)
    ensures |r| == WindowCount(|tokens|, maxN)
  {
    if maxN == 0 then [] else Candidates(tokens, maxN - 1) + Ngrams(tokens, maxN)
  }

  lemma {:induction false} WindowCountMonotone(t: nat, a: nat, b: nat)
    requires a <= b
    ensures WindowCount(t, a) <= WindowCount(t, b)
    decreases b
  {
    if a < b {
      WindowCountMonotone(t, a, b - 1);
    }
  }

  /**
   * Candidate order: the window of `n` tokens starting at token `i` is
   * visited at position `WindowCount(|tokens|, n - 1) + i`, after every
   * shorter window and after the windows of its own width that start
   * further left.
   */
  lemma {:induction false} CandidateAt(tokens: seq<string>, maxN: nat, n: nat, i: nat)
    requires 1 <= n <= maxN && i + n <= |tokens|
    ensures WindowCount(|tokens|, n - 1) + i < |Candidates(tokens, maxN)|
    ensures Candidates(tokens, maxN)[WindowCount(|tokens|, n - 1) + i] == Window(tokens, i, n)
    decreases maxN
  {
    if n < maxN {
      CandidateAt(tokens, maxN - 1, n, i);
    } else {
      NgramsUpToWindows(tokens, n, NgramCount(|tokens|, n));
    }
  }

  /** Conversely every candidate is some window of 1 to `maxN` tokens. */
  lemma {:induction false} CandidateIsWindow(tokens: seq<string>, maxN: nat, p: nat)
    requires p < |Candidates(tokens, maxN)|
    ensures exists n: nat, i: nat :: 1 <= n <= maxN && i + n <= |tokens| &&
              Candidates(tokens, maxN)[p] == Window(tokens, i, n)
    decreases maxN
  {
    var earlier, last := Candidates(tokens, maxN - 1), Ngrams(tokens, maxN);
    assert Candidates(tokens, maxN) == earlier + last;
    if p < |earlier| {
      CandidateIsWindow(tokens, maxN - 1, p);
      assert Candidates(tokens, maxN)[p] == earlier[p];
    } else {
      var i := p - |earlier|;
      assert Candidates(tokens, maxN)[p] == last[i];
      NgramsUpToWindows(tokens, maxN, NgramCount(|tokens|, maxN));
    }
  }

  /** Every candidate over `text.split()` has between 1 and `maxN` tokens itself. */
  lemma CandidateTokenCount(text: string, maxN: nat, p: nat)
    requires p < |Candidates(Split(text), maxN)|
    ensures 1 <= |Split(Candidates(Split(text), maxN)[p])| <= maxN
  {
    var tokens := Split(text);
    SplitTokens(text);
    CandidateIsWindow(tokens, maxN, p);
    var n: nat, i: nat :| 1 <= n <= maxN && i + n <= |tokens| &&
                         Candidates(tokens, maxN)[p] == Window(tokens, i, n);
    SplitJoin(tokens[i..i + n]);
  }

  // ---------------------------------------------------------------------
  // The scan over the candidates

  /** The loop state of `find_entity`: `result_detection['entities']` and `current_index`. */
  datatype Scanned = Scanned(entities: seq<Entity>, cursor: nat)

  /**
   * Record a match of candidate `c` found at `start`: `end = start + len - 1`,
   * the entity goes under the next fresh id and the cursor moves to `end + 1`.
   */
  function Record(ids: seq<string>, st: Scanned, c: string, m: Match, start: nat): Scanned
    requires |st.entities| < |ids|
  {
    var end := start + |c| - 1;
    Scanned(st.entities + [Entity(ids[|st.entities|], c, m.category, m.score, Span(start, end))], end + 1)
  }

  /** One candidate: on a match, locate it from the cursor (0 when not found) and record it. */
  function Step(req: Request, ids: seq<string>, st: Scanned, c: string): Scanned
    requires PhrasesPresent(req.dictionary) && |st.entities| < |ids|
  {
    var m := GetFuzzySimilarity(c, req.dictionary, req.minRatio, req.bestMatch);
    if m.None? then st else Record(ids, st, c, m.value, Locate(req.text, c, st.cursor))
  }

  /** `Step` on a match, with the start offset already computed as the loop computes it. */
  lemma StepFound(req: Request, ids: seq<string>, st: Scanned, c: string, m: Match, start: nat)
    requires PhrasesPresent(req.dictionary) && |st.entities| < |ids|
    requires GetFuzzySimilarity(c, req.dictionary, req.minRatio, req.bestMatch) == Some(m)
    requires start == (if Find(req.text, c, st.cursor) == -1 then 0 else Find(req.text, c, st.cursor))
    ensures Step(req, ids, st, c) == Record(ids, st, c, m, start)
  {
    assert Locate(req.text, c, st.cursor) == start;
  }

  lemma StepMissed(req: Request, ids: seq<string>, st: Scanned, c: string)
    requires PhrasesPresent(req.dictionary) && |st.entities| < |ids|
    requires GetFuzzySimilarity(c, req.dictionary, req.minRatio, req.bestMatch).None?
    ensures Step(req, ids, st, c) == st
  {
  }

  /** The loop run over the candidates `cands`, in order. */
  function Scan(req: Request, ids: seq<string>, cands: seq<string>): (r: Scanned)
    requires PhrasesPresent(req.dictionary) && |cands| <= |ids|
    ensures |r.entities| <= |cands|
  {
    if cands == [] then Scanned([], 0)
    else Step(req, ids, Scan(req, ids, cands[..|cands| - 1]), cands[|cands| - 1])
  }

  lemma ScanSnoc(req: Request, ids: seq<string>, cands: seq<string>, c: string)
    requires PhrasesPresent(req.dictionary) && |cands| < |ids|
    ensures Scan(req, ids, cands + [c]) == Step(req, ids, Scan(req, ids, cands), c)
  {
    assert (cands + [c])[..|cands|] == cands;
  }

  /** The entities `find_entity` has collected when it calls `handle_slicing`. */
  function Generate(req: Request, ids: seq<string>): seq<Entity>
    requires Configured(req.dictionary)
    requires |ids| >= WindowCount(|Split(req.text)|, MaxNgrams(req.dictionary))
  {
    Scan(req, ids, Candidates(Split(req.text), MaxNgrams(req.dictionary))).entities
  }

  /** The candidates the matcher accepts, in order. */
  function Matched(req: Request, cands: seq<string>): seq<string>
    requires PhrasesPresent(req.dictionary)
  {
    if cands == [] then []
    else
      var c := cands[|cands| - 1];
      Matched(req, cands[..|cands| - 1]) +
      (if GetFuzzySimilarity(c, req.dictionary, req.minRatio, req.bestMatch).Some? then [c] else [])
  }

  function EntityTexts(es: seq<Entity>): seq<string> {
    seq(|es|, k requires 0 <= k < |es| => es[k].entity)
  }

  /** The entity carries the category and score the matcher gives its text. */
  predicate Scored(req: Request, e: Entity)
    requires PhrasesPresent(req.dictionary)
  {
    var m := GetFuzzySimilarity(e.entity, req.dictionary, req.minRatio, req.bestMatch);
    m.Some? && m.value.category == e.category && m.value.score == e.score
  }

  /** Where the cursor stands before entity `k` is located: 0, then one past the previous entity's end. */
  function CursorBefore(es: seq<Entity>, k: nat): int
    requires k <= |es|
  {
    if k == 0 then 0 else es[k - 1].index.end + 1
  }

  /** What one step adds: nothing when the matcher rejects `c`, else one entity for `c`. */
  lemma StepAdds(req: Request, ids: seq<string>, st: Scanned, c: string)
    requires PhrasesPresent(req.dictionary) && |st.entities| < |ids|
    ensures var m := GetFuzzySimilarity(c, req.dictionary, req.minRatio, req.bestMatch);
            var r := Step(req, ids, st, c);
            if m.None? then r == st
            else
              |r.entities| == |st.entities| + 1 &&
              r.entities[..|st.entities|] == st.entities &&
              var e := r.entities[|st.entities|];
              e.entity == c && e.id == ids[|st.entities|] &&
              e.category == m.value.category && e.score == m.value.score &&
              e.index.start == Locate(req.text, c, st.cursor) &&
              e.index.end == e.index.start + |c| - 1 &&
              r.cursor == e.index.end + 1
  {
  }

  /** The scan emits one entity per accepted candidate, in candidate order. */
  lemma {:induction false} ScanMatches(req: Request, ids: seq<string>, cands: seq<string>)
    requires PhrasesPresent(req.dictionary) && |cands| <= |ids|
    ensures EntityTexts(Scan(req, ids, cands).entities) == Matched(req, cands)
  {
    if cands != [] {
      var cands', c := cands[..|cands| - 1], cands[|cands| - 1];
      ScanMatches(req, ids, cands');
      var st' := Scan(req, ids, cands');
      var es', es := st'.entities, Scan(req, ids, cands).entities;
      assert Scan(req, ids, cands) == Step(req, ids, st', c);
      StepAdds(req, ids, st', c);
      if GetFuzzySimilarity(c, req.dictionary, req.minRatio, req.bestMatch).Some? {
        assert Matched(req, cands) == Matched(req, cands') + [c];
        assert EntityTexts(es) == EntityTexts(es') + [c];
      } else {
        assert Matched(req, cands) == Matched(req, cands') + [];
      }
    }
  }

  /** The `k`-th entity the scan emits has id `ids[k]` and the matcher's category and score. */
  lemma {:induction false} ScanScores(req: Request, ids: seq<string>, cands: seq<string>)
    requires PhrasesPresent(req.dictionary) && |cands| <= |ids|
    ensures forall k :: 0 <= k < |Scan(req, ids, cands).entities| ==>
              Scan(req, ids, cands).entities[k].id == ids[k] && Scored(req, Scan(req, ids, cands).entities[k])
  {
    if cands != [] {
      var cands', c := cands[..|cands| - 1], cands[|cands| - 1];
      ScanScores(req, ids, cands');
      var st' := Scan(req, ids, cands');
      var es', es := st'.entities, Scan(req, ids, cands).entities;
      assert Scan(req, ids, cands) == Step(req, ids, st', c);
      StepAdds(req, ids, st', c);
      forall k | 0 <= k < |es|
        ensures es[k].id == ids[k] && Scored(req, es[k])
      {
        if k < |es'| {
          assert es[k] == es'[k];
        }
      }
    }
  }

  /**
   * Entity `k` is placed as `find_entity` places it: `end == start + len - 1`;
   * the start is what `find` returns from the cursor left by the previous
   * entity, so at or after that cursor with the text from start to end equal
   * to the entity's text; or 0 when `find` fails.
   */
  predicate Indexed(text: string, es: seq<Entity>, k: nat)
    requires k < |es|
  {
    var e, cursor := es[k], CursorBefore(es, k);
    e.index.end == e.index.start + |e.entity| - 1 &&
    0 <= cursor &&
    e.index.start == Locate(text, e.entity, cursor) &&
    (Find(text, e.entity, cursor) != -1 ==>
       cursor <= e.index.start &&
       0 <= e.index.start <= e.index.end + 1 <= |text| &&
       text[e.index.start..e.index.end + 1] == e.entity) &&
    (Find(text, e.entity, cursor) == -1 ==> e.index.start == 0)
  }

  /**
   * The indexing of the scan: every entity is `Indexed`, and the final
   * cursor is one past the last entity's end. The cursor is shared by all
   * n-gram widths; it moves back to `len(candidate)` after a failed search.
   */
  lemma {:induction false} ScanIndexing(req: Request, ids: seq<string>, cands: seq<string>)
    requires PhrasesPresent(req.dictionary) && |cands| <= |ids|
    ensures Scan(req, ids, cands).cursor == CursorBefore(Scan(req, ids, cands).entities, |Scan(req, ids, cands).entities|)
    ensures forall k :: 0 <= k < |Scan(req, ids, cands).entities| ==> Indexed(req.text, Scan(req, ids, cands).entities, k)
  {
    if cands != [] {
      var cands', c := cands[..|cands| - 1], cands[|cands| - 1];
      ScanIndexing(req, ids, cands');
      var st' := Scan(req, ids, cands');
      var es', es := st'.entities, Scan(req, ids, cands).entities;
      assert Scan(req, ids, cands) == Step(req, ids, st', c);
      StepAdds(req, ids, st', c);
      if |es| != |es'| {
        forall k | 0 <= k < |es|
          ensures Indexed(req.text, es, k)
        {
          if k < |es'| {
            assert es[k] == es'[k];
            assert CursorBefore(es, k) == CursorBefore(es', k);
            assert Indexed(req.text, es', k);
          } else {
            assert CursorBefore(es, k) == st'.cursor;
            FindOccurrence(req.text, c, st'.cursor);
          }
        }
      }
    }
  }

  /**
   * The entities `find_entity` generates: exactly the accepted candidates,
   * in candidate order, with the matcher's category and score and the ids
   * in injection order (so distinct ids give distinct entity ids).
   */
  lemma GenerateMatches(req: Request, ids: seq<string>)
    requires Configured(req.dictionary)
    requires |ids| >= WindowCount(|Split(req.text)|, MaxNgrams(req.dictionary))
    ensures EntityTexts(Generate(req, ids)) == Matched(req, Candidates(Split(req.text), MaxNgrams(req.dictionary)))
    ensures forall k :: 0 <= k < |Generate(req, ids)| ==>
              Generate(req, ids)[k].id == ids[k] && Scored(req, Generate(req, ids)[k])
    ensures (forall i, j :: 0 <= i < j < |ids| ==> ids[i] != ids[j]) ==>
              forall i, j :: 0 <= i < j < |Generate(req, ids)| ==> Generate(req, ids)[i].id != Generate(req, ids)[j].id
  {
    ScanMatches(req, ids, Candidates(Split(req.text), MaxNgrams(req.dictionary)));
    ScanScores(req, ids, Candidates(Split(req.text), MaxNgrams(req.dictionary)));
  }

  /** Every entity `find_entity` generates is placed as `Indexed` says. */
  lemma GenerateIndexing(req: Request, ids: seq<string>)
    requires Configured(req.dictionary)
    requires |ids| >= WindowCount(|Split(req.text)|, MaxNgrams(req.dictionary))
    ensures forall k :: 0 <= k < |Generate(req, ids)| ==> Indexed(req.text, Generate(req, ids), k)
  {
    ScanIndexing(req, ids, Candidates(Split(req.text), MaxNgrams(req.dictionary)));
  }

  // ---------------------------------------------------------------------
  // find_entity

  /**
   * The body of the inner loop of `find_entity` for one candidate `c`: ask
   * the matcher, and on a match locate `c` from the cursor (0 when `find`
   * fails), set `end = start + len - 1`, move the cursor to `end + 1` and
   * append the entity under the next injected id.
   */
  method Visit(req: Request, ids: seq<string>, c: string, ghost visited: seq<string>,
               entities0: seq<Entity>, cursor0: nat)
    returns (entities: seq<Entity>, cursor: nat)
    requires PhrasesPresent(req.dictionary) && |visited| < |ids|
    requires Scanned(entities0, cursor0) == Scan(req, ids, visited)
    ensures Scanned(entities, cursor) == Scan(req, ids, visited + [c])
  {
    entities, cursor := entities0, cursor0;
    ghost var before := Scan(req, ids, visited);
    ScanSnoc(req, ids, visited, c);
    var similarityScore := GetFuzzySimilarity(c, req.dictionary, req.minRatio, req.bestMatch);
    if similarityScore.Some? {
      var startIndex := Find(req.text, c, cursor);
      if startIndex == -1 {
        startIndex := 0;
      }
      StepFound(req, ids, before, c, similarityScore.value, startIndex);
      var endIndex := startIndex + |c| - 1;
      cursor := endIndex + 1;
      entities := entities + [Entity(ids[|entities|], c, similarityScore.value.category,
                                     similarityScore.value.score, Span(startIndex, endIndex))];
      assert Scanned(entities, cursor) == Record(ids, before, c, similarityScore.value, startIndex);
    } else {
      StepMissed(req, ids, before, c);
    }
  }

  /**
   * The inner loop of `find_entity` for one width `n`: every window of `n`
   * tokens, left to right, is joined and visited. It continues from the
   * state the earlier candidates `earlier` left.
   */
  method ScanWindows(req: Request, ids: seq<string>, tokens: seq<string>, n: nat,
                     ghost earlier: seq<string>, entities0: seq<Entity>, cursor0: nat)
    returns (entities: seq<Entity>, cursor: nat)
    requires PhrasesPresent(req.dictionary)
    requires |earlier| + NgramCount(|tokens|, n) <= |ids|
    requires Scanned(entities0, cursor0) == Scan(req, ids, earlier)
    ensures Scanned(entities, cursor) == Scan(req, ids, earlier + Ngrams(tokens, n))
  {
    entities, cursor := entities0, cursor0;
    assert earlier + NgramsUpTo(tokens, n, 0) == earlier;
    for i := 0 to NgramCount(|tokens|, n)
      invariant Scanned(entities, cursor) == Scan(req, ids, earlier + NgramsUpTo(tokens, n, i))
    {
      var comparedText := Window(tokens, i, n);
      ghost var visited := earlier + NgramsUpTo(tokens, n, i);
      entities, cursor := Visit(req, ids, comparedText, visited, entities, cursor);
      NgramsUpToNext(earlier, tokens, n, i);
    }
  }

  /**
   * The outer loop of `find_entity`: widths 1 to `max_ngrams`, sharing one
   * cursor that is not reset between widths.
   */
  method CollectEntities(req: Request, ids: seq<string>) returns (entities: seq<Entity>)
    requires Configured(req.dictionary)
    requires |ids| >= WindowCount(|Split(req.text)|, MaxNgrams(req.dictionary))
    ensures entities == Generate(req, ids)
  {
    entities := [];
    var tokens := Split(req.text);
    var maxNgrams := MaxNgrams(req.dictionary);
    var currentIndex: nat := 0;
    for n := 1 to maxNgrams + 1
      invariant WindowCount(|tokens|, n - 1) <= |ids|
      invariant Scanned(entities, currentIndex) == Scan(req, ids, Candidates(tokens, n - 1))
    {
      WindowCountMonotone(|tokens|, n, maxNgrams);
      assert Candidates(tokens, n) == Candidates(tokens, n - 1) + Ngrams(tokens, n);
      entities, currentIndex := ScanWindows(req, ids, tokens, n, Candidates(tokens, n - 1), entities, currentIndex);
    }
    assert Scanned(entities, currentIndex).entities == Generate(req, ids);
  }

  /**
   * `find_entity(text, dictionary, min_ratio)`, with `uuid4()` replaced by
   * the injected `ids`: the generated entities, resolved for overlaps, the
   * text, and the annotated text, in a new result dictionary.
   */
  method FindEntity(req: Request, ids: seq<string>) returns (result: Detection)
    requires Configured(req.dictionary)
    requires |ids| >= WindowCount(|Split(req.text)|, MaxNgrams(req.dictionary))
    ensures fresh(result)
    ensures result.entities == Resolve(Generate(req, ids))
    ensures Disjoint(result.entities)
    ensures multiset(result.entities) <= multiset(Generate(req, ids))
    ensures result.text == req.text
    ensures result.textAnnotated == Annotate(req.text, result.entities)
  {
    result := new Detection();
    result.entities := CollectEntities(req, ids);
    ResolveShape(result.entities);
    result := HandleSlicing(result);
    result.text := req.text;
    result.textAnnotated := AnnotateText(result);
  }
}
