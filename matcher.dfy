/**
 * `getFuzzySimilarity`: the category matcher. The fuzzy scorer
 * (`process.extractOne` with `fuzz.ratio`) is a parameter.
 */
module Matcher {

  import opened Wrappers

  /** A similarity ratio as the scorer reports it. */
  type Ratio = r: int | 0 <= r <= 100

  /** The dictionary in its iteration order: category name and its phrases. */
  type Dictionary = seq<(string, seq<string>)>

  /** The best phrase among the given ones for a query, with its ratio. */
  type Scorer = (string, seq<string>) -> (string, Ratio)

  /** `(phrase, score, category)`. */
  datatype Match = Match(phrase: string, score: Ratio, category: string)

  /** The scorer returns nothing for an empty phrase list, which the source then fails on. */
  predicate PhrasesPresent(dictionary: Dictionary) {
    forall i :: 0 <= i < |dictionary| ==> dictionary[i].1 != []
  }

  /** The best ratio of category `i` reaches the threshold. */
  predicate Qualifies(token: string, dictionary: Dictionary, minRatio: int, bestMatch: Scorer, i: nat)
    requires i < |dictionary|
  {
    minRatio <= bestMatch(token, dictionary[i].1).1
  }

  /** The answer built from category `i`. */
  function MatchAt(token: string, dictionary: Dictionary, bestMatch: Scorer, i: nat): Match
    requires i < |dictionary|
  {
    var m := bestMatch(token, dictionary[i].1);
    Match(m.0, m.1, dictionary[i].0)
  }

  /** The loop over the categories, from category `i` on. */
  function FirstHitFrom(token: string, dictionary: Dictionary, minRatio: int, bestMatch: Scorer, i: nat): Option<Match>
    requires i <= |dictionary|
    requires PhrasesPresent(dictionary)
    decreases |dictionary| - i
  {
    if i == |dictionary| then None
    else if Qualifies(token, dictionary, minRatio, bestMatch, i) then Some(MatchAt(token, dictionary, bestMatch, i))
    else FirstHitFrom(token, dictionary, minRatio, bestMatch, i + 1)
  }

  /** The loop from category `i` on answers with the first qualifying category at or after `i`. */
  lemma {:induction false} FirstHitFromIsFirst(token: string, dictionary: Dictionary, minRatio: int, bestMatch: Scorer, i: nat)
    requires i <= |dictionary|
    requires PhrasesPresent(dictionary)
    ensures var r := FirstHitFrom(token, dictionary, minRatio, bestMatch, i);
            (r.None? <==> forall j :: i <= j < |dictionary| ==> !Qualifies(token, dictionary, minRatio, bestMatch, j)) &&
            (r.Some? ==> exists j :: i <= j < |dictionary| && Qualifies(token, dictionary, minRatio, bestMatch, j) &&
                                     (forall k :: i <= k < j ==> !Qualifies(token, dictionary, minRatio, bestMatch, k)) &&
                                     r.value == MatchAt(token, dictionary, bestMatch, j))
    decreases |dictionary| - i
  {
    if i == |dictionary| {
    } else if Qualifies(token, dictionary, minRatio, bestMatch, i) {
      assert FirstHitFrom(token, dictionary, minRatio, bestMatch, i) == Some(MatchAt(token, dictionary, bestMatch, i));
    } else {
      FirstHitFromIsFirst(token, dictionary, minRatio, bestMatch, i + 1);
      var r := FirstHitFrom(token, dictionary, minRatio, bestMatch, i + 1);
      assert FirstHitFrom(token, dictionary, minRatio, bestMatch, i) == r;
      if r.Some? {
        var j :| i + 1 <= j < |dictionary| && Qualifies(token, dictionary, minRatio, bestMatch, j) &&
                 (forall k :: i + 1 <= k < j ==> !Qualifies(token, dictionary, minRatio, bestMatch, k)) &&
                 r.value == MatchAt(token, dictionary, bestMatch, j);
        assert forall k :: i <= k < j ==> !Qualifies(token, dictionary, minRatio, bestMatch, k);
      }
    }
  }

  /**
   * `getFuzzySimilarity`: the result of the loop over every category.
   */
  function GetFuzzySimilarity(token: string, dictionary: Dictionary, minRatio: int, bestMatch: Scorer): Option<Match>
    requires PhrasesPresent(dictionary)
  {
    FirstHitFrom(token, dictionary, minRatio, bestMatch, 0)
  }

  /**
   * The first category, in dictionary order, whose best ratio is at least
   * `minRatio` (a ratio equal to the threshold is accepted); `None` when no
   * category reaches it. Later categories are not consulted, even if one of
   * them would score higher.
   */
  lemma FirstQualifyingCategory(token: string, dictionary: Dictionary, minRatio: int, bestMatch: Scorer)
    requires PhrasesPresent(dictionary)
    ensures var r := GetFuzzySimilarity(token, dictionary, minRatio, bestMatch);
            (r.None? <==> forall j :: 0 <= j < |dictionary| ==> bestMatch(token, dictionary[j].1).1 < minRatio) &&
            (r.Some? ==> exists j :: 0 <= j < |dictionary| && minRatio <= bestMatch(token, dictionary[j].1).1 &&
                                     (forall k :: 0 <= k < j ==> bestMatch(token, dictionary[k].1).1 < minRatio) &&
                                     r.value.category == dictionary[j].0 &&
                                     (r.value.phrase, r.value.score) == bestMatch(token, dictionary[j].1))
  {
    FirstHitFromIsFirst(token, dictionary, minRatio, bestMatch, 0);
    assert forall j :: 0 <= j < |dictionary| ==>
      (Qualifies(token, dictionary, minRatio, bestMatch, j) <==> minRatio <= bestMatch(token, dictionary[j].1).1);
  }

  /**
   * The threshold boundary: a first category scoring exactly `minRatio` is
   * chosen; when every category scores one point below, there is no match.
   */
  lemma ThresholdBoundary(token: string, dictionary: Dictionary, minRatio: int, bestMatch: Scorer)
    requires PhrasesPresent(dictionary)
    ensures |dictionary| > 0 && bestMatch(token, dictionary[0].1).1 == minRatio ==>
              GetFuzzySimilarity(token, dictionary, minRatio, bestMatch) == Some(MatchAt(token, dictionary, bestMatch, 0))
    ensures (forall j :: 0 <= j < |dictionary| ==> bestMatch(token, dictionary[j].1).1 == minRatio - 1) ==>
              GetFuzzySimilarity(token, dictionary, minRatio, bestMatch) == None
  {
    FirstQualifyingCategory(token, dictionary, minRatio, bestMatch);
  }
}
