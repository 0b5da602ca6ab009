/**
 * `handle_slicing`: the overlap resolver. A stable sort by descending score
 * (`sorted` with key `-score`) followed by a greedy pass that keeps an
 * entity only when its range is disjoint from every range kept before it.
 */
module Resolver {

  import opened Seqs
  import opened Entities

  /** Scores never increase from left to right. */
  predicate Descending(s: seq<Entity>) {
    forall i, j :: 0 <= i < j < |s| ==> s[i].score >= s[j].score
  }

  /** The entities of `s` whose score is `v`, in their order in `s`. */
  function WithScore(s: seq<Entity>, v: int): seq<Entity> {
    if s == [] then []
    else WithScore(s[..|s| - 1], v) + (if s[|s| - 1].score == v then [s[|s| - 1]] else [])
  }

  /** `a` is `b` with some elements left out, the others kept in order. */
  predicate IsSubsequence(a: seq<Entity>, b: seq<Entity>)
    decreases |b|
  {
    a == [] ||
    (b != [] &&
     ((a[|a| - 1] == b[|b| - 1] && IsSubsequence(a[..|a| - 1], b[..|b| - 1])) ||
      IsSubsequence(a, b[..|b| - 1])))
  }

  // ---------------------------------------------------------------------
  // sorted(entities, key=lambda x: -x['score'])

  /** Puts `x` into a descending `r` after every element whose score is at least `x`'s. */
  function InsertByScore(r: seq<Entity>, x: Entity): seq<Entity>
    decreases |r|
  {
    if r == [] || r[|r| - 1].score >= x.score then r + [x]
    else InsertByScore(r[..|r| - 1], x) + [r[|r| - 1]]
  }

  /** Python's stable `sorted` with key `-score`, as an insertion sort. */
  function SortByScore(s: seq<Entity>): seq<Entity> {
    if s == [] then []
    else InsertByScore(SortByScore(s[..|s| - 1]), s[|s| - 1])
  }

  lemma {:induction false} InsertIsPermutation(r: seq<Entity>, x: Entity)
    ensures multiset(InsertByScore(r, x)) == multiset(r) + multiset{x}
    decreases |r|
  {
    if r != [] && r[|r| - 1].score < x.score {
      InsertIsPermutation(r[..|r| - 1], x);
      FrontLast(r);
    }
  }

  /** The sort rearranges its input: same entities, same multiplicities. */
  lemma {:induction false} SortIsPermutation(s: seq<Entity>)
    ensures multiset(SortByScore(s)) == multiset(s)
  {
    if s != [] {
      SortIsPermutation(s[..|s| - 1]);
      InsertIsPermutation(SortByScore(s[..|s| - 1]), s[|s| - 1]);
      FrontLast(s);
    }
  }

  lemma {:induction false} InsertKeepsDescending(r: seq<Entity>, x: Entity)
    requires Descending(r)
    ensures Descending(InsertByScore(r, x))
    decreases |r|
  {
    if r == [] || r[|r| - 1].score >= x.score {
    } else {
      var r', y := r[..|r| - 1], r[|r| - 1];
      InsertKeepsDescending(r', x);
      InsertIsPermutation(r', x);
      var t' := InsertByScore(r', x);
      forall i | 0 <= i < |t'|
        ensures t'[i].score >= y.score
      {
        assert t'[i] in multiset(t');
        if t'[i] != x {
          assert t'[i] in r';
        }
      }
    }
  }

  lemma WithScoreSnoc(s: seq<Entity>, y: Entity, v: int)
    ensures WithScore(s + [y], v) == WithScore(s, v) + (if y.score == v then [y] else [])
  {
    assert (s + [y])[..|s|] == s;
  }

  lemma {:induction false} InsertIsStable(r: seq<Entity>, x: Entity, v: int)
    ensures WithScore(InsertByScore(r, x), v) == WithScore(r, v) + (if x.score == v then [x] else [])
    decreases |r|
  {
    if r == [] || r[|r| - 1].score >= x.score {
      WithScoreSnoc(r, x, v);
    } else {
      var r', y := r[..|r| - 1], r[|r| - 1];
      var xs := if x.score == v then [x] else [];
      var ys := if y.score == v then [y] else [];
      var t' := InsertByScore(r', x);
      var w := WithScore(r', v);
      InsertIsStable(r', x, v);
      WithScoreSnoc(t', y, v);
      WithScoreSnoc(r', y, v);
      FrontLast(r);
      AppendSwap(w, xs, ys);
    }
  }

  lemma AppendSwap(w: seq<Entity>, xs: seq<Entity>, ys: seq<Entity>)
    requires xs == [] || ys == []
    ensures (w + xs) + ys == (w + ys) + xs
  {
  }

  /** The sort orders by descending score. */
  lemma {:induction false} SortIsDescending(s: seq<Entity>)
    ensures Descending(SortByScore(s))
  {
    if s != [] {
      SortIsDescending(s[..|s| - 1]);
      InsertKeepsDescending(SortByScore(s[..|s| - 1]), s[|s| - 1]);
    }
  }

  /** The sort is stable: entities with equal scores keep their input order. */
  lemma {:induction false} SortIsStable(s: seq<Entity>, v: int)
    ensures WithScore(SortByScore(s), v) == WithScore(s, v)
  {
    if s != [] {
      SortIsStable(s[..|s| - 1], v);
      InsertIsStable(SortByScore(s[..|s| - 1]), s[|s| - 1], v);
    }
  }

  // ---------------------------------------------------------------------
  // The greedy pass

  /** `all(start > end_c or end < start_c for (start_c, end_c) in covered)`. */
  predicate Fits(x: Entity, kept: seq<Entity>) {
    forall i :: 0 <= i < |kept| ==> !Overlaps(x.index, kept[i].index)
  }

  /** No two entities share an offset. */
  predicate Disjoint(r: seq<Entity>) {
    forall i, j :: 0 <= i < j < |r| ==> !Overlaps(r[i].index, r[j].index)
  }

  /** The entities `new_entities` holds after the loop has seen `s`. */
  function Greedy(s: seq<Entity>): (r: seq<Entity>)
    ensures Disjoint(r)
  {
    if s == [] then []
    else
      var kept := Greedy(s[..|s| - 1]);
      if Fits(s[|s| - 1], kept) then kept + [s[|s| - 1]] else kept
  }

  /** What `handle_slicing` leaves in `data['entities']`. */
  function Resolve(entities: seq<Entity>): seq<Entity> {
    Greedy(SortByScore(entities))
  }

  lemma {:induction false} GreedyIsSubsequence(s: seq<Entity>)
    ensures IsSubsequence(Greedy(s), s)
  {
    if s != [] {
      var s', x := s[..|s| - 1], s[|s| - 1];
      var kept := Greedy(s');
      GreedyIsSubsequence(s');
      if Fits(x, kept) {
        assert (kept + [x])[..|kept|] == kept;
      }
    }
  }

  /** The entities kept after a prefix of the input are a prefix of those kept after all of it. */
  lemma {:induction false} GreedyPrefix(s: seq<Entity>, j: nat)
    requires j <= |s|
    ensures Greedy(s[..j]) <= Greedy(s)
  {
    if j < |s| {
      var s' := s[..|s| - 1];
      assert s'[..j] == s[..j];
      GreedyPrefix(s', j);
    } else {
      assert s[..j] == s;
    }
  }

  lemma {:induction false} SubsequenceExtend(a: seq<Entity>, b: seq<Entity>, x: Entity)
    requires IsSubsequence(a, b)
    ensures IsSubsequence(a, b + [x]) && IsSubsequence(a + [x], b + [x])
  {
    assert (b + [x])[..|b|] == b;
    assert (a + [x])[..|a|] == a;
  }

  lemma {:induction false} SubsequenceMultiset(a: seq<Entity>, b: seq<Entity>)
    requires IsSubsequence(a, b)
    ensures multiset(a) <= multiset(b)
    decreases |b|
  {
    if a != [] {
      var a', b' := a[..|a| - 1], b[..|b| - 1];
      assert a == a' + [a[|a| - 1]];
      assert b == b' + [b[|b| - 1]];
      if a[|a| - 1] == b[|b| - 1] && IsSubsequence(a', b') {
        SubsequenceMultiset(a', b');
      } else {
        SubsequenceMultiset(a, b');
      }
    }
  }

  lemma {:induction false} SubsequenceDescending(a: seq<Entity>, b: seq<Entity>)
    requires IsSubsequence(a, b) && Descending(b)
    ensures Descending(a)
    decreases |b|
  {
    if a != [] {
      var a', b' := a[..|a| - 1], b[..|b| - 1];
      assert Descending(b');
      if a[|a| - 1] == b[|b| - 1] && IsSubsequence(a', b') {
        SubsequenceDescending(a', b');
        SubsequenceMultiset(a', b');
        forall i | 0 <= i < |a'|
          ensures a'[i].score >= a[|a| - 1].score
        {
          assert a'[i] in multiset(a');
          assert a'[i] in b';
        }
      } else {
        SubsequenceDescending(a, b');
      }
    }
  }

  lemma {:induction false} SubsequenceWithScore(a: seq<Entity>, b: seq<Entity>, v: int)
    requires IsSubsequence(a, b)
    ensures IsSubsequence(WithScore(a, v), WithScore(b, v))
    decreases |b|
  {
    if a != [] {
      var a', b' := a[..|a| - 1], b[..|b| - 1];
      var x, y := a[|a| - 1], b[|b| - 1];
      assert a == a' + [x] && b == b' + [y];
      WithScoreSnoc(a', x, v);
      WithScoreSnoc(b', y, v);
      if x == y && IsSubsequence(a', b') {
        SubsequenceWithScore(a', b', v);
        if y.score == v {
          SubsequenceExtend(WithScore(a', v), WithScore(b', v), y);
        } else {
          assert WithScore(a, v) == WithScore(a', v) + [];
          assert WithScore(a', v) + [] == WithScore(a', v);
          assert WithScore(b, v) == WithScore(b', v) + [];
          assert WithScore(b', v) + [] == WithScore(b', v);
        }
      } else {
        SubsequenceWithScore(a, b', v);
        if y.score == v {
          SubsequenceExtend(WithScore(a, v), WithScore(b', v), y);
        } else {
          assert WithScore(b', v) + [] == WithScore(b', v);
        }
      }
    }
  }

  /**
   * The output of `handle_slicing`: pairwise disjoint ranges, a subsequence
   * of the stable descending sort of the input, so scores never increase,
   * only input records are kept (never altered, never duplicated), and
   * among equal scores the input order survives.
   */
  lemma ResolveShape(entities: seq<Entity>)
    ensures Disjoint(Resolve(entities))
    ensures IsSubsequence(Resolve(entities), SortByScore(entities))
    ensures Descending(Resolve(entities))
    ensures multiset(Resolve(entities)) <= multiset(entities)
    ensures forall v :: IsSubsequence(WithScore(Resolve(entities), v), WithScore(entities, v))
  {
    var t := SortByScore(entities);
    GreedyIsSubsequence(t);
    SortIsDescending(entities);
    SubsequenceDescending(Greedy(t), t);
    SubsequenceMultiset(Greedy(t), t);
    SortIsPermutation(entities);
    forall v
      ensures IsSubsequence(WithScore(Resolve(entities), v), WithScore(entities, v))
    {
      SubsequenceWithScore(Greedy(t), t, v);
      SortIsStable(entities, v);
    }
  }

  /** An entity kept after a prefix of a descending list scores at least as high as the next one. */
  lemma KeptBeforeScoresHigher(t: seq<Entity>, j: nat, e: Entity)
    requires Descending(t) && j < |t|
    requires e in Greedy(t[..j])
    ensures e.score >= t[j].score
  {
    GreedyIsSubsequence(t[..j]);
    SubsequenceMultiset(Greedy(t[..j]), t[..j]);
    assert e in multiset(Greedy(t[..j]));
    assert e in t[..j];
  }

  /** In the descending list `t`, an entity left out overlaps a kept one scoring at least as high. */
  lemma GreedyDominance(t: seq<Entity>, j: nat)
    requires Descending(t) && j < |t|
    ensures t[j] in Greedy(t) ||
            exists e :: e in Greedy(t) && Overlaps(e.index, t[j].index) && e.score >= t[j].score
  {
    var kept := Greedy(t[..j]);
    assert t[..j + 1][..j] == t[..j];
    if Fits(t[j], kept) {
      GreedyPrefix(t, j + 1);
      assert Greedy(t[..j + 1]) == kept + [t[j]];
      assert t[j] in Greedy(t[..j + 1]);
    } else {
      GreedyPrefix(t, j);
      var i :| 0 <= i < |kept| && Overlaps(t[j].index, kept[i].index);
      KeptBeforeScoresHigher(t, j, kept[i]);
      assert kept[i] in Greedy(t);
    }
  }

  /**
   * Every entity `handle_slicing` drops overlaps an entity it keeps whose
   * score is at least as high.
   */
  lemma ResolveDominance(entities: seq<Entity>)
    ensures forall x :: x in entities ==>
              x in Resolve(entities) ||
              exists e :: e in Resolve(entities) && Overlaps(e.index, x.index) && e.score >= x.score
  {
    var t := SortByScore(entities);
    SortIsDescending(entities);
    SortIsPermutation(entities);
    forall x | x in entities
      ensures x in Resolve(entities) ||
              exists e :: e in Resolve(entities) && Overlaps(e.index, x.index) && e.score >= x.score
    {
      assert x in multiset(t);
      var j :| 0 <= j < |t| && t[j] == x;
      GreedyDominance(t, j);
    }
  }

  /** A non-empty input always keeps its highest-scoring first entity, first. */
  lemma ResolveKeepsBest(entities: seq<Entity>)
    requires entities != []
    ensures Resolve(entities) != []
    ensures Resolve(entities)[0] == SortByScore(entities)[0]
    ensures forall x :: x in entities ==> Resolve(entities)[0].score >= x.score
  {
    var t := SortByScore(entities);
    SortIsDescending(entities);
    SortIsPermutation(entities);
    GreedyPrefix(t, 1);
    assert t[..1][..0] == [];
    assert Greedy(t[..1]) == [t[0]];
    forall x | x in entities
      ensures t[0].score >= x.score
    {
      assert x in multiset(t);
    }
  }

  /**
   * `handle_slicing(data)`: replaces `data['entities']` by the resolved list
   * and returns the same dictionary; nothing else in it changes.
   */
  method HandleSlicing(data: Detection) returns (r: Detection)
    modifies data`entities
    ensures r == data
    ensures data.entities == Resolve(old(data.entities))
  {
    var sorted := SortByScore(data.entities);
    var covered: set<(int, int)> := {};
    var kept: seq<Entity> := [];
    for i := 0 to |sorted|
      invariant kept == Greedy(sorted[..i])
      invariant covered == set e | e in kept :: (e.index.start, e.index.end)
    {
      var entity := sorted[i];
      var start, end := entity.index.start, entity.index.end;
      assert sorted[..i + 1][..i] == sorted[..i];
      var free := forall p | p in covered :: start > p.1 || end < p.0;
      assert free == Fits(entity, kept) by {
        if !free {
          var p :| p in covered && !(start > p.1 || end < p.0);
          var e :| e in kept && p == (e.index.start, e.index.end);
          var k :| 0 <= k < |kept| && kept[k] == e;
        } else {
          forall k | 0 <= k < |kept|
            ensures !Overlaps(entity.index, kept[k].index)
          {
            assert (kept[k].index.start, kept[k].index.end) in covered;
          }
        }
      }
      if free {
        kept := kept + [entity];
        covered := covered + {(start, end)};
      }
    }
    assert sorted[..|sorted|] == sorted;
    data.entities := kept;
    r := data;
  }
}
