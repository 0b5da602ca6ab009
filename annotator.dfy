/**
 * `annotate_text`: wraps each entity's text in the working text as
 * `[` + entity + `]{id}`, in list order. Each search starts from a cursor
 * kept in the coordinates of the text before the splice, so after a splice
 * it points into the markers just inserted (see `InOrderCanHitId`).
 */
module Annotator {

  import opened PyStr
  import opened Entities

  /** The end marker `]{id}`. */
  function EndTag(id: string): string {
    "]{" + id + "}"
  }

  /** The whole wrapped form `[entity]{id}` of an entity. */
  function Tagged(e: Entity): string {
    "[" + e.entity + EndTag(e.id)
  }

  function Min(a: int, b: int): int {
    if a <= b then a else b
  }

  /** The loop variables of `annotate_text`: the working `text` and `current_index`. */
  datatype Progress = Progress(text: string, cursor: nat)

  /**
   * One iteration of the loop: locate the entity from the cursor (0 when
   * `find` fails), splice `[` + entity + `]{id}` over `text[start:end]`
   * and move the cursor to `end + 1`. Python's slice `text[end:]` stops at
   * the end of the text, hence the `Min`.
   */
  function Splice(p: Progress, e: Entity): Progress {
    var start := Locate(p.text, e.entity, p.cursor);
    var end := start + |e.entity|;
    Progress(p.text[..start] + "[" + e.entity + EndTag(e.id) + p.text[Min(end, |p.text|)..], end + 1)
  }

  /**
   * When `find` succeeds from the cursor, the occurrence is wrapped in
   * place, the text on either side is left as it was, the text grows by
   * `4 + len(id)` and the cursor moves to one past the occurrence.
   */
  lemma SpliceFound(p: Progress, e: Entity)
    requires Find(p.text, e.entity, p.cursor) != -1
    ensures var s, n, r := Find(p.text, e.entity, p.cursor), |e.entity|, Splice(p, e);
            p.cursor <= s && s + n <= |p.text| && p.text[s..s + n] == e.entity &&
            |r.text| == |p.text| + 4 + |e.id| &&
            r.text[..s] == p.text[..s] &&
            r.text[s..s + |Tagged(e)|] == Tagged(e) &&
            r.text[s + |Tagged(e)|..] == p.text[s + n..] &&
            r.cursor == s + n + 1
  {
    var s, n := Find(p.text, e.entity, p.cursor), |e.entity|;
    FindOccurrence(p.text, e.entity, p.cursor);
    var r := Splice(p, e);
    assert r.text == p.text[..s] + Tagged(e) + p.text[s + n..];
  }

  /**
   * When `find` fails, the start falls back to 0 and the splice still
   * happens: the wrapped entity replaces the first `len(entity)` characters
   * of the text, and the cursor moves to `len(entity) + 1`.
   */
  lemma SpliceMissed(p: Progress, e: Entity)
    requires Find(p.text, e.entity, p.cursor) == -1
    ensures var n, r := |e.entity|, Splice(p, e);
            |Tagged(e)| <= |r.text| &&
            r.text[..|Tagged(e)|] == Tagged(e) &&
            r.text[|Tagged(e)|..] == p.text[Min(n, |p.text|)..] &&
            r.cursor == n + 1
  {
    var n, r := |e.entity|, Splice(p, e);
    assert r.text == Tagged(e) + p.text[Min(n, |p.text|)..];
  }

  /** An entity no longer than the working text lengthens it by exactly `4 + len(id)`. */
  lemma SpliceLength(p: Progress, e: Entity)
    requires |e.entity| <= |p.text|
    ensures |Splice(p, e).text| == |p.text| + 4 + |e.id|
  {
    if Find(p.text, e.entity, p.cursor) == -1 {
      SpliceMissed(p, e);
    } else {
      SpliceFound(p, e);
    }
  }

  /** `Splice` with the start offset already computed as the loop computes it. */
  lemma SpliceAt(p: Progress, e: Entity, start: int)
    requires start == (if Find(p.text, e.entity, p.cursor) == -1 then 0 else Find(p.text, e.entity, p.cursor))
    ensures 0 <= start <= |p.text|
    ensures Splice(p, e).text == p.text[..start] + "[" + e.entity + EndTag(e.id) + p.text[Min(start + |e.entity|, |p.text|)..]
    ensures Splice(p, e).cursor == start + |e.entity| + 1
  {
  }

  /** The loop run over `es` in list order. */
  function Run(p: Progress, es: seq<Entity>): Progress {
    if es == [] then p else Splice(Run(p, es[..|es| - 1]), es[|es| - 1])
  }

  lemma RunSnoc(p: Progress, es: seq<Entity>, e: Entity)
    ensures Run(p, es + [e]) == Splice(Run(p, es), e)
  {
    assert (es + [e])[..|es|] == es;
  }

  /** `annotate_text({'text': text, 'entities': es})`; the empty list leaves the text as it is. */
  function Annotate(text: string, es: seq<Entity>): (r: string)
    ensures es == [] ==> r == text
  {
    Run(Progress(text, 0), es).text
  }

  /**
   * Entities that are disjoint and in text order can still be tagged in the
   * wrong place: after a splice the cursor stands on the `]` just inserted,
   * so the next search runs through `{id}` first, and a later entity that
   * occurs in the id is wrapped there while its real occurrence stays bare.
   */
  lemma InOrderCanHitId()
    ensures Annotate("x a", [Entity("a", "x", "C", 90, Span(0, 0)), Entity("q", "a", "C", 90, Span(2, 2))])
            == "[x]{[a]{q}} a"
  {
    var e1, e2 := Entity("a", "x", "C", 90, Span(0, 0)), Entity("q", "a", "C", 90, Span(2, 2));
    var p0 := Progress("x a", 0);
    assert "x a"[0..1] == "x";
    assert Find("x a", "x", 0) == 0;
    var p1 := Splice(p0, e1);
    assert "x a"[1..] == " a";
    assert p1.text == "[x]{a} a" && p1.cursor == 2;
    var t := "[x]{a} a";
    assert t[2..3] != "a" by { assert t[2..3][0] == ']'; }
    assert t[3..4] != "a" by { assert t[3..4][0] == '{'; }
    assert t[4..5] == "a";
    assert Find(t, "a", 2) == 4;
    var p2 := Splice(p1, e2);
    assert t[..4] == "[x]{" && t[5..] == "} a";
    assert p2.text == "[x]{[a]{q}} a";
    assert Run(p0, [e1]) == p1;
    assert [e1, e2][..1] == [e1];
    assert Run(p0, [e1, e2]) == p2;
  }

  /** The characters the markers of `es` add: `[`, `]{`, the id and `}` per entity. */
  function Overhead(es: seq<Entity>): nat {
    if es == [] then 0 else Overhead(es[..|es| - 1]) + 4 + |es[|es| - 1].id|
  }

  lemma {:induction false} RunLength(p: Progress, es: seq<Entity>)
    requires forall k :: 0 <= k < |es| ==> |es[k].entity| <= |p.text|
    ensures |Run(p, es).text| == |p.text| + Overhead(es)
  {
    if es != [] {
      var es' := es[..|es| - 1];
      RunLength(p, es');
      SpliceLength(Run(p, es'), es[|es| - 1]);
    }
  }

  /**
   * Each entity, when not longer than the original text, lengthens the
   * working text by exactly its markers, so the annotated text is the
   * original length plus `4 + len(id)` per entity.
   */
  lemma AnnotateLength(text: string, es: seq<Entity>)
    requires forall k :: 0 <= k < |es| ==> |es[k].entity| <= |text|
    ensures |Annotate(text, es)| == |text| + Overhead(es)
  {
    RunLength(Progress(text, 0), es);
  }

  /** `annotate_text(entities)`. */
  method AnnotateText(data: Detection) returns (annotated: string)
    ensures annotated == Annotate(data.text, data.entities)
  {
    var text, entities := data.text, data.entities;
    var currentIndex: nat := 0;
    for k := 0 to |entities|
      invariant text == Run(Progress(data.text, 0), entities[..k]).text
      invariant currentIndex == Run(Progress(data.text, 0), entities[..k]).cursor
    {
      var entity := entities[k];
      assert entities[..k + 1] == entities[..k] + [entity];
      RunSnoc(Progress(data.text, 0), entities[..k], entity);
      var substring := entity.entity;
      var startTag := "[";
      var endTag := EndTag(entity.id);
      var startIndex := Find(text, substring, currentIndex);
      if startIndex == -1 {
        startIndex := 0;
      }
      SpliceAt(Progress(text, currentIndex), entity, startIndex);
      var endIndex := startIndex + |substring|;
      currentIndex := endIndex + 1;
      if startIndex != -1 {
        text := text[..startIndex] + startTag + substring + endTag + text[Min(endIndex, |text|)..];
      }
    }
    assert entities[..|entities|] == entities;
    annotated := text;
  }
}
