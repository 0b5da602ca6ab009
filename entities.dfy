/** The records that flow through the pipeline. */
module Entities {

  /** `{'start': s, 'end': e}`: inclusive character offsets into the text. */
  datatype Span = Span(start: int, end: int)

  /** One detected entity: `{'id', 'entity', 'category', 'score', 'index'}`. */
  datatype Entity = Entity(id: string, entity: string, category: string, score: int, index: Span)

  /** Two inclusive ranges share at least one offset. */
  predicate Overlaps(a: Span, b: Span) {
    a.start <= b.end && b.start <= a.end
  }

  /**
   * The result dictionary `find_entity` builds and `handle_slicing` updates
   * in place. Before `find_entity` stores the keys 'text' and
   * 'text_annotated', the two string fields hold "".
   */
  class Detection {
    var entities: seq<Entity>
    var text: string
    var textAnnotated: string

    constructor ()
      ensures entities == [] && text == [] && textAnnotated == []
    {
      entities := [];
      text := [];
      textAnnotated := [];
    }
  }
}
