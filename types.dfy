/** The input shapes a model call accepts, and the padding/truncation side. */
module Types {

  /** A side of a sequence, for padding and truncation. */
  datatype Direction = Left | Right {
    function Value(): string {
      match this
      case Left => "left"
      case Right => "right"
    }
  }

  /**
   * What a caller may pass to a model call: one text, a list of texts, one
   * pair of texts (a tuple) or a list of pairs.
   */
  datatype Batch =
    | Text(text: string)
    | TextList(texts: seq<string>)
    | Pair(first: string, second: string)
    | PairList(pairs: seq<(string, string)>)
  {
    /** Python's `isinstance(batch, list)`: a tuple pair is not a list. */
    predicate IsList() {
      TextList? || PairList?
    }
  }
}
