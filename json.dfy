/**
 * `JSON.stringify` and `JSON.parse`, kept abstract: a codec is a pair of
 * functions, and the only thing the model relies on is that a value written
 * by `stringify` is read back unchanged by `parse` (which, on other text,
 * may fail: `None` stands for the `SyntaxError` it throws).
 */
module Json {
  import opened Wrappers

  datatype Codec<!T> = Codec(stringify: T -> string, parse: string -> Option<T>)

  /**
   * What the model requires of `JSON.stringify`/`JSON.parse`: the text of a
   * value is never the empty string and parses back to that value.
   */
  ghost predicate Lawful<T(!new)>(codec: Codec<T>) {
    forall v :: codec.stringify(v) != "" && codec.parse(codec.stringify(v)) == Some(v)
  }
}
