/**
 * User-supplied transformer callbacks. They are opaque here: each is an identity
 * that is stored and passed along, never applied.
 */
module Transformers {

  /** The transformer of a parameter type (`SingleTransformer` and friends). */
  datatype Transformer = Transformer(id: nat)

  /** The transformer of a data table type. */
  datatype TableTransformer = TableTransformer(id: nat)

  /** `RawTableTransformer`, attached by a step expression to a table argument. */
  datatype RawTableTransformer = RawTableTransformer(id: nat)

  /** `DocStringTransformer`, attached by a step expression to a doc string argument. */
  datatype DocStringTransformer = DocStringTransformer(id: nat)
}
