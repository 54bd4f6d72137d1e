/**
 * The sentence-embedding model, seen from the outside: a function from text to a vector of fixed
 * dimension. The model's weights and its numerics are not part of this model.
 */
module Embed {
  import opened Vectors

  /** The sentence-embedding model: every text is encoded as a vector of dimension `dim`. */
  datatype Embedder = Embedder(encode: string -> Vector, dim: nat)

  ghost predicate ValidEmbedder(m: Embedder) {
    forall s :: |m.encode(s)| == m.dim
  }
}
