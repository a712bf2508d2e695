/** The embedding service (helper.py's `get_embedding`), as an oracle. Only the
    length of a vector matters to the pipeline; its reals stand for floats and
    are never computed with. */
module Embeddings {

  /** The dimension of the index's vector field and of every stored embedding. */
  const EmbeddingDim: nat := 768

  /** What one embedding request yields. */
  datatype Embedding =
    | EmbedFailed              // the request raised (connection or HTTP error)
    | NoVector                 // the response had no "embedding" field
    | Vector(values: seq<real>)

  type Embedder = string -> Embedding
}
