/** The token embedding table (src/embedding.cc).  A token's embedding is its row of the
    kTokensSize × kEmbeddingSize table, and the same table, read as a matrix, turns a final
    embedding back into one logit per token (weight tying). */
module Embedding {
  import opened Tensors
  import opened ModelCommon

  /** Row `token` of the table: the embedding `Encode` copies out. */
  function TokenRow(cfg: Config, table: seq<real>, token: nat): (r: seq<real>)
    requires cfg.Valid() && |table| == cfg.tokens * cfg.embedding && token < cfg.tokens
    ensures |r| == cfg.embedding
  {
    RowInBounds(token, cfg.tokens, cfg.embedding);
    table[token * cfg.embedding .. token * cfg.embedding + cfg.embedding]
  }

  /** Reference definition of the logits: logit t scores x against token t's own embedding. */
  function TokenLogits(cfg: Config, table: seq<real>, x: seq<real>): (r: seq<real>)
    requires cfg.Valid() && |table| == cfg.tokens * cfg.embedding && |x| == cfg.embedding
    ensures |r| == cfg.tokens
  {
    seq(cfg.tokens, t requires 0 <= t < cfg.tokens => Dot(TokenRow(cfg, table, t), x))
  }

  /** `std::copy` of the range [first, last) of `source` into a fresh tensor. */
  method Copy(source: seq<real>, first: nat, last: nat) returns (r: seq<real>)
    requires first <= last <= |source|
    ensures r == source[first..last]
  {
    var result := new real[last - first];
    for k := 0 to last - first
      invariant result[..k] == source[first..first + k]
    {
      result[k] := source[first + k];
    }
    r := result[..];
  }

  /** `Encode` (src/embedding.cc:13-20): aborts through CHECK unless the token is in
      [0, kTokensSize), and otherwise copies elements [token*E, (token+1)*E) of the table. */
  method Encode(cfg: Config, table: seq<real>, token: int) returns (r: Checked<seq<real>>)
    requires cfg.Valid() && |table| == cfg.tokens * cfg.embedding
    ensures r.Ok? <==> 0 <= token < cfg.tokens
    ensures r.Ok? ==> r.value == TokenRow(cfg, table, token)
  {
    if !(token >= 0 && token < cfg.tokens) {
      return Abort("token >= 0 && token < kTokensSize");
    }
    RowInBounds(token, cfg.tokens, cfg.embedding);
    var copied := Copy(table, token * cfg.embedding, token * cfg.embedding + cfg.embedding);
    r := Ok(copied);
  }

  /** The view `EmbeddingToTokenLogits` lays over the table: the whole table as a
      [kTokensSize, kEmbeddingSize] matrix, which always fits. */
  lemma TableViewFits(cfg: Config, table: seq<real>)
    requires cfg.Valid() && |table| == cfg.tokens * cfg.embedding
    ensures ViewOf(|table|, 0, [cfg.tokens, cfg.embedding]) == Ok(View(0, [cfg.tokens, cfg.embedding]))
  {
    StorageSizeTwo(cfg.tokens, cfg.embedding);
  }

  /** `EmbeddingToTokenLogits` (src/embedding.cc:22-26): the matrix product of the table view
      with x equals the reference logits, so logit t is Dot(embedding of t, x). */
  method EmbeddingToTokenLogits(cfg: Config, table: seq<real>, x: seq<real>) returns (logits: seq<real>)
    requires cfg.Valid() && |table| == cfg.tokens * cfg.embedding && |x| == cfg.embedding
    ensures logits == TokenLogits(cfg, table, x)
  {
    TableViewFits(cfg, table);
    var view := ViewOf(|table|, 0, [cfg.tokens, cfg.embedding]).value;
    logits := MatrixProduct(table, view, x);
    forall t | 0 <= t < cfg.tokens
      ensures logits[t] == TokenLogits(cfg, table, x)[t]
    {
      assert MatrixRow(table, view, t) == TokenRow(cfg, table, t);
    }
  }
}
