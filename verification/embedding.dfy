/** The embedder's own work: prefix, batch, embed, truncate. */
module Embedding {
  import opened Options
  import opened Vectors
  import opened Indexing

  /** The model: one vector per text of a batch, if it keeps its contract. */
  type Model = seq<string> -> seq<Vector>

  function ApplyPrefix(text: string, prefix: Option<string>): string {
    if prefix.None? then text else prefix.value + text
  }

  function Finish(sqrt: Sqrt, target: Option<int>, v: Vector): Vector {
    if target.None? then v else TruncateAndRenormalize(sqrt, v, target.value)
  }

  /** A model that embeds each text on its own, whatever it is batched with. */
  ghost predicate Pointwise(model: Model, one: string -> Vector) {
    forall batch :: EmbedsEach(model, one, batch)
  }

  ghost predicate EmbedsEach(model: Model, one: string -> Vector, batch: seq<string>) {
    |model(batch)| == |batch| && forall i :: 0 <= i < |batch| ==> model(batch)[i] == one(batch[i])
  }

  /** Batching is invisible: over a pointwise model every chunk gets the vector it would get
      alone, in order, at every batch size. None is the error when the model returns too few or
      too many vectors in all. */
  method EmbedAll(model: Model, ghost one: string -> Vector, sqrt: Sqrt, prefix: Option<string>, target: Option<int>,
                  texts: seq<string>, batchSize: nat)
    returns (r: Option<seq<Vector>>)
    requires batchSize > 0
    ensures r.Some? ==> |r.value| == |texts|
    ensures Pointwise(model, one) ==>
              r.Some? && forall i :: 0 <= i < |texts| ==>
                var v := one(if prefix.Some? then prefix.value + texts[i] else texts[i]);
                r.value[i] == if target.Some? then TruncateAndRenormalize(sqrt, v, target.value) else v
  {
    var prefixed := seq(|texts|, i requires 0 <= i < |texts| => ApplyPrefix(texts[i], prefix));
    var batches := Batched(prefixed, batchSize);
    var vectors: seq<Vector> := [];
    for i := 0 to |batches|
      invariant Pointwise(model, one) ==> Mapped(one, Flatten(batches[..i]), vectors)
    {
      assert batches[..i + 1][..i] == batches[..i];
      assert Pointwise(model, one) ==> EmbedsEach(model, one, batches[i]);
      vectors := vectors + model(batches[i]);
    }
    assert batches[..|batches|] == batches;
    if |vectors| != |texts| { return None; }
    r := Some(seq(|texts|, i requires 0 <= i < |texts| => Finish(sqrt, target, vectors[i])));
  }

  ghost predicate Mapped(one: string -> Vector, texts: seq<string>, vectors: seq<Vector>) {
    |vectors| == |texts| && forall i :: 0 <= i < |texts| ==> vectors[i] == one(texts[i])
  }
}
