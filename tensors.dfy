/**
 * Tensors of the multi-task head as nested sequences over an opaque
 * element type: rank 2 (batch x features), rank 3 (batch x seq x
 * features) and rank 4 (batch x seq x seq x features).
 */
module Tensors {

  datatype Tensor<T> =
    | Rank2(m2: seq<seq<T>>)
    | Rank3(m3: seq<seq<seq<T>>>)
    | Rank4(m4: seq<seq<seq<seq<T>>>>)

  /** `len(t.shape)`. */
  function Rank<T>(t: Tensor<T>): nat
  {
    match t
    case Rank2(_) => 2
    case Rank3(_) => 3
    case Rank4(_) => 4
  }

  /** Every innermost row has `w` entries: the last axis is `w` wide, which
      is what `nn.Linear(w, n)` accepts. */
  predicate HasWidth<T>(t: Tensor<T>, w: int)
  {
    match t
    case Rank2(m) => forall b :: 0 <= b < |m| ==> |m[b]| == w
    case Rank3(m) => forall b, i :: 0 <= b < |m| && 0 <= i < |m[b]| ==> |m[b][i]| == w
    case Rank4(m) =>
      forall b, i, j :: 0 <= b < |m| && 0 <= i < |m[b]| && 0 <= j < |m[b][i]| ==> |m[b][i][j]| == w
  }
}
