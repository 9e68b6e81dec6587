/**
 * `RepresentationProjectionLayer` (src/cnlpt/models/cnlp.py): its
 * constructor checks, the shape its `forward` produces in each mode, and
 * the head split `transpose_for_scores`.  The numeric work (dropout, the
 * dense layer, tanh, the scaled dot product, token mean pooling) is not
 * modelled; the shape chain and the index maps are.
 */
module Projection {
  import opened Wrappers

  /** The two `Exception("Inconsistent configuration: ...")` of the constructor,
      and torch's refusal to build the `query`/`key` linear layers with a
      negative number of outputs. */
  datatype ConfigError = HeadsNotPositive | NegativeAllHeadSize(size: int) | TokensWithTaggerOrRelations

  /** The attributes set only in relation mode. */
  datatype RelationHeads = RelationHeads(numAttentionHeads: int, attentionHeadSize: int, allHeadSize: int)

  /** A constructed projection layer. */
  datatype Layer = Layer(
    layerToUse: int,
    tokens: bool,
    tagger: bool,
    relations: bool,
    hiddenSize: nat,
    heads: Option<RelationHeads>)

  /** What a successful constructor guarantees about its layer. */
  predicate Consistent(l: Layer)
  {
    && (l.relations <==> l.heads.Some?)
    && (l.relations ==> l.heads.value.numAttentionHeads > 0 && l.heads.value.allHeadSize >= 0)
    && !(l.tokens && (l.tagger || l.relations))
  }

  /** `RepresentationProjectionLayer.__init__`: the heads check first, then the
      relation layers' `nn.Linear(hidden_size, all_head_size)`, then the tokens check. */
  function NewLayer(hiddenSize: nat, layer: int, tokens: bool, tagger: bool, relations: bool,
                    numAttentionHeads: int, headSize: int): (r: Result<Layer, ConfigError>)
    ensures r.Err? <==> (relations && (numAttentionHeads <= 0 || numAttentionHeads * headSize < 0))
                        || (tokens && (tagger || relations))
    ensures r == Err(HeadsNotPositive) <==> relations && numAttentionHeads <= 0
    ensures r == Err(NegativeAllHeadSize(numAttentionHeads * headSize))
            <==> relations && numAttentionHeads > 0 && headSize < 0
    ensures r.Ok? ==> Consistent(r.value)
    ensures r.Ok? ==> r.value.layerToUse == layer && r.value.tokens == tokens && r.value.tagger == tagger
                      && r.value.relations == relations && r.value.hiddenSize == hiddenSize
    ensures r.Ok? && relations ==> r.value.heads.value.allHeadSize == numAttentionHeads * headSize
                                   && r.value.heads.value.attentionHeadSize == headSize
  {
    if numAttentionHeads <= 0 && relations then Err(HeadsNotPositive)
    else if relations && numAttentionHeads * headSize < 0 then Err(NegativeAllHeadSize(numAttentionHeads * headSize))
    else
      var heads := if relations
        then Some(RelationHeads(numAttentionHeads, headSize, numAttentionHeads * headSize))
        else None;
      if tokens && (tagger || relations) then Err(TokensWithTaggerOrRelations)
      else Ok(Layer(layer, tokens, tagger, relations, hiddenSize, heads))
  }

  /** The shape `forward` returns for a batch of `batch` sequences of `seqLen`
      tokens: the if/elif chain tests tokens, then tagger, then relations. */
  function OutputShape(l: Layer, batch: nat, seqLen: nat): seq<nat>
    requires Consistent(l)
  {
    if l.tokens then [batch, l.hiddenSize]
    else if l.tagger then [batch, seqLen, l.hiddenSize]
    else if l.relations then [batch, seqLen, seqLen, l.heads.value.numAttentionHeads as nat]
    else [batch, l.hiddenSize]
  }

  /** The mode each flag combination ends up in, and the rank of its output:
      token pooling and the default are rank 2, tagging rank 3 (tagger wins
      over relations), the relation grid rank 4 with one score per head. */
  lemma OutputShapeByMode(l: Layer, batch: nat, seqLen: nat)
    requires Consistent(l)
    ensures var shape := OutputShape(l, batch, seqLen);
      && (|shape| == 4 <==> l.relations && !l.tagger)
      && (|shape| == 3 <==> l.tagger)
      && (|shape| == 2 <==> !l.tagger && !l.relations)
      && shape[0] == batch
      && (l.tagger ==> shape[1] == seqLen && shape[2] == l.hiddenSize)
      && (|shape| == 4 ==> shape[1] == shape[2] == seqLen && shape[3] == l.heads.value.numAttentionHeads)
      && (|shape| == 2 ==> shape[1] == l.hiddenSize)
  {
  }

  // ---------------------------------------------------------------------
  // transpose_for_scores as an index map
  // ---------------------------------------------------------------------

  predicate IsShape3<T>(x: seq<seq<seq<T>>>, a: nat, b: nat, c: nat)
  {
    |x| == a && forall i :: 0 <= i < a ==> |x[i]| == b && forall j :: 0 <= j < b ==> |x[i][j]| == c
  }

  predicate IsShape4<T>(x: seq<seq<seq<seq<T>>>>, a: nat, b: nat, c: nat, d: nat)
  {
    |x| == a && forall i :: 0 <= i < a ==> IsShape3(x[i], b, c, d)
  }

  /** `h * size + d` stays inside a row of `heads * size` entries. */
  lemma HeadOffsetInRange(h: nat, d: nat, heads: nat, size: nat)
    requires h < heads && d < size
    ensures h * size + d < heads * size
  {
    HeadEndInRange(h, heads, size);
  }

  /** The offset `k` splits back into head `k / size` and position `k % size`. */
  lemma SplitOffset(k: nat, heads: nat, size: nat)
    requires size > 0 && k < heads * size
    ensures k / size < heads && k % size < size && (k / size) * size + k % size == k
  {
  }

  /** One token's row of `heads * size` entries viewed as `heads` rows of `size`. */
  function SplitRow<T>(row: seq<T>, heads: nat, size: nat): (r: seq<seq<T>>)
    requires |row| == heads * size
    ensures |r| == heads
    ensures forall h :: 0 <= h < heads ==> |r[h]| == size
  {
    seq(heads, h requires 0 <= h < heads => HeadBlock(row, h, heads, size))
  }

  /** The `size` entries of head `h` in a token's row. */
  function HeadBlock<T>(row: seq<T>, h: nat, heads: nat, size: nat): (r: seq<T>)
    requires |row| == heads * size && h < heads
    ensures |r| == size
  {
    HeadEndInRange(h, heads, size);
    row[h * size .. h * size + size]
  }

  /** The end of head `h`'s block lies inside the row. */
  lemma HeadEndInRange(h: nat, heads: nat, size: nat)
    requires h < heads
    ensures h * size + size <= heads * size
  {
    assert h * size + size == (h + 1) * size;
    assert (h + 1) * size <= heads * size by {
      assert h + 1 <= heads;
    }
  }

  /** `x.view(batch, seq, heads, size).permute(0, 2, 1, 3)`. */
  function TransposeForScores<T>(x: seq<seq<seq<T>>>, batch: nat, seqLen: nat, heads: nat, size: nat)
    : (out: seq<seq<seq<seq<T>>>>)
    requires IsShape3(x, batch, seqLen, heads * size)
    ensures IsShape4(out, batch, heads, seqLen, size)
  {
    seq(batch, b requires 0 <= b < batch =>
      seq(heads, h requires 0 <= h < heads =>
        seq(seqLen, s requires 0 <= s < seqLen =>
          SplitRow(x[b][s], heads, size)[h])))
  }

  /** The head split as an index map: `out[b][h][s][d] == x[b][s][h * size + d]`. */
  lemma TransposeForScoresAt<T>(x: seq<seq<seq<T>>>, batch: nat, seqLen: nat, heads: nat, size: nat,
                                b: nat, h: nat, s: nat, d: nat)
    requires IsShape3(x, batch, seqLen, heads * size)
    requires b < batch && h < heads && s < seqLen && d < size
    ensures h * size + d < heads * size
    ensures TransposeForScores(x, batch, seqLen, heads, size)[b][h][s][d] == x[b][s][h * size + d]
  {
    HeadOffsetInRange(h, d, heads, size);
    HeadEndInRange(h, heads, size);
    assert TransposeForScores(x, batch, seqLen, heads, size)[b][h][s] == SplitRow(x[b][s], heads, size)[h];
    assert SplitRow(x[b][s], heads, size)[h] == HeadBlock(x[b][s], h, heads, size);
  }

  /** The inverse reshape: merge the heads back into one row per token. */
  function MergeHeads<T>(y: seq<seq<seq<seq<T>>>>, batch: nat, seqLen: nat, heads: nat, size: nat)
    : (x: seq<seq<seq<T>>>)
    requires size > 0 && IsShape4(y, batch, heads, seqLen, size)
    ensures IsShape3(x, batch, seqLen, heads * size)
  {
    seq(batch, b requires 0 <= b < batch =>
      seq(seqLen, s requires 0 <= s < seqLen =>
        seq(heads * size, k requires 0 <= k < heads * size =>
          SplitOffset(k, heads, size);
          y[b][k / size][s][k % size])))
  }

  /** Splitting into heads loses and invents nothing: merging gives `x` back. */
  lemma TransposeRoundTrip<T>(x: seq<seq<seq<T>>>, batch: nat, seqLen: nat, heads: nat, size: nat)
    requires size > 0 && IsShape3(x, batch, seqLen, heads * size)
    ensures MergeHeads(TransposeForScores(x, batch, seqLen, heads, size), batch, seqLen, heads, size) == x
  {
    var y := TransposeForScores(x, batch, seqLen, heads, size);
    var m := MergeHeads(y, batch, seqLen, heads, size);
    forall b, s | 0 <= b < batch && 0 <= s < seqLen
      ensures m[b][s] == x[b][s]
    {
      forall k | 0 <= k < heads * size
        ensures m[b][s][k] == x[b][s][k]
      {
        SplitOffset(k, heads, size);
        TransposeForScoresAt(x, batch, seqLen, heads, size, b, k / size, s, k % size);
      }
    }
    forall b | 0 <= b < batch
      ensures m[b] == x[b]
    {
    }
  }
}
