/**
 * Prior-task fan-in, `predict_relations_with_previous_logits`
 * (src/cnlpt/models/cnlp.py): a relation grid is widened, prior task by
 * prior task, with each rank-3 (tagging) prior's logits.  The prior is
 * unsqueezed at axis 2 and repeated along it, so grid cell (i, j) gains
 * token i's row of the prior; every other combination is skipped with a
 * warning.
 */
module FanIn {
  import opened Wrappers
  import opened Tensors

  /** The two warnings the loop logs. */
  datatype Warning =
    | PriorShapeNotSupported(priorRank: nat)  // a non-rank-3 prior offered to a relation grid
    | SequenceTaskNotSupported                 // any prior offered to rank-3 features

  /** `torch.cat` refuses tensors whose leading sizes differ. */
  datatype FanInError = ConcatSizeMismatch

  /** `torch.cat((features, aug), 3)` is defined: the repeated prior, of shape
      (batch, seq, features.shape[1], classes), agrees with the grid on its
      first three axes. */
  predicate Fits<T>(f: seq<seq<seq<seq<T>>>>, p: seq<seq<seq<T>>>)
  {
    && |p| == |f|
    && forall b :: 0 <= b < |f| ==> |p[b]| == |f[b]| && forall i :: 0 <= i < |f[b]| ==> |f[b][i]| == |f[b]|
  }

  /** The concatenation: `result[b][i][j] == f[b][i][j] + p[b][i]`. */
  function Augment<T>(f: seq<seq<seq<seq<T>>>>, p: seq<seq<seq<T>>>): (r: seq<seq<seq<seq<T>>>>)
    requires Fits(f, p)
    ensures SameGrid(r, f)
  {
    seq(|f|, b requires 0 <= b < |f| =>
      seq(|f[b]|, i requires 0 <= i < |f[b]| =>
        seq(|f[b][i]|, j requires 0 <= j < |f[b][i]| => f[b][i][j] + p[b][i])))
  }

  /** Two grids with the same batch, row and column counts. */
  predicate SameGrid<T, U>(g: seq<seq<seq<seq<T>>>>, f: seq<seq<seq<seq<U>>>>)
  {
    && |g| == |f|
    && forall b :: 0 <= b < |f| ==> |g[b]| == |f[b]| && forall i :: 0 <= i < |f[b]| ==> |g[b][i]| == |f[b][i]|
  }

  /** One iteration of the loop over prior logits. */
  function Step<T>(features: Tensor<T>, prior: Tensor<T>): Result<(Tensor<T>, seq<Warning>), FanInError>
  {
    match features
    case Rank4(f) =>
      if prior.Rank3? then
        if Fits(f, prior.m3) then Ok((Rank4(Augment(f, prior.m3)), [])) else Err(ConcatSizeMismatch)
      else Ok((features, [PriorShapeNotSupported(Rank(prior))]))
    case Rank3(_) => Ok((features, [SequenceTaskNotSupported]))
    case Rank2(_) => Ok((features, []))
  }

  /** The features after offering them every prior's logits in order, with the
      warnings logged on the way. */
  function FanInOf<T>(features: Tensor<T>, logits: seq<Tensor<T>>): Result<(Tensor<T>, seq<Warning>), FanInError>
  {
    if logits == [] then Ok((features, []))
    else
      match FanInOf(features, logits[..|logits| - 1])
      case Err(e) => Err(e)
      case Ok((g, w)) =>
        match Step(g, logits[|logits| - 1])
        case Err(e) => Err(e)
        case Ok((h, w')) => Ok((h, w + w'))
  }

  /** Once a prefix of the priors has failed, the whole fan-in fails with it. */
  lemma {:induction false} ErrorPersists<T>(features: Tensor<T>, logits: seq<Tensor<T>>, i: nat)
    requires i <= |logits| && FanInOf(features, logits[..i]).Err?
    ensures FanInOf(features, logits) == FanInOf(features, logits[..i])
    decreases |logits|
  {
    if i < |logits| {
      var prefix := logits[..|logits| - 1];
      assert prefix[..i] == logits[..i];
      ErrorPersists(features, prefix, i);
    } else {
      assert logits[..i] == logits;
    }
  }

  /** The loop that rebinds `features` once per prior task. */
  method PredictRelationsWithPreviousLogits<T>(features: Tensor<T>, logits: seq<Tensor<T>>)
    returns (r: Result<(Tensor<T>, seq<Warning>), FanInError>)
    ensures r == FanInOf(features, logits)
  {
    var current := features;
    var warnings: seq<Warning> := [];
    var k := 0;
    while k < |logits|
      invariant 0 <= k <= |logits|
      invariant FanInOf(features, logits[..k]) == Ok((current, warnings))
    {
      var prior := logits[k];
      assert logits[..k + 1][..k] == logits[..k];
      assert logits[..k + 1][k] == prior;
      ghost var before := current;
      var added: seq<Warning> := [];
      match current {
        case Rank4(f) =>
          if prior.Rank3? {
            if !Fits(f, prior.m3) {
              ErrorPersists(features, logits, k + 1);
              return Err(ConcatSizeMismatch);
            }
            current := Rank4(Augment(f, prior.m3));
          } else {
            added := [PriorShapeNotSupported(Rank(prior))];
          }
        case Rank3(_) =>
          added := [SequenceTaskNotSupported];
        case Rank2(_) =>
      }
      assert Step(before, prior) == Ok((current, added));
      warnings := warnings + added;
      k := k + 1;
    }
    assert logits[..|logits|] == logits;
    r := Ok((current, warnings));
  }

  /** The fan-in never changes the rank of the features. */
  lemma {:induction false} FanInKeepsRank<T>(features: Tensor<T>, logits: seq<Tensor<T>>)
    requires FanInOf(features, logits).Ok?
    ensures Rank(FanInOf(features, logits).value.0) == Rank(features)
  {
    if logits != [] {
      FanInKeepsRank(features, logits[..|logits| - 1]);
    }
  }

  // ---------------------------------------------------------------------
  // What the fan-in does to a relation grid
  // ---------------------------------------------------------------------

  /** Token i's rows of every rank-3 prior of example b, concatenated in order. */
  function PriorRows<T>(logits: seq<Tensor<T>>, b: nat, i: nat): seq<T>
  {
    if logits == [] then []
    else
      var p := logits[|logits| - 1];
      PriorRows(logits[..|logits| - 1], b, i)
      + (if p.Rank3? && b < |p.m3| && i < |p.m3[b]| then p.m3[b][i] else [])
  }

  /** One warning per prior that is not rank 3, naming its rank, in order. */
  function GridWarnings<T>(logits: seq<Tensor<T>>): seq<Warning>
  {
    if logits == [] then []
    else
      var p := logits[|logits| - 1];
      GridWarnings(logits[..|logits| - 1]) + (if p.Rank3? then [] else [PriorShapeNotSupported(Rank(p))])
  }

  /** Every rank-3 prior can be concatenated onto the grid. */
  predicate AllFit<T>(f: seq<seq<seq<seq<T>>>>, logits: seq<Tensor<T>>)
  {
    forall k :: 0 <= k < |logits| && logits[k].Rank3? ==> Fits(f, logits[k].m3)
  }

  lemma FitsSameGrid<T>(g: seq<seq<seq<seq<T>>>>, f: seq<seq<seq<seq<T>>>>, p: seq<seq<seq<T>>>)
    requires SameGrid(g, f)
    ensures Fits(g, p) <==> Fits(f, p)
  {
  }

  /** On a relation grid the fan-in succeeds exactly when every rank-3 prior
      fits it; then grid cell (b, i, j) is the original cell followed by token
      i's rows of the rank-3 priors (the same for every j), the grid keeps its
      batch, row and column counts, and each other prior leaves one warning. */
  lemma {:induction false} FanInGrid<T>(f: seq<seq<seq<seq<T>>>>, logits: seq<Tensor<T>>)
    ensures FanInOf(Rank4(f), logits).Ok? <==> AllFit(f, logits)
    ensures FanInOf(Rank4(f), logits).Ok? ==>
      var (out, warnings) := FanInOf(Rank4(f), logits).value;
      && out.Rank4?
      && SameGrid(out.m4, f)
      && (forall b, i, j :: 0 <= b < |f| && 0 <= i < |f[b]| && 0 <= j < |f[b][i]| ==>
            out.m4[b][i][j] == f[b][i][j] + PriorRows(logits, b, i))
      && warnings == GridWarnings(logits)
  {
    if logits != [] {
      var n := |logits|;
      var prefix := logits[..n - 1];
      var p := logits[n - 1];
      FanInGrid(f, prefix);
      assert forall k :: 0 <= k < n - 1 ==> prefix[k] == logits[k];
      if FanInOf(Rank4(f), prefix).Ok? {
        var (g, w) := FanInOf(Rank4(f), prefix).value;
        if p.Rank3? {
          FitsSameGrid(g.m4, f, p.m3);
          if Fits(f, p.m3) {
            var h := Augment(g.m4, p.m3);
            forall b, i, j | 0 <= b < |f| && 0 <= i < |f[b]| && 0 <= j < |f[b][i]|
              ensures h[b][i][j] == f[b][i][j] + PriorRows(logits, b, i)
            {
              assert h[b][i][j] == g.m4[b][i][j] + p.m3[b][i];
              assert PriorRows(logits, b, i) == PriorRows(prefix, b, i) + p.m3[b][i];
            }
          }
        }
      }
    }
  }

  /** Rank-3 features (a tagging task flagged as a relation task) pass through
      unchanged, with one warning per prior task. */
  lemma {:induction false} FanInSequenceFeatures<T>(f: seq<seq<seq<T>>>, logits: seq<Tensor<T>>)
    ensures FanInOf(Rank3(f), logits) == Ok((Rank3(f), seq(|logits|, _ => SequenceTaskNotSupported)))
  {
    if logits != [] {
      var prefix := logits[..|logits| - 1];
      FanInSequenceFeatures(f, prefix);
      assert Step(Rank3(f), logits[|logits| - 1]) == Ok((Rank3(f), [SequenceTaskNotSupported]));
      assert seq(|prefix|, _ => SequenceTaskNotSupported) + [SequenceTaskNotSupported]
          == seq(|logits|, _ => SequenceTaskNotSupported);
    } else {
      assert seq(|logits|, _ => SequenceTaskNotSupported) == [];
    }
  }

  /** Rank-2 features are returned unchanged and silently. */
  lemma {:induction false} FanInPooledFeatures<T>(f: seq<seq<T>>, logits: seq<Tensor<T>>)
    ensures FanInOf(Rank2(f), logits) == Ok((Rank2(f), []))
  {
    if logits != [] {
      var prefix := logits[..|logits| - 1];
      FanInPooledFeatures(f, prefix);
      assert Step(Rank2(f), logits[|logits| - 1]) == Ok((Rank2(f), []));
      var empty: seq<Warning> := [];
      assert empty + empty == empty;
    }
  }

  // ---------------------------------------------------------------------
  // The width the grid gains
  // ---------------------------------------------------------------------

  /** The class count of a rank-3 logits tensor (its last axis). */
  function ClassCount<T>(p: seq<seq<seq<T>>>): nat
  {
    if |p| > 0 && |p[0]| > 0 then |p[0][0]| else 0
  }

  /** A rank-3 tensor whose every row has `ClassCount(p)` entries. */
  predicate Uniform<T>(p: seq<seq<seq<T>>>)
  {
    forall b, i :: 0 <= b < |p| && 0 <= i < |p[b]| ==> |p[b][i]| == ClassCount(p)
  }

  /** The classes of all rank-3 priors. */
  function PriorClasses<T>(logits: seq<Tensor<T>>): nat
  {
    if logits == [] then 0
    else
      var p := logits[|logits| - 1];
      PriorClasses(logits[..|logits| - 1]) + (if p.Rank3? then ClassCount(p.m3) else 0)
  }

  /** Each rank-3 prior adds exactly its class count to the trailing axis. */
  lemma {:induction false} PriorRowsWidth<T>(f: seq<seq<seq<seq<T>>>>, logits: seq<Tensor<T>>, b: nat, i: nat)
    requires AllFit(f, logits)
    requires forall k :: 0 <= k < |logits| && logits[k].Rank3? ==> Uniform(logits[k].m3)
    requires b < |f| && i < |f[b]|
    ensures |PriorRows(logits, b, i)| == PriorClasses(logits)
  {
    if logits != [] {
      var prefix := logits[..|logits| - 1];
      assert forall k :: 0 <= k < |prefix| ==> prefix[k] == logits[k];
      PriorRowsWidth(f, prefix, b, i);
    }
  }
}
