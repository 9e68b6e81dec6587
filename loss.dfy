/**
 * Loss bookkeeping of `compute_loss` (src/cnlpt/models/cnlp.py): which
 * slice of the label tensor a task reads, how far the `task_label_ind`
 * cursor advances, and how each task's loss is folded into the running
 * loss.  The losses themselves (mean squared error, cross entropy) are
 * opaque reals; the label tensor is known by its rank.
 */
module Loss {
  import opened Wrappers

  /** The branch `compute_loss` takes: `num_labels == 1` is tested first,
      then the relation flag, then the tagger flag. */
  datatype LossKind = Regression | RelationLoss | TaggingLoss | ClassificationLoss

  function KindOf(numLabels: int, relations: bool, tagger: bool): LossKind
  {
    if numLabels == 1 then Regression
    else if relations then RelationLoss
    else if tagger then TaggingLoss
    else ClassificationLoss
  }

  /** The label slice a task's loss is computed against, as an index expression. */
  datatype LabelSlice =
    | WholeTensor                      // labels (or labels.view(-1))
    | ThirdAxisRange(lo: int, hi: int)  // labels[:, :, lo:hi] (axis 2; labels of rank 3 or more)
    | InnerColumn(c: int)              // labels[:, :, c]
    | FirstRowInnerColumn(c: int)      // labels[:, 0, c, :]
    | Column(c: int)                   // labels[:, c]
    | FirstRowColumn(c: int)           // labels[:, 0, c]

  /** The errors `compute_loss` can raise.  `TooManyIndices` is torch's
      IndexError for an index expression with more axes than the tensor. */
  datatype LossError =
    | ClassWeightsKeyError(task: string)
    | TooManyIndices(rank: nat)
    | ClassificationRankNotImplemented(rank: nat)

  /** How far a task of this kind moves the label cursor. */
  function Advance(kind: LossKind, seqLen: nat): nat
  {
    match kind
    case Regression => 0
    case RelationLoss => seqLen
    case TaggingLoss => 1
    case ClassificationLoss => 1
  }

  /** The labels a task reads, chosen by its kind and the label tensor's rank,
      and the cursor afterwards. */
  function SelectLabels(kind: LossKind, rank: nat, cursor: int, taskInd: nat, seqLen: nat)
    : (r: Result<(LabelSlice, int), LossError>)
    ensures r.Ok? ==> r.value.1 == cursor + Advance(kind, seqLen)
    ensures r.Err? <==> match kind
      case Regression => false
      case RelationLoss => rank < 3
      case TaggingLoss => rank < 2
      case ClassificationLoss => !(1 <= rank <= 3)
    ensures r.Ok? && kind == RelationLoss ==> r.value.0 == ThirdAxisRange(cursor, cursor + seqLen)
  {
    match kind
    case Regression => Ok((WholeTensor, cursor))
    case RelationLoss =>
      if rank < 3 then Err(TooManyIndices(rank))
      else Ok((ThirdAxisRange(cursor, cursor + seqLen), cursor + seqLen))
    case TaggingLoss =>
      if rank == 2 then Ok((WholeTensor, cursor + 1))
      else if rank == 3 then Ok((InnerColumn(cursor), cursor + 1))
      else if rank < 4 then Err(TooManyIndices(rank))
      else Ok((FirstRowInnerColumn(cursor), cursor + 1))
    case ClassificationLoss =>
      if rank == 1 then Ok((WholeTensor, cursor + 1))
      else if rank == 2 then Ok((Column(taskInd), cursor + 1))
      else if rank == 3 then Ok((FirstRowColumn(taskInd), cursor + 1))
      else Err(ClassificationRankNotImplemented(rank))
  }

  /** Regression and classification slices do not depend on the cursor: a
      classification task is addressed by its task index. */
  lemma SliceIgnoresCursor(kind: LossKind, rank: nat, c1: int, c2: int, taskInd: nat, seqLen: nat)
    requires kind == Regression || kind == ClassificationLoss
    ensures SelectLabels(kind, rank, c1, taskInd, seqLen).Ok? <==> SelectLabels(kind, rank, c2, taskInd, seqLen).Ok?
    ensures SelectLabels(kind, rank, c1, taskInd, seqLen).Ok? ==>
      SelectLabels(kind, rank, c1, taskInd, seqLen).value.0 == SelectLabels(kind, rank, c2, taskInd, seqLen).value.0
  {
  }

  /** Tagging and relation slices are located by the cursor alone. */
  lemma SliceIgnoresTaskIndex(kind: LossKind, rank: nat, cursor: int, t1: nat, t2: nat, seqLen: nat)
    requires kind == TaggingLoss || kind == RelationLoss
    ensures SelectLabels(kind, rank, cursor, t1, seqLen) == SelectLabels(kind, rank, cursor, t2, seqLen)
  {
  }

  /** The class-weight lookup comes first (it is skipped for regression), then
      the slice selection. */
  function LabelsFor(kind: LossKind, taskName: string, classWeights: map<string, Option<seq<real>>>,
                     rank: nat, cursor: int, taskInd: nat, seqLen: nat): (r: Result<(LabelSlice, int), LossError>)
    ensures r.Err? <==> (kind != Regression && taskName !in classWeights)
                        || SelectLabels(kind, rank, cursor, taskInd, seqLen).Err?
    ensures kind != Regression && taskName !in classWeights ==> r == Err(ClassWeightsKeyError(taskName))
    ensures r.Ok? ==> r == SelectLabels(kind, rank, cursor, taskInd, seqLen)
  {
    if kind != Regression && taskName !in classWeights then Err(ClassWeightsKeyError(taskName))
    else SelectLabels(kind, rank, cursor, taskInd, seqLen)
  }

  // ---------------------------------------------------------------------
  // The running loss
  // ---------------------------------------------------------------------

  /** The weight of a later contribution: 1.0, but `final_task_weight` for the
      task with the last index. */
  function TaskWeight(taskInd: nat, numTasks: nat, finalTaskWeight: real): real
  {
    if taskInd + 1 < numTasks then 1.0 else finalTaskWeight
  }

  /** Fold one task's loss in: the first contribution goes in unweighted. */
  function AddLoss(running: Option<real>, taskInd: nat, numTasks: nat, finalTaskWeight: real, taskLoss: real): Option<real>
  {
    match running
    case None => Some(taskLoss)
    case Some(x) => Some(x + TaskWeight(taskInd, numTasks, finalTaskWeight) * taskLoss)
  }

  /** The running loss after the tasks with indices 0 .. |losses| - 1. */
  function Accumulated(losses: seq<real>, numTasks: nat, finalTaskWeight: real): Option<real>
  {
    if losses == [] then None
    else
      var prefix := losses[..|losses| - 1];
      AddLoss(Accumulated(prefix, numTasks, finalTaskWeight), |prefix|, numTasks, finalTaskWeight, losses[|losses| - 1])
  }

  /** One more task's loss, folded in at index |losses|. */
  lemma AccumulatedSnoc(losses: seq<real>, l: real, numTasks: nat, finalTaskWeight: real)
    ensures Accumulated(losses + [l], numTasks, finalTaskWeight)
            == AddLoss(Accumulated(losses, numTasks, finalTaskWeight), |losses|, numTasks, finalTaskWeight, l)
  {
    assert (losses + [l])[..|losses|] == losses;
  }

  function Sum(s: seq<real>): real
  {
    if s == [] then 0.0 else Sum(s[..|s| - 1]) + s[|s| - 1]
  }

  /** Before the last task every contribution has weight one. */
  lemma {:induction false} AccumulatedBeforeLast(losses: seq<real>, numTasks: nat, finalTaskWeight: real)
    requires 0 < |losses| < numTasks
    ensures Accumulated(losses, numTasks, finalTaskWeight) == Some(Sum(losses))
  {
    var prefix := losses[..|losses| - 1];
    if prefix != [] {
      AccumulatedBeforeLast(prefix, numTasks, finalTaskWeight);
    }
  }

  /** The aggregated loss over all tasks: `L_0 + ... + L_(n-2) + final_task_weight * L_(n-1)`
      for two tasks or more, and `L_0` alone for a single task. */
  lemma {:induction false} AccumulatedClosedForm(losses: seq<real>, finalTaskWeight: real)
    requires |losses| > 0
    ensures |losses| == 1 ==> Accumulated(losses, 1, finalTaskWeight) == Some(losses[0])
    ensures |losses| > 1 ==>
      Accumulated(losses, |losses|, finalTaskWeight)
      == Some(Sum(losses[..|losses| - 1]) + finalTaskWeight * losses[|losses| - 1])
  {
    if |losses| > 1 {
      var prefix := losses[..|losses| - 1];
      AccumulatedBeforeLast(prefix, |losses|, finalTaskWeight);
      assert Accumulated(losses, |losses|, finalTaskWeight)
          == AddLoss(Some(Sum(prefix)), |prefix|, |losses|, finalTaskWeight, losses[|losses| - 1]);
      // the solver needs the payload equality before the wrapped one
      assert Accumulated(losses, |losses|, finalTaskWeight).value
          == Sum(losses[..|losses| - 1]) + finalTaskWeight * losses[|losses| - 1];
    } else {
      assert losses[..0] == [];
    }
  }

  /** No contribution, no loss; at least one, some loss. */
  lemma {:induction false} AccumulatedIsNoneIff(losses: seq<real>, numTasks: nat, finalTaskWeight: real)
    ensures Accumulated(losses, numTasks, finalTaskWeight).None? <==> losses == []
  {
  }

  /** The cursor after tasks of the given kinds: the sum of their advances. */
  function CursorAfter(kinds: seq<LossKind>, seqLen: nat): nat
  {
    if kinds == [] then 0 else CursorAfter(kinds[..|kinds| - 1], seqLen) + Advance(kinds[|kinds| - 1], seqLen)
  }

  /** Regression tasks never move the cursor. */
  lemma {:induction false} RegressionKeepsCursor(kinds: seq<LossKind>, seqLen: nat)
    requires forall k :: 0 <= k < |kinds| ==> kinds[k] == Regression
    ensures CursorAfter(kinds, seqLen) == 0
  {
    if kinds != [] {
      RegressionKeepsCursor(kinds[..|kinds| - 1], seqLen);
    }
  }

  /** Without relation tasks the cursor counts the non-regression tasks, so it
      falls behind the task index by one for every regression task. */
  lemma {:induction false} CursorCountsNonRegression(kinds: seq<LossKind>, seqLen: nat)
    requires forall k :: 0 <= k < |kinds| ==> kinds[k] != RelationLoss
    ensures CursorAfter(kinds, seqLen) == |kinds| - RegressionCount(kinds)
  {
    if kinds != [] {
      CursorCountsNonRegression(kinds[..|kinds| - 1], seqLen);
    }
  }

  function RegressionCount(kinds: seq<LossKind>): (c: nat)
    ensures c <= |kinds|
  {
    if kinds == [] then 0
    else RegressionCount(kinds[..|kinds| - 1]) + (if kinds[|kinds| - 1] == Regression then 1 else 0)
  }

  /** The `state` dict of one forward pass. */
  class LossState {
    var loss: Option<real>
    var taskLabelInd: int

    /** `dict(loss=None, task_label_ind=0)`. */
    constructor ()
      ensures loss == None && taskLabelInd == 0
    {
      loss := None;
      taskLabelInd := 0;
    }

    /** `compute_loss` for task `taskInd` of `numTasks`; `taskLoss` gives the
        task's loss against a label slice.  An error leaves the state as it was. */
    method ComputeLoss(taskName: string, numLabels: int, relations: bool, tagger: bool,
                       classWeights: map<string, Option<seq<real>>>, labelsRank: nat,
                       taskInd: nat, numTasks: nat, seqLen: nat, finalTaskWeight: real,
                       taskLoss: LabelSlice -> real)
      returns (r: Result<LabelSlice, LossError>)
      modifies this
      ensures var chosen := LabelsFor(KindOf(numLabels, relations, tagger), taskName, classWeights,
                                      labelsRank, old(taskLabelInd), taskInd, seqLen);
        && r.Ok? == chosen.Ok?
        && (r.Ok? ==> r.value == chosen.value.0
                      && taskLabelInd == chosen.value.1
                      && loss == AddLoss(old(loss), taskInd, numTasks, finalTaskWeight, taskLoss(r.value)))
        && (r.Err? ==> r.error == chosen.error && loss == old(loss) && taskLabelInd == old(taskLabelInd))
    {
      var slice: LabelSlice;
      if numLabels == 1 {
        slice := WholeTensor;
      } else {
        if taskName !in classWeights {
          return Err(ClassWeightsKeyError(taskName));
        }
        if relations {
          if labelsRank < 3 {
            return Err(TooManyIndices(labelsRank));
          }
          slice := ThirdAxisRange(taskLabelInd, taskLabelInd + seqLen);
          taskLabelInd := taskLabelInd + seqLen;
        } else if tagger {
          if labelsRank == 2 {
            slice := WholeTensor;
          } else if labelsRank == 3 {
            slice := InnerColumn(taskLabelInd);
          } else if labelsRank < 4 {
            return Err(TooManyIndices(labelsRank));
          } else {
            slice := FirstRowInnerColumn(taskLabelInd);
          }
          taskLabelInd := taskLabelInd + 1;
        } else {
          if labelsRank == 1 {
            slice := WholeTensor;
          } else if labelsRank == 2 {
            slice := Column(taskInd);
          } else if labelsRank == 3 {
            slice := FirstRowColumn(taskInd);
          } else {
            return Err(ClassificationRankNotImplemented(labelsRank));
          }
          taskLabelInd := taskLabelInd + 1;
        }
      }
      var l := taskLoss(slice);
      if loss.None? {
        loss := Some(l);
      } else {
        var taskWeight := if taskInd + 1 < numTasks then 1.0 else finalTaskWeight;
        loss := Some(loss.value + taskWeight * l);
        assert loss.value == AddLoss(old(loss), taskInd, numTasks, finalTaskWeight, l).value;
      }
      r := Ok(slice);
    }
  }
}
