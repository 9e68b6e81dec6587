/**
 * The task loop of `CnlpModelForClassification.forward`
 * (src/cnlpt/models/cnlp.py): for every task in order, the task's
 * features (the projection layer's output, an input here) are fanned in
 * with the logits of the earlier tasks when prior tasks are used and the
 * task is a relation task, classified, and, when labels are given, scored
 * by `compute_loss`, which moves the label cursor and folds the task's
 * loss into the running loss.  The classifier's `out_proj` refuses features
 * whose last axis is not its input width; otherwise the classifier and the
 * loss functions are parameters: their numerics are not modelled.
 */
module Forward {
  import opened Wrappers
  import opened Tensors
  import FanIn
  import Loss
  import Heads
  import Projection

  /** What the loop can raise, with the task it was at. */
  datatype ForwardError =
    | FanInFailed(task: string, fanIn: FanIn.FanInError)
    | ClassifierWidthMismatch(task: string, inWidth: int)
    | LossFailed(task: string, loss: Loss.LossError)

  /** The parts of the model `forward` reads: one head per task, in the order
      of `self.tasks`, taken to be the label dictionary's keys in order. */
  datatype Model = Model(
    heads: seq<Heads.TaskHead>,
    usePriorTasks: bool,
    classWeights: map<string, Option<seq<real>>>,
    finalTaskWeight: real)

  /** The loop's accumulators after some tasks: the logits list, the logged
      warnings, and, for tasks scored against labels, the label slices, the
      task losses and the label cursor. */
  datatype Pass<T> = Pass(
    logits: seq<Tensor<T>>,
    warnings: seq<FanIn.Warning>,
    slices: seq<Loss.LabelSlice>,
    losses: seq<real>,
    cursor: int)

  /** The `SequenceClassifierOutput` fields the loop fills in. */
  datatype Output<T> = Output(loss: Option<real>, logits: seq<Tensor<T>>, warnings: seq<FanIn.Warning>)

  /** The `compute_loss` branch of a head. */
  function KindOfHead(h: Heads.TaskHead): Loss.LossKind
  {
    Loss.KindOf(h.classifier.numLabels, h.extractor.relations, h.extractor.tagger)
  }

  function Kinds(heads: seq<Heads.TaskHead>): (r: seq<Loss.LossKind>)
    ensures |r| == |heads| && forall k :: 0 <= k < |heads| ==> r[k] == KindOfHead(heads[k])
  {
    seq(|heads|, k requires 0 <= k < |heads| => KindOfHead(heads[k]))
  }

  /** Whether task `k`'s features go through the prior-task fan-in. */
  predicate FansIn(m: Model, k: nat)
    requires k < |m.heads|
  {
    m.usePriorTasks && m.heads[k].extractor.relations
  }

  /** The features task `k`'s classifier receives, with the fan-in's warnings. */
  function Fed<T>(m: Model, k: nat, features: Tensor<T>, logits: seq<Tensor<T>>)
    : Result<(Tensor<T>, seq<FanIn.Warning>), FanIn.FanInError>
    requires k < |m.heads|
  {
    if FansIn(m, k) then FanIn.FanInOf(features, logits) else Ok((features, []))
  }

  /** Task `t`'s iteration on top of the accumulators `p`.  `features[t]` is
      task t's extractor output, `classify(t, x)` its classifier applied to
      `x`, `labelsRank` the rank of the label tensor (None for `labels=None`),
      and `taskLoss(t, logits, slice)` its loss against a label slice. */
  function TaskStep<T>(m: Model, features: seq<Tensor<T>>, classify: (nat, Tensor<T>) -> Tensor<T>,
                       labelsRank: Option<nat>, seqLen: nat,
                       taskLoss: (nat, Tensor<T>, Loss.LabelSlice) -> real, t: nat, p: Pass<T>): Result<Pass<T>, ForwardError>
    requires |features| == |m.heads| && t < |m.heads|
  {
    var h := m.heads[t];
    match Fed(m, t, features[t], p.logits)
    case Err(e) => Err(FanInFailed(h.name, e))
    case Ok((fed, w)) =>
      if !HasWidth(fed, h.classifier.inWidth) then Err(ClassifierWidthMismatch(h.name, h.classifier.inWidth))
      else
        var taskLogits := classify(t, fed);
        if labelsRank.None? then
          Ok(Pass(p.logits + [taskLogits], p.warnings + w, p.slices, p.losses, p.cursor))
        else
          match Loss.LabelsFor(KindOfHead(h), h.name, m.classWeights, labelsRank.value, p.cursor, t, seqLen)
          case Err(e) => Err(LossFailed(h.name, e))
          case Ok((slice, cursor)) =>
            Ok(Pass(p.logits + [taskLogits], p.warnings + w, p.slices + [slice],
                    p.losses + [taskLoss(t, taskLogits, slice)], cursor))
  }

  /** The loop after its first `k` tasks. */
  function RunOf<T>(m: Model, features: seq<Tensor<T>>, classify: (nat, Tensor<T>) -> Tensor<T>,
                    labelsRank: Option<nat>, seqLen: nat,
                    taskLoss: (nat, Tensor<T>, Loss.LabelSlice) -> real, k: nat): Result<Pass<T>, ForwardError>
    requires |features| == |m.heads| && k <= |m.heads|
  {
    if k == 0 then Ok(Pass([], [], [], [], 0))
    else
      match RunOf(m, features, classify, labelsRank, seqLen, taskLoss, k - 1)
      case Err(e) => Err(e)
      case Ok(p) => TaskStep(m, features, classify, labelsRank, seqLen, taskLoss, k - 1, p)
  }

  /** The result of the whole loop: `state["loss"]`, the logits list and the warnings. */
  function ForwardOf<T>(m: Model, features: seq<Tensor<T>>, classify: (nat, Tensor<T>) -> Tensor<T>,
                        labelsRank: Option<nat>, seqLen: nat,
                        taskLoss: (nat, Tensor<T>, Loss.LabelSlice) -> real): Result<Output<T>, ForwardError>
    requires |features| == |m.heads|
  {
    match RunOf(m, features, classify, labelsRank, seqLen, taskLoss, |m.heads|)
    case Err(e) => Err(e)
    case Ok(p) => Ok(Output(Loss.Accumulated(p.losses, |m.heads|, m.finalTaskWeight), p.logits, p.warnings))
  }

  /** Once the loop has raised, it has raised for good. */
  lemma {:induction false} RunErrorPersists<T>(m: Model, features: seq<Tensor<T>>, classify: (nat, Tensor<T>) -> Tensor<T>,
                                              labelsRank: Option<nat>, seqLen: nat,
                                              taskLoss: (nat, Tensor<T>, Loss.LabelSlice) -> real, i: nat, k: nat)
    requires |features| == |m.heads| && i <= k <= |m.heads|
    requires RunOf(m, features, classify, labelsRank, seqLen, taskLoss, i).Err?
    ensures RunOf(m, features, classify, labelsRank, seqLen, taskLoss, k) == RunOf(m, features, classify, labelsRank, seqLen, taskLoss, i)
    decreases k
  {
    if i < k {
      RunErrorPersists(m, features, classify, labelsRank, seqLen, taskLoss, i, k - 1);
    }
  }

  /** The step of task k on top of the loop's first k tasks. */
  lemma RunNext<T>(m: Model, features: seq<Tensor<T>>, classify: (nat, Tensor<T>) -> Tensor<T>,
                   labelsRank: Option<nat>, seqLen: nat,
                   taskLoss: (nat, Tensor<T>, Loss.LabelSlice) -> real, k: nat, p: Pass<T>)
    requires |features| == |m.heads| && k < |m.heads|
    requires RunOf(m, features, classify, labelsRank, seqLen, taskLoss, k) == Ok(p)
    ensures var fed := Fed(m, k, features[k], p.logits);
      fed.Err? ==> RunOf(m, features, classify, labelsRank, seqLen, taskLoss, k + 1)
                   == Err(FanInFailed(m.heads[k].name, fed.error))
    ensures var fed := Fed(m, k, features[k], p.logits);
      fed.Ok? && !HasWidth(fed.value.0, m.heads[k].classifier.inWidth) ==>
        RunOf(m, features, classify, labelsRank, seqLen, taskLoss, k + 1)
        == Err(ClassifierWidthMismatch(m.heads[k].name, m.heads[k].classifier.inWidth))
    ensures var fed := Fed(m, k, features[k], p.logits);
      fed.Ok? && HasWidth(fed.value.0, m.heads[k].classifier.inWidth) && labelsRank.None? ==>
        RunOf(m, features, classify, labelsRank, seqLen, taskLoss, k + 1)
        == Ok(Pass(p.logits + [classify(k, fed.value.0)], p.warnings + fed.value.1, p.slices, p.losses, p.cursor))
    ensures labelsRank.Some? ==>
      var fed := Fed(m, k, features[k], p.logits);
      var chosen := Loss.LabelsFor(KindOfHead(m.heads[k]), m.heads[k].name, m.classWeights,
                                   labelsRank.value, p.cursor, k, seqLen);
      fed.Ok? && HasWidth(fed.value.0, m.heads[k].classifier.inWidth) && chosen.Err? ==>
        RunOf(m, features, classify, labelsRank, seqLen, taskLoss, k + 1)
        == Err(LossFailed(m.heads[k].name, chosen.error))
    ensures labelsRank.Some? ==>
      var fed := Fed(m, k, features[k], p.logits);
      var chosen := Loss.LabelsFor(KindOfHead(m.heads[k]), m.heads[k].name, m.classWeights,
                                   labelsRank.value, p.cursor, k, seqLen);
      fed.Ok? && HasWidth(fed.value.0, m.heads[k].classifier.inWidth) && chosen.Ok? ==>
        RunOf(m, features, classify, labelsRank, seqLen, taskLoss, k + 1)
        == Ok(Pass(p.logits + [classify(k, fed.value.0)], p.warnings + fed.value.1, p.slices + [chosen.value.0],
                   p.losses + [taskLoss(k, classify(k, fed.value.0), chosen.value.0)], chosen.value.1))
  {
  }

  /** One iteration of the loop of `forward`, for task `t`: the fan-in when the
      task takes prior logits, the classifier, and `compute_loss` when labels
      are given.  `p` is the loop's accumulators so far; `q` the ones after
      this task, the logits tensor and the warnings being `r`'s. */
  method TaskForward<T>(m: Model, features: seq<Tensor<T>>, classify: (nat, Tensor<T>) -> Tensor<T>,
                        labelsRank: Option<nat>, seqLen: nat,
                        taskLoss: (nat, Tensor<T>, Loss.LabelSlice) -> real,
                        t: nat, logits: seq<Tensor<T>>, state: Loss.LossState, ghost p: Pass<T>)
    returns (r: Result<(Tensor<T>, seq<FanIn.Warning>), ForwardError>, ghost q: Pass<T>)
    requires |features| == |m.heads| && t < |m.heads|
    requires p.logits == logits && p.cursor == state.taskLabelInd
    requires state.loss == Loss.Accumulated(p.losses, |m.heads|, m.finalTaskWeight)
    requires labelsRank.Some? ==> |p.losses| == t
    modifies state
    ensures r.Err? ==> TaskStep(m, features, classify, labelsRank, seqLen, taskLoss, t, p) == Err(r.error)
    ensures r.Ok? ==>
      && TaskStep(m, features, classify, labelsRank, seqLen, taskLoss, t, p) == Ok(q)
      && q.logits == logits + [r.value.0]
      && q.warnings == p.warnings + r.value.1
      && q.cursor == state.taskLabelInd
      && state.loss == Loss.Accumulated(q.losses, |m.heads|, m.finalTaskWeight)
      && (labelsRank.Some? ==> |q.losses| == t + 1)
  {
    var h := m.heads[t];
    var fed := features[t];
    var w: seq<FanIn.Warning> := [];
    if m.usePriorTasks && h.extractor.relations {
      var f := FanIn.PredictRelationsWithPreviousLogits(fed, logits);
      if f.Err? {
        return Err(FanInFailed(h.name, f.error)), p;
      }
      fed, w := f.value.0, f.value.1;
    }
    assert Fed(m, t, features[t], logits) == Ok((fed, w));
    if !HasWidth(fed, h.classifier.inWidth) {
      return Err(ClassifierWidthMismatch(h.name, h.classifier.inWidth)), p;
    }
    var taskLogits := classify(t, fed);
    q := Pass(p.logits + [taskLogits], p.warnings + w, p.slices, p.losses, p.cursor);
    if labelsRank.Some? {
      var c := state.ComputeLoss(h.name, h.classifier.numLabels, h.extractor.relations, h.extractor.tagger,
                                 m.classWeights, labelsRank.value, t, |m.heads|, seqLen, m.finalTaskWeight,
                                 s => taskLoss(t, taskLogits, s));
      if c.Err? {
        return Err(LossFailed(h.name, c.error)), p;
      }
      ghost var l := taskLoss(t, taskLogits, c.value);
      Loss.AccumulatedSnoc(p.losses, l, |m.heads|, m.finalTaskWeight);
      q := Pass(q.logits, q.warnings, p.slices + [c.value], p.losses + [l], state.taskLabelInd);
    }
    r := Ok((taskLogits, w));
  }

  /** The loop of `forward`, running the tasks in order and raising at the first error. */
  method Forward<T>(m: Model, features: seq<Tensor<T>>, classify: (nat, Tensor<T>) -> Tensor<T>,
                    labelsRank: Option<nat>, seqLen: nat,
                    taskLoss: (nat, Tensor<T>, Loss.LabelSlice) -> real)
    returns (r: Result<Output<T>, ForwardError>)
    requires |features| == |m.heads|
    ensures r == ForwardOf(m, features, classify, labelsRank, seqLen, taskLoss)
  {
    var n := |m.heads|;
    var logits: seq<Tensor<T>> := [];
    var warnings: seq<FanIn.Warning> := [];
    var state := new Loss.LossState();
    ghost var pass: Pass<T> := Pass([], [], [], [], 0);
    var taskInd := 0;
    while taskInd < n
      invariant 0 <= taskInd <= n
      invariant RunOf(m, features, classify, labelsRank, seqLen, taskLoss, taskInd) == Ok(pass)
      invariant pass.logits == logits && pass.warnings == warnings && pass.cursor == state.taskLabelInd
      invariant state.loss == Loss.Accumulated(pass.losses, n, m.finalTaskWeight)
      invariant labelsRank.Some? ==> |pass.losses| == taskInd
    {
      var step, next := TaskForward(m, features, classify, labelsRank, seqLen, taskLoss, taskInd, logits, state, pass);
      assert RunOf(m, features, classify, labelsRank, seqLen, taskLoss, taskInd + 1) == TaskStep(m, features, classify, labelsRank, seqLen, taskLoss, taskInd, pass);
      if step.Err? {
        RunErrorPersists(m, features, classify, labelsRank, seqLen, taskLoss, taskInd + 1, n);
        return Err(step.error);
      }
      logits, warnings := logits + [step.value.0], warnings + step.value.1;
      pass := next;
      taskInd := taskInd + 1;
    }
    r := Ok(Output(state.loss, logits, warnings));
  }

  // ---------------------------------------------------------------------
  // What the loop computes
  // ---------------------------------------------------------------------

  /** One unfolding of the loop: task k - 1's step on top of the first k - 1 tasks. */
  lemma RunStep<T>(m: Model, features: seq<Tensor<T>>, classify: (nat, Tensor<T>) -> Tensor<T>,
                   labelsRank: Option<nat>, seqLen: nat,
                   taskLoss: (nat, Tensor<T>, Loss.LabelSlice) -> real, k: nat)
    requires |features| == |m.heads| && 0 < k <= |m.heads|
    requires RunOf(m, features, classify, labelsRank, seqLen, taskLoss, k).Ok?
    ensures RunOf(m, features, classify, labelsRank, seqLen, taskLoss, k - 1).Ok?
    ensures var prev := RunOf(m, features, classify, labelsRank, seqLen, taskLoss, k - 1).value;
      var p := RunOf(m, features, classify, labelsRank, seqLen, taskLoss, k).value;
      var fed := Fed(m, k - 1, features[k - 1], prev.logits);
      && fed.Ok?
      && HasWidth(fed.value.0, m.heads[k - 1].classifier.inWidth)
      && p.logits == prev.logits + [classify(k - 1, fed.value.0)]
      && p.warnings == prev.warnings + fed.value.1
      && (labelsRank.None? ==> p.slices == prev.slices && p.losses == prev.losses && p.cursor == prev.cursor)
      && (labelsRank.Some? ==>
            var chosen := Loss.LabelsFor(KindOfHead(m.heads[k - 1]), m.heads[k - 1].name, m.classWeights,
                                         labelsRank.value, prev.cursor, k - 1, seqLen);
            && chosen.Ok?
            && p.slices == prev.slices + [chosen.value.0]
            && p.losses == prev.losses + [taskLoss(k - 1, classify(k - 1, fed.value.0), chosen.value.0)]
            && p.cursor == chosen.value.1)
  {
  }

  /** One logits tensor per task so far, in task order: task j's classifier
      applied to its (possibly fanned-in) features, which have the classifier's
      input width, the fan-in seeing the logits of tasks 0 .. j - 1 only. */
  lemma {:induction false} RunLogits<T>(m: Model, features: seq<Tensor<T>>, classify: (nat, Tensor<T>) -> Tensor<T>,
                                       labelsRank: Option<nat>, seqLen: nat,
                                       taskLoss: (nat, Tensor<T>, Loss.LabelSlice) -> real, k: nat)
    requires |features| == |m.heads| && k <= |m.heads|
    requires RunOf(m, features, classify, labelsRank, seqLen, taskLoss, k).Ok?
    ensures var p := RunOf(m, features, classify, labelsRank, seqLen, taskLoss, k).value;
      && |p.logits| == k
      && forall j :: 0 <= j < k ==>
           && Fed(m, j, features[j], p.logits[..j]).Ok?
           && HasWidth(Fed(m, j, features[j], p.logits[..j]).value.0, m.heads[j].classifier.inWidth)
           && p.logits[j] == classify(j, Fed(m, j, features[j], p.logits[..j]).value.0)
  {
    if k > 0 {
      RunStep(m, features, classify, labelsRank, seqLen, taskLoss, k);
      RunLogits(m, features, classify, labelsRank, seqLen, taskLoss, k - 1);
      var prev := RunOf(m, features, classify, labelsRank, seqLen, taskLoss, k - 1).value;
      var p := RunOf(m, features, classify, labelsRank, seqLen, taskLoss, k).value;
      forall j | 0 <= j < k
        ensures Fed(m, j, features[j], p.logits[..j]).Ok?
        ensures HasWidth(Fed(m, j, features[j], p.logits[..j]).value.0, m.heads[j].classifier.inWidth)
        ensures p.logits[j] == classify(j, Fed(m, j, features[j], p.logits[..j]).value.0)
      {
        if j < k - 1 {
          assert p.logits[..j] == prev.logits[..j];
          assert p.logits[j] == prev.logits[j];
        } else {
          assert p.logits[..j] == prev.logits;
        }
      }
    }
  }

  /** With labels, task j reads the slice `compute_loss` selects at the cursor
      left by tasks 0 .. j - 1, and contributes its loss against that slice;
      the cursor ends at the sum of every task's advance. */
  lemma {:induction false} RunLabels<T>(m: Model, features: seq<Tensor<T>>, classify: (nat, Tensor<T>) -> Tensor<T>,
                                       labelsRank: Option<nat>, seqLen: nat,
                                       taskLoss: (nat, Tensor<T>, Loss.LabelSlice) -> real, k: nat)
    requires |features| == |m.heads| && k <= |m.heads|
    requires labelsRank.Some?
    requires RunOf(m, features, classify, labelsRank, seqLen, taskLoss, k).Ok?
    ensures var p := RunOf(m, features, classify, labelsRank, seqLen, taskLoss, k).value;
      && |p.logits| == |p.slices| == |p.losses| == k
      && p.cursor == Loss.CursorAfter(Kinds(m.heads)[..k], seqLen)
    ensures var p := RunOf(m, features, classify, labelsRank, seqLen, taskLoss, k).value;
      forall j :: 0 <= j < k ==>
        && Loss.LabelsFor(Kinds(m.heads)[j], m.heads[j].name, m.classWeights, labelsRank.value,
                          Loss.CursorAfter(Kinds(m.heads)[..j], seqLen), j, seqLen)
           == Ok((p.slices[j], Loss.CursorAfter(Kinds(m.heads)[..j + 1], seqLen)))
        && p.losses[j] == taskLoss(j, p.logits[j], p.slices[j])
  {
    if k > 0 {
      RunStep(m, features, classify, labelsRank, seqLen, taskLoss, k);
      RunLabels(m, features, classify, labelsRank, seqLen, taskLoss, k - 1);
      var prev := RunOf(m, features, classify, labelsRank, seqLen, taskLoss, k - 1).value;
      var p := RunOf(m, features, classify, labelsRank, seqLen, taskLoss, k).value;
      var kinds := Kinds(m.heads);
      assert kinds[..k][..k - 1] == kinds[..k - 1];
      var chosen := Loss.LabelsFor(kinds[k - 1], m.heads[k - 1].name, m.classWeights,
                                   labelsRank.value, prev.cursor, k - 1, seqLen);
      assert chosen == Ok((p.slices[k - 1], p.cursor));
      assert p.cursor == Loss.CursorAfter(kinds[..k], seqLen);
      forall j | 0 <= j < k
        ensures Loss.LabelsFor(kinds[j], m.heads[j].name, m.classWeights, labelsRank.value,
                               Loss.CursorAfter(kinds[..j], seqLen), j, seqLen)
                == Ok((p.slices[j], Loss.CursorAfter(kinds[..j + 1], seqLen)))
        ensures p.losses[j] == taskLoss(j, p.logits[j], p.slices[j])
      {
        if j < k - 1 {
          assert p.slices[j] == prev.slices[j] && p.losses[j] == prev.losses[j] && p.logits[j] == prev.logits[j];
        }
      }
    }
  }

  /** Without labels nothing is read: no slices, no losses, the cursor at 0. */
  lemma {:induction false} RunWithoutLabels<T>(m: Model, features: seq<Tensor<T>>, classify: (nat, Tensor<T>) -> Tensor<T>,
                                              seqLen: nat, taskLoss: (nat, Tensor<T>, Loss.LabelSlice) -> real, k: nat)
    requires |features| == |m.heads| && k <= |m.heads|
    requires RunOf(m, features, classify, None, seqLen, taskLoss, k).Ok?
    ensures var p := RunOf(m, features, classify, None, seqLen, taskLoss, k).value;
      p.slices == [] && p.losses == [] && p.cursor == 0
  {
    if k > 0 {
      RunStep(m, features, classify, None, seqLen, taskLoss, k);
      RunWithoutLabels(m, features, classify, seqLen, taskLoss, k - 1);
    }
  }

  /** Without prior tasks nothing is fanned in or logged. */
  lemma {:induction false} RunWithoutPriorTasks<T>(m: Model, features: seq<Tensor<T>>, classify: (nat, Tensor<T>) -> Tensor<T>,
                                                  labelsRank: Option<nat>, seqLen: nat,
                                                  taskLoss: (nat, Tensor<T>, Loss.LabelSlice) -> real, k: nat)
    requires |features| == |m.heads| && k <= |m.heads| && !m.usePriorTasks
    requires RunOf(m, features, classify, labelsRank, seqLen, taskLoss, k).Ok?
    ensures var p := RunOf(m, features, classify, labelsRank, seqLen, taskLoss, k).value;
      && p.warnings == []
      && |p.logits| == k
      && forall j :: 0 <= j < k ==> p.logits[j] == classify(j, features[j])
  {
    RunLogits(m, features, classify, labelsRank, seqLen, taskLoss, k);
    if k > 0 {
      RunStep(m, features, classify, labelsRank, seqLen, taskLoss, k);
      RunWithoutPriorTasks(m, features, classify, labelsRank, seqLen, taskLoss, k - 1);
      var none: seq<FanIn.Warning> := [];
      assert none + none == none;
    }
  }

  /** Without labels and without prior tasks the pass fails only when a task's
      features do not have its classifier's input width; otherwise the logits
      are each task's classifier on its own features, there is no loss and
      nothing is logged. */
  lemma ForwardWithoutLabels<T>(m: Model, features: seq<Tensor<T>>, classify: (nat, Tensor<T>) -> Tensor<T>,
                                seqLen: nat, taskLoss: (nat, Tensor<T>, Loss.LabelSlice) -> real)
    requires |features| == |m.heads| && !m.usePriorTasks
    ensures ForwardOf(m, features, classify, None, seqLen, taskLoss).Ok?
            <==> forall k :: 0 <= k < |m.heads| ==> HasWidth(features[k], m.heads[k].classifier.inWidth)
    ensures ForwardOf(m, features, classify, None, seqLen, taskLoss).Ok? ==>
      var out := ForwardOf(m, features, classify, None, seqLen, taskLoss).value;
      && out.loss == None
      && out.warnings == []
      && |out.logits| == |m.heads|
      && forall k :: 0 <= k < |m.heads| ==> out.logits[k] == classify(k, features[k])
  {
    var n := |m.heads|;
    RunOkIff(m, features, classify, None, seqLen, taskLoss, n);
    if RunOf(m, features, classify, None, seqLen, taskLoss, n).Ok? {
      RunWithoutLabels(m, features, classify, seqLen, taskLoss, n);
      RunWithoutPriorTasks(m, features, classify, None, seqLen, taskLoss, n);
    }
  }

  /** The loss of a pass: none without labels (or tasks); with labels, the
      first task's loss alone for a single task, and otherwise the sum of the
      earlier tasks' losses plus `final_task_weight` times the last task's. */
  lemma ForwardLoss<T>(m: Model, features: seq<Tensor<T>>, classify: (nat, Tensor<T>) -> Tensor<T>,
                       labelsRank: Option<nat>, seqLen: nat,
                       taskLoss: (nat, Tensor<T>, Loss.LabelSlice) -> real)
    requires |features| == |m.heads|
    requires ForwardOf(m, features, classify, labelsRank, seqLen, taskLoss).Ok?
    ensures RunOf(m, features, classify, labelsRank, seqLen, taskLoss, |m.heads|).Ok?
    ensures ForwardOf(m, features, classify, labelsRank, seqLen, taskLoss).value.loss.None?
            <==> labelsRank.None? || |m.heads| == 0
    ensures labelsRank.Some? ==>
      |RunOf(m, features, classify, labelsRank, seqLen, taskLoss, |m.heads|).value.losses| == |m.heads|
    ensures labelsRank.Some? && |m.heads| == 1 ==>
      ForwardOf(m, features, classify, labelsRank, seqLen, taskLoss).value.loss
      == Some(RunOf(m, features, classify, labelsRank, seqLen, taskLoss, |m.heads|).value.losses[0])
    ensures labelsRank.Some? && |m.heads| > 1 ==>
      var losses := RunOf(m, features, classify, labelsRank, seqLen, taskLoss, |m.heads|).value.losses;
      ForwardOf(m, features, classify, labelsRank, seqLen, taskLoss).value.loss.value
      == Loss.Sum(losses[..|losses| - 1]) + m.finalTaskWeight * losses[|losses| - 1]
  {
    var n := |m.heads|;
    var run := RunOf(m, features, classify, labelsRank, seqLen, taskLoss, n);
    assert run.Ok?;
    var losses := run.value.losses;
    assert labelsRank.None? ==> losses == [] by {
      if labelsRank.None? {
        RunWithoutLabels(m, features, classify, seqLen, taskLoss, n);
      }
    }
    assert labelsRank.Some? ==> |losses| == n by {
      if labelsRank.Some? {
        RunLabels(m, features, classify, labelsRank, seqLen, taskLoss, n);
      }
    }
    var out := ForwardOf(m, features, classify, labelsRank, seqLen, taskLoss).value;
    assert out.loss == Loss.Accumulated(losses, n, m.finalTaskWeight);
    PassLoss(losses, n, m.finalTaskWeight, labelsRank.Some?);
  }

  /** The closed form of a pass's loss over its list of task losses. */
  lemma PassLoss(losses: seq<real>, n: nat, finalTaskWeight: real, labelled: bool)
    requires labelled ==> |losses| == n
    requires !labelled ==> losses == []
    ensures Loss.Accumulated(losses, n, finalTaskWeight).None? <==> !labelled || n == 0
    ensures labelled && n == 1 ==> Loss.Accumulated(losses, n, finalTaskWeight) == Some(losses[0])
    ensures labelled && n > 1 ==>
      Loss.Accumulated(losses, n, finalTaskWeight).value
      == Loss.Sum(losses[..|losses| - 1]) + finalTaskWeight * losses[|losses| - 1]
  {
    Loss.AccumulatedIsNoneIff(losses, n, finalTaskWeight);
    if labelled && n > 0 {
      Loss.AccumulatedClosedForm(losses, finalTaskWeight);
    }
  }

  /** The label tensor's rank suits a loss branch: relation labels need three
      axes, tagging labels two, classification labels one to three. */
  predicate RankSupported(kind: Loss.LossKind, rank: nat)
  {
    match kind
    case Regression => true
    case RelationLoss => rank >= 3
    case TaggingLoss => rank >= 2
    case ClassificationLoss => 1 <= rank <= 3
  }

  /** `compute_loss` can score this head: a class-weight entry unless it is a
      regression head, and a label rank its branch can index. */
  predicate LabelsReadable(h: Heads.TaskHead, classWeights: map<string, Option<seq<real>>>, rank: nat)
  {
    && (KindOfHead(h) == Loss.Regression || h.name in classWeights)
    && RankSupported(KindOfHead(h), rank)
  }

  /** A pass with labels gets through only if every task can be scored.
      Without prior tasks the pass gets through exactly when every task's
      features have its classifier's input width and, with labels, every
      task can be scored. */
  lemma {:induction false} RunOkIff<T>(m: Model, features: seq<Tensor<T>>, classify: (nat, Tensor<T>) -> Tensor<T>,
                                      labelsRank: Option<nat>, seqLen: nat,
                                      taskLoss: (nat, Tensor<T>, Loss.LabelSlice) -> real, k: nat)
    requires |features| == |m.heads| && k <= |m.heads|
    ensures RunOf(m, features, classify, labelsRank, seqLen, taskLoss, k).Ok? && labelsRank.Some? ==>
      forall j :: 0 <= j < k ==> LabelsReadable(m.heads[j], m.classWeights, labelsRank.value)
    ensures !m.usePriorTasks ==>
      (RunOf(m, features, classify, labelsRank, seqLen, taskLoss, k).Ok?
       <==> && (forall j :: 0 <= j < k ==> HasWidth(features[j], m.heads[j].classifier.inWidth))
            && (labelsRank.Some? ==> forall j :: 0 <= j < k ==> LabelsReadable(m.heads[j], m.classWeights, labelsRank.value)))
  {
    if k > 0 {
      RunOkIff(m, features, classify, labelsRank, seqLen, taskLoss, k - 1);
    }
  }

  // ---------------------------------------------------------------------
  // The width a fanned-in relation grid reaches its classifier with
  // ---------------------------------------------------------------------

  /** The labels of the tagging heads: tagging logits are the only rank-3
      priors, so the only ones the fan-in concatenates. */
  function TaggerLabels(heads: seq<Heads.TaskHead>): nat
  {
    if heads == [] then 0
    else
      var h := heads[|heads| - 1];
      TaggerLabels(heads[..|heads| - 1]) + (if h.extractor.tagger then h.classifier.numLabels else 0)
  }

  /** The labels of the other heads. */
  function OtherLabels(heads: seq<Heads.TaskHead>): nat
  {
    if heads == [] then 0
    else
      var h := heads[|heads| - 1];
      OtherLabels(heads[..|heads| - 1]) + (if h.extractor.tagger then 0 else h.classifier.numLabels)
  }

  /** Logits shaped as the heads produce them: rank 3 exactly for tagging
      heads, with one class per label. */
  predicate LogitsOfHeads<T>(logits: seq<Tensor<T>>, heads: seq<Heads.TaskHead>)
  {
    && |logits| == |heads|
    && forall j :: 0 <= j < |heads| ==>
         && (logits[j].Rank3? <==> heads[j].extractor.tagger)
         && (logits[j].Rank3? ==> FanIn.ClassCount(logits[j].m3) == heads[j].classifier.numLabels)
  }

  /** The fan-in widens a relation grid by the tagging heads' labels. */
  lemma {:induction false} PriorClassesAreTaggerLabels<T>(logits: seq<Tensor<T>>, heads: seq<Heads.TaskHead>)
    requires LogitsOfHeads(logits, heads)
    ensures FanIn.PriorClasses(logits) == TaggerLabels(heads)
  {
    if heads != [] {
      var n := |heads|;
      assert forall j :: 0 <= j < n - 1 ==> logits[..n - 1][j] == logits[j] && heads[..n - 1][j] == heads[j];
      PriorClassesAreTaggerLabels(logits[..n - 1], heads[..n - 1]);
    }
  }

  /** The labels of a list of tasks split into the tagging heads' and the others'. */
  lemma {:induction false} LabelsSplit(items: seq<(string, seq<string>)>, heads: seq<Heads.TaskHead>)
    requires |items| == |heads|
    requires forall j :: 0 <= j < |heads| ==> heads[j].classifier.numLabels == |items[j].1|
    ensures Heads.TotalLabels(items) == TaggerLabels(heads) + OtherLabels(heads)
  {
    if heads != [] {
      var n := |heads|;
      assert forall j :: 0 <= j < n - 1 ==> items[..n - 1][j] == items[j] && heads[..n - 1][j] == heads[j];
      LabelsSplit(items[..n - 1], heads[..n - 1]);
    }
  }

  lemma {:induction false} NoOtherLabelsIff(heads: seq<Heads.TaskHead>)
    ensures OtherLabels(heads) == 0 <==>
      forall j :: 0 <= j < |heads| ==> heads[j].extractor.tagger || heads[j].classifier.numLabels == 0
  {
    if heads != [] {
      var n := |heads|;
      assert forall j :: 0 <= j < n - 1 ==> heads[..n - 1][j] == heads[j];
      NoOtherLabelsIff(heads[..n - 1]);
    }
  }

  /** The model's heads are the constructor's task modules, and it uses prior
      tasks as configured. */
  predicate BuiltFrom(m: Model, cfg: Heads.ModelConfig)
  {
    && Heads.TaskHeadsOf(cfg, cfg.labelDictionary).Ok?
    && m.heads == Heads.TaskHeadsOf(cfg, cfg.labelDictionary).value
    && m.usePriorTasks == cfg.usePriorTasks
  }

  /** With prior tasks, relation task k's classifier is built for its heads
      plus the labels of every earlier task, while the fan-in delivers its
      heads plus the labels of the earlier tagging tasks only: the two widths
      agree exactly when every earlier non-tagging task has no labels.  When
      they disagree the pass raises (`PriorWidthMismatchAborts`). */
  lemma PriorWidthsAgreeIff(m: Model, cfg: Heads.ModelConfig, k: nat)
    requires BuiltFrom(m, cfg) && m.usePriorTasks
    requires k < |m.heads| && m.heads[k].extractor.relations
    ensures m.heads[k].classifier.inWidth == cfg.numRelAttentionHeads + TaggerLabels(m.heads[..k])
      <==> forall j :: 0 <= j < k ==> m.heads[j].extractor.tagger || m.heads[j].classifier.numLabels == 0
  {
    var items := cfg.labelDictionary;
    Heads.OneHeadPerTask(cfg, items);
    var ik, hk := items[..k], m.heads[..k];
    assert m.heads[k].classifier.inWidth == cfg.numRelAttentionHeads + Heads.TotalLabels(ik) by {
      Heads.SizedAt(cfg, items, k);
    }
    assert forall j :: 0 <= j < k ==> hk[j].classifier.numLabels == |ik[j].1| by {
      forall j | 0 <= j < k
        ensures hk[j].classifier.numLabels == |ik[j].1|
      {
        Heads.SizedAt(cfg, items, j);
      }
    }
    WidthsAgreeIff(ik, hk, m.heads[k].classifier.inWidth, cfg.numRelAttentionHeads);
    assert forall j :: 0 <= j < k ==> hk[j] == m.heads[j];
  }

  /** Widths built from all earlier labels agree with widths fanned in from the
      tagging labels exactly when the other heads have no labels. */
  lemma WidthsAgreeIff(items: seq<(string, seq<string>)>, heads: seq<Heads.TaskHead>, inWidth: int, base: int)
    requires |items| == |heads|
    requires forall j :: 0 <= j < |heads| ==> heads[j].classifier.numLabels == |items[j].1|
    requires inWidth == base + Heads.TotalLabels(items)
    ensures inWidth == base + TaggerLabels(heads)
      <==> forall j :: 0 <= j < |heads| ==> heads[j].extractor.tagger || heads[j].classifier.numLabels == 0
  {
    LabelsSplit(items, heads);
    NoOtherLabelsIff(heads);
  }

  /** A relation grid with `width` scores per cell reaches its classifier with
      `width` plus the tagging heads' labels per cell, when every tagging
      prior fits the grid. */
  lemma FannedInWidth<T>(f: seq<seq<seq<seq<T>>>>, width: int, logits: seq<Tensor<T>>, heads: seq<Heads.TaskHead>)
    requires HasWidth(Rank4(f), width)
    requires LogitsOfHeads(logits, heads)
    requires FanIn.AllFit(f, logits)
    requires forall j :: 0 <= j < |logits| && logits[j].Rank3? ==> FanIn.Uniform(logits[j].m3)
    ensures FanIn.FanInOf(Rank4(f), logits).Ok?
    ensures var out := FanIn.FanInOf(Rank4(f), logits).value.0;
      && out.Rank4?
      && FanIn.SameGrid(out.m4, f)
      && HasWidth(out, width + TaggerLabels(heads))
  {
    FanIn.FanInGrid(f, logits);
    PriorClassesAreTaggerLabels(logits, heads);
    var out := FanIn.FanInOf(Rank4(f), logits).value.0;
    forall b, i, j | 0 <= b < |f| && 0 <= i < |f[b]| && 0 <= j < |f[b][i]|
      ensures |out.m4[b][i][j]| == width + TaggerLabels(heads)
    {
      FanIn.PriorRowsWidth(f, logits, b, i);
    }
  }

  /** With prior tasks, a relation task whose grid arrives with one score per
      relation head, after earlier tasks whose logits have the heads' shapes:
      the pass raises at that task's classifier exactly when some earlier
      non-tagging task has labels. */
  lemma PriorWidthMismatchAborts<T>(m: Model, cfg: Heads.ModelConfig, features: seq<Tensor<T>>,
                                    classify: (nat, Tensor<T>) -> Tensor<T>, labelsRank: Option<nat>, seqLen: nat,
                                    taskLoss: (nat, Tensor<T>, Loss.LabelSlice) -> real,
                                    k: nat, f: seq<seq<seq<seq<T>>>>)
    requires BuiltFrom(m, cfg) && m.usePriorTasks
    requires |features| == |m.heads| && k < |m.heads| && m.heads[k].extractor.relations
    requires features[k] == Rank4(f) && HasWidth(features[k], cfg.numRelAttentionHeads)
    requires |f| > 0 && |f[0]| > 0 && |f[0][0]| > 0
    requires RunOf(m, features, classify, labelsRank, seqLen, taskLoss, k).Ok?
    requires var logits := RunOf(m, features, classify, labelsRank, seqLen, taskLoss, k).value.logits;
      && LogitsOfHeads(logits, m.heads[..k])
      && FanIn.AllFit(f, logits)
      && forall j :: 0 <= j < |logits| && logits[j].Rank3? ==> FanIn.Uniform(logits[j].m3)
    ensures RunOf(m, features, classify, labelsRank, seqLen, taskLoss, k + 1)
            == Err(ClassifierWidthMismatch(m.heads[k].name, m.heads[k].classifier.inWidth))
      <==> exists j :: 0 <= j < k && !m.heads[j].extractor.tagger && m.heads[j].classifier.numLabels > 0
  {
    var p := RunOf(m, features, classify, labelsRank, seqLen, taskLoss, k).value;
    var width := cfg.numRelAttentionHeads + TaggerLabels(m.heads[..k]);
    FannedInWidth(f, cfg.numRelAttentionHeads, p.logits, m.heads[..k]);
    var out := FanIn.FanInOf(Rank4(f), p.logits).value.0;
    assert Fed(m, k, features[k], p.logits) == FanIn.FanInOf(Rank4(f), p.logits);
    assert |out.m4[0][0][0]| == width;
    assert HasWidth(out, m.heads[k].classifier.inWidth) <==> m.heads[k].classifier.inWidth == width;
    RunNext(m, features, classify, labelsRank, seqLen, taskLoss, k, p);
    PriorWidthsAgreeIff(m, cfg, k);
  }

  // ---------------------------------------------------------------------
  // The rank of each task's logits
  // ---------------------------------------------------------------------

  /** When the classifier keeps the rank of its input (`nn.Linear` acts on the
      last axis only) and each task's features have the rank its projection
      layer produces, the logits are rank 3 exactly for tagging heads. */
  lemma {:induction false} LogitRanks<T>(m: Model, features: seq<Tensor<T>>, classify: (nat, Tensor<T>) -> Tensor<T>,
                                        labelsRank: Option<nat>, seqLen: nat,
                                        taskLoss: (nat, Tensor<T>, Loss.LabelSlice) -> real, batch: nat, k: nat)
    requires |features| == |m.heads| && k <= |m.heads|
    requires forall j :: 0 <= j < |m.heads| ==>
      && Projection.Consistent(m.heads[j].extractor)
      && Rank(features[j]) == |Projection.OutputShape(m.heads[j].extractor, batch, seqLen)|
    requires forall j, x :: Rank(classify(j, x)) == Rank(x)
    requires RunOf(m, features, classify, labelsRank, seqLen, taskLoss, k).Ok?
    ensures var logits := RunOf(m, features, classify, labelsRank, seqLen, taskLoss, k).value.logits;
      && |logits| == k
      && forall j :: 0 <= j < k ==> (logits[j].Rank3? <==> m.heads[j].extractor.tagger)
  {
    RunLogits(m, features, classify, labelsRank, seqLen, taskLoss, k);
    var logits := RunOf(m, features, classify, labelsRank, seqLen, taskLoss, k).value.logits;
    forall j | 0 <= j < k
      ensures logits[j].Rank3? <==> m.heads[j].extractor.tagger
    {
      var fed := Fed(m, j, features[j], logits[..j]);
      if FansIn(m, j) {
        FanIn.FanInKeepsRank(features[j], logits[..j]);
      }
      assert Rank(fed.value.0) == Rank(features[j]);
      Projection.OutputShapeByMode(m.heads[j].extractor, batch, seqLen);
    }
  }
}
