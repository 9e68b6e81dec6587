# cnlp_transformers multi-task head, in Dafny

This project models the multi-task classification head of
`CnlpModelForClassification` (`src/cnlpt/models/cnlp.py`) and two
helpers of the REST API (`src/cnlpt/api/utils.py`). It then proves
properties of the model. The model covers:

- **Encoder keyword arguments.** `generalize_encoder_forward_kwargs` keeps
  the arguments the encoder's `forward` accepts, warns about contentful
  ones it does not accept, and silently drops the rest (`EncoderKwargs`).
- **Trainability policies.** `freeze_encoder_weights` and the bias-only
  fine-tuning loop of the constructor clear `requires_grad` on encoder
  parameters (`Freezing`). Parameters are an `array` of records that is
  updated in place.
- **The projection layer.** This covers the configuration checks of
  `RepresentationProjectionLayer`, the output shape of each of its modes,
  and `transpose_for_scores` as an index map with its inverse
  (`Projection`).
- **Hidden size and dropout.** `CnlpConfig` looks up the encoder's hidden
  size and dropout probability for DistilBERT, ModernBERT and BERT-like
  configurations (`EncoderConfig`).
- **The constructor.** This covers the layer-range check, the trainability
  policies, and the loop over the label dictionary that sizes every task's
  classifier. When prior tasks are used, a relation classifier is widened
  by the labels of every earlier task (`Heads`).
- **The prior-task fan-in.** In `predict_relations_with_previous_logits`,
  every rank-3 prior is concatenated onto a relation grid (`FanIn`, over
  the nested-sequence tensors of `Tensors`).
- **The loss.** This covers how `compute_loss` chooses the label slice of
  each task and moves the `task_label_ind` cursor, and how it folds task
  losses into the running loss with `final_task_weight` on the last task
  (`Loss`). The `state` dict is a class with two fields.
- **The task loop of `forward`.** For each task in order: the fan-in, the
  classifier, whose `out_proj` refuses features of the wrong width, and
  `compute_loss` (`Forward`).
- **API helpers.** `create_instance_string` and `resolve_device`
  (`ApiUtils`).

Python exceptions are modelled as the `Err` case of a `Result`. Python
`None` is modelled as `None` of an `Option`. Dicts are ordered sequences of
pairs with distinct keys, or Dafny maps where only lookup matters.

Two things are parameters rather than behaviour:

- **Numerics.** Tensor numerics (linear layers, dropout, tanh, attention
  scores, the loss functions) appear as function parameters over an opaque
  element type.
- **Outside state.** The random draws of `freeze_encoder_weights` and the
  availability of CUDA/MPS are inputs.

The fan-in cell is one point where code and description differ. The module
description speaks of broadcasting the tagging logits "down all the rows".
The code unsqueezes at axis 2 and repeats along it, so grid cell
`(b, i, j)` gains token `i`'s row of the prior. The model follows the code
(`FanIn.FanInGrid`).

## Model

| member | source | states |
|---|---|---|
| `EncoderKwargs.GeneralizeEncoderForwardKwargs` | src/cnlpt/models/cnlp.py:27-50 | the loop returns exactly the accepted arguments and the warnings the specification functions define, in argument order |
| `EncoderKwargs.AcceptedExactly` | src/cnlpt/models/cnlp.py:45-48 | an argument is passed on if and only if the encoder's `forward` has a parameter of that name, whether its value is None or not |
| `EncoderKwargs.AcceptedConcat` | src/cnlpt/models/cnlp.py:39-48 | filtering keeps the order of the keyword arguments: filtering a concatenation is concatenating the filtered parts |
| `EncoderKwargs.AcceptedDistinct` | src/cnlpt/models/cnlp.py:37-48 | the new kwargs dict never repeats a name |
| `EncoderKwargs.WarningsExactly` | src/cnlpt/models/cnlp.py:40-44 | a warning names the encoder class and an argument exactly when that argument is not an encoder parameter and its value is not None |
| `EncoderKwargs.EveryArgumentAccountedFor` | src/cnlpt/models/cnlp.py:39-49 | every argument is passed on, warned about, or silently dropped; the three counts add up to the number of arguments |
| `Freezing.ContainsIsOccurs` | src/cnlpt/models/cnlp.py:356 | the executable substring test agrees with "occurs at some index" |
| `Freezing.Freeze` | src/cnlpt/models/cnlp.py:61-67 | the name is kept and a frozen parameter stays frozen; `freeze >= 1` freezes everything; otherwise a parameter stays trainable if and only if it was trainable and its draw is not below `freeze` |
| `Freezing.BiasOnly` | src/cnlpt/models/cnlp.py:354-357 | after bias fitting a parameter is trainable if and only if it was trainable and "bias" occurs in its name |
| `Freezing.FreezeEncoderWeights` | src/cnlpt/models/cnlp.py:53-67 | each parameter of the array ends as `Freeze` of its old value with its own draw |
| `Freezing.BiasFit` | src/cnlpt/models/cnlp.py:354-357 | each parameter of the array ends as `BiasOnly` of its old value |
| `Freezing.ApplyTrainabilityPolicies` | src/cnlpt/models/cnlp.py:351-357 | freezing only when `freeze > 0`, then bias fitting only when `bias_fit`; each parameter ends as both policies applied in that order |
| `Freezing.PoliciesOnlyFreeze` | src/cnlpt/models/cnlp.py:351-357 | the policies never rename a parameter and never make a frozen one trainable |
| `Freezing.PoliciesTrainableIff` | src/cnlpt/models/cnlp.py:351-357 | a parameter ends trainable if and only if it was trainable, its freeze draw did not hit, and, under bias fitting, its name contains "bias" |
| `Projection.NewLayer` | src/cnlpt/models/cnlp.py:90-139 | construction raises if and only if a relation layer has no positive head count, or has a negative `all_head_size` (which `nn.Linear` refuses), or token mode is combined with tagging or relations. The checks are made in that order, so a negative size is reported only when the head count is positive. On success the flags and the layer are kept and `all_head_size = heads * head_size` |
| `Projection.OutputShapeByMode` | src/cnlpt/models/cnlp.py:154-214 | the output is rank 4 (one score per head for each token pair) exactly in relation mode without tagging, rank 3 exactly in tagging mode, and rank 2 for the token-average and `[CLS]` modes; each mode has its sizes |
| `Projection.TransposeForScores` | src/cnlpt/models/cnlp.py:141-152 | `(batch, seq, heads*size)` becomes `(batch, heads, seq, size)` |
| `Projection.TransposeForScoresAt` | src/cnlpt/models/cnlp.py:141-152 | element `[b][h][s][d]` of the result is element `[b][s][h*size+d]` of the input |
| `Projection.TransposeRoundTrip` | src/cnlpt/models/cnlp.py:141-152 | merging the heads back gives the input: the view-and-permute loses nothing |
| `EncoderConfig.FirstMissing` | src/cnlpt/models/cnlp.py:286-295 | None if and only if every key is present; otherwise a missing key, the first one read |
| `EncoderConfig.EncoderAttributesOf` | src/cnlpt/models/cnlp.py:271-295 | the lookup succeeds if and only if the family is recognised and all its keys are present. It returns `dim`/`dropout` for DistilBERT, `hidden_size`/`mlp_dropout` for ModernBERT, and `hidden_size`/`hidden_dropout_prob` otherwise. A BERT-like miss is a ValueError and the others are KeyErrors, naming the first missing key |
| `EncoderConfig.DistilBertNameWins` | src/cnlpt/models/cnlp.py:271-274 | a name starting with "distilbert" decides the family whatever `model_type` says |
| `Heads.BuildTask` | src/cnlpt/models/cnlp.py:363-385 | building one task fails exactly with the task's own error, independent of earlier tasks. The error is a missing tagger/relation flag, an inconsistent projection, or, once the projection is built, a name `nn.ModuleDict` refuses (empty or containing a dot) |
| `Heads.BuildTaskHeads` | src/cnlpt/models/cnlp.py:362-386 | the loop with its running `total_prev_task_labels` computes the task modules of the label dictionary or the first error |
| `Heads.TaskHeadsSizing` | src/cnlpt/models/cnlp.py:362-386 | one head per task, in order, named after its task (a valid module name), with the task's flags and a consistent projection. The classifier outputs one logit per label. Its input width is the relation heads widened by every earlier task's labels under prior tasks, or else the encoder's hidden size |
| `Heads.TaskHeadsOkIff` | src/cnlpt/models/cnlp.py:363-372 | construction succeeds if and only if every task can be built on its own |
| `Heads.FirstFailingTask` | src/cnlpt/models/cnlp.py:363-372 | a failing construction raises the error of the first task that cannot be built |
| `Heads.InitModel` | src/cnlpt/models/cnlp.py:346-386 | a layer beyond the encoder's depth raises before any parameter changes; otherwise the parameters end with the trainability policies applied and the result is the task modules |
| `FanIn.Augment` | src/cnlpt/models/cnlp.py:431-440 | concatenation keeps the grid's batch, row and column counts |
| `FanIn.PredictRelationsWithPreviousLogits` | src/cnlpt/models/cnlp.py:411-453 | the loop over prior logits computes the fan-in specification, with the warnings in order and a size mismatch of `torch.cat` as an error |
| `FanIn.FanInGrid` | src/cnlpt/models/cnlp.py:427-447 | on a relation grid the fan-in succeeds if and only if every rank-3 prior fits. Cell `(b, i, j)` becomes the old cell followed by token `i`'s rows of the rank-3 priors, the grid keeps its counts, and every other prior logs one warning with its rank |
| `FanIn.FanInSequenceFeatures` | src/cnlpt/models/cnlp.py:448-451 | rank-3 features come back unchanged, with one "not implemented for a sequence task" warning per prior |
| `FanIn.FanInPooledFeatures` | src/cnlpt/models/cnlp.py:427-453 | rank-2 features come back unchanged and nothing is logged |
| `FanIn.FanInKeepsRank` | src/cnlpt/models/cnlp.py:411-453 | a successful fan-in returns features of the same rank it was given |
| `FanIn.PriorRowsWidth` | src/cnlpt/models/cnlp.py:431-440 | each rank-3 prior widens every cell by exactly its class count |
| `Loss.SelectLabels` | src/cnlpt/models/cnlp.py:492-535 | relation tasks move the cursor by `seq_len` and read `labels[:, :, c:c+seq_len]`; tagging and classification move it by one; a label tensor of too low a rank, or a classification label tensor of rank above 3, raises |
| `Loss.SliceIgnoresCursor` | src/cnlpt/models/cnlp.py:523-528 | regression and classification slices do not depend on the cursor: classification labels are indexed by the task index |
| `Loss.SliceIgnoresTaskIndex` | src/cnlpt/models/cnlp.py:492-511 | tagging and relation slices are located by the cursor alone |
| `Loss.LabelsFor` | src/cnlpt/models/cnlp.py:479-535 | regression skips the class-weight lookup; any other task without a class-weight entry raises exactly that KeyError, before its labels are sliced |
| `Loss.AccumulatedBeforeLast` | src/cnlpt/models/cnlp.py:540-546 | before the last task the running loss is the plain sum of the task losses |
| `Loss.AccumulatedClosedForm` | src/cnlpt/models/cnlp.py:540-546 | the total loss is `L_0` for one task, and `L_0 + ... + L_(n-2) + final_task_weight * L_(n-1)` for two or more |
| `Loss.AccumulatedIsNoneIff` | src/cnlpt/models/cnlp.py:540-541 | the running loss is None exactly when no task has contributed |
| `Loss.RegressionKeepsCursor` | src/cnlpt/models/cnlp.py:479-482 | regression tasks never move the label cursor |
| `Loss.CursorCountsNonRegression` | src/cnlpt/models/cnlp.py:511-535 | without relation tasks the cursor counts the non-regression tasks |
| `Loss.LossState.constructor` | src/cnlpt/models/cnlp.py:606 | `state = dict(loss=None, task_label_ind=0)` |
| `Loss.LossState.ComputeLoss` | src/cnlpt/models/cnlp.py:455-546 | the slice read, the new cursor and the new running loss are those of the specification functions; an error leaves the state unchanged |
| `Forward.TaskForward` | src/cnlpt/models/cnlp.py:608-637 | one iteration of the loop: the fan-in when prior tasks are used and the task is a relation task, the classifier (raising when the features' last axis is not its input width), and `compute_loss` when labels are given. It computes the task's step of the specification and keeps `state` in step with the accumulated losses |
| `Forward.Forward` | src/cnlpt/models/cnlp.py:604-637 | the task loop on a fresh state computes the specification of the whole pass, raising with the first task's error |
| `Forward.RunLogits` | src/cnlpt/models/cnlp.py:608-626 | one logits tensor per task, in task order: the classifier applied to the task's features, fanned in with the logits of the earlier tasks only; each classifier received features of its input width |
| `Forward.LogitRanks` | src/cnlpt/models/cnlp.py:154-214 | when each task's features have its projection's output rank and the classifier keeps rank, the logits of task `j` are rank 3 exactly for tagging tasks, so the tagging logits are the only rank-3 priors |
| `Forward.RunLabels` | src/cnlpt/models/cnlp.py:628-637 | with labels, task `j` reads the slice chosen at the cursor left by tasks `0..j-1` and contributes its loss on that slice; the cursor ends at the sum of the advances |
| `Forward.RunWithoutLabels` | src/cnlpt/models/cnlp.py:628 | without labels no slice is read, no loss is computed and the cursor stays at 0 |
| `Forward.RunWithoutPriorTasks` | src/cnlpt/models/cnlp.py:616-626 | without prior tasks every logit is the classifier on the task's own features and nothing is logged |
| `Forward.ForwardWithoutLabels` | src/cnlpt/models/cnlp.py:604-637 | with neither labels nor prior tasks the pass succeeds if and only if every task's features have its classifier's input width; it then returns no loss, no warnings and each task's classifier on its own features |
| `Forward.ForwardLoss` | src/cnlpt/models/cnlp.py:540-546 | the loss is None exactly without labels or tasks; with labels it is the first task's loss for one task, and otherwise the sum of the earlier losses plus `final_task_weight` times the last |
| `Forward.RunOkIff` | src/cnlpt/models/cnlp.py:455-637 | a pass with labels gets through only if every task has a class-weight entry (or is a regression task) and a label rank its branch can index. Without prior tasks, the pass gets through if and only if, in addition, every task's features have its classifier's input width |
| `Forward.PriorClassesAreTaggerLabels` | src/cnlpt/models/cnlp.py:429-440 | the fan-in widens a relation grid by the labels of the tagging tasks alone, the only rank-3 priors |
| `Forward.PriorWidthsAgreeIff` | src/cnlpt/models/cnlp.py:362-386 | for a model built from a configuration with prior tasks, a relation classifier's input width equals the fanned-in width if and only if every earlier non-tagging task has no labels |
| `Forward.WidthsAgreeIff` | src/cnlpt/models/cnlp.py:374-386 | a width built from every earlier task's labels equals one built from the tagging tasks' labels alone if and only if every non-tagging task has no labels |
| `Forward.FannedInWidth` | src/cnlpt/models/cnlp.py:427-440 | when every rank-3 prior fits the grid, the fan-in succeeds, keeps the grid's counts, and widens every cell by the labels of the tagging tasks |
| `Forward.PriorWidthMismatchAborts` | src/cnlpt/models/cnlp.py:608-626 | for a model built from a configuration with prior tasks, a non-empty relation grid of the relation-head width whose priors fit is refused by the task's classifier if and only if some earlier non-tagging task has labels |
| `ApiUtils.ReplaceNewlines` | src/cnlpt/api/utils.py:77 | same length, each newline becomes a space, no newline remains |
| `ApiUtils.CreateInstanceString` | src/cnlpt/api/utils.py:67-77 | raises (IndexError) if and only if fewer than two offsets are given; the result never contains a newline |
| `ApiUtils.InstanceStringWithinDocument` | src/cnlpt/api/utils.py:67-77 | for in-range offsets the result is the clipped context window with the entity between ` <e> ` and ` </e> `; its length is the window plus 11, and the entity sits right after the opening marker |
| `ApiUtils.ResolveDevice` | src/cnlpt/api/utils.py:80-103 | raises for a name outside cuda/mps/cpu/auto in any letter case; never resolves to an unavailable accelerator; warns only when falling back to the CPU |
| `ApiUtils.AutoResolution` | src/cnlpt/api/utils.py:86-92 | "auto" prefers CUDA, then MPS, then the CPU, without a warning |
| `ApiUtils.ExplicitResolution` | src/cnlpt/api/utils.py:93-102 | an explicit device is kept when available; an unavailable accelerator falls back to the CPU with a warning |
| `ApiUtils.ResolveCaseInsensitive` | src/cnlpt/api/utils.py:83 | the result depends only on the lower-cased name |
| `ApiUtils.ResolveIdempotent` | src/cnlpt/api/utils.py:80-103 | resolving the name of a resolved device gives that device again, silently |

## Left out

- Tensor numerics: the linear layers, dropout, tanh, attention scores, mean pooling over event tokens, and the MSE and cross-entropy losses. They are opaque parameters (`classify`, `taskLoss`) or not modelled. Only shapes, index maps and bookkeeping are modelled, including the classifier's refusal of features whose last axis is not its input width.
- `HasWidth`: on a tensor with an empty axis the width cannot be read from nested sequences, so any width is accepted there. Torch would still compare the declared size.
- `Forward.LogitRanks`: that the classifier keeps its input's rank is a premise about `classify`, since the classifier is a parameter.
- HuggingFace loading: `AutoConfig`, `AutoModel`, `from_pretrained`, `resize_token_embeddings` and the `num_layers` property. The encoder's layer count, parameter list and config dict are inputs.
- Randomness and devices: `random.random()` draws are an input sequence with one draw per parameter, each in [0, 1). `torch.cuda.is_available()` and `torch.mps.is_available()` are boolean inputs.
- Log output: warning texts are not modelled. Only the warning's kind is kept, with its argument name, encoder class or prior rank.
- `SequenceClassifierOutput`: the packaging of hidden states and attentions is not modelled. The output keeps the loss, the logits and the warnings.
- Label tensors: a label tensor is known by its rank only. Out-of-range label values and mismatched label sizes, which torch would reject, are not modelled.
- `ApiUtils.ResolveDevice`: `str.lower` is modelled for ASCII letters only. No non-ASCII character lowers to a letter of "cuda", "mps", "cpu" or "auto", so which names are accepted does not change.
- `ApiUtils.CreateInstanceString`: offsets beyond the first two are ignored, as in the source. Negative or out-of-order offsets are handled with Python's slice clipping but have no lemma beyond the newline guarantee.
- `Forward.Forward`: the call of `generalize_encoder_forward_kwargs` and the encoder itself are not modelled. The per-task features are an input, one tensor per task, in the order of `self.tasks`.
- `Forward.Model`: `self.tasks` (`config.finetuning_task`, cnlp.py:344) is taken to be the label dictionary's keys in order. A task missing from the label dictionary, which would raise KeyError at `self.label_dictionary[task_name]`, is not modelled.
- `Heads.BuildTask`: only the names `nn.ModuleDict` refuses outright (empty, or containing a dot) are modelled. A task name that clashes with an existing attribute of the module dict is not.
- `Forward.RunOkIff`: with prior tasks only the necessary direction is stated, because a fan-in size mismatch or a widened classifier can also stop the pass. `Forward.PriorWidthMismatchAborts` states when the widened classifier does.
- Dataset construction, tokenisation and the rest of `src/cnlpt/api/utils.py` are not part of this model. So are the REST endpoints, the training scripts and the hierarchical model.
