/**
 * Construction of `CnlpModelForClassification` (src/cnlpt/models/cnlp.py):
 * the layer-range check, the trainability policies, and the loop over the
 * label dictionary that builds one projection layer and one classification
 * head per task, widening relation heads by the labels of all earlier
 * tasks when prior tasks are used.  The encoder's layer count and its
 * parameter list are inputs (they come from HuggingFace objects).
 */
module Heads {
  import opened Wrappers
  import Projection
  import Freezing

  /** The fatal construction errors. */
  datatype ConstructionError =
    | LayerTooBig(layer: int, numLayers: int)   // ValueError of the layer check
    | KeyError(key: string)                     // `config.tagger[task]` or `config.relations[task]` absent
    | Inconsistent(cause: Projection.ConfigError)
    | InvalidModuleName(name: string)           // `nn.ModuleDict` refuses "" and names containing "."

  /** The configuration the constructor reads.  `labelDictionary` is the
      ordered dict task name -> label list. */
  datatype ModelConfig = ModelConfig(
    hiddenSize: nat,
    layer: int,
    tokens: bool,
    numRelAttentionHeads: int,
    relAttentionHeadDims: int,
    tagger: map<string, bool>,
    relations: map<string, bool>,
    usePriorTasks: bool,
    labelDictionary: seq<(string, seq<string>)>)

  /** `ClassificationHead`: `out_proj` maps `inWidth` features to `numLabels` logits. */
  datatype Classifier = Classifier(inWidth: int, numLabels: nat)

  /** The two modules built for one task. */
  datatype TaskHead = TaskHead(name: string, extractor: Projection.Layer, classifier: Classifier)

  /** The in-width of `ClassificationHead(config, n, hidden_size)`:
      `config.hidden_size` unless a non-negative width is given. */
  function HeadInputWidth(configHiddenSize: int, hiddenSize: int): int
  {
    if hiddenSize < 0 then configHiddenSize else hiddenSize
  }

  /** A dict never repeats a key. */
  predicate DistinctTaskNames(items: seq<(string, seq<string>)>)
  {
    forall i, j :: 0 <= i < j < |items| ==> items[i].0 != items[j].0
  }

  /** The number of labels of all the given tasks. */
  function TotalLabels(items: seq<(string, seq<string>)>): nat
  {
    if items == [] then 0 else TotalLabels(items[..|items| - 1]) + |items[|items| - 1].1|
  }

  /** A name `nn.Module.add_module` accepts (attribute clashes aside). */
  predicate ValidModuleName(name: string)
  {
    name != "" && '.' !in name
  }

  /** The error building a task raises, if any: a missing flag, else an
      inconsistent projection, else a name the module dict refuses.  It does
      not depend on the earlier tasks. */
  function TaskError(cfg: ModelConfig, name: string): Option<ConstructionError>
  {
    if name !in cfg.tagger || name !in cfg.relations then Some(KeyError(name))
    else
      match Projection.NewLayer(cfg.hiddenSize, cfg.layer, cfg.tokens, cfg.tagger[name], cfg.relations[name],
                                cfg.numRelAttentionHeads, cfg.relAttentionHeadDims)
      case Err(e) => Some(Inconsistent(e))
      case Ok(_) => if ValidModuleName(name) then None else Some(InvalidModuleName(name))
  }

  /** The modules of one task, given the labels of all earlier ones. */
  function BuildTask(cfg: ModelConfig, name: string, labels: seq<string>, prevLabels: nat): (r: Result<TaskHead, ConstructionError>)
    ensures r.Err? <==> TaskError(cfg, name).Some?
    ensures r.Err? ==> r.error == TaskError(cfg, name).value
  {
    if name !in cfg.tagger then Err(KeyError(name))
    else if name !in cfg.relations then Err(KeyError(name))
    else
      match Projection.NewLayer(cfg.hiddenSize, cfg.layer, cfg.tokens, cfg.tagger[name], cfg.relations[name],
                                cfg.numRelAttentionHeads, cfg.relAttentionHeadDims)
      case Err(e) => Err(Inconsistent(e))
      case Ok(layer) =>
        if name == "" || '.' in name then Err(InvalidModuleName(name))
        else
          var width :=
            if cfg.relations[name]
            then HeadInputWidth(cfg.hiddenSize, cfg.numRelAttentionHeads + (if cfg.usePriorTasks then prevLabels else 0))
            else HeadInputWidth(cfg.hiddenSize, -1);
          Ok(TaskHead(name, layer, Classifier(width, |labels|)))
  }

  /** The modules of the given tasks, in order, or the first task's error. */
  function TaskHeadsOf(cfg: ModelConfig, items: seq<(string, seq<string>)>): Result<seq<TaskHead>, ConstructionError>
  {
    if items == [] then Ok([])
    else
      var prefix := items[..|items| - 1];
      match TaskHeadsOf(cfg, prefix)
      case Err(e) => Err(e)
      case Ok(prev) =>
        match BuildTask(cfg, items[|items| - 1].0, items[|items| - 1].1, TotalLabels(prefix))
        case Err(e) => Err(e)
        case Ok(h) => Ok(prev + [h])
  }

  /** The per-task loop of the constructor, with its running `total_prev_task_labels`. */
  method BuildTaskHeads(cfg: ModelConfig) returns (r: Result<seq<TaskHead>, ConstructionError>)
    requires DistinctTaskNames(cfg.labelDictionary)
    ensures r == TaskHeadsOf(cfg, cfg.labelDictionary)
  {
    var items := cfg.labelDictionary;
    var heads: seq<TaskHead> := [];
    var totalPrevTaskLabels := 0;
    var i := 0;
    while i < |items|
      invariant 0 <= i <= |items|
      invariant TaskHeadsOf(cfg, items[..i]) == Ok(heads)
      invariant totalPrevTaskLabels == TotalLabels(items[..i])
    {
      var (taskName, taskLabels) := items[i];
      assert items[..i + 1][..i] == items[..i];
      var h := BuildTask(cfg, taskName, taskLabels, totalPrevTaskLabels);
      if h.Err? {
        ErrorPersists(cfg, items, i + 1);
        return Err(h.error);
      }
      heads := heads + [h.value];
      totalPrevTaskLabels := totalPrevTaskLabels + |taskLabels|;
      i := i + 1;
    }
    assert items[..|items|] == items;
    r := Ok(heads);
  }

  /** The modules built for the task `(name, labels)` after tasks with
      `prevLabels` labels in all: the task's flags and a consistent projection
      layer; a classifier with one logit per label, whose input is the
      relation heads, widened by `prevLabels` when prior tasks are used, or
      else the encoder's hidden size. */
  predicate SizedHead(cfg: ModelConfig, name: string, labels: seq<string>, prevLabels: nat, h: TaskHead)
  {
    && name in cfg.tagger && name in cfg.relations && ValidModuleName(name)
    && h.name == name
    && h.extractor.tagger == cfg.tagger[name]
    && h.extractor.relations == cfg.relations[name]
    && Projection.Consistent(h.extractor)
    && h.classifier.numLabels == |labels|
    && h.classifier.inWidth ==
       if cfg.relations[name]
       then cfg.numRelAttentionHeads + (if cfg.usePriorTasks then prevLabels else 0)
       else cfg.hiddenSize
  }

  lemma BuildTaskSized(cfg: ModelConfig, name: string, labels: seq<string>, prevLabels: nat)
    requires BuildTask(cfg, name, labels, prevLabels).Ok?
    ensures SizedHead(cfg, name, labels, prevLabels, BuildTask(cfg, name, labels, prevLabels).value)
  {
  }

  /** One head per task, in order, task k's sized after the labels of tasks
      0 .. k - 1. */
  lemma {:induction false} TaskHeadsSizing(cfg: ModelConfig, items: seq<(string, seq<string>)>)
    requires TaskHeadsOf(cfg, items).Ok?
    ensures var heads := TaskHeadsOf(cfg, items).value;
      && |heads| == |items|
      && forall k :: 0 <= k < |items| ==> SizedHead(cfg, items[k].0, items[k].1, TotalLabels(items[..k]), heads[k])
  {
    if items != [] {
      var n := |items|;
      var prefix := items[..n - 1];
      TaskHeadsSizing(cfg, prefix);
      var prev := TaskHeadsOf(cfg, prefix).value;
      var h := BuildTask(cfg, items[n - 1].0, items[n - 1].1, TotalLabels(prefix)).value;
      assert TaskHeadsOf(cfg, items).value == prev + [h];
      BuildTaskSized(cfg, items[n - 1].0, items[n - 1].1, TotalLabels(prefix));
      forall k | 0 <= k < n
        ensures SizedHead(cfg, items[k].0, items[k].1, TotalLabels(items[..k]), (prev + [h])[k])
      {
        if k < n - 1 {
          assert items[..k] == prefix[..k] && items[k] == prefix[k];
          assert (prev + [h])[k] == prev[k];
        } else {
          assert items[..k] == prefix;
        }
      }
    }
  }

  /** One head per task. */
  lemma {:induction false} OneHeadPerTask(cfg: ModelConfig, items: seq<(string, seq<string>)>)
    requires TaskHeadsOf(cfg, items).Ok?
    ensures |TaskHeadsOf(cfg, items).value| == |items|
  {
    if items != [] {
      OneHeadPerTask(cfg, items[..|items| - 1]);
    }
  }

  /** `TaskHeadsSizing` at one task. */
  lemma SizedAt(cfg: ModelConfig, items: seq<(string, seq<string>)>, k: nat)
    requires TaskHeadsOf(cfg, items).Ok? && k < |items|
    ensures k < |TaskHeadsOf(cfg, items).value|
    ensures SizedHead(cfg, items[k].0, items[k].1, TotalLabels(items[..k]), TaskHeadsOf(cfg, items).value[k])
  {
    TaskHeadsSizing(cfg, items);
  }

  /** Once a prefix of the tasks has failed, construction fails with its error. */
  lemma {:induction false} ErrorPersists(cfg: ModelConfig, items: seq<(string, seq<string>)>, i: nat)
    requires i <= |items| && TaskHeadsOf(cfg, items[..i]).Err?
    ensures TaskHeadsOf(cfg, items) == TaskHeadsOf(cfg, items[..i])
    decreases |items|
  {
    if i < |items| {
      var prefix := items[..|items| - 1];
      assert prefix[..i] == items[..i];
      ErrorPersists(cfg, prefix, i);
    } else {
      assert items[..i] == items;
    }
  }

  /** Construction of the task modules succeeds exactly when every task can be built. */
  lemma {:induction false} TaskHeadsOkIff(cfg: ModelConfig, items: seq<(string, seq<string>)>)
    ensures TaskHeadsOf(cfg, items).Ok? <==> forall k :: 0 <= k < |items| ==> TaskError(cfg, items[k].0).None?
  {
    if items != [] {
      var n := |items|;
      var prefix := items[..n - 1];
      TaskHeadsOkIff(cfg, prefix);
      assert forall k :: 0 <= k < n - 1 ==> prefix[k] == items[k];
    }
  }

  /** A failing construction raises the error of the first task that cannot be built. */
  lemma FirstFailingTask(cfg: ModelConfig, items: seq<(string, seq<string>)>, k: nat)
    requires k < |items| && TaskError(cfg, items[k].0).Some?
    requires forall j :: 0 <= j < k ==> TaskError(cfg, items[j].0).None?
    ensures TaskHeadsOf(cfg, items) == Err(TaskError(cfg, items[k].0).value)
  {
    var before := items[..k];
    assert forall j :: 0 <= j < k ==> before[j] == items[j];
    TaskHeadsOkIff(cfg, before);
    assert items[..k + 1][..k] == before;
    ErrorPersists(cfg, items, k + 1);
  }

  /** The layer-range check of the constructor. */
  function CheckLayer(layer: int, numLayers: int): Option<ConstructionError>
  {
    if layer > numLayers then Some(LayerTooBig(layer, numLayers)) else None
  }

  /** `CnlpModelForClassification.__init__` from the layer check on: the check
      comes before anything changes; then the trainability policies; then the
      task modules. */
  method InitModel(cfg: ModelConfig, numLayers: int, params: array<Freezing.Param>,
                   freeze: real, biasFit: bool, darts: seq<real>)
    returns (r: Result<seq<TaskHead>, ConstructionError>)
    requires DistinctTaskNames(cfg.labelDictionary)
    requires Freezing.Darts(darts) && params.Length <= |darts|
    modifies params
    ensures cfg.layer > numLayers ==> r == Err(LayerTooBig(cfg.layer, numLayers)) && params[..] == old(params[..])
    ensures cfg.layer <= numLayers ==> r == TaskHeadsOf(cfg, cfg.labelDictionary)
    ensures cfg.layer <= numLayers ==> forall i :: 0 <= i < params.Length ==>
      params[i] == Freezing.Policies(old(params[i]), freeze, biasFit, darts[i])
  {
    var failure := CheckLayer(cfg.layer, numLayers);
    if failure.Some? {
      return Err(failure.value);
    }
    Freezing.ApplyTrainabilityPolicies(params, freeze, biasFit, darts);
    r := BuildTaskHeads(cfg);
  }
}
