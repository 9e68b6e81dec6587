/**
 * The encoder-attribute lookup of `CnlpConfig.__init__`
 * (src/cnlpt/models/cnlp.py): where the hidden size and the hidden dropout
 * probability are read from the encoder's own configuration, which differs
 * between encoder families.  The configuration dictionary that
 * `AutoConfig.from_pretrained(...).to_dict()` yields is an input map.
 */
module EncoderConfig {
  import opened Wrappers

  /** A value of the encoder's configuration dictionary. */
  datatype Value = IntValue(i: int) | RealValue(r: real) | StrValue(s: string) | OtherValue

  /** A missing key: a bare `KeyError`, or the `ValueError` the BERT branch raises
      in its place (its message names the missing key). */
  datatype LookupError = KeyError(key: string) | ValueError(key: string)

  /** The pair the rest of the model reads: `hidden_size` and `hidden_dropout_prob`. */
  datatype EncoderAttributes = EncoderAttributes(hiddenSize: Value, hiddenDropoutProb: Value)

  /** The keys each branch reads, in the order it reads them. */
  const DistilBertKeys: seq<string> := ["dropout", "dim"]
  const ModernBertKeys: seq<string> :=
    ["hidden_size", "mlp_dropout", "attention_dropout", "embedding_dropout", "mlp_dropout", "classifier_dropout"]
  const BertKeys: seq<string> := ["hidden_dropout_prob", "hidden_size"]

  predicate StartsWith(s: string, prefix: string)
  {
    |prefix| <= |s| && s[..|prefix|] == prefix
  }

  /** The first of `keys` absent from `config`, if any. */
  function FirstMissing(config: map<string, Value>, keys: seq<string>): (r: Option<string>)
    ensures r.None? <==> forall k :: k in keys ==> k in config
    ensures r.Some? ==> exists i :: 0 <= i < |keys| && keys[i] == r.value && r.value !in config
                          && forall j :: 0 <= j < i ==> keys[j] in config
  {
    if keys == [] then None
    else if keys[0] !in config then Some(keys[0])
    else
      var rest := FirstMissing(config, keys[1..]);
      assert forall k :: k in keys ==> k == keys[0] || k in keys[1..];
      if rest.Some? then
        ghost var i :| 0 <= i < |keys[1..]| && keys[1..][i] == rest.value && rest.value !in config
                       && forall j :: 0 <= j < i ==> keys[1..][j] in config;
        assert keys[i + 1] == rest.value;
        assert forall j :: 0 <= j < i + 1 ==> keys[j] in config by {
          forall j | 0 <= j < i + 1 ensures keys[j] in config {
            if j > 0 { assert keys[j] == keys[1..][j - 1]; }
          }
        }
        rest
      else rest
  }

  /** The encoder family the lookup chooses, in the order it tests them. */
  datatype Family = DistilBert | ModernBert | Bert | UnknownModelType

  function FamilyOf(encoderName: string, config: map<string, Value>): Family
  {
    if StartsWith(encoderName, "distilbert") then DistilBert
    else if "model_type" !in config then UnknownModelType
    else if config["model_type"] == StrValue("modernbert") then ModernBert
    else Bert
  }

  /** The keys the family's branch reads. */
  function KeysOf(f: Family): seq<string>
  {
    match f
    case DistilBert => DistilBertKeys
    case ModernBert => ModernBertKeys
    case Bert => BertKeys
    case UnknownModelType => ["model_type"]
  }

  /** The hidden size and hidden dropout probability `CnlpConfig` records. */
  function EncoderAttributesOf(encoderName: string, config: map<string, Value>): (r: Result<EncoderAttributes, LookupError>)
    ensures var f := FamilyOf(encoderName, config);
      r.Ok? <==> f != UnknownModelType && forall k :: k in KeysOf(f) ==> k in config
    ensures r.Ok? ==> match FamilyOf(encoderName, config)
      case DistilBert => r.value == EncoderAttributes(config["dim"], config["dropout"])
      case ModernBert => r.value == EncoderAttributes(config["hidden_size"], config["mlp_dropout"])
      case Bert => r.value == EncoderAttributes(config["hidden_size"], config["hidden_dropout_prob"])
      case UnknownModelType => false
    ensures r.Err? && FamilyOf(encoderName, config) == Bert ==> r.error.ValueError?
    ensures r.Err? && FamilyOf(encoderName, config) != Bert ==> r.error.KeyError?
    ensures r.Err? ==> FirstMissing(config, KeysOf(FamilyOf(encoderName, config))) == Some(r.error.key)
  {
    if StartsWith(encoderName, "distilbert") then
      match FirstMissing(config, DistilBertKeys)
      case Some(k) => Err(KeyError(k))
      case None => Ok(EncoderAttributes(config["dim"], config["dropout"]))
    else if "model_type" !in config then Err(KeyError("model_type"))
    else if config["model_type"] == StrValue("modernbert") then
      match FirstMissing(config, ModernBertKeys)
      case Some(k) => Err(KeyError(k))
      case None => Ok(EncoderAttributes(config["hidden_size"], config["mlp_dropout"]))
    else
      match FirstMissing(config, BertKeys)
      case Some(k) => Err(ValueError(k))
      case None => Ok(EncoderAttributes(config["hidden_size"], config["hidden_dropout_prob"]))
  }

  /** A "distilbert" name prefix decides the branch whatever `model_type` says. */
  lemma DistilBertNameWins(encoderName: string, config: map<string, Value>, modelType: Value)
    requires StartsWith(encoderName, "distilbert")
    ensures EncoderAttributesOf(encoderName, config) == EncoderAttributesOf(encoderName, config["model_type" := modelType])
  {
    assert FirstMissing(config, DistilBertKeys) == FirstMissing(config["model_type" := modelType], DistilBertKeys);
  }
}
