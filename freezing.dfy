/**
 * The two trainability policies applied to the encoder's parameters at
 * construction (src/cnlpt/models/cnlp.py): stochastic freezing
 * (`freeze_encoder_weights`) and bias-only fine-tuning (the `bias_fit`
 * loop of the model constructor).  The parameters are an array of
 * (name, requires_grad) records updated in place; `random.random()` is an
 * injected sequence of darts in [0, 1), the i-th dart drawn for the i-th
 * parameter.
 */
module Freezing {

  /** One encoder parameter, by its name from `named_parameters()`. */
  datatype Param = Param(name: string, requiresGrad: bool)

  /** Python's `t in s` for strings: `t` occurs somewhere in `s`. */
  ghost predicate Occurs(t: string, s: string)
  {
    exists i :: OccursAt(t, s, i)
  }

  /** `t` occurs in `s` starting at position `i`. */
  predicate OccursAt(t: string, s: string, i: int)
  {
    0 <= i <= |s| - |t| && s[i..i + |t|] == t
  }

  /** A direct scan for `t` in `s`, starting at each position in turn. */
  function Contains(s: string, t: string): bool
    decreases |s|
  {
    if |t| > |s| then false
    else if s[..|t|] == t then true
    else Contains(s[1..], t)
  }

  /** The scan agrees with the substring definition. */
  lemma {:induction false} ContainsIsOccurs(s: string, t: string)
    ensures Contains(s, t) <==> Occurs(t, s)
    decreases |s|
  {
    if |t| > |s| {
    } else if s[..|t|] == t {
      assert OccursAt(t, s, 0);
    } else {
      ContainsIsOccurs(s[1..], t);
      if Occurs(t, s) {
        var i :| OccursAt(t, s, i);
        assert i != 0;
        assert s[1..][i - 1..i - 1 + |t|] == s[i..i + |t|];
        assert OccursAt(t, s[1..], i - 1);
      }
      if Occurs(t, s[1..]) {
        var i :| OccursAt(t, s[1..], i);
        assert s[i + 1..i + 1 + |t|] == s[1..][i..i + |t|];
        assert OccursAt(t, s, i + 1);
      }
    }
  }

  /** Whether the stochastic policy freezes a parameter, given its dart. */
  predicate FreezeHits(freeze: real, dart: real)
  {
    freeze >= 1.0 || dart < freeze
  }

  /** One parameter after `freeze_encoder_weights`. */
  function Freeze(p: Param, freeze: real, dart: real): (r: Param)
    ensures r.name == p.name
    ensures r.requiresGrad ==> p.requiresGrad
    ensures freeze >= 1.0 ==> !r.requiresGrad
    ensures freeze < 1.0 ==> (r.requiresGrad <==> p.requiresGrad && freeze <= dart)
  {
    if FreezeHits(freeze, dart) then p.(requiresGrad := false) else p
  }

  /** One parameter after the bias_fit loop. */
  function BiasOnly(p: Param): (r: Param)
    ensures r.name == p.name
    ensures r.requiresGrad <==> p.requiresGrad && Occurs("bias", p.name)
  {
    ContainsIsOccurs(p.name, "bias");
    if Contains(p.name, "bias") then p else p.(requiresGrad := false)
  }

  /** Both policies in the constructor's order: freezing only when `freeze > 0`,
      then bias-only fine-tuning when `bias_fit` is set. */
  function Policies(p: Param, freeze: real, biasFit: bool, dart: real): Param
  {
    var q := if freeze > 0.0 then Freeze(p, freeze, dart) else p;
    if biasFit then BiasOnly(q) else q
  }

  /** A well-formed random source: every dart lies in [0, 1). */
  predicate Darts(darts: seq<real>)
  {
    forall i :: 0 <= i < |darts| ==> 0.0 <= darts[i] < 1.0
  }

  /** `freeze_encoder_weights(encoder, freeze)`. */
  method FreezeEncoderWeights(params: array<Param>, freeze: real, darts: seq<real>)
    requires Darts(darts) && params.Length <= |darts|
    modifies params
    ensures forall i :: 0 <= i < params.Length ==> params[i] == Freeze(old(params[i]), freeze, darts[i])
  {
    for i := 0 to params.Length
      invariant forall k :: 0 <= k < i ==> params[k] == Freeze(old(params[k]), freeze, darts[k])
      invariant forall k :: i <= k < params.Length ==> params[k] == old(params[k])
    {
      if freeze >= 1.0 {
        params[i] := params[i].(requiresGrad := false);
      } else {
        var dart := darts[i];
        if dart < freeze {
          params[i] := params[i].(requiresGrad := false);
        }
      }
    }
  }

  /** The bias_fit loop: freeze every parameter whose name lacks "bias". */
  method BiasFit(params: array<Param>)
    modifies params
    ensures forall i :: 0 <= i < params.Length ==> params[i] == BiasOnly(old(params[i]))
  {
    for i := 0 to params.Length
      invariant forall k :: 0 <= k < i ==> params[k] == BiasOnly(old(params[k]))
      invariant forall k :: i <= k < params.Length ==> params[k] == old(params[k])
    {
      if !Contains(params[i].name, "bias") {
        params[i] := params[i].(requiresGrad := false);
      }
    }
  }

  /** The trainability part of the model constructor (freeze, then bias_fit). */
  method ApplyTrainabilityPolicies(params: array<Param>, freeze: real, biasFit: bool, darts: seq<real>)
    requires Darts(darts) && params.Length <= |darts|
    modifies params
    ensures forall i :: 0 <= i < params.Length ==> params[i] == Policies(old(params[i]), freeze, biasFit, darts[i])
  {
    if freeze > 0.0 {
      FreezeEncoderWeights(params, freeze, darts);
    }
    if biasFit {
      BiasFit(params);
    }
  }

  /** The policies only ever clear `requires_grad`, and never rename. */
  lemma PoliciesOnlyFreeze(p: Param, freeze: real, biasFit: bool, dart: real)
    ensures Policies(p, freeze, biasFit, dart).name == p.name
    ensures Policies(p, freeze, biasFit, dart).requiresGrad ==> p.requiresGrad
  {
  }

  /** A parameter stays trainable exactly when it was trainable, escaped the
      stochastic policy, and (under bias_fit) is a bias term. */
  lemma PoliciesTrainableIff(p: Param, freeze: real, biasFit: bool, dart: real)
    ensures Policies(p, freeze, biasFit, dart).requiresGrad <==>
      p.requiresGrad && !(freeze > 0.0 && FreezeHits(freeze, dart)) && (biasFit ==> Occurs("bias", p.name))
  {
  }
}
