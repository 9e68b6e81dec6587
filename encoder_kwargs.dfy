/**
 * The encoder keyword filter `generalize_encoder_forward_kwargs`
 * (src/cnlpt/models/cnlp.py): keep the keyword arguments the encoder's
 * `forward` accepts, warn about the rejected ones that carry a value.
 * The encoder's parameter names, which the source gets by signature
 * introspection, are an input set.
 */
module EncoderKwargs {
  import opened Wrappers

  /** One keyword argument: its name and its value (`None` is Python's None). */
  type Kwarg<V> = (string, Option<V>)

  /** "Parameter {name} not present for encoder class {encoderClass}." */
  datatype Warning = ParameterNotPresent(name: string, encoderClass: string)

  /** Python keyword arguments, and the keys of a dict, never repeat a name;
      under this invariant an ordered sequence of pairs is a Python dict. */
  predicate DistinctNames<V>(kwargs: seq<Kwarg<V>>)
  {
    forall i, j :: 0 <= i < j < |kwargs| ==> kwargs[i].0 != kwargs[j].0
  }

  /** The arguments the encoder accepts, in input order, values untouched. */
  function Accepted<V>(params: set<string>, kwargs: seq<Kwarg<V>>): seq<Kwarg<V>>
  {
    if kwargs == [] then []
    else
      var last := kwargs[|kwargs| - 1];
      Accepted(params, kwargs[..|kwargs| - 1]) + (if last.0 in params then [last] else [])
  }

  /** One warning per rejected argument whose value is not None, in input order. */
  function Warnings<V>(params: set<string>, encoderClass: string, kwargs: seq<Kwarg<V>>): seq<Warning>
  {
    if kwargs == [] then []
    else
      var last := kwargs[|kwargs| - 1];
      Warnings(params, encoderClass, kwargs[..|kwargs| - 1])
      + (if last.0 !in params && last.1.Some? then [ParameterNotPresent(last.0, encoderClass)] else [])
  }

  /** The filter loop: builds `new_kwargs` argument by argument. */
  method GeneralizeEncoderForwardKwargs<V>(params: set<string>, encoderClass: string, kwargs: seq<Kwarg<V>>)
    returns (newKwargs: seq<Kwarg<V>>, warnings: seq<Warning>)
    requires DistinctNames(kwargs)
    ensures newKwargs == Accepted(params, kwargs)
    ensures warnings == Warnings(params, encoderClass, kwargs)
  {
    newKwargs, warnings := [], [];
    var i := 0;
    while i < |kwargs|
      invariant 0 <= i <= |kwargs|
      invariant newKwargs == Accepted(params, kwargs[..i])
      invariant warnings == Warnings(params, encoderClass, kwargs[..i])
    {
      var (name, value) := kwargs[i];
      assert kwargs[..i + 1][..i] == kwargs[..i];
      if name !in params && value.Some? {
        warnings := warnings + [ParameterNotPresent(name, encoderClass)];
      } else if name in params {
        newKwargs := newKwargs + [(name, value)];
      }
      i := i + 1;
    }
    assert kwargs[..|kwargs|] == kwargs;
  }

  /** Exactly the input pairs whose name is a parameter are kept, None values included. */
  lemma {:induction false} AcceptedExactly<V>(params: set<string>, kwargs: seq<Kwarg<V>>)
    ensures forall a :: a in Accepted(params, kwargs) ==> a in kwargs && a.0 in params
    ensures forall a :: a in kwargs && a.0 in params ==> a in Accepted(params, kwargs)
  {
    if kwargs != [] {
      var prefix := kwargs[..|kwargs| - 1];
      AcceptedExactly(params, prefix);
      assert kwargs == prefix + [kwargs[|kwargs| - 1]];
    }
  }

  /** Filtering distributes over concatenation: the input order is kept. */
  lemma {:induction false} AcceptedConcat<V>(params: set<string>, a: seq<Kwarg<V>>, b: seq<Kwarg<V>>)
    ensures Accepted(params, a + b) == Accepted(params, a) + Accepted(params, b)
  {
    if b != [] {
      var b' := b[..|b| - 1];
      assert (a + b)[..|a + b| - 1] == a + b';
      AcceptedConcat(params, a, b');
    } else {
      assert a + b == a;
    }
  }

  /** The filtered arguments still form a dict: no name repeats. */
  lemma {:induction false} AcceptedDistinct<V>(params: set<string>, kwargs: seq<Kwarg<V>>)
    requires DistinctNames(kwargs)
    ensures DistinctNames(Accepted(params, kwargs))
  {
    if kwargs != [] {
      var prefix := kwargs[..|kwargs| - 1];
      var last := kwargs[|kwargs| - 1];
      AcceptedDistinct(params, prefix);
      AcceptedExactly(params, prefix);
      var acc := Accepted(params, prefix);
      forall k | 0 <= k < |acc|
        ensures acc[k].0 != last.0
      {
        assert acc[k] in acc;
        assert acc[k] in prefix;
        var j :| 0 <= j < |prefix| && prefix[j] == acc[k];
        assert kwargs[j] == prefix[j];
      }
    }
  }

  /** A warning is issued for a name exactly when some argument of that name is
      rejected by the encoder and carries a value; it names the encoder class. */
  lemma {:induction false} WarningsExactly<V>(params: set<string>, encoderClass: string, kwargs: seq<Kwarg<V>>)
    ensures forall w :: w in Warnings(params, encoderClass, kwargs) <==>
      w.encoderClass == encoderClass && w.name !in params &&
      exists i :: 0 <= i < |kwargs| && kwargs[i].0 == w.name && kwargs[i].1.Some?
  {
    if kwargs != [] {
      var prefix := kwargs[..|kwargs| - 1];
      WarningsExactly(params, encoderClass, prefix);
      forall w: Warning
        ensures (exists i :: 0 <= i < |kwargs| && kwargs[i].0 == w.name && kwargs[i].1.Some?) <==>
          (exists i :: 0 <= i < |prefix| && prefix[i].0 == w.name && prefix[i].1.Some?) ||
          (kwargs[|kwargs| - 1].0 == w.name && kwargs[|kwargs| - 1].1.Some?)
      {
        if exists i :: 0 <= i < |kwargs| && kwargs[i].0 == w.name && kwargs[i].1.Some? {
          var i :| 0 <= i < |kwargs| && kwargs[i].0 == w.name && kwargs[i].1.Some?;
          if i < |prefix| { assert prefix[i] == kwargs[i]; }
        }
        if exists i :: 0 <= i < |prefix| && prefix[i].0 == w.name && prefix[i].1.Some? {
          var i :| 0 <= i < |prefix| && prefix[i].0 == w.name && prefix[i].1.Some?;
          assert kwargs[i] == prefix[i];
        }
      }
    }
  }

  /** Every argument is kept, warned about, or silently dropped (a None that
      the encoder does not accept), and each in exactly one way. */
  lemma {:induction false} EveryArgumentAccountedFor<V>(params: set<string>, encoderClass: string, kwargs: seq<Kwarg<V>>)
    ensures |Accepted(params, kwargs)| + |Warnings(params, encoderClass, kwargs)|
            + |SilentlyDropped(params, kwargs)| == |kwargs|
  {
    if kwargs != [] {
      EveryArgumentAccountedFor(params, encoderClass, kwargs[..|kwargs| - 1]);
    }
  }

  /** The rejected arguments whose value is None: they produce nothing. */
  function SilentlyDropped<V>(params: set<string>, kwargs: seq<Kwarg<V>>): seq<string>
  {
    if kwargs == [] then []
    else
      var last := kwargs[|kwargs| - 1];
      SilentlyDropped(params, kwargs[..|kwargs| - 1])
      + (if last.0 !in params && last.1.None? then [last.0] else [])
  }
}
