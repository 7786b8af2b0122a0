/** The Keras optimizer wrapper that `create_distributed_optimizer` builds.
    The wrapper chooses the aggregation path once, at construction, from the
    BYTEPS_ENABLE_XLA setting; feeds the gradients the base optimizer
    computed through that path; and refuses to apply gradients until some
    aggregation call has happened. The "aggregated" flag starts false and is
    only ever set to true.

    The base optimizer is not modelled: the gradients it computes arrive as
    arguments, and the updates it is asked to apply are recorded in the ghost
    list `applied`. The worker count `bps.size()` is an argument of each call. */
module KerasOptimizer {
  import opened Engine
  import DirectAggregation
  import XlaAggregation

  /** Which bound method `self._push_pull` refers to. */
  datatype Mode = Direct | Accelerated

  /** A trainable variable, identified by its position among the parameters. */
  datatype Variable = Variable(id: nat)

  datatype ApplyOutcome = Applied | ConfigurationError(message: string)

  const ApplyWithoutAggregationMessage: string :=
    "`apply_gradients()` was called without a call to `get_gradients()` or `_aggregate_gradients`. "
    + "If you're using TensorFlow 2.0, please specify `experimental_run_tf_function=False` in `compile()`."

  /** The mode is accelerated exactly when the setting is the string "1". */
  function ModeFor(enableXla: string): (m: Mode)
    ensures m == Accelerated <==> enableXla == "1"
  {
    if enableXla == "1" then Accelerated else Direct
  }

  /** The wrapper's name: the given name when it is a non-empty string (Python
      treats `None` and "" alike), else "Distributed" and the base class's name. */
  function OptimizerName(name: Option<string>, baseClassName: string): (r: string)
    ensures |r| > 0
    ensures name.Some? && name.value != "" ==> r == name.value
    ensures name.None? || name.value == "" ==>
              |r| >= 11 && r[..11] == "Distributed" && r[11..] == baseClassName
  {
    if name.Some? && name.value != "" then name.value else "Distributed" + baseClassName
  }

  /** What one aggregation request does in the given mode: its result and the
      collaborator calls it makes, in order. */
  function Aggregate(mode: Mode, grads: seq<Gradient>, workers: int, opts: CallOptions, sparseAsDense: bool): Run
  {
    match mode
    case Direct =>
      Run(Ok(DirectAggregation.DirectResult(grads, workers, opts, sparseAsDense)),
          DirectAggregation.DirectCalls(grads, workers, opts, sparseAsDense))
    case Accelerated => XlaAggregation.XlaRun(grads, workers, opts, sparseAsDense)
  }

  function GradientsOf(gradsAndVars: seq<(Gradient, Variable)>): (r: seq<Gradient>)
    ensures |r| == |gradsAndVars| && forall i :: 0 <= i < |r| ==> r[i] == gradsAndVars[i].0
  {
    seq(|gradsAndVars|, i requires 0 <= i < |gradsAndVars| => gradsAndVars[i].0)
  }

  class DistributedOptimizer {
    const name: string
    const deviceDense: string
    const deviceSparse: string
    const compression: Compression
    const sparseAsDense: bool
    const mode: Mode

    /** Whether any aggregation call has happened on this wrapper. */
    var aggregatedGradients: bool

    /** Every collective and decompress call made through this wrapper, in
        order: an observation of the engine, not state the wrapper keeps. */
    ghost var calls: seq<Call>

    /** The argument lists handed on to the base optimizer's apply_gradients. */
    ghost var applied: seq<seq<(Gradient, Variable)>>

    /** The options of every collective call: the name scope
        `<name>_Push_Pull`, the device hints and the compression. */
    function Options(): CallOptions
    {
      CallOptions(name + "_Push_Pull", deviceDense, deviceSparse, compression)
    }

    constructor (name: Option<string>, baseClassName: string, deviceDense: string, deviceSparse: string,
                 compression: Compression, sparseAsDense: bool, enableXla: string)
      ensures this.name == OptimizerName(name, baseClassName)
      ensures this.deviceDense == deviceDense && this.deviceSparse == deviceSparse
      ensures this.compression == compression && this.sparseAsDense == sparseAsDense
      ensures mode == ModeFor(enableXla)
      ensures !aggregatedGradients && calls == [] && applied == []
    {
      this.name := OptimizerName(name, baseClassName);
      this.deviceDense := deviceDense;
      this.deviceSparse := deviceSparse;
      this.compression := compression;
      this.sparseAsDense := sparseAsDense;
      this.aggregatedGradients := false;
      this.mode := ModeFor(enableXla);
      this.calls := [];
      this.applied := [];
    }

    /** The direct path: set the flag, then with more than one worker replace
        every present gradient by one synchronous push-pull, in order. */
    method PushPullTf(gradients: seq<Gradient>, workers: int) returns (averaged: seq<Gradient>)
      modifies this
      ensures aggregatedGradients
      ensures averaged == DirectAggregation.DirectResult(gradients, workers, Options(), sparseAsDense)
      ensures calls == old(calls) + DirectAggregation.DirectCalls(gradients, workers, Options(), sparseAsDense)
      ensures applied == old(applied)
    {
      aggregatedGradients := true;
      if workers > 1 {
        var opts := Options();
        var out: seq<Gradient> := [];
        var i := 0;
        while i < |gradients|
          invariant 0 <= i <= |gradients|
          invariant out == DirectAggregation.AveragedGradients(gradients[..i], opts, sparseAsDense)
          invariant calls == old(calls) + DirectAggregation.PushPullCalls(gradients[..i], opts, sparseAsDense)
          invariant aggregatedGradients && applied == old(applied)
        {
          DirectAggregation.ExtendByOne(gradients, i, opts, sparseAsDense);
          var grad := gradients[i];
          if grad.Some? {
            var t := grad.value;
            if sparseAsDense && t.IndexedSlices? {
              t := ConvertToTensor(t);
            }
            var avg := Engine.PushPull(t, opts);
            calls := calls + [PushPullCall(t, opts)];
            out := out + [Some(avg)];
          } else {
            out := out + [None];
          }
          i := i + 1;
        }
        assert gradients[..|gradients|] == gradients;
        averaged := out;
      } else {
        averaged := gradients;
      }
    }

    /** The accelerated path: set the flag, then run the list pipeline. */
    method PushPullXla(grads: seq<Gradient>, workers: int) returns (r: Result<seq<Gradient>, AggregateError>)
      modifies this
      ensures aggregatedGradients
      ensures r == XlaAggregation.XlaRun(grads, workers, Options(), sparseAsDense).result
      ensures calls == old(calls) + XlaAggregation.XlaRun(grads, workers, Options(), sparseAsDense).calls
      ensures applied == old(applied)
    {
      aggregatedGradients := true;
      var run := XlaAggregation.XlaRun(grads, workers, Options(), sparseAsDense);
      calls := calls + run.calls;
      r := run.result;
    }

    /** `self._push_pull`: the path chosen at construction. */
    method PushPull(grads: seq<Gradient>, workers: int) returns (r: Result<seq<Gradient>, AggregateError>)
      modifies this
      ensures aggregatedGradients
      ensures r == Aggregate(mode, grads, workers, Options(), sparseAsDense).result
      ensures calls == old(calls) + Aggregate(mode, grads, workers, Options(), sparseAsDense).calls
      ensures applied == old(applied)
    {
      if mode == Accelerated {
        r := PushPullXla(grads, workers);
      } else {
        var averaged := PushPullTf(grads, workers);
        r := Ok(averaged);
      }
    }

    /** get_gradients: the gradients the base optimizer computed, aggregated. */
    method GetGradients(local: seq<Gradient>, workers: int) returns (r: Result<seq<Gradient>, AggregateError>)
      modifies this
      ensures aggregatedGradients
      ensures r == Aggregate(mode, local, workers, Options(), sparseAsDense).result
      ensures calls == old(calls) + Aggregate(mode, local, workers, Options(), sparseAsDense).calls
      ensures applied == old(applied)
    {
      r := PushPull(local, workers);
    }

    /** _aggregate_gradients: the gradients of the (gradient, variable) pairs,
        in order, aggregated; the variables are dropped. */
    method AggregateGradients(gradsAndVars: seq<(Gradient, Variable)>, workers: int)
      returns (r: Result<seq<Gradient>, AggregateError>)
      modifies this
      ensures aggregatedGradients
      ensures r == Aggregate(mode, GradientsOf(gradsAndVars), workers, Options(), sparseAsDense).result
      ensures calls == old(calls) + Aggregate(mode, GradientsOf(gradsAndVars), workers, Options(), sparseAsDense).calls
      ensures applied == old(applied)
    {
      r := PushPull(GradientsOf(gradsAndVars), workers);
    }

    /** apply_gradients: refused with a configuration error until some
        aggregation call has happened, otherwise handed to the base optimizer. */
    method ApplyGradients(gradsAndVars: seq<(Gradient, Variable)>) returns (r: ApplyOutcome)
      modifies this`applied
      ensures r == if aggregatedGradients then Applied else ConfigurationError(ApplyWithoutAggregationMessage)
      ensures applied == if aggregatedGradients then old(applied) + [gradsAndVars] else old(applied)
    {
      if !aggregatedGradients {
        r := ConfigurationError(ApplyWithoutAggregationMessage);
      } else {
        applied := applied + [gradsAndVars];
        r := Applied;
      }
    }
  }

  /** A fresh wrapper refuses to apply gradients; after any aggregation call,
      in either mode and whether or not that call failed, it applies them. */
  method ApplyNeedsAggregationFirst(enableXla: string, local: seq<Gradient>, workers: int,
                                    gradsAndVars: seq<(Gradient, Variable)>)
    returns (before: ApplyOutcome, after: ApplyOutcome)
    ensures before == ConfigurationError(ApplyWithoutAggregationMessage)
    ensures after == Applied
  {
    var opt := new DistributedOptimizer(None, "SGD", "", "", Compression("none"), false, enableXla);
    before := opt.ApplyGradients(gradsAndVars);
    var _ := opt.GetGradients(local, workers);
    after := opt.ApplyGradients(gradsAndVars);
  }

  /** Aggregating twice issues two full rounds of calls: nothing is cached. */
  method RepeatedAggregationRepeatsCalls(enableXla: string, local: seq<Gradient>, workers: int)
    returns (ghost afterOne: seq<Call>, ghost afterTwo: seq<Call>)
    ensures afterTwo == afterOne + afterOne
    ensures workers > 1 && enableXla != "1" ==> |afterOne| == |PresentPositions(local)|
  {
    var opt := new DistributedOptimizer(None, "SGD", "", "", Compression("none"), false, enableXla);
    var _ := opt.GetGradients(local, workers);
    afterOne := opt.calls;
    DirectAggregation.CallsInInputOrder(local, opt.Options(), false);
    var _ := opt.GetGradients(local, workers);
    afterTwo := opt.calls;
  }

  // ---------------------------------------------------------------------------
  // Properties of one aggregation request, across both modes.

  /** With at most one worker both modes return the list unchanged and make
      no call. */
  lemma SingleWorkerIsNoOp(mode: Mode, grads: seq<Gradient>, workers: int, opts: CallOptions, sparseAsDense: bool)
    requires workers <= 1
    ensures Aggregate(mode, grads, workers, opts, sparseAsDense) == Run(Ok(grads), [])
  {
  }

  /** Whenever a request succeeds, in either mode, the output has the input's
      length and is absent exactly where the input is. */
  lemma SuccessKeepsShape(mode: Mode, grads: seq<Gradient>, workers: int, opts: CallOptions, sparseAsDense: bool)
    requires Aggregate(mode, grads, workers, opts, sparseAsDense).result.Ok?
    ensures var out := Aggregate(mode, grads, workers, opts, sparseAsDense).result.value;
            |out| == |grads| && forall i :: 0 <= i < |grads| ==> (out[i].None? <==> grads[i].None?)
  {
    if mode == Direct {
      DirectAggregation.ShapePreserved(grads, workers, opts, sparseAsDense);
    } else if workers > 1 {
      XlaAggregation.OutputsInOrder(grads, workers, opts, sparseAsDense);
    }
  }

  /** When the accelerated path succeeds with more than one worker, it
      launches its collectives on the same tensors, in the same order, as the
      direct path would: the order all workers must agree on. */
  lemma ModesLaunchInSameOrder(grads: seq<Gradient>, workers: int, opts: CallOptions, sparseAsDense: bool)
    requires workers > 1
    requires Aggregate(Accelerated, grads, workers, opts, sparseAsDense).result.Ok?
    ensures var direct := Aggregate(Direct, grads, workers, opts, sparseAsDense).calls;
            var accel := Aggregate(Accelerated, grads, workers, opts, sparseAsDense).calls;
            |direct| == |grads| < |accel| &&
            forall i :: 0 <= i < |grads| ==>
              direct[i].PushPullCall? && accel[i].IssueCall? && direct[i].t == accel[i].t
  {
    XlaAggregation.Choreography(grads, workers, opts, sparseAsDense);
    AllPresent(grads);
    DirectAggregation.CallsInInputOrder(grads, opts, sparseAsDense);
  }
}
