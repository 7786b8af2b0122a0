/** The direct aggregation path (`_push_pull_tf`): with more than one worker,
    every present gradient is replaced, in order, by the result of one
    synchronous push-pull; absent gradients stay absent. With one worker the
    list is returned untouched and nothing is called.

    The functions here specify that path; the loop that implements it is
    `DistributedOptimizer.PushPullTf` in module KerasOptimizer. Both spec
    functions recur on the last element, the order in which the loop appends. */
module DirectAggregation {
  import opened Engine

  /** What the loop appends for one gradient. */
  function AverageOne(g: Gradient, opts: CallOptions, sparseAsDense: bool): Gradient
  {
    if g.None? then None else Some(PushPull(Prepare(g.value, sparseAsDense), opts))
  }

  /** The calls the loop makes for one gradient. */
  function CallsForOne(g: Gradient, opts: CallOptions, sparseAsDense: bool): seq<Call>
  {
    if g.None? then [] else [PushPullCall(Prepare(g.value, sparseAsDense), opts)]
  }

  /** The averaged gradient list, built the way the loop appends to it. */
  function AveragedGradients(gs: seq<Gradient>, opts: CallOptions, sparseAsDense: bool): seq<Gradient>
  {
    if gs == [] then []
    else AveragedGradients(gs[..|gs| - 1], opts, sparseAsDense) + [AverageOne(gs[|gs| - 1], opts, sparseAsDense)]
  }

  /** The push-pull calls of the loop, in the order it makes them. */
  function PushPullCalls(gs: seq<Gradient>, opts: CallOptions, sparseAsDense: bool): seq<Call>
  {
    if gs == [] then []
    else PushPullCalls(gs[..|gs| - 1], opts, sparseAsDense) + CallsForOne(gs[|gs| - 1], opts, sparseAsDense)
  }

  /** The averaged list has the input's length, is `None` exactly where the
      input is, and every other slot is the push-pull of that slot's
      (possibly densified) gradient. */
  lemma {:induction false} AveragedSlots(gs: seq<Gradient>, opts: CallOptions, sparseAsDense: bool)
    ensures var r := AveragedGradients(gs, opts, sparseAsDense);
            |r| == |gs| &&
            (forall i :: 0 <= i < |gs| ==> (r[i].None? <==> gs[i].None?)) &&
            forall i :: 0 <= i < |gs| && gs[i].Some? ==>
              r[i] == Some(PushPull(Prepare(gs[i].value, sparseAsDense), opts))
  {
    if gs != [] {
      var init := gs[..|gs| - 1];
      AveragedSlots(init, opts, sparseAsDense);
      assert forall i :: 0 <= i < |init| ==> init[i] == gs[i];
    }
  }

  /** The loop makes exactly one push-pull per present gradient, in input
      order: the k-th call carries the k-th present gradient, densified when
      sparse_as_dense asks for it. */
  lemma {:induction false} CallsInInputOrder(gs: seq<Gradient>, opts: CallOptions, sparseAsDense: bool)
    ensures var r, ps := PushPullCalls(gs, opts, sparseAsDense), PresentPositions(gs);
            |r| == |ps| &&
            (forall k :: 0 <= k < |ps| ==> ps[k] < |gs| && gs[ps[k]].Some?) &&
            forall k :: 0 <= k < |r| ==> r[k] == PushPullCall(Prepare(gs[ps[k]].value, sparseAsDense), opts)
  {
    PresentPositionsExact(gs);
    if gs != [] {
      var init := gs[..|gs| - 1];
      CallsInInputOrder(init, opts, sparseAsDense);
      var r0, ps0 := PushPullCalls(init, opts, sparseAsDense), PresentPositions(init);
      var r, ps := PushPullCalls(gs, opts, sparseAsDense), PresentPositions(gs);
      assert r == r0 + CallsForOne(gs[|gs| - 1], opts, sparseAsDense);
      assert ps == ps0 + (if gs[|gs| - 1].Some? then [|gs| - 1] else []);
      forall k | 0 <= k < |r|
        ensures r[k] == PushPullCall(Prepare(gs[ps[k]].value, sparseAsDense), opts)
      {
        if k < |r0| {
          assert r[k] == r0[k] && ps[k] == ps0[k] && init[ps0[k]] == gs[ps0[k]];
        }
      }
    }
  }

  /** Extending the processed prefix by one gradient appends that gradient's
      output slot and its calls. */
  lemma ExtendByOne(gs: seq<Gradient>, i: nat, opts: CallOptions, sparseAsDense: bool)
    requires i < |gs|
    ensures AveragedGradients(gs[..i + 1], opts, sparseAsDense)
            == AveragedGradients(gs[..i], opts, sparseAsDense) + [AverageOne(gs[i], opts, sparseAsDense)]
    ensures PushPullCalls(gs[..i + 1], opts, sparseAsDense)
            == PushPullCalls(gs[..i], opts, sparseAsDense) + CallsForOne(gs[i], opts, sparseAsDense)
  {
    assert gs[..i + 1][..i] == gs[..i];
  }

  /** `_push_pull_tf`'s result for a given worker count. */
  function DirectResult(gs: seq<Gradient>, workers: int, opts: CallOptions, sparseAsDense: bool): seq<Gradient>
  {
    if workers > 1 then AveragedGradients(gs, opts, sparseAsDense) else gs
  }

  /** The collective calls `_push_pull_tf` makes for a given worker count. */
  function DirectCalls(gs: seq<Gradient>, workers: int, opts: CallOptions, sparseAsDense: bool): seq<Call>
  {
    if workers > 1 then PushPullCalls(gs, opts, sparseAsDense) else []
  }

  /** Each call's result lands in the slot of the gradient it was made for:
      the k-th call serves the k-th present position, and that output slot
      holds exactly what the call returns. Calls are made in increasing slot
      order and every present slot gets one. */
  lemma CallResultsLandInPlace(gs: seq<Gradient>, workers: int, opts: CallOptions, sparseAsDense: bool)
    requires workers > 1
    ensures var out := DirectResult(gs, workers, opts, sparseAsDense);
            var calls := DirectCalls(gs, workers, opts, sparseAsDense);
            var ps := PresentPositions(gs);
            |out| == |gs| && |calls| == |ps| &&
            (forall k :: 0 <= k < |ps| ==> ps[k] < |gs| && gs[ps[k]].Some?) &&
            (forall k :: 0 <= k < |calls| ==>
               calls[k].PushPullCall? && out[ps[k]] == Some(PushPull(calls[k].t, calls[k].opts))) &&
            (forall k, l :: 0 <= k < l < |ps| ==> ps[k] < ps[l]) &&
            (forall i :: 0 <= i < |gs| && gs[i].Some? ==> i in ps)
  {
    AveragedSlots(gs, opts, sparseAsDense);
    CallsInInputOrder(gs, opts, sparseAsDense);
    PresentPositionsExact(gs);
  }

  /** With at most one worker the list comes back unchanged and no collective
      call is made; with more, the output has the input's shape. */
  lemma ShapePreserved(gs: seq<Gradient>, workers: int, opts: CallOptions, sparseAsDense: bool)
    ensures workers <= 1 ==> DirectResult(gs, workers, opts, sparseAsDense) == gs &&
                             DirectCalls(gs, workers, opts, sparseAsDense) == []
    ensures var out := DirectResult(gs, workers, opts, sparseAsDense);
            |out| == |gs| && forall i :: 0 <= i < |gs| ==> (out[i].None? <==> gs[i].None?)
  {
    AveragedSlots(gs, opts, sparseAsDense);
  }
}
