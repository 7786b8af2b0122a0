/** The accelerated aggregation path (`_push_pull_xla`), as the pipeline of
    list operations it is built from:

      1. with at most one worker, return the list untouched;
      2. densify sparse gradients when sparse_as_dense is set;
      3. issue one asynchronous push-pull per gradient, tagged with its
         1-based position (a `None` slot yields `None` and no call);
      4. unzip the results into four parallel lists (tensors, names, handles,
         contexts) — this raises when a slot is `None` or the list is empty;
      5. make exactly one barrier over all the handles;
      6. bind every tensor to the barrier with its own name and 1-based index;
      7. decompress every synced tensor with its own context.

    Nothing re-inserts `None` slots: a request holding one fails at step 4,
    after the launches of step 3 have already happened. */
module XlaAggregation {
  import opened Engine

  /** The four parallel lists `zip(*...)` produces. */
  datatype Columns = Columns(tensors: seq<Tensor>, names: seq<Name>, handles: seq<Handle>, ctxes: seq<Ctx>)

  function Min(a: int, b: int): int
  {
    if a <= b then a else b
  }

  /** Step 2: the optional densification of sparse gradients. */
  function DensifyAll(grads: seq<Gradient>, sparseAsDense: bool): (r: seq<Gradient>)
    ensures |r| == |grads|
    ensures forall i :: 0 <= i < |grads| ==> (r[i].None? <==> grads[i].None?)
    ensures forall i :: 0 <= i < |grads| && grads[i].Some? ==> r[i].value == Prepare(grads[i].value, sparseAsDense)
  {
    if sparseAsDense then
      seq(|grads|, i requires 0 <= i < |grads| =>
        if grads[i].Some? && grads[i].value.IndexedSlices? then Some(ConvertToTensor(grads[i].value)) else grads[i])
    else grads
  }

  /** Step 3: the results of the asynchronous push-pulls, one slot per gradient. */
  function IssueAll(grads: seq<Gradient>, opts: CallOptions): seq<Option<AsyncOut>>
  {
    seq(|grads|, i requires 0 <= i < |grads| =>
      if grads[i].None? then None else Some(PushPullAsync(grads[i].value, opts, i + 1)))
  }

  /** Step 3: the asynchronous push-pull calls the comprehension makes, in
      list order. */
  function IssueCalls(grads: seq<Gradient>, opts: CallOptions): seq<Call>
  {
    if grads == [] then []
    else
      var n := |grads|;
      IssueCalls(grads[..n - 1], opts) + (if grads[n - 1].None? then [] else [IssueCall(grads[n - 1].value, opts, n)])
  }

  /** One launch per present gradient, in list order, each tagged with the
      gradient's 1-based position in the whole list (never renumbered past
      absent slots). */
  lemma {:induction false} LaunchesInInputOrder(grads: seq<Gradient>, opts: CallOptions)
    ensures var r, ps := IssueCalls(grads, opts), PresentPositions(grads);
            |r| == |ps| &&
            (forall k :: 0 <= k < |ps| ==> ps[k] < |grads| && grads[ps[k]].Some?) &&
            forall k :: 0 <= k < |r| ==> r[k] == IssueCall(grads[ps[k]].value, opts, ps[k] + 1)
  {
    PresentPositionsExact(grads);
    if grads != [] {
      var n := |grads|;
      var init := grads[..n - 1];
      LaunchesInInputOrder(init, opts);
      var r0, ps0 := IssueCalls(init, opts), PresentPositions(init);
      var r, ps := IssueCalls(grads, opts), PresentPositions(grads);
      assert r == r0 + (if grads[n - 1].None? then [] else [IssueCall(grads[n - 1].value, opts, n)]);
      assert ps == ps0 + (if grads[n - 1].Some? then [n - 1] else []);
      forall k | 0 <= k < |r|
        ensures r[k] == IssueCall(grads[ps[k]].value, opts, ps[k] + 1)
      {
        if k < |r0| {
          assert r[k] == r0[k] && ps[k] == ps0[k] && init[ps0[k]] == grads[ps0[k]];
        }
      }
    }
  }

  /** The first absent slot of a list that has one. */
  function FirstNone<T>(s: seq<Option<T>>): (k: nat)
    requires exists i :: 0 <= i < |s| && s[i].None?
    ensures k < |s| && s[k].None?
    ensures forall j :: 0 <= j < k ==> s[j].Some?
  {
    if s[0].None? then 0
    else
      var i :| 0 <= i < |s| && s[i].None?;
      assert s[1..][i - 1].None?;
      1 + FirstNone(s[1..])
  }

  /** Step 4: `zip(*issued)` followed by taking its four rows. A `None`
      element is not iterable, so the first one raises; an empty list unzips
      to nothing and taking row 0 raises. */
  function Unzip(issued: seq<Option<AsyncOut>>): (r: Result<Columns, AggregateError>)
    ensures r.Ok? <==> |issued| > 0 && forall i :: 0 <= i < |issued| ==> issued[i].Some?
    ensures r == Err(NoGradients) <==> |issued| == 0
    ensures r.Err? && r.error.NoneGradient? ==>
              1 <= r.error.position <= |issued| && issued[r.error.position - 1].None? &&
              forall j :: 0 <= j < r.error.position - 1 ==> issued[j].Some?
    ensures r.Ok? ==>
              var c := r.value;
              |c.tensors| == |c.names| == |c.handles| == |c.ctxes| == |issued| &&
              forall i :: 0 <= i < |issued| ==>
                AsyncOut(c.tensors[i], c.names[i], c.handles[i], c.ctxes[i]) == issued[i].value
  {
    if exists i :: 0 <= i < |issued| && issued[i].None? then
      Err(NoneGradient(FirstNone(issued) + 1))
    else if |issued| == 0 then
      Err(NoGradients)
    else
      var n := |issued|;
      Ok(Columns(seq(n, i requires 0 <= i < n => issued[i].value.tensor),
                 seq(n, i requires 0 <= i < n => issued[i].value.name),
                 seq(n, i requires 0 <= i < n => issued[i].value.handle),
                 seq(n, i requires 0 <= i < n => issued[i].value.ctx)))
  }

  /** Step 6: each tensor bound to the barrier with its name and 1-based index
      (`zip` stops at the shorter list). */
  function SyncAll(tensors: seq<Tensor>, names: seq<Name>, barrier: Barrier): seq<Tensor>
  {
    var n := Min(|tensors|, |names|);
    seq(n, i requires 0 <= i < n => SyncTensor(tensors[i], barrier, names[i], i + 1))
  }

  function SyncCalls(tensors: seq<Tensor>, names: seq<Name>, barrier: Barrier): seq<Call>
  {
    var n := Min(|tensors|, |names|);
    seq(n, i requires 0 <= i < n => SyncCall(tensors[i], barrier, names[i], i + 1))
  }

  /** Step 7: each synced tensor decompressed with its own context. */
  function DecompressAll(compression: Compression, tensors: seq<Tensor>, ctxes: seq<Ctx>): seq<Tensor>
  {
    var n := Min(|tensors|, |ctxes|);
    seq(n, i requires 0 <= i < n => Decompress(compression, tensors[i], ctxes[i]))
  }

  function DecompressCalls(tensors: seq<Tensor>, ctxes: seq<Ctx>): seq<Call>
  {
    var n := Min(|tensors|, |ctxes|);
    seq(n, i requires 0 <= i < n => DecompressCall(tensors[i], ctxes[i]))
  }

  function AsGradients(ts: seq<Tensor>): seq<Gradient>
  {
    seq(|ts|, i requires 0 <= i < |ts| => Some(ts[i]))
  }

  /** `_push_pull_xla` for a given worker count: its result and its calls. */
  function XlaRun(grads: seq<Gradient>, workers: int, opts: CallOptions, sparseAsDense: bool): Run
  {
    if workers <= 1 then Run(Ok(grads), [])
    else
      var dense := DensifyAll(grads, sparseAsDense);
      var launched := IssueCalls(dense, opts);
      match Unzip(IssueAll(dense, opts))
      case Err(e) => Run(Err(e), launched)
      case Ok(c) =>
        var barrier := MyBarrier(c.handles);
        var synced := SyncAll(c.tensors, c.names, barrier);
        var decoded := DecompressAll(opts.compression, synced, c.ctxes);
        Run(Ok(AsGradients(decoded)),
            launched + [BarrierCall(c.handles)] + SyncCalls(c.tensors, c.names, barrier) + DecompressCalls(synced, c.ctxes))
  }

  // ---------------------------------------------------------------------------
  // Reference description of a successful accelerated request, written
  // position by position from the gradient list alone.

  ghost predicate AllPresentGradients(grads: seq<Gradient>)
  {
    forall i :: 0 <= i < |grads| ==> grads[i].Some?
  }

  /** The asynchronous push-pull made for slot i (0-based): index i + 1. */
  ghost function IssueAt(grads: seq<Gradient>, opts: CallOptions, sparseAsDense: bool, i: nat): Issue
    requires i < |grads| && grads[i].Some?
  {
    Issue(Prepare(grads[i].value, sparseAsDense), opts, i + 1)
  }

  ghost function HandlesOf(grads: seq<Gradient>, opts: CallOptions, sparseAsDense: bool): seq<Handle>
    requires AllPresentGradients(grads)
  {
    seq(|grads|, i requires 0 <= i < |grads| => HandleOf(IssueAt(grads, opts, sparseAsDense, i)))
  }

  ghost function SyncedAt(grads: seq<Gradient>, opts: CallOptions, sparseAsDense: bool, i: nat): Tensor
    requires AllPresentGradients(grads) && i < |grads|
  {
    var iss := IssueAt(grads, opts, sparseAsDense, i);
    Synced(Pending(iss), BarrierOf(HandlesOf(grads, opts, sparseAsDense)), NameOf(iss), i + 1)
  }

  ghost function ExpectedLaunches(grads: seq<Gradient>, opts: CallOptions, sparseAsDense: bool): seq<Call>
    requires AllPresentGradients(grads)
  {
    seq(|grads|, i requires 0 <= i < |grads| => IssueCall(Prepare(grads[i].value, sparseAsDense), opts, i + 1))
  }

  ghost function ExpectedSyncs(grads: seq<Gradient>, opts: CallOptions, sparseAsDense: bool): seq<Call>
    requires AllPresentGradients(grads)
  {
    seq(|grads|, i requires 0 <= i < |grads| =>
      var iss := IssueAt(grads, opts, sparseAsDense, i);
      SyncCall(Pending(iss), BarrierOf(HandlesOf(grads, opts, sparseAsDense)), NameOf(iss), i + 1))
  }

  ghost function ExpectedDecompressions(grads: seq<Gradient>, opts: CallOptions, sparseAsDense: bool): seq<Call>
    requires AllPresentGradients(grads)
  {
    seq(|grads|, i requires 0 <= i < |grads| =>
      DecompressCall(SyncedAt(grads, opts, sparseAsDense, i), CtxOf(IssueAt(grads, opts, sparseAsDense, i))))
  }

  ghost function ExpectedOutputs(grads: seq<Gradient>, opts: CallOptions, sparseAsDense: bool): seq<Gradient>
    requires AllPresentGradients(grads)
  {
    seq(|grads|, i requires 0 <= i < |grads| =>
      Some(Decompressed(SyncedAt(grads, opts, sparseAsDense, i), CtxOf(IssueAt(grads, opts, sparseAsDense, i)), opts.compression)))
  }

  // ---------------------------------------------------------------------------
  // Properties.

  /** Densifying and issuing keep the slots: slot i of the issued list is
      absent exactly when gradient i is, and otherwise holds the launch of
      the prepared gradient tagged i + 1. */
  lemma IssuedSlots(grads: seq<Gradient>, opts: CallOptions, sparseAsDense: bool)
    ensures var issued := IssueAll(DensifyAll(grads, sparseAsDense), opts);
            |issued| == |grads| &&
            forall i :: 0 <= i < |grads| ==>
              (issued[i].None? <==> grads[i].None?) &&
              (grads[i].Some? ==> issued[i].value == PushPullAsync(Prepare(grads[i].value, sparseAsDense), opts, i + 1))
  {
  }

  /** The accelerated path succeeds exactly when there is at most one worker,
      or the list is non-empty and has no absent slot. */
  lemma SucceedsIff(grads: seq<Gradient>, workers: int, opts: CallOptions, sparseAsDense: bool)
    ensures XlaRun(grads, workers, opts, sparseAsDense).result.Ok? <==>
              workers <= 1 || (|grads| > 0 && AllPresentGradients(grads))
  {
    IssuedSlots(grads, opts, sparseAsDense);
  }

  /** The four lists a successful unzip yields, slot by slot. */
  ghost function ExpectedColumns(grads: seq<Gradient>, opts: CallOptions, sparseAsDense: bool): Columns
    requires AllPresentGradients(grads)
  {
    Columns(seq(|grads|, i requires 0 <= i < |grads| => Pending(IssueAt(grads, opts, sparseAsDense, i))),
            seq(|grads|, i requires 0 <= i < |grads| => NameOf(IssueAt(grads, opts, sparseAsDense, i))),
            HandlesOf(grads, opts, sparseAsDense),
            seq(|grads|, i requires 0 <= i < |grads| => CtxOf(IssueAt(grads, opts, sparseAsDense, i))))
  }

  lemma UnzipWhenAllPresent(grads: seq<Gradient>, opts: CallOptions, sparseAsDense: bool)
    requires |grads| > 0 && AllPresentGradients(grads)
    ensures Unzip(IssueAll(DensifyAll(grads, sparseAsDense), opts)) == Ok(ExpectedColumns(grads, opts, sparseAsDense))
  {
    IssuedSlots(grads, opts, sparseAsDense);
    var c := Unzip(IssueAll(DensifyAll(grads, sparseAsDense), opts)).value;
    var e := ExpectedColumns(grads, opts, sparseAsDense);
    assert c.tensors == e.tensors;
    assert c.names == e.names;
    assert c.handles == e.handles;
    assert c.ctxes == e.ctxes;
  }

  lemma LaunchesWhenAllPresent(grads: seq<Gradient>, opts: CallOptions, sparseAsDense: bool)
    requires AllPresentGradients(grads)
    ensures IssueCalls(DensifyAll(grads, sparseAsDense), opts) == ExpectedLaunches(grads, opts, sparseAsDense)
  {
    var dense := DensifyAll(grads, sparseAsDense);
    AllPresent(dense);
    LaunchesInInputOrder(dense, opts);
  }

  lemma SyncedWhenAllPresent(grads: seq<Gradient>, opts: CallOptions, sparseAsDense: bool)
    requires AllPresentGradients(grads)
    ensures var e := ExpectedColumns(grads, opts, sparseAsDense);
            var synced := SyncAll(e.tensors, e.names, MyBarrier(e.handles));
            synced == seq(|grads|, i requires 0 <= i < |grads| => SyncedAt(grads, opts, sparseAsDense, i)) &&
            SyncCalls(e.tensors, e.names, MyBarrier(e.handles)) == ExpectedSyncs(grads, opts, sparseAsDense) &&
            DecompressCalls(synced, e.ctxes) == ExpectedDecompressions(grads, opts, sparseAsDense) &&
            AsGradients(DecompressAll(opts.compression, synced, e.ctxes)) == ExpectedOutputs(grads, opts, sparseAsDense)
  {
  }

  /** A successful request with more than one worker makes, in this order:
      one launch per gradient tagged with its 1-based position, one barrier
      over all their handles, one sync per gradient with the launch's own
      name and index, and one decompression per gradient with the launch's
      own context; its output is the decompressed list, in input order. */
  lemma Choreography(grads: seq<Gradient>, workers: int, opts: CallOptions, sparseAsDense: bool)
    requires workers > 1
    requires XlaRun(grads, workers, opts, sparseAsDense).result.Ok?
    ensures AllPresentGradients(grads) && |grads| > 0
    ensures var run := XlaRun(grads, workers, opts, sparseAsDense);
            run.calls == ExpectedLaunches(grads, opts, sparseAsDense)
                         + [BarrierCall(HandlesOf(grads, opts, sparseAsDense))]
                         + ExpectedSyncs(grads, opts, sparseAsDense)
                         + ExpectedDecompressions(grads, opts, sparseAsDense) &&
            run.result.value == ExpectedOutputs(grads, opts, sparseAsDense)
  {
    SucceedsIff(grads, workers, opts, sparseAsDense);
    UnzipWhenAllPresent(grads, opts, sparseAsDense);
    LaunchesWhenAllPresent(grads, opts, sparseAsDense);
    SyncedWhenAllPresent(grads, opts, sparseAsDense);
  }

  /** On success with more than one worker the barrier is called exactly
      once, at position |grads| of the trace, with one handle per gradient:
      every call before it is a launch and every call after it a sync or a
      decompression. */
  lemma BarrierExactlyOnce(grads: seq<Gradient>, workers: int, opts: CallOptions, sparseAsDense: bool)
    requires workers > 1
    requires XlaRun(grads, workers, opts, sparseAsDense).result.Ok?
    ensures var calls := XlaRun(grads, workers, opts, sparseAsDense).calls;
            var n := |grads|;
            |calls| == 3 * n + 1 &&
            calls[n] == BarrierCall(calls[n].handles) && |calls[n].handles| == n &&
            forall k :: 0 <= k < |calls| ==>
              (calls[k].BarrierCall? <==> k == n) &&
              (k < n ==> calls[k].IssueCall?) &&
              (n < k ==> calls[k].SyncCall? || calls[k].DecompressCall?)
  {
    Choreography(grads, workers, opts, sparseAsDense);
  }

  /** The correlation facts, read off the reference description. */
  lemma ReferenceCorrelates(grads: seq<Gradient>, opts: CallOptions, sparseAsDense: bool)
    requires AllPresentGradients(grads)
    ensures var n := |grads|;
            var launches, handles := ExpectedLaunches(grads, opts, sparseAsDense), HandlesOf(grads, opts, sparseAsDense);
            var syncs, decodes := ExpectedSyncs(grads, opts, sparseAsDense), ExpectedDecompressions(grads, opts, sparseAsDense);
            |launches| == |handles| == |syncs| == |decodes| == n &&
            (forall i :: 0 <= i < n ==>
               launches[i].IssueCall? &&
               handles[i] == PushPullAsync(launches[i].t, launches[i].opts, launches[i].idx).handle &&
               syncs[i].SyncCall? && syncs[i].barrier == MyBarrier(handles) &&
               syncs[i].t == PushPullAsync(launches[i].t, launches[i].opts, launches[i].idx).tensor) &&
            (forall i :: 0 <= i < n ==>
               syncs[i].SyncCall? && decodes[i].DecompressCall? &&
               launches[i].idx == i + 1 && syncs[i].idx == launches[i].idx &&
               syncs[i].name == PushPullAsync(launches[i].t, launches[i].opts, launches[i].idx).name &&
               decodes[i].ctx == PushPullAsync(launches[i].t, launches[i].opts, launches[i].idx).ctx &&
               decodes[i].t == SyncTensor(syncs[i].t, syncs[i].barrier, syncs[i].name, syncs[i].idx)) &&
            (forall i, j :: 0 <= i < j < n ==> syncs[i].name != syncs[j].name)
  {
  }

  /** On success the one barrier is made from the handles of all the
      launches, in order, and every sync is bound to that barrier, so no
      synced tensor depends on a subset of the launches. The sync of slot i
      binds that launch's own tensor output, with the index the launch was
      tagged with, i + 1, and the very name that launch returned; the decompression of slot i takes that sync's result
      and that launch's context. Names are never shared between two slots of
      one request. */
  lemma IndexCorrelation(grads: seq<Gradient>, workers: int, opts: CallOptions, sparseAsDense: bool)
    requires workers > 1
    requires XlaRun(grads, workers, opts, sparseAsDense).result.Ok?
    ensures var calls := XlaRun(grads, workers, opts, sparseAsDense).calls;
            var n := |grads|;
            |calls| == 3 * n + 1 &&
            var launches, syncs, decodes := calls[..n], calls[n + 1..2 * n + 1], calls[2 * n + 1..];
            var handles := calls[n].handles;
            calls[n].BarrierCall? && |handles| == n &&
            (forall i :: 0 <= i < n ==>
               launches[i].IssueCall? &&
               handles[i] == PushPullAsync(launches[i].t, launches[i].opts, launches[i].idx).handle &&
               syncs[i].SyncCall? && syncs[i].barrier == MyBarrier(handles) &&
               syncs[i].t == PushPullAsync(launches[i].t, launches[i].opts, launches[i].idx).tensor) &&
            (forall i :: 0 <= i < n ==>
               syncs[i].SyncCall? && decodes[i].DecompressCall? &&
               launches[i].idx == i + 1 && syncs[i].idx == launches[i].idx &&
               syncs[i].name == PushPullAsync(launches[i].t, launches[i].opts, launches[i].idx).name &&
               decodes[i].ctx == PushPullAsync(launches[i].t, launches[i].opts, launches[i].idx).ctx &&
               decodes[i].t == SyncTensor(syncs[i].t, syncs[i].barrier, syncs[i].name, syncs[i].idx)) &&
            (forall i, j :: 0 <= i < j < n ==> syncs[i].name != syncs[j].name)
  {
    SuccessfulTrace(grads, workers, opts, sparseAsDense);
    ReferenceCorrelates(grads, opts, sparseAsDense);
  }

  /** The successful trace cut at the barrier: each segment is its part of
      the reference description. */
  lemma SuccessfulTrace(grads: seq<Gradient>, workers: int, opts: CallOptions, sparseAsDense: bool)
    requires workers > 1
    requires XlaRun(grads, workers, opts, sparseAsDense).result.Ok?
    ensures AllPresentGradients(grads)
    ensures var calls, n := XlaRun(grads, workers, opts, sparseAsDense).calls, |grads|;
            |calls| == 3 * n + 1 &&
            calls[..n] == ExpectedLaunches(grads, opts, sparseAsDense) &&
            calls[n] == BarrierCall(HandlesOf(grads, opts, sparseAsDense)) &&
            calls[n + 1..2 * n + 1] == ExpectedSyncs(grads, opts, sparseAsDense) &&
            calls[2 * n + 1..] == ExpectedDecompressions(grads, opts, sparseAsDense)
  {
    Choreography(grads, workers, opts, sparseAsDense);
    Segments(ExpectedLaunches(grads, opts, sparseAsDense), BarrierCall(HandlesOf(grads, opts, sparseAsDense)),
             ExpectedSyncs(grads, opts, sparseAsDense), ExpectedDecompressions(grads, opts, sparseAsDense));
  }

  /** On success the output has the input's length, every slot is present,
      and slot i is what the i-th decompression call returns (that call's
      input is the i-th synced tensor, as IndexCorrelation states). */
  lemma OutputsInOrder(grads: seq<Gradient>, workers: int, opts: CallOptions, sparseAsDense: bool)
    requires workers > 1
    requires XlaRun(grads, workers, opts, sparseAsDense).result.Ok?
    ensures var run := XlaRun(grads, workers, opts, sparseAsDense);
            var out, n := run.result.value, |grads|;
            |out| == n && |run.calls| == 3 * n + 1 &&
            var decodes := run.calls[2 * n + 1..];
            forall i :: 0 <= i < n ==>
              grads[i].Some? && out[i].Some? && decodes[i].DecompressCall? &&
              out[i].value == Decompress(opts.compression, decodes[i].t, decodes[i].ctx)
  {
    Choreography(grads, workers, opts, sparseAsDense);
    Segments(ExpectedLaunches(grads, opts, sparseAsDense), BarrierCall(HandlesOf(grads, opts, sparseAsDense)),
             ExpectedSyncs(grads, opts, sparseAsDense), ExpectedDecompressions(grads, opts, sparseAsDense));
  }

  /** A failing request (more than one worker) has still launched one
      asynchronous push-pull per present gradient, tagged with its original
      1-based position, and nothing else: no barrier, no sync. The error
      names the first absent slot, or the empty list. */
  lemma FailureKeepsLaunches(grads: seq<Gradient>, workers: int, opts: CallOptions, sparseAsDense: bool)
    requires workers > 1
    requires XlaRun(grads, workers, opts, sparseAsDense).result.Err?
    ensures var run := XlaRun(grads, workers, opts, sparseAsDense);
            var ps := PresentPositions(grads);
            |run.calls| == |ps| &&
            (forall k :: 0 <= k < |ps| ==> ps[k] < |grads| && grads[ps[k]].Some?) &&
            (forall k :: 0 <= k < |ps| ==>
               run.calls[k] == IssueCall(Prepare(grads[ps[k]].value, sparseAsDense), opts, ps[k] + 1)) &&
            (run.result.error == NoGradients <==> |grads| == 0) &&
            (run.result.error.NoneGradient? ==>
               var p := run.result.error.position;
               1 <= p <= |grads| && grads[p - 1].None? && forall j :: 0 <= j < p - 1 ==> grads[j].Some?)
  {
    FailedRun(grads, workers, opts, sparseAsDense);
    LaunchesOfDensified(grads, opts, sparseAsDense);
    UnzipErrorOfGradients(grads, opts, sparseAsDense);
  }

  /** The launches of the densified list are one per present gradient, with
      its original 1-based position. */
  lemma LaunchesOfDensified(grads: seq<Gradient>, opts: CallOptions, sparseAsDense: bool)
    ensures var c, ps := IssueCalls(DensifyAll(grads, sparseAsDense), opts), PresentPositions(grads);
            |c| == |ps| &&
            (forall k :: 0 <= k < |ps| ==> ps[k] < |grads| && grads[ps[k]].Some?) &&
            (forall k :: 0 <= k < |ps| ==> c[k] == IssueCall(Prepare(grads[ps[k]].value, sparseAsDense), opts, ps[k] + 1))
  {
    var dense := DensifyAll(grads, sparseAsDense);
    PresentPositionsAgree(grads, dense);
    PresentPositionsExact(grads);
    LaunchesInInputOrder(dense, opts);
  }

  /** The unzip error, read back on the gradient list. */
  lemma UnzipErrorOfGradients(grads: seq<Gradient>, opts: CallOptions, sparseAsDense: bool)
    requires Unzip(IssueAll(DensifyAll(grads, sparseAsDense), opts)).Err?
    ensures var e := Unzip(IssueAll(DensifyAll(grads, sparseAsDense), opts)).error;
            (e == NoGradients <==> |grads| == 0) &&
            (e.NoneGradient? ==>
               1 <= e.position <= |grads| && grads[e.position - 1].None? &&
               forall j :: 0 <= j < e.position - 1 ==> grads[j].Some?)
  {
    IssuedSlots(grads, opts, sparseAsDense);
  }

  /** A failed request is the unzip's error and the launches made before it. */
  lemma FailedRun(grads: seq<Gradient>, workers: int, opts: CallOptions, sparseAsDense: bool)
    requires workers > 1
    requires XlaRun(grads, workers, opts, sparseAsDense).result.Err?
    ensures var dense := DensifyAll(grads, sparseAsDense);
            var r := Unzip(IssueAll(dense, opts));
            r.Err? && XlaRun(grads, workers, opts, sparseAsDense) == Run(Err(r.error), IssueCalls(dense, opts))
  {
  }

  /** The three segments of a successful trace, by position. */
  lemma Segments<T>(a: seq<T>, x: T, b: seq<T>, c: seq<T>)
    requires |a| == |b| == |c|
    ensures var s, n := a + [x] + b + c, |a|;
            |s| == 3 * n + 1 && s[..n] == a && s[n] == x && s[n + 1..2 * n + 1] == b && s[2 * n + 1..] == c
  {
    var s, n := a + [x] + b + c, |a|;
    assert s[..n] == a;
    assert s[n + 1..2 * n + 1] == b;
    assert s[2 * n + 1..] == c;
  }

  /** Two lists absent in the same slots have the same present positions. */
  lemma {:induction false} PresentPositionsAgree(a: seq<Gradient>, b: seq<Gradient>)
    requires |a| == |b|
    requires forall i :: 0 <= i < |a| ==> (a[i].None? <==> b[i].None?)
    ensures PresentPositions(a) == PresentPositions(b)
  {
    if a != [] {
      var n := |a|;
      PresentPositionsAgree(a[..n - 1], b[..n - 1]);
    }
  }
}
