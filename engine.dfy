/** The collaborators the gradient aggregator calls but does not implement:
    the BytePS collective engine (synchronous and asynchronous push-pull, the
    barrier over handles, the barrier-gated sync), the compressor's
    decompress step and TensorFlow's densification of IndexedSlices.

    Their results are free symbolic terms: the value a collaborator returns
    is the constructor applied to the arguments it was given, so a proof can
    tell exactly which input and which index a result came from without
    saying anything about the numbers inside. Every call the aggregator makes
    into the collective engine or the compressor is described by a `Call`
    record, and the optimizer wrapper keeps the ordered trace of those
    records. Densification is a local conversion, not a collective: it is
    not traced, and shows only as a `Converted` tensor handed to the engine. */
module Engine {

  datatype Option<+T> = None | Some(value: T)

  datatype Result<+T, +E> = Ok(value: T) | Err(error: E)

  /** The compression strategy object handed to the wrapper (opaque). */
  datatype Compression = Compression(id: string)

  /** What accompanies every collective call: the name scope opened by the
      wrapper, the dense and sparse device hints and the compression. */
  datatype CallOptions = CallOptions(scope: string, deviceDense: string, deviceSparse: string, compression: Compression)

  datatype Tensor =
    | Dense(id: nat)                                   // a dense gradient from the backward pass
    | IndexedSlices(id: nat)                           // a sparse gradient from the backward pass
    | Converted(slices: Tensor)                        // tf.convert_to_tensor of a sparse gradient
    | Averaged(src: Tensor, opts: CallOptions)         // result of a synchronous push-pull
    | Pending(issue: Issue)                            // tensor output of an asynchronous push-pull
    | Synced(t: Tensor, barrier: Barrier, name: Name, idx: int)  // tensor bound to a barrier
    | Decompressed(t: Tensor, ctx: Ctx, compression: Compression) // decoded tensor

  /** One asynchronous push-pull: the tensor, its options and the index it was tagged with. */
  datatype Issue = Issue(src: Tensor, opts: CallOptions, idx: int)

  /** The name, completion handle and compression context an asynchronous push-pull returns. */
  datatype Name = NameOf(issue: Issue)
  datatype Handle = HandleOf(issue: Issue)
  datatype Ctx = CtxOf(issue: Issue)

  /** The single handle the barrier primitive makes from a list of handles. */
  datatype Barrier = BarrierOf(handles: seq<Handle>)

  /** The four outputs of an asynchronous push-pull. */
  datatype AsyncOut = AsyncOut(tensor: Tensor, name: Name, handle: Handle, ctx: Ctx)

  /** A gradient slot: `None` when the parameter received no gradient. */
  type Gradient = Option<Tensor>

  /** One call into a collaborator, as it appears in the trace. */
  datatype Call =
    | PushPullCall(t: Tensor, opts: CallOptions)                  // bps.push_pull
    | IssueCall(t: Tensor, opts: CallOptions, idx: int)           // push_pull_xla_handle_out_v2
    | BarrierCall(handles: seq<Handle>)                           // _my_barrier_handle_out
    | SyncCall(t: Tensor, barrier: Barrier, name: Name, idx: int) // _sync_tensors_handle_out_v2
    | DecompressCall(t: Tensor, ctx: Ctx)                         // compression.decompress

  /** Why the accelerated path raises: `zip(*...)` meets a `None` at the
      given 1-based argument position, or there was nothing to unpack. */
  datatype AggregateError = NoneGradient(position: nat) | NoGradients

  /** The outcome of one aggregation request and the calls it made, in order. */
  datatype Run = Run(result: Result<seq<Gradient>, AggregateError>, calls: seq<Call>)

  function ConvertToTensor(t: Tensor): Tensor
  {
    Converted(t)
  }

  /** A gradient as it is handed to the engine: sparse gradients are densified
      only when sparse_as_dense is set. */
  function Prepare(t: Tensor, sparseAsDense: bool): (r: Tensor)
    ensures sparseAsDense ==> !r.IndexedSlices?
    ensures !sparseAsDense || !t.IndexedSlices? ==> r == t
    ensures r != t ==> r == ConvertToTensor(t) && t.IndexedSlices?
  {
    if sparseAsDense && t.IndexedSlices? then ConvertToTensor(t) else t
  }

  function PushPull(t: Tensor, opts: CallOptions): Tensor
  {
    Averaged(t, opts)
  }

  function PushPullAsync(t: Tensor, opts: CallOptions, idx: int): AsyncOut
  {
    var i := Issue(t, opts, idx);
    AsyncOut(Pending(i), NameOf(i), HandleOf(i), CtxOf(i))
  }

  function MyBarrier(handles: seq<Handle>): Barrier
  {
    BarrierOf(handles)
  }

  function SyncTensor(t: Tensor, barrier: Barrier, name: Name, idx: int): Tensor
  {
    Synced(t, barrier, name, idx)
  }

  function Decompress(compression: Compression, t: Tensor, ctx: Ctx): Tensor
  {
    Decompressed(t, ctx, compression)
  }

  /** The positions (0-based) of the present slots of `s`, in the order a
      left-to-right walk meets them. */
  function PresentPositions<T>(s: seq<Option<T>>): seq<nat>
  {
    if s == [] then []
    else PresentPositions(s[..|s| - 1]) + (if s[|s| - 1].Some? then [|s| - 1] else [])
  }

  /** The present positions are exactly the present slots, each listed once,
      in increasing order. */
  lemma {:induction false} PresentPositionsExact<T>(s: seq<Option<T>>)
    ensures var ps := PresentPositions(s);
            |ps| <= |s| &&
            (forall k :: 0 <= k < |ps| ==> ps[k] < |s| && s[ps[k]].Some?) &&
            (forall k, l :: 0 <= k < l < |ps| ==> ps[k] < ps[l]) &&
            (forall i :: 0 <= i < |s| && s[i].Some? ==> i in ps)
  {
    if s != [] {
      var init := s[..|s| - 1];
      PresentPositionsExact(init);
      assert forall i :: 0 <= i < |init| ==> init[i] == s[i];
    }
  }

  /** When every slot is present, the present positions are all of them. */
  lemma {:induction false} AllPresent<T>(s: seq<Option<T>>)
    requires forall i :: 0 <= i < |s| ==> s[i].Some?
    ensures |PresentPositions(s)| == |s|
    ensures forall k :: 0 <= k < |s| ==> PresentPositions(s)[k] == k
  {
    if s != [] {
      AllPresent(s[..|s| - 1]);
    }
  }
}
