# BytePS Keras distributed optimizer: gradient aggregation, in Dafny

This project models the gradient-aggregation coordinator inside the Keras
optimizer wrapper that BytePS builds in `create_distributed_optimizer`. It
then proves properties of that model.

The wrapper takes the gradients the base optimizer computed on one worker and
averages each of them across all workers through the BytePS collective
engine. It has two paths, chosen once at construction:

- **The direct path (`_push_pull_tf`).** It makes one synchronous push-pull
  per present gradient, in order, and keeps `None` slots as `None`.
- **The accelerated path (`_push_pull_xla`).** It first issues one
  asynchronous push-pull per gradient, each tagged with its 1-based position.
  It unzips the results into four lists (tensors, names, handles, contexts)
  and makes exactly one barrier over all the handles. Each tensor is then
  bound to that barrier with its own name and index, and decompressed with its
  own context.

The wrapper also keeps a flag that records whether any aggregation has
happened. `apply_gradients` refuses to run while the flag is false.

Files:

- `engine.dfy` (module `Engine`): the collaborators, that is the collective
  engine, the compressor and TensorFlow's densification.
  - Their results are free symbolic terms, one constructor per operation.
    This lets a proof say which input and which index every result came from.
  - The `Call` datatype records each call made into the collective engine or
    the compressor. Densification is not traced: it shows only as a
    `Converted` tensor handed to the engine.
- `direct.dfy` (module `DirectAggregation`): the functions that specify the
  direct path, and the lemmas about them.
- `accelerated.dfy` (module `XlaAggregation`): the accelerated path.
  - It is written as the list pipeline it is in the source: comprehensions,
    `zip(*...)`, one barrier, then the per-tensor sync and decompress.
  - Beside it is a reference description, written position by position, and
    the lemmas that connect the two.
- `optimizer.dfy` (module `KerasOptimizer`): the wrapper class
  `DistributedOptimizer`.
  - Its fields are the configuration, the chosen mode, the aggregated flag,
    a ghost trace of the collective and decompress calls, and a ghost record of what was handed on
    to the base optimizer.
  - The direct path is a `while` loop, proved against the direct-path spec
    functions. The accelerated path calls the pipeline functions.

Absent (`None`) gradients are handled differently on the two paths:

- On the direct path they are kept as `None`, in place.
- On the accelerated path they are not skipped and re-inserted in this way.
  In the code (byteps/_keras/__init__.py:92-106), a `None` slot makes
  `zip(*...)` raise, and an empty list makes `[0]` raise. Nothing re-inserts
  anything.
- The model therefore returns an error (`NoneGradient(position)` or
  `NoGradients`). By that point the asynchronous launches have already been
  made, and they stay in the trace.
- As a result, the barrier's handle list on a successful request is as long
  as the whole gradient list.

## Model

| member | source | states |
|---|---|---|
| `Engine.Prepare` | byteps/_keras/__init__.py:66-68 | a gradient reaches the engine densified exactly when sparse_as_dense is set and it is IndexedSlices; otherwise it is passed unchanged |
| `Engine.PresentPositionsExact` | byteps/_keras/__init__.py:64-65 | the slots holding a gradient, each listed once, in increasing order, and no others |
| `DirectAggregation.AveragedSlots` | byteps/_keras/__init__.py:62-76 | with more than one worker the output has the input's length, `None` exactly where the input has `None`, and every other slot is the push-pull of that slot's (possibly densified) gradient |
| `DirectAggregation.CallsInInputOrder` | byteps/_keras/__init__.py:64-73 | exactly one synchronous push-pull per present gradient; the k-th call carries the k-th present gradient, densified only when sparse_as_dense is set |
| `DirectAggregation.CallResultsLandInPlace` | byteps/_keras/__init__.py:64-76 | call k serves the k-th present slot, in increasing slot order; that output slot holds exactly what the call returned; every present slot gets a call |
| `DirectAggregation.ShapePreserved` | byteps/_keras/__init__.py:61-78 | with at most one worker the list comes back unchanged and no call is made; in every case the output has the input's length and `None` slots |
| `DirectAggregation.AveragedGradients` | byteps/_keras/__init__.py:62-76 | the list the loop builds, one slot per input slot; specified by `AveragedSlots` |
| `DirectAggregation.PushPullCalls` | byteps/_keras/__init__.py:64-73 | the synchronous push-pulls the loop makes, in order; specified by `CallsInInputOrder` |
| `DirectAggregation.DirectResult` | byteps/_keras/__init__.py:59-78 | `_push_pull_tf`'s result for a worker count; specified by `DirectAggregation.ShapePreserved` and `CallResultsLandInPlace`, and implemented by the loop `DistributedOptimizer.PushPullTf` |
| `DirectAggregation.DirectCalls` | byteps/_keras/__init__.py:59-78 | `_push_pull_tf`'s calls for a worker count: none with at most one worker; specified by `DirectAggregation.ShapePreserved` and `CallResultsLandInPlace` |
| `XlaAggregation.DensifyAll` | byteps/_keras/__init__.py:88-91 | keeps length and `None` slots; each present gradient becomes its prepared (possibly densified) form |
| `XlaAggregation.LaunchesInInputOrder` | byteps/_keras/__init__.py:92-98 | one asynchronous launch per present gradient, in list order, tagged with its 1-based position in the whole list (never renumbered past `None` slots) |
| `XlaAggregation.IssueAll` | byteps/_keras/__init__.py:92-98 | the comprehension's slots: `None` where the gradient is absent, else the asynchronous push-pull tagged with the 1-based position; specified by `IssuedSlots` |
| `XlaAggregation.IssueCalls` | byteps/_keras/__init__.py:92-98 | the launches the comprehension makes, in list order; specified by `LaunchesInInputOrder` |
| `XlaAggregation.SyncAll` | byteps/_keras/__init__.py:109 | tensor i bound to the one barrier with name i and index i + 1; specified by `Choreography` and `IndexCorrelation` |
| `XlaAggregation.SyncCalls` | byteps/_keras/__init__.py:109 | the sync calls, one per slot, in order; specified by `Choreography` and `IndexCorrelation` |
| `XlaAggregation.DecompressAll` | byteps/_keras/__init__.py:110 | synced tensor i decompressed with context i; specified by `OutputsInOrder` and `Choreography` |
| `XlaAggregation.DecompressCalls` | byteps/_keras/__init__.py:110 | the decompress calls, one per slot, in order; specified by `IndexCorrelation` and `Choreography` |
| `XlaAggregation.XlaRun` | byteps/_keras/__init__.py:84-111 | `_push_pull_xla`'s result and calls for a worker count; specified by `SucceedsIff`, `Choreography`, `BarrierExactlyOnce`, `IndexCorrelation`, `OutputsInOrder` and `FailureKeepsLaunches` |
| `XlaAggregation.FirstNone` | byteps/_keras/__init__.py:101 | the first `None` slot of a list that has one: it is `None` and everything before it is present |
| `XlaAggregation.Unzip` | byteps/_keras/__init__.py:101-106 | succeeds exactly when the list is non-empty with no `None`; then the four lists are as long as the input and slot i holds the four outputs of launch i; a `None` fails at the first one (1-based); an empty list fails with NoGradients |
| `XlaAggregation.IssuedSlots` | byteps/_keras/__init__.py:88-98 | after densifying and issuing, slot i is absent exactly when gradient i is, and otherwise holds the launch of the prepared gradient tagged i + 1 |
| `XlaAggregation.SucceedsIff` | byteps/_keras/__init__.py:84-106 | the accelerated path returns a list exactly when there is at most one worker, or the list is non-empty and has no `None` |
| `XlaAggregation.Choreography` | byteps/_keras/__init__.py:92-111 | on success with more than one worker, the trace is: all launches (index i + 1), then one barrier over all handles, then one sync per slot, then one decompression per slot. The output is the decompressed list in input order, equal to the reference description |
| `XlaAggregation.BarrierExactlyOnce` | byteps/_keras/__init__.py:92-108 | on success the barrier is called exactly once, at trace position n, with n handles; everything before it is a launch; everything after is a sync or a decompression |
| `XlaAggregation.IndexCorrelation` | byteps/_keras/__init__.py:92-110 | the barrier is built from every launch's handle, in order. Every sync is bound to that barrier. Sync i uses launch i's index i + 1 and the name that launch returned. Decompression i takes sync i's result and launch i's context. No two slots share a name |
| `XlaAggregation.OutputsInOrder` | byteps/_keras/__init__.py:109-111 | on success the output has the input's length, every slot is present, and slot i is what the i-th decompression call returns |
| `XlaAggregation.FailureKeepsLaunches` | byteps/_keras/__init__.py:92-106 | a failing request has made exactly one launch per present gradient, with its original 1-based index, and nothing else (no barrier, no sync). The error is NoGradients exactly for the empty list; otherwise it names the first `None` slot |
| `KerasOptimizer.ModeFor` | byteps/_keras/__init__.py:38-41 | the accelerated path is chosen exactly when the BYTEPS_ENABLE_XLA setting is the string "1" |
| `KerasOptimizer.OptimizerName` | byteps/_keras/__init__.py:31 | the wrapper's name is never empty: it is the given name when that is a non-empty string, else "Distributed" followed by the base class name |
| `KerasOptimizer.GradientsOf` | byteps/_keras/__init__.py:56 | the gradients of the (gradient, variable) pairs, same length, same order |
| `KerasOptimizer.Aggregate` | byteps/_keras/__init__.py:38-41 | one request through the mode `self._push_pull` is bound to: the direct result with its calls, or the accelerated run; specified by `SingleWorkerIsNoOp`, `SuccessKeepsShape` and `ModesLaunchInSameOrder` |
| `KerasOptimizer.DistributedOptimizer.Options` | byteps/_keras/__init__.py:63-72 | every collective call of a request carries the scope `<name>_Push_Pull` and the wrapper's device hints and compression; used in the contracts of `PushPullTf` and `PushPullXla` |
| `KerasOptimizer.DistributedOptimizer.constructor` | byteps/_keras/__init__.py:30-43 | stores the configuration; fixes the mode once from the setting; the aggregated flag starts false; no calls yet |
| `KerasOptimizer.DistributedOptimizer.PushPullTf` | byteps/_keras/__init__.py:59-78 | the loop sets the flag and returns the direct-path result. It appends to the trace exactly the direct path's calls. Nothing else changes |
| `KerasOptimizer.DistributedOptimizer.PushPullXla` | byteps/_keras/__init__.py:80-111 | sets the flag (also when the request then fails). Returns the accelerated pipeline's result and appends its calls to the trace |
| `KerasOptimizer.DistributedOptimizer.PushPull` | byteps/_keras/__init__.py:38-41 | routes through the mode fixed at construction; sets the flag; the result and the appended calls are those of that mode |
| `KerasOptimizer.DistributedOptimizer.GetGradients` | byteps/_keras/__init__.py:45-53 | the base optimizer's gradients, aggregated through the chosen mode; the flag is set |
| `KerasOptimizer.DistributedOptimizer.AggregateGradients` | byteps/_keras/__init__.py:55-57 | the gradients of the pairs, in order, aggregated through the chosen mode; the flag is set |
| `KerasOptimizer.DistributedOptimizer.ApplyGradients` | byteps/_keras/__init__.py:113-119 | returns the configuration error exactly when the flag is false; its message is the constant `ApplyWithoutAggregationMessage`, the text at lines 115-118. Otherwise the arguments are handed on to the base optimizer. The flag is not changed |
| `KerasOptimizer.ApplyNeedsAggregationFirst` | byteps/_keras/__init__.py:113-119 | a fresh wrapper refuses to apply. After one aggregation call it applies, in either mode and even if that call failed |
| `KerasOptimizer.RepeatedAggregationRepeatsCalls` | byteps/_keras/__init__.py:52-53 | aggregating twice makes two full rounds of calls (no caching). One direct round has one call per present gradient |
| `KerasOptimizer.SingleWorkerIsNoOp` | byteps/_keras/__init__.py:77-85 | with at most one worker, both modes return the list unchanged and make no call |
| `KerasOptimizer.SuccessKeepsShape` | byteps/_keras/__init__.py:59-111 | whenever a request succeeds, in either mode, the output has the input's length and is `None` exactly where the input is |
| `KerasOptimizer.ModesLaunchInSameOrder` | byteps/_keras/__init__.py:64-98 | when the accelerated path succeeds, its launches carry the same tensors, in the same order, as the direct path's push-pulls |

## Left out

- The debug `print` loop at the start of `_push_pull_xla`: it is console output.
- Collaborators are modelled as free terms, so different arguments always
  give different results. This is how names differ between slots (their
  indices differ). The real engine's naming scheme is not part of this model.
- Averaging and compression numerics are left out: they are floating-point
  work inside the engine and the compressor.
- TensorFlow's `name_scope` and `device` contexts are left out. The scope is
  modelled as the string `<name>_Push_Pull`, without the suffix or the
  trailing `/` that TensorFlow may add.
- Failures of the collective engine are not modelled: every engine call
  succeeds. On the real system such a failure propagates unchanged.
- Concurrency across workers and the blocking behaviour of the barrier are
  not modelled: they belong to the engine.
- The base optimizer is outside the model. Its `get_gradients` result arrives
  as an argument, its `apply_gradients` is recorded in the ghost field
  `applied`, and its `__init__` is not modelled. So the model leaves out two
  things it could do: a base `apply_gradients` that calls
  `_aggregate_gradients` itself (Keras does this for optimizers that set
  `_HAS_AGGREGATE_GRAD`), which `ApplyGradients` cannot do because its frame
  leaves the trace and the flag untouched; and a base `__init__` (line 43)
  that resets `_name`, which the model cannot show because the scope comes
  from line 31 alone.
- `tf.convert_to_tensor` (lines 68 and 89) is not recorded in the trace: it
  is a local conversion, visible only in the `Converted` tensor it produces.
- The worker count `bps.size()` is an argument of each aggregation call.
- The environment variable read at import time is a constructor argument.
- The runtime class synthesis through `type(...)` and `from_config` is not
  modelled: the wrapper is one class parameterised by its configuration.
- `_eval`, the module-level `push_pull`, `broadcast` and
  `broadcast_global_variables` are not modelled: they are session and eager
  dispatch glue.
- `load_model` is not modelled: it is Keras deserialisation plumbing.
- The constant `_HAS_AGGREGATE_GRAD` is only read by Keras, so it is not
  modelled.
