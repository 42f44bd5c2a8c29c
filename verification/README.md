# Verified models of OpenVINO contrib algorithms

Dafny models of the algorithms in this repository whose correctness is hard to see from the code: the memory, dynamic
shape and graph replay machinery of the NVIDIA plugin, KV-cache eviction, and a few kernels. `dafny verify
dfyconfig.toml` checks everything.

- **Buffer liveness and in-place layout** (`Graph`, `BufferSpec`, `BufferInvariant`, `BufferRuns`, `BufferTheorems`,
  `BufferLayout`, `BufferStability`, `BufferAcceptance`, `BuffersExtractor`). The extractor walks an ordered node list,
  gives every tensor a buffer, renames reshape outputs, merges concat inputs into regions of one parent and computes
  lifespans. `BuffersExtractor` is the object with its loops and maps.
- **Running a graph in shared memory** (`TensorValues`, `SharedMemory`, `SharedBlock`, `DynamicRegions`, `DynamicRun`,
  `DynamicTheorems`, `DynamicConverse`, `DynamicRelease`, `DynamicExamples`, `DynamicOperation`, `LruCache`,
  `DynamicCache`). Static tensors live in one block of bytes where the memory solver placed their buffers; dynamic nodes
  register buffers and shapes at run time, release them at the last consumer and reuse specialised variants from a
  shared cache with double-checked locking, modelled as a state machine over all threads. A graph mixing both is
  compared with evaluating each node on its own. Kernels are arbitrary functions on byte strings.
- **Graph capture and replay** (`GraphSpec`, `GraphPartition`, `GraphCapture`, `GraphRefresh`, `GraphReplay`,
  `GraphTheorems`, `GraphContents`, `GraphRunner`). The execution sequence is cut into segments, recorded into a tree of
  graphs and replayed with refreshed host pointers. A recorded graph is the list of device events it performs.
- **KV-cache eviction** (`Ranking`, `Eviction`, `EvictionMask`, `EvictionSpec`, `EvictionCompress`, `EvictionTheorems`,
  `EvictionRanking`, `EvictionRefined`, `EvictionStart`, `EvictionCompressor`). A cache is the list of original token
  positions it still holds. Attention rows, and every tie that topk or argsort may break either way, are arbitrary
  inputs.
- **Kernels**: `VariableState`, `ThreadPool`, `FftShift`, `SparseConv` with `SparseConvAdjoint`, `XAttention`,
  `KittiEval` with `KittiPrecision`; `Arithmetic` and `Options` hold what they share. Floating point is modelled by
  reals.

Where the code does not do what its documentation or callers expect, the model keeps the code's behaviour and the exact
condition is proved:

- A concat of a tensor with itself, possibly through a reshape, is accepted although its output is not tiled
  (`BufferLayout.TiledIffDistinct`, `BufferLayout.SelfConcatIsNotTiled`).
- `ConcatTransformation` makes a concat in place without asking whether a dynamic node produces its inputs. Both inputs
  then register under the buffer of the concat, the second registration frees the first, and a consumer reads one part.
  A graph is read right, whatever fresh memory contains, if and only if no concat merges a dynamic node's output, no
  dynamic node sees one renamed to another shape, and nobody reads a non-empty output of a node that computes an empty
  one as well, whose null operation leaves it unwritten (`DynamicConverse.DynamicRunIff`, with a graph for each part:
  `DynamicExamples.ShapeConcatReadsWrong`, `DynamicExamples.RenamedReadsWrong` and `DynamicExamples.SplitReadsWrong`).
  The rename matters because `updateShape` has no caller.
- Two results fed by one output port share a name, and the second keeps downloading through the pointer of the first
  inference (`GraphTheorems.ReplayIsEagerIff`). A sequence that starts with a special loop, or whose special loops
  differ in having runners, fails its capture assertions (`GraphTheorems.FirstInferenceIff`).
- `KVCacheCompressionParameters` documents `refined_tokens` as 0 by default but sets 64; without a refinement algorithm
  the first compression then fails. A prompt no longer than the start tokens that is outgrown later fails in
  `aggregate_scores`. With `recent_tokens` of 0 a padded last group that is chosen but not listed last makes the kept
  indices run out of range (`EvictionCompress.MisplacedPair`). `EvictionTheorems.RunFits` states when each of these
  happens.
- DiverseKV masks the similarities of the scored tokens by scores padded to whole groups. Without recent tokens the
  padding is part of them and the mask is too long (`EvictionCompress.DiversePadded`): with a fixed `refined_tokens`,
  the run fails as soon as a decode step passes the limit (`EvictionRefined.DiverseRunIff`). KVCrush per token returns a
  list of another rank than the ones it is concatenated with, so the run fails as soon as anything is evicted
  (`EvictionRefined.CrushRunIff`).
- With start tokens only, the padding is cut from the start tokens, and the scores of what is left are added up against
  the wrong length once the start is full again (`EvictionStart.StartRunIff`).
- In the first chunk of X-Attention the mark of block 0 is overwritten, yet block 0 is selected through the filler index
  (`XAttention.FirstAndDiagonal`).
- An ignored ground truth may take a valid detection away from a valid one between the two matching passes, so that a
  threshold counts nothing and its precision is 0 / 0 (`KittiPrecision.NothingCountedIff` and `KittiPrecision.Evaluate`
  state when, `KittiPrecision.ContestedCountsNothing` is an image).

## Model

| member | source | states |
|---|---|---|
| DynamicTheorems.SharingPreservesMeaning | modules/nvidia_plugin/src/cuda_op_buffers_extractor.cpp:26-68 | without dynamic nodes: running the ordered nodes in one shared block, from any initial contents and with every op scribbling on its workbuffers, shows each node exactly its reference inputs; reshapes and concats are no-ops |
| SharedMemory.LiveApart | modules/nvidia_plugin/src/cuda_op_buffers_extractor.cpp:301-310 | stored tensors alive at the same time overlap in the block only if one contains the other, in graphs with dynamic nodes as well |
| SharedMemory.WorkApart | modules/nvidia_plugin/src/cuda_op_buffers_extractor.cpp:266-280 | a node's mutable workbuffers never reach a stored tensor alive at that node |
| SharedBlock.ConcatHolds | modules/nvidia_plugin/src/cuda_op_buffers_extractor.cpp:137-181 | after the inputs of a stored concat were produced, the parent's bytes are their concatenation although nothing was executed |
| SharedBlock.ComputedHolds | modules/nvidia_plugin/src/cuda_op_buffers_extractor.cpp:204-212 | an output a static node just wrote can be read back from its region, workbuffer garbage notwithstanding |
| SharedBlock.StaticKeeps | modules/nvidia_plugin/src/cuda_op_buffers_extractor.cpp:301-310 | a static node leaves every live stored tensor, new ones included, with its reference bytes |
| SharedBlock.DynamicKeeps | modules/nvidia_plugin/src/cuda_op_buffers_extractor.cpp:301-310 | a dynamic node leaves every live stored tensor with its reference bytes |
| SharedMemory.PlanSound | modules/nvidia_plugin/src/cuda_op_buffers_extractor.cpp:266-280 | the plan with the workbuffers added still satisfies the extractor's invariants |
| BufferStability.LifespansAreHulls | modules/nvidia_plugin/src/cuda_op_buffers_extractor.cpp:26-68 | after both passes a buffer's lifespan is exactly the hull of the nodes touching any tensor rooted in it, its end moved to the node count if and only if a stable parameter or result pins it |
| BufferStability.AssignEndsExact | modules/nvidia_plugin/src/cuda_op_buffers_extractor.cpp:32-46 | after any number of nodes exactly the pinned buffers end past the graph, under any stability flags |
| BufferTheorems.LifespansCover | modules/nvidia_plugin/src/cuda_op_buffers_extractor.cpp:47-67 | every producer and consumer of a tensor lies inside the lifespan of its buffer |
| BufferStability.StableParametersStay | modules/nvidia_plugin/src/cuda_op_buffers_extractor.cpp:222-232 | with stable parameters, the buffer of a parameter outlives the graph unless a concat replaced it |
| BufferStability.StableResultsStay | modules/nvidia_plugin/src/cuda_op_buffers_extractor.cpp:243-253 | with stable results, so does the buffer a result or an Assign reads |
| BufferRuns.AssignInv | modules/nvidia_plugin/src/cuda_op_buffers_extractor.cpp:32-46 | every state the first pass reaches satisfies the whole invariant: roots, regions, spans, ownership, classification |
| BufferRuns.SameIdIffSameSource | modules/nvidia_plugin/src/cuda_op_buffers_extractor.cpp:183-202 | two tensors share a TensorID exactly when they rename the same tensor through reshapes, results and parameters |
| BufferInvariant.ConcatInv | modules/nvidia_plugin/src/cuda_op_buffers_extractor.cpp:137-181 | a successful merge keeps the invariant |
| BufferInvariant.MergeRoots | modules/nvidia_plugin/src/cuda_op_buffers_extractor.cpp:173-178 | a merge moves exactly the tensors rooted at its children under the new parent |
| BufferInvariant.MergePacked | modules/nvidia_plugin/src/cuda_op_buffers_extractor.cpp:173-180 | after a merge, children of one parent occupy disjoint ranges inside it |
| BufferInvariant.StretchInv | modules/nvidia_plugin/src/cuda_op_buffers_extractor.cpp:243-253 | pinning a result's buffer to the node count keeps the invariant |
| BufferInvariant.AliasInv | modules/nvidia_plugin/src/cuda_op_buffers_extractor.cpp:183-202 | renaming outputs disturbs no buffer |
| BufferLayout.RegionsApart | modules/nvidia_plugin/src/cuda_op_buffers_extractor.cpp:137-181 | regions of one root that do not contain each other have disjoint byte ranges, through any nesting of merges |
| BufferLayout.ContainedInside | modules/nvidia_plugin/src/memory_manager/tensor_types.hpp:32-51 | a contained region lies inside the containing one and has the same root |
| BufferLayout.TiledIffDistinct | modules/nvidia_plugin/src/cuda_op_buffers_extractor.cpp:173-180 | concat outputs are tiled by their inputs in input order if and only if no concat merges a tensor with itself |
| BufferLayout.DistinctTiles | modules/nvidia_plugin/src/cuda_op_buffers_extractor.cpp:137-181 | a merge of distinct tensors tiles its output, and still does at the end of extraction |
| BufferLayout.RepeatNotTiled | modules/nvidia_plugin/src/cuda_op_buffers_extractor.cpp:173-180 | the first concat that repeats a tensor leaves its output untiled |
| BufferLayout.SelfConcatIsNotTiled | modules/nvidia_plugin/src/cuda_op_buffers_extractor.cpp:173-180 | a concrete three-node graph the extractor accepts whose concat of a tensor with its own reshape covers only the second half |
| BufferLayout.RootContains | modules/nvidia_plugin/src/memory_manager/tensor_types.hpp:43-51 | the tensor the parent walk ends at contains the one it started from |
| BufferLayout.AssignLinks | modules/nvidia_plugin/src/cuda_op_buffers_extractor.cpp:173-178 | every region is an input of the concat that owns its parent |
| BufferSpec.ConcatIds | modules/nvidia_plugin/src/cuda_op_buffers_extractor.cpp:138-151 | merged ids in input order, each known and a root |
| BufferSpec.MinStart | modules/nvidia_plugin/src/cuda_op_buffers_extractor.cpp:153-159 | the earliest lifespan start among the merged buffers, attained by one of them |
| BufferSpec.AddMutableWorkbuffers | modules/nvidia_plugin/src/cuda_op_buffers_extractor.cpp:273-278 | fresh mutable buffers living for their node only, all others unchanged |
| BufferSpec.AddImmutableWorkbuffers | modules/nvidia_plugin/src/cuda_op_buffers_extractor.cpp:268-272 | fresh immutable workbuffers under consecutive ids |
| BufferAcceptance.ExtractsIff | modules/nvidia_plugin/src/cuda_op_buffers_extractor.cpp:26-68 | the extractor accepts a graph if and only if conditions read off the nodes alone hold: inputs exist, a fed parameter has an output, a static reshape has an input and exactly one output, a concat merges unmerged mutable tensors whose sizes add up, stable sinks read one, and no consumer outgrows its buffer; otherwise the error is that of the first node, or else the first input, to break one |
| BufferAcceptance.StepIff | modules/nvidia_plugin/src/cuda_op_buffers_extractor.cpp:32-46 | one node succeeds or fails exactly as these conditions say |
| BufferAcceptance.InputIff | modules/nvidia_plugin/src/cuda_op_buffers_extractor.cpp:48-65 | one input of the lifespan pass is refused exactly if no buffer holds it or the buffer is too small |
| BuffersExtractor.OperationBuffersExtractor.Extract | modules/nvidia_plugin/src/cuda_op_buffers_extractor.cpp:26-68 | the constructor's two loops build the specified state or fail with the specified error |
| BuffersExtractor.OperationBuffersExtractor.AssignBuffers | modules/nvidia_plugin/src/cuda_op_buffers_extractor.cpp:32-46 | the node loop, case by case, is the first pass |
| BuffersExtractor.OperationBuffersExtractor.ExtendLifespans | modules/nvidia_plugin/src/cuda_op_buffers_extractor.cpp:47-67 | the input loop is the lifespan pass |
| BuffersExtractor.OperationBuffersExtractor.ExtendLifespan | modules/nvidia_plugin/src/cuda_op_buffers_extractor.cpp:48-65 | one input: extend the end, refuse a buffer that is too small or unknown |
| BuffersExtractor.OperationBuffersExtractor.MergeConcatMutableTensors | modules/nvidia_plugin/src/cuda_op_buffers_extractor.cpp:137-181 | the in-place merge has the specified result, including its failures |
| BuffersExtractor.OperationBuffersExtractor.LinkToParent | modules/nvidia_plugin/src/cuda_op_buffers_extractor.cpp:173-178 | the running-offset loop sets every parent link at the sum of the sizes before it |
| BuffersExtractor.OperationBuffersExtractor.MinLifespanStart | modules/nvidia_plugin/src/cuda_op_buffers_extractor.cpp:153-159 | the loop computes the earliest start, or reports a constant among the inputs |
| BuffersExtractor.OperationBuffersExtractor.ExtractReshapeTensors | modules/nvidia_plugin/src/cuda_op_buffers_extractor.cpp:183-202 | a static reshape shares its input's TensorID, a dynamic one gets buffers of its own |
| BuffersExtractor.OperationBuffersExtractor.ExtractParameterTensors | modules/nvidia_plugin/src/cuda_op_buffers_extractor.cpp:214-233 | parameters get fresh buffers, pinned when stable, or share their input, or fail without outputs |
| BuffersExtractor.OperationBuffersExtractor.ExtractResultTensors | modules/nvidia_plugin/src/cuda_op_buffers_extractor.cpp:235-254 | results rename their input and pin its buffer when stable |
| BuffersExtractor.OperationBuffersExtractor.ExtractMutableTensors | modules/nvidia_plugin/src/cuda_op_buffers_extractor.cpp:204-212 | one fresh buffer per output |
| BuffersExtractor.OperationBuffersExtractor.ProcessWorkbufferRequest | modules/nvidia_plugin/src/cuda_op_buffers_extractor.cpp:266-280 | immutable and mutable workbuffers of one node, with their ids |
| DynamicConverse.DynamicRunIff | modules/nvidia_plugin/src/cuda_dynamic_operation.cpp:128-284 | an accepted graph runs right whatever fresh memory contains, with static tensors in one shared block and dynamic outputs registered and released, if and only if no concat merges a dynamic node's output with other tensors, no dynamic node sees one under a changed shape, and nobody reads a non-empty output of a node that computes an empty one too |
| DynamicConverse.RightOnly | modules/nvidia_plugin/src/cuda_dynamic_operation.cpp:128-284 | for any given contents of fresh memory, a run that reads right meets the first two of these conditions |
| DynamicConverse.UnwrittenReadFails | modules/nvidia_plugin/src/cuda_dynamic_operation.cpp:232-271 | where fresh memory differs from what an unwritten output should hold, its reader does not get its reference input |
| DynamicTheorems.DynamicRunRefines | modules/nvidia_plugin/src/cuda_dynamic_operation.cpp:128-284 | under that condition, from any block contents and at any placement, no node misses a buffer or a shape, nothing is read after its release or from a reused place, and every input has its reference shape and bytes |
| DynamicTheorems.ReadIff | modules/nvidia_plugin/src/memory_manager/cuda_memory_manager.cpp:20-36 | an input that was written is read with its reference shape and bytes exactly unless a dynamic node sees renamed bytes under another declared shape |
| DynamicTheorems.KeptIff | modules/nvidia_plugin/src/cuda_dynamic_operation.cpp:168-183 | whether a rename shows a tensor in its own shape can be read off the declared shapes |
| DynamicConverse.MergedReadFails | modules/nvidia_plugin/src/transformer/concat_transformation.cpp:19-66 | if a concat merges a dynamic node's output with another tensor then some node reads a wrong value |
| DynamicConverse.Undersized | modules/nvidia_plugin/src/cuda_dynamic_operation.cpp:273-278 | what such a merge registers under the shared buffer is smaller than the concat that owns it |
| DynamicConverse.RunAllocates | modules/nvidia_plugin/src/cuda_dynamic_operation.cpp:222-284 | in a run that reads right, buffers of known size stay allocated once registered, at the size of one of their dynamic tensors |
| DynamicExamples.ShapeConcatReadsWrong | modules/nvidia_plugin/src/transformer/concat_transformation.cpp:19-66 | a concrete six-node graph, the concat of two shape computations, that the extractor accepts and no placement makes right |
| DynamicExamples.RenamedReadsWrong | modules/nvidia_plugin/src/cuda_dynamic_operation.cpp:163-183 | a concrete graph with a static reshape between two dynamic nodes that is accepted and never read right |
| DynamicExamples.SplitReadsWrong | modules/nvidia_plugin/src/cuda_dynamic_operation.cpp:482-491 | a concrete graph whose node computes an empty and a non-empty output, accepted, whose reader finds what fresh memory held |
| DynamicTheorems.FaithfulIffNotMixed | modules/nvidia_plugin/src/cuda_dynamic_operation.cpp:232-271 | whatever fresh allocations contain, every output holds the kernel's bytes if and only if the node does not compute empty and non-empty outputs together |
| DynamicConverse.RenamedReadIff | modules/nvidia_plugin/src/cuda_dynamic_operation.cpp:163-195 | after any run that read right so far, a dynamic node reads a renamed dynamic output that was written right if and only if the rename keeps the declared shape |
| DynamicTheorems.DynamicPointer | modules/nvidia_plugin/src/cuda_dynamic_operation.cpp:185-195 | a dynamic node's bytes, or what its null operation left, are still allocated when they are read under any rename, with the shape they were registered with |
| DynamicRegions.RootUnique | modules/nvidia_plugin/src/cuda_op_buffers_extractor.cpp:137-181 | a tensor that shares its buffer with a dynamic node's output renames that output, through aliases and concats of a single input |
| DynamicRegions.OriginFacts | modules/nvidia_plugin/src/cuda_op_buffers_extractor.cpp:183-202 | renames keep the root, the offset and the bytes |
| DynamicTheorems.CachedStep | modules/nvidia_plugin/src/cuda_dynamic_operation.cpp:158-160 | prepare, execute and finalize together keep the run's invariant |
| DynamicTheorems.BoundaryStep | modules/nvidia_plugin/src/cuda_dynamic_operation.cpp:286-381 | parameters and variable reads register one exactly sized buffer and keep the invariant |
| DynamicTheorems.SinkStep | modules/nvidia_plugin/src/cuda_dynamic_operation.cpp:300-416 | results and assigns register nothing; only assigns release |
| DynamicTheorems.StaticStep | modules/nvidia_plugin/src/memory_manager/cuda_memory_manager.cpp:38-53 | a static node writes its outputs to the block only and keeps the run's invariant |
| DynamicRun.KeyDeterminesVariant | modules/nvidia_plugin/src/cuda_dynamic_operation.cpp:163-230 | requests of one node with equal keys build equal variants |
| DynamicRun.KeyHolds | modules/nvidia_plugin/src/cuda_dynamic_operation.cpp:32-36 | the key of a value-dependent node, and what is folded into its clone, holds for each input exactly the decoded values if it is a non-constant i32 or i64 scalar or vector of 1 to 64 elements, and nothing for any other |
| DynamicRun.SameKeyIff | modules/nvidia_plugin/src/cuda_dynamic_operation.cpp:202-214 | two requests have equal keys if and only if their shapes and, where the output depends on values, all such inputs agree |
| DynamicRun.VariantHolds | modules/nvidia_plugin/src/cuda_dynamic_operation.cpp:428-490 | a variant has the inferred shapes, bytes for at least one element per output, and is a null operation exactly if some output has a zero dimension |
| DynamicRun.PointersShared | modules/nvidia_plugin/src/cuda_dynamic_operation.cpp:163-195 | a dynamic node sees one pointer for all tensors of a registered buffer, a static node each at its own offset |
| DynamicRun.StateRead | modules/nvidia_plugin/src/cuda_dynamic_operation.cpp:326-381 | a variable that has a state is read whatever its initial value |
| DynamicRun.ResetRead | modules/nvidia_plugin/src/cuda_dynamic_operation.cpp:326-381 | one that was reset yields its initial value as the node reads it or, without one, zeros at the initial shape |
| DynamicRelease.AllocatedIff | modules/nvidia_plugin/src/ops/subgraph.cpp:141-158 | at any point of a run exactly those buffers are allocated that some node registered so far, less those without a static size whose lifespan ended at a node that releases |
| DynamicRelease.RegisteredInLife | modules/nvidia_plugin/src/ops/subgraph.cpp:141-158 | no buffer is registered after the node that released it |
| DynamicOperation.DynamicBufferContext.RegisterDynamicBuffer | modules/nvidia_plugin/src/cuda_dynamic_buffer_context.hpp:38-41 | overwrites allocation and shape of one id only |
| DynamicOperation.DynamicBufferContext.ReleaseDynamicBuffer | modules/nvidia_plugin/src/cuda_dynamic_buffer_context.hpp:43-45 | frees the allocation and keeps the shape |
| DynamicOperation.DynamicOperation.Execute | modules/nvidia_plugin/src/cuda_dynamic_operation.cpp:128-161 | the imperative executor has the specified effect on the context, or fails where the specification does, whatever requests filled the shared cache with |
| DynamicOperation.DynamicOperation.GetOrCreate | modules/nvidia_plugin/src/cuda_dynamic_operation.hpp:94-113 | the variant returned is the one this request would build, and the cache stays as good |
| DynamicOperation.DynamicOperation.Publish | modules/nvidia_plugin/src/cuda_dynamic_operation.hpp:104-113 | the second critical section returns what is stored by then, which is what was built |
| DynamicOperation.DynamicOperation.PrepareInputs | modules/nvidia_plugin/src/cuda_dynamic_operation.cpp:168-195 | shapes and bytes of all inputs, or failure |
| DynamicOperation.DynamicOperation.ExecuteCachedOperation | modules/nvidia_plugin/src/cuda_dynamic_operation.cpp:222-271 | the contents of all output allocations: copied for a reshape, untouched for a null operation, else computed |
| DynamicOperation.DynamicOperation.FinalizeOutputs | modules/nvidia_plugin/src/cuda_dynamic_operation.cpp:273-284 | registers every output, then releases the scheduled buffers |
| LruCache.HoldsMostRecent | modules/nvidia_plugin/src/utils/lru_cache.hpp:22-73 | after any history of lookups and stores the cache holds exactly the `capacity` most recently used keys, in order of use |
| LruCache.Cache.Lookup | modules/nvidia_plugin/src/utils/lru_cache.hpp:41-49 | a hit returns the value and moves its entry to the front; a miss changes nothing |
| LruCache.Cache.Store | modules/nvidia_plugin/src/utils/lru_cache.hpp:56-73 | updates in place or evicts the last entry, and stores in front |
| DynamicCache.CacheIsTransparent | modules/nvidia_plugin/src/cuda_dynamic_operation.hpp:94-113 | under every interleaving and every eviction, what getOrCreate returns is what createCachedOperation builds afresh for that request |
| DynamicCache.CacheStaysBounded | modules/nvidia_plugin/src/cuda_dynamic_operation.hpp:94-113 | one entry per key and at most `capacity` entries, however threads race |
| DynamicCache.CacheHoldsMostRecent | modules/nvidia_plugin/src/cuda_dynamic_operation.hpp:94-113 | under every interleaving the shared cache holds exactly the `capacity` most recently used keys, in order of use |
| GraphTheorems.ReplayIsEagerIff | modules/nvidia_plugin/src/cuda_graph_topology_runner.cpp:60-140 | a request is served eagerly over every sequence of inferences if and only if no segment repeats an upload or a download name |
| GraphTheorems.ReplayIsEager | modules/nvidia_plugin/src/cuda_graph_topology_runner.cpp:60-140 | UpdateContext then Run performs the original operations in order on the tensors of the current inference, for any sequence of inferences |
| GraphTheorems.ServeReplays | modules/nvidia_plugin/src/cuda_graph_topology_runner.cpp:60-140 | every inference performs the original operations, except that a transfer whose name was taken keeps the tensor of the first inference |
| GraphTheorems.FirstInferenceIff | modules/nvidia_plugin/src/cuda_graph_topology_runner.cpp:87-140 | the first inference meets every assertion exactly on servable sequences |
| GraphTheorems.InferHolds | modules/nvidia_plugin/src/cuda_graph_topology_runner.cpp:130-140 | an inference on a kept context refreshes, replays and leaves the context ready for the next |
| GraphTheorems.LoopRuns | modules/nvidia_plugin/src/ops/tensor_iterator.cpp:487-548 | a special loop replays its iterations, and runs exactly when its body launches no kernels of its own |
| GraphTheorems.MultiRuns | modules/nvidia_plugin/src/ops/tensor_iterator.cpp:523-546 | slices, the body's own runner, then back edges and inserts: the iterations of eager execution |
| GraphTheorems.SingleRuns | modules/nvidia_plugin/src/ops/tensor_iterator.cpp:408-423 | one recorded graph relaunched with retargeted slices and inserts performs every iteration |
| GraphTheorems.RunFromHolds | modules/nvidia_plugin/src/cuda_graph_topology_runner.cpp:60-80 | segments are replayed by index and the context is left as it was |
| GraphReplay.RefreshListHolds | modules/nvidia_plugin/src/cuda_graph_context.cpp:47-104 | update_capture moves every recorded graph, at any depth, to the new tensors |
| GraphReplay.CaptureHolds | modules/nvidia_plugin/src/cuda_graph_topology_runner.cpp:87-110 | capture records the segments as they are |
| GraphReplay.ReplayedEager | modules/nvidia_plugin/src/cuda_graph_topology_runner.cpp:60-80 | when names are apart, what a context performs is eager execution |
| GraphRefresh.RefreshHolds | modules/nvidia_plugin/src/cuda_graph_context.cpp:47-54 | refreshing a recorded segment moves exactly its leading transfers, whatever was refreshed before |
| GraphRefresh.EmplaceFits | modules/nvidia_plugin/src/cuda_graph_context.cpp:19-35 | a name already recorded keeps its first node |
| GraphRefresh.RefreshHit | modules/nvidia_plugin/src/cuda/graph.cpp:135-156 | a node is rewritten only if its pointer changed, and then to the current pointer |
| GraphCapture.CapturableIff | modules/nvidia_plugin/src/cuda_graph_topology_runner.cpp:87-110 | capture meets all its assertions exactly on capturable sequences, whatever the host tensors |
| GraphCapture.CountFrom | modules/nvidia_plugin/src/cuda_graph_topology_runner.cpp:13-48 | capture never records fewer graphs than the constructor counted, and as many exactly under a stated condition on the sequence, by induction on nesting |
| GraphCapture.GraphsFollowSegments | modules/nvidia_plugin/src/cuda_graph_topology_runner.cpp:87-108 | the k-th recorded graph comes from the k-th segment that is not eager |
| GraphContents.CaptureClean | modules/nvidia_plugin/src/ops/tensor_iterator.cpp:428-478 | no recorded graph, at any depth, holds an operation that cannot be captured |
| GraphContents.UpdateClean | modules/nvidia_plugin/src/cuda_graph_context.cpp:47-104 | refreshing brings none in |
| GraphContents.OneLeafIff | modules/nvidia_plugin/src/ops/tensor_iterator.cpp:235-243 | a special loop is recorded as one graph if and only if its body is transfers and kernels only, else as slices, the graphs of its body, and back edges with inserts |
| GraphContents.SegmentCounted | modules/nvidia_plugin/src/cuda_graph_topology_runner.cpp:13-48 | the constructor counts one graph for transfers and kernels, one for a special loop over such a body, three for any other, none for a special first operation or an eager segment |
| GraphContents.NestedIff | modules/nvidia_plugin/src/cuda_graph_topology_runner.cpp:125-128 | packs are nested exactly if a special loop after the first operation has something else in its body |
| GraphContents.CompatIff | modules/nvidia_plugin/src/ops/tensor_iterator.cpp:216-233 | a loop is special if only its last iteration leaves it and some body operation is capturable; transfers and kernels are captured whole |
| GraphContents.EagerBody | modules/nvidia_plugin/src/ops/tensor_iterator.cpp:235-243 | a concrete sequence whose loop body holds an eager operation: four graphs |
| GraphContents.LoopAt | modules/nvidia_plugin/src/ops/tensor_iterator.cpp:160-213 | a loop announces itself, then each iteration in order slices its inputs, runs the body, moves the back edges and inserts its outputs, then it concludes |
| GraphPartition.SegmentationUnique | modules/nvidia_plugin/src/cuda_graph_topology_runner.cpp:21-38 | there is only one cut into uniform segments, special operations alone, that could not be coarser |
| GraphPartition.SegmentsFrom | modules/nvidia_plugin/src/cuda_graph_topology_runner.cpp:21-38 | the segments are such a cut: their concatenation is the sequence |
| GraphPartition.Partition | modules/nvidia_plugin/src/cuda_graph_topology_runner.cpp:21-38 | the constructor's loop computes that cut |
| GraphRunner.CudaGraphTopologyRunner.constructor | modules/nvidia_plugin/src/cuda_graph_topology_runner.cpp:13-48 | partitioning and the announced graph count |
| GraphRunner.CudaGraphTopologyRunner.Capture | modules/nvidia_plugin/src/cuda_graph_topology_runner.cpp:87-110 | the capture loop and its assertion on the number of graphs |
| GraphRunner.CudaGraphTopologyRunner.Run | modules/nvidia_plugin/src/cuda_graph_topology_runner.cpp:60-80 | the replay loop with its graph index |
| GraphRunner.CudaGraphTopologyRunner.UpdateContext | modules/nvidia_plugin/src/cuda_graph_topology_runner.cpp:130-140 | refresh an initialised context, else capture |
| GraphRunner.CudaGraphPack.UpdateCaptureAll | modules/nvidia_plugin/src/cuda_graph_context.cpp:100-104 | the refresh loop updates every graph and leaves the index one past the end |
| GraphRunner.CudaGraphPack.SelectCurrentGraph | modules/nvidia_plugin/src/cuda_graph_context.cpp:114-117 | selects an index in range, refuses any other |
| EvictionTheorems.RunFits | modules/genai_optimizations/genai_opt/token_eviction.py:154-206 | after every hook of every run the cache fits its limit in the original order with its start tokens and an unbroken recent tail, scores and counters are exactly those of the tokens kept; a run fails exactly when a short prompt is outgrown or with the error of its first failing eviction, which takes the stated configuration |
| EvictionRefined.DiverseRunIff | modules/genai_optimizations/genai_opt/token_eviction.py:364-378 | without recent tokens, DiverseKV over groups of several tokens fails exactly when a decode step has passed the limit, or on a padded prompt above it |
| EvictionRefined.CrushRunIff | modules/genai_optimizations/genai_opt/token_eviction.py:331-362 | per token, KVCrush fails exactly as soon as the limit is passed |
| EvictionRefined.FixedBreaks | modules/genai_optimizations/genai_opt/token_eviction.py:360-378 | with a fixed number of refined tokens these two errors do not depend on what is picked |
| EvictionStart.StartRunIff | modules/genai_optimizations/genai_opt/token_eviction.py:427-523 | with start tokens only, the exact tokens a run holds after any number of steps, and exactly when it fails: an outgrown short prompt, or groups of several tokens and a cut start that is filled and outgrown |
| EvictionStart.StartCompress | modules/genai_optimizations/genai_opt/token_eviction.py:492-523 | with start tokens only, a compression leaves the start less the padding of the scored part, and no scores |
| EvictionTheorems.RecentTailLong | modules/genai_optimizations/genai_opt/token_eviction.py:398-553 | after an eviction the unbroken tail is longer than the recent tokens less one group, and no counter is zero |
| EvictionTheorems.CompressFits | modules/genai_optimizations/genai_opt/token_eviction.py:492-523 | a compression raises exactly the stated error, or keeps every invariant and leaves the limit less the padding of the last group |
| EvictionTheorems.HookStep | modules/genai_optimizations/genai_opt/token_eviction.py:526-553 | one decode step with its hook keeps every invariant or fails as stated |
| EvictionTheorems.PromptCounts | modules/genai_optimizations/genai_opt/token_eviction.py:187-206 | the prompt's counters are the numbers of aggregated in-window rows that could see each token |
| EvictionTheorems.StepCounts | modules/genai_optimizations/genai_opt/token_eviction.py:191-199 | a decode step keeps counters equal to those numbers |
| EvictionTheorems.StepScores | modules/genai_optimizations/genai_opt/token_eviction.py:161-183 | scores stay aligned with the tokens that received them; the in-place addition is refused exactly when the scored part has just begun past two or more start tokens |
| EvictionRanking.RunRanked | modules/genai_optimizations/genai_opt/token_eviction.py:427-490 | in every run, after the prompt and after every later token, an eviction keeps coarse groups none of which is worth less than any other group, where a group is worth the attention its tokens received, each token's divided by the number of aggregated rows that could see it when normalising, and padding counts zero; without refinement every group that keeps a token is worth at least as much as every group that loses all of its tokens |
| EvictionRanking.CompressRanked | modules/genai_optimizations/genai_opt/token_eviction.py:427-490 | the same of one compression, for any scores and counters; the coarse groups are as many as the refined tokens leave room for, or with adaptive refinement the fewest carrying 90% of the worth |
| EvictionRanking.GroupKeptIff | modules/genai_optimizations/genai_opt/token_eviction.py:492-521 | a group keeps a token exactly if it was chosen |
| EvictionRanking.RankedWorth | modules/genai_optimizations/genai_opt/token_eviction.py:232-237 | the numbers that are ranked are the groups' worth |
| EvictionRanking.AdaptiveCoarse | modules/genai_optimizations/genai_opt/token_eviction.py:418-425 | the coarse groups are the fewest that carry 90%, or as many as fit where that takes more |
| EvictionRanking.TokenSeen | modules/genai_optimizations/genai_opt/token_eviction.py:187-206 | no token's number of rows is zero |
| EvictionCompress.CompressIff | modules/genai_optimizations/genai_opt/token_eviction.py:427-523 | a compression lacks its refinement algorithm, refines per token with KVCrush, refines a padded scored part with DiverseKV and no recent tokens, runs out of range on a misplaced padded group, or applies one mask of a full selection to cache, scores and counters |
| EvictionCompress.RefinementBreaks | modules/genai_optimizations/genai_opt/token_eviction.py:364-378 | the mask is longer than the similarities exactly if the scored part is padded and no recent tokens hold the padding; with the other refinement errors this decides a compression's error |
| EvictionCompress.DiversePadded | modules/genai_optimizations/genai_opt/token_eviction.py:364-378 | a concrete layer of five tokens whose kept indices are in range, on which DiverseKV fails |
| EvictionCompress.MisplacedIff | modules/genai_optimizations/genai_opt/token_eviction.py:398-416 | without recent tokens the kept indices are in range if and only if the padded group is not chosen, or listed last |
| EvictionCompress.MisplacedPair | modules/genai_optimizations/genai_opt/token_eviction.py:398-416 | a concrete selection of two groups that runs out of range |
| EvictionCompress.CountAlone | modules/genai_optimizations/genai_opt/token_eviction.py:398-416 | without recent tokens the budget less the padding survives, whichever group the padding is trimmed from |
| EvictionCompress.StartOnlyTrimmed | modules/genai_optimizations/genai_opt/token_eviction.py:398-416 | with start tokens only, the padding is trimmed from the start tokens themselves |
| EvictionCompress.KeptIff | modules/genai_optimizations/genai_opt/token_eviction.py:450-490 | kept tokens are the start tokens, the tokens of the chosen groups and the recent ones; without recent tokens the group listed last loses the padding |
| EvictionCompress.SelectParts | modules/genai_optimizations/genai_opt/token_eviction.py:513-521 | what a compression leaves of any row: its start, and of the rest the budget less the padding, in order |
| EvictionCompress.SelectRecent | modules/genai_optimizations/genai_opt/token_eviction.py:513-521 | with recent tokens: its start, a budget of intermediate entries in order, its tail |
| EvictionMask.InRangeIff | modules/genai_optimizations/genai_opt/token_eviction.py:398-416 | kept indices are in range if and only if there is no padding or the padded group is listed last only |
| EvictionMask.CountGroups | modules/genai_optimizations/genai_opt/token_eviction.py:398-416 | a mask of whole groups keeps their number times the group size |
| Eviction.SelectionSplits | modules/genai_optimizations/genai_opt/token_eviction.py:293-326 | coarse and refined groups never overlap and are as many distinct in-range groups as asked for |
| Eviction.LinspaceIncreasing | modules/genai_optimizations/genai_opt/token_eviction.py:318-324 | the representative positions are strictly increasing, given one more candidate than steps |
| Eviction.PrefixValid | modules/genai_optimizations/genai_opt/token_eviction.py:313-324 | positions below the number of valid groups hit unselected groups only |
| Eviction.RefinedIs | modules/genai_optimizations/genai_opt/token_eviction.py:313-378 | of the groups beside the coarse ones KVCrush takes evenly spaced ones by descending distance, the first and the last included, and DiverseKV the most diverse |
| Eviction.LinspaceEven | modules/genai_optimizations/genai_opt/token_eviction.py:318-324 | position i is i steps of the even division of the candidates, rounded down |
| Eviction.AdaptiveCovers | modules/genai_optimizations/genai_opt/token_eviction.py:418-425 | the adaptive split's coarse groups carry 90% of the mass whenever the budget allows, and no fewer groups would |
| Ranking.TopSum | modules/genai_optimizations/genai_opt/token_eviction.py:455-459 | any top-k carries at least the sum of any k positions |
| EvictionSpec.SpareGroup | modules/genai_optimizations/genai_opt/token_eviction.py:431-448 | a cache above its limit has at least one group more than the intermediate part keeps |
| EvictionCompressor.KVCacheCompressor.ForwardHook | modules/genai_optimizations/genai_opt/token_eviction.py:526-553 | the hook updates one layer's dictionaries and cache as specified and no other layer's |
| EvictionCompressor.KVCacheCompressor.AggregateScores | modules/genai_optimizations/genai_opt/token_eviction.py:154-185 | score and counter dictionaries after one pass, or the shape error |
| EvictionCompressor.KVCacheCompressor.CalculateLayerCounter | modules/genai_optimizations/genai_opt/token_eviction.py:187-206 | the dictionary's length tells whether a layer was counted before when every layer is hooked |
| EvictionCompressor.KVCacheCompressor.Compress | modules/genai_optimizations/genai_opt/token_eviction.py:492-523 | one mask prunes cache, scores and counters of one layer, with the specified result, which `EvictionRanking.CompressRanked` and `EvictionTheorems.CompressFits` characterise |
| VariableState.StatefulRunIsFold | modules/nvidia_plugin/src/cuda_variable_state.hpp:62-173 | across any inferences, sets and resets, each read equals that of a single optional cell |
| VariableState.ReadsLastWrite | modules/nvidia_plugin/src/cuda_variable_state.hpp:148-160 | a read yields the last value written since the last reset, else the init value, else zeros at the initial shape |
| VariableState.HistoryIs | modules/nvidia_plugin/src/cuda_variable_state.hpp:62-173 | the capacity is the largest size ever stored and never below the logical size |
| VariableState.CapacityGrows | modules/nvidia_plugin/src/cuda_variable_state.hpp:168-173 | capacity is monotone along a history |
| VariableState.InitialShapeIs | modules/nvidia_plugin/src/cuda_variable_state.hpp:40-52 | a declared dimension is kept and a dynamic one starts at 0, so that such a state is empty |
| VariableState.CompatibleIff | modules/nvidia_plugin/src/cuda_variable_state.hpp:62-81 | a shape is accepted if it is the initial one wherever a dimension is declared |
| VariableState.ShapeSizeProduct | modules/nvidia_plugin/src/cuda_variable_state.hpp:168-173 | sizes multiply over the dimensions |
| VariableState.CudaVariableState.constructor | modules/nvidia_plugin/src/cuda_variable_state.hpp:35-60 | the initial shape, zeroed |
| VariableState.CudaVariableState.SetStateTensor | modules/nvidia_plugin/src/cuda_variable_state.hpp:62-81 | stores a compatible tensor, rejects any other without change |
| VariableState.CudaVariableState.GetState | modules/nvidia_plugin/src/cuda_variable_state.hpp:83-94 | the logical value, whatever the capacity |
| VariableState.CudaVariableState.ResetState | modules/nvidia_plugin/src/cuda_variable_state.hpp:96-105 | zeros at the initial shape, the allocation kept |
| VariableState.CudaVariableState.UpdateDeviceState | modules/nvidia_plugin/src/cuda_variable_state.hpp:135-146 | stores the assigned value, reallocating when needed |
| VariableState.CudaVariableState.ReadDeviceState | modules/nvidia_plugin/src/cuda_variable_state.hpp:151-160 | copies the logical bytes, never past either end |
| VariableState.CudaVariableState.EnsureDeviceBuffer | modules/nvidia_plugin/src/cuda_variable_state.hpp:168-173 | the high-water rule |
| ThreadPool.AlwaysSafe | modules/nvidia_plugin/src/cuda_thread_pool.cpp:16-76 | in every interleaving the submitted tasks are those taken followed by those queued, each taken one is run exactly once, and no wake-up is lost |
| ThreadPool.RestIff | modules/nvidia_plugin/src/cuda_thread_pool.cpp:27-36 | a pool with a worker has no step of its own left if and only if all notifications are made and the workers sleep before an empty queue, or are gone after a stop |
| ThreadPool.StopTerminates | modules/nvidia_plugin/src/cuda_thread_pool.cpp:52-59 | after a stop nothing more is taken, only running tasks finish, and all threads end within a bounded number of steps |
| ThreadPool.NoLostWakeupStep | modules/nvidia_plugin/src/cuda_thread_pool.cpp:70-76 | while unstopped with a non-empty queue some worker is awake or a notification is on its way |
| ThreadPool.StopStep | modules/nvidia_plugin/src/cuda_thread_pool.cpp:52-59 | every step after a stop, spurious wake-ups included, brings the pool closer to its end |
| FftShift.FftShiftInPlace | modules/custom_operations/user_ie_extensions/fft.cpp:12-101 | both branches perform the same cyclic shift in place, for any height and width |
| FftShift.ShiftRoundTrip | modules/custom_operations/user_ie_extensions/fft.cpp:27-55 | shifting one way and then the other is the identity |
| FftShift.EntryMoves | modules/custom_operations/user_ie_extensions/fft.cpp:27-55 | every entry goes half the height and half the width on, entry (0, 0) to (h / 2, w / 2), and half rounded up when inverse |
| FftShift.ShiftOdd | modules/custom_operations/user_ie_extensions/fft.cpp:27-75 | the odd branch: overlapping row and column copies through a temporary |
| FftShift.ShiftEven | modules/custom_operations/user_ie_extensions/fft.cpp:77-100 | the even branch: the four quadrants exchanged |
| FftShift.Copy | modules/custom_operations/user_ie_extensions/fft.cpp:37-38 | a block copy in ascending order, correct on overlapping blocks that are read ahead of being written |
| SparseConvAdjoint.AdjointIff | modules/custom_operations/user_ie_extensions/sparse_conv_transpose.cpp:45-85 | for one geometry the two operations are adjoint for all weights and features if and only if no live pair falls on a boundary between taps |
| SparseConvAdjoint.InnerProductsAgree | modules/custom_operations/user_ie_extensions/sparse_conv_transpose.cpp:45-85 | the inner products agree over the live points |
| SparseConvAdjoint.BoundaryDisagrees | modules/custom_operations/user_ie_extensions/sparse_conv_transpose.cpp:72-74 | a boundary pair yields one-hot features and weights on which they disagree |
| SparseConv.TapsInsideIff | modules/custom_operations/user_ie_extensions/sparse_conv.cpp:45-74 | every tap of the 0.51 window is in range exactly for kernel sides below 100 |
| SparseConv.MirrorIff | modules/custom_operations/user_ie_extensions/sparse_conv_transpose.cpp:72-74 | the mirrored tap equals the forward one exactly off the boundaries |
| SparseConv.TermIs | modules/custom_operations/user_ie_extensions/sparse_conv.cpp:57-85 | an input that lies where tap (d, h, w) is, seen from the output point less the offset, contributes the entry ((((d kh + h) kw + w) IC + ic) OC + oc) of the weights times its feature; the transpose uses the mirrored entry |
| SparseConv.GridTerm | modules/custom_operations/user_ie_extensions/sparse_conv.cpp:57-85 | the input displaced by (w - (kw - 1) / 2, h - (kh - 1) / 2, d - (kd - 1) / 2) meets exactly that tap |
| SparseConv.FarTerm | modules/custom_operations/user_ie_extensions/sparse_conv.cpp:66-68 | an input that meets no tap contributes nothing |
| SparseConv.CoversIff | modules/custom_operations/user_ie_extensions/sparse_conv.cpp:70-72 | a displacement is in the window and falls to a tap exactly if it lies in that tap's interval |
| SparseConv.SmallKernelsValid | modules/custom_operations/user_ie_extensions/sparse_conv.cpp:68-74 | sides below 100 make every access of the loops valid |
| SparseConv.Evaluate | modules/custom_operations/user_ie_extensions/sparse_conv.cpp:57-85 | the accumulation loops compute the sum over live neighbours and input channels |
| SparseConv.LiveFrom | modules/custom_operations/user_ie_extensions/sparse_conv.cpp:50-55 | live inputs end at the first negative first coordinate |
| XAttention.SelectionCarries | modules/genai_optimizations/genai_opt/sparse_attention.py:312-386 | selected blocks carry at least the threshold's share of the row, include block 0 and the diagonal, and none past the chunk |
| XAttention.SelectionTight | modules/genai_optimizations/genai_opt/sparse_attention.py:332-355 | past the first chunk, what precedes the last block taken falls short of the required mass |
| XAttention.FirstAndDiagonal | modules/genai_optimizations/genai_opt/sparse_attention.py:322-358 | block 0 is selected even in the first chunk, where its mark is overwritten |
| XAttention.ForcedFirst | modules/genai_optimizations/genai_opt/sparse_attention.py:341-345 | masses below 100000 sort behind every forced block |
| XAttention.PrefixCarries | modules/genai_optimizations/genai_opt/sparse_attention.py:332-352 | the accumulated sums never exceed the mass already selected |
| XAttention.FindBlocksRow | modules/genai_optimizations/genai_opt/sparse_attention.py:312-386 | the in-place mask writes compute that selection |
| KittiEval.ScoreThresholds | modules/3d/pointPillars/evaluate.py:15-33 | of any scores, in descending order, exactly the first to reach each sample point of recall and the smallest become thresholds; at most the sample points when true positives do not outnumber valid ground truths |
| KittiEval.ReachesIff | modules/3d/pointPillars/evaluate.py:19-28 | a score reaches a sample point unless the recall of the next score is nearer to it; the exact condition in whole numbers |
| KittiEval.SortDescending | modules/3d/pointPillars/evaluate.py:17 | a descending permutation of the scores |
| KittiEval.TruePositiveScores | modules/3d/pointPillars/evaluate.py:148-167 | each ground truth takes its best free detection; valid hits yield their scores |
| KittiEval.HitScores | modules/3d/pointPillars/evaluate.py:164-167 | an image yields no more true positives than valid ground truths |
| KittiEval.AllTruePositiveScores | modules/3d/pointPillars/evaluate.py:148-168 | exactly the scores of every image's hits, image by image, no more than there are valid ground truths |
| KittiEval.MatchByScore | modules/3d/pointPillars/evaluate.py:159-163 | the free overlapping detection of highest score, the first of equals |
| KittiEval.MatchByIou | modules/3d/pointPillars/evaluate.py:188-196 | the valid candidate of largest overlap, else the last ignored one |
| KittiEval.MatchFrame | modules/3d/pointPillars/evaluate.py:183-206 | the matching loop, ground truth by ground truth, with its counts |
| KittiEval.MatchingBounds | modules/3d/pointPillars/evaluate.py:200-206 | hits are distinct valid detections; hits and misses are the valid ground truths unless one took an ignored detection |
| KittiEval.CountFrame | modules/3d/pointPillars/evaluate.py:183-223 | false positives are exactly the unmatched valid detections outside every DontCare region, never negative |
| KittiEval.CountAll | modules/3d/pointPillars/evaluate.py:174-227 | the sums over all images of hits, misses and false positives, bounded by the valid detections above the threshold and the valid ground truths |
| KittiEval.RemoveDontCare | modules/3d/pointPillars/evaluate.py:212-223 | each covered detection leaves the count once, whatever regions overlap |
| KittiPrecision.AveragePrecision | modules/3d/pointPillars/evaluate.py:233-241 | undefined exactly if some threshold counts nothing; else every fourth of the running maxima of the precisions, averaged, in [0, 100] |
| KittiPrecision.PrecisionIs | modules/3d/pointPillars/evaluate.py:232-234 | precision times all that was counted is the number of hits |
| KittiPrecision.Evaluate | modules/3d/pointPillars/evaluate.py:147-242 | recall pass, sort, thresholds, counts and average precision together: undefined if and only if at some threshold nothing is counted in any image, never so when no ignored ground truth overlaps a valid detection, else in [0, 100] |
| KittiPrecision.NothingCountedIff | modules/3d/pointPillars/evaluate.py:183-223 | an image counts nothing at a threshold if and only if ignored ground truths take away the valid detections of its valid ones and the rest are taken or covered |
| KittiPrecision.NoHitIff | modules/3d/pointPillars/evaluate.py:183-206 | an image has no hit at a threshold if and only if every valid detection a valid ground truth overlaps was taken by an earlier ignored one |
| KittiPrecision.TotalIff | modules/3d/pointPillars/evaluate.py:174-227 | nothing is counted over all images exactly when nothing is in any |
| KittiPrecision.ThresholdCounts | modules/3d/pointPillars/evaluate.py:148-227 | where no ignored ground truth overlaps a valid detection, a true-positive score counts something when it becomes the threshold |
| KittiPrecision.ContestedCountsNothing | modules/3d/pointPillars/evaluate.py:148-242 | a concrete image whose only threshold counts neither true nor false positives |

## Left out

- DynamicTheorems.SharingPreservesMeaning: the placement of buffers in the block is any placement that keeps overlapping lifespans disjoint, because the memory solver is not part of this model; no concat merges a tensor with itself, exact for the layout by `BufferLayout.TiledIffDistinct`.
- BufferStability.LifespansAreHulls: requires nodes in topological order and no concat merging a tensor with itself, the condition `BufferLayout.TiledIffDistinct` shows to be exact for the layout.
- BuffersExtractor.OperationBuffersExtractor.Extract: TensorID objects are ids with a table of parent links, so sharing of the objects themselves is not represented; ids and sizes do not wrap around.
- DynamicConverse.DynamicRunIff: the half that finds a failure assumes that concats and renames keep the element type and that some operation depends on every concat; a merge nobody reads does no harm.
- DynamicTheorems.DynamicRunRefines: takes from the operations that shape inference on a key gives the true shapes and that reshapes keep bytes; which nodes count as dynamic, those with an input or output of unknown shape, is assumed of OpenVINO's node class, which is not part of this model; no concat merges a tensor with itself, exact by `BufferLayout.TiledIffDistinct`.
- DynamicCache.CacheIsTransparent: a factory that throws is a thread that never returns; locks are atomic steps; equality of variants is that of their shapes, sizes and folded values.
- GraphTheorems.ReplayIsEager: loop bodies move no host data, which is what removing parameters and results from a loop's sequence guarantees; events are issued in one stream order; arguments of recorded kernels other than the iteration are fixed.
- GraphTheorems.FirstInferenceIff: a failed assertion ends the request; what an exception leaves behind in the context is not represented.
- GraphRunner.CudaGraphTopologyRunner.Capture: nested packs are values of the top-level pack, so their sharing by pointer is not represented.
- EvictionTheorems.RunFits: one prompt followed by single-token passes, every layer hooked, finite attention that is never negative, recent or intermediate tokens asked for. With start tokens only, `EvictionStart.StartRunIff` takes its place.
- EvictionRanking.RunRanked: what a position receives in one pass is an arbitrary number, so that the pooling of a window prompt over neighbouring positions is part of it; the statement about adaptive refinement is for attention that is never negative.
- Eviction.SelectionSplits: KVCrush distances and DiverseKV diversities are arbitrary reals; the anchors, the binary split and key similarity only choose among the selections covered where their shapes fit, which `EvictionCompress.RefinementBreaks` decides. RKV scores are not represented, nor is max-pool smoothing of the prompt's scores, which enters as an arbitrary row.
- Eviction.LinspaceIncreasing: positions are truncations of exact quotients, as rounding of the library's step is not represented.
- VariableState.StatefulRunIsFold: calls are sequential; races of a user call with an inference are not represented.
- ThreadPool.AlwaysSafe: the latch at construction and the thread contexts are not represented; a task is a number and running it is one busy period.
- FftShift.FftShiftInPlace: contiguous matrices of complex entries only; the strided column use and the library's refusal of matrices without columns are not represented, nor is the Fourier transform.
- SparseConvAdjoint.AdjointIff: over reals, for kernel sides below 100, where `SparseConv.TapsInsideIff` shows the loops are in bounds.
- XAttention.SelectionCarries: one row, over reals, for masses below 100000 that vanish past the chunk; heads and batches repeat it. The non-causal branch, the modes that return all blocks and the chunk loop of `_xattn_estimate` are left out as easier.
- KittiPrecision.Evaluate: overlaps and DontCare coverage of an image are given as tables; orientation similarity repeats the same loop and is left out.
- ThreadPool.StopTerminates: callers of run() are not bounded, so steps that submit tasks or stop again are not counted.
- CUDA streams, allocators, cuDNN and cuBLAS handles, device properties and timers: kernels are arbitrary functions and memory is bytes.
- Model export, graph surgery, data loading, the Go, Java and llama.cpp wrappers, and configuration parsing: they would only add easy members.
- complex_mul, grid_sample, calculate_grid, compute_ap and the tri-shape mask: easier siblings of what is modelled.
