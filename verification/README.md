# Friends-of-friends, its cached walk, and its trees: a verified model

The program finds friends-of-friends groups on a distributed octree. Its specification is one line: link any two
particles whose squared (minimum-image) distance is at most b2, and name every particle after the least `order` in its
connected component. This project models the three pieces that realise it and proves that they do.

**The clustering pipeline.** `Graph` defines connectivity by paths and proves the contraction theorem every stage
rests on. `Geometry`, `Linking` and `Trees` give distances, boxes, the link graph and the piece octrees. Phase A is
the class `PhaseA.Engine` (min-union-find with path compression, memo, certificates), the dual walk `PhaseAWalk`, the
cell grid `Grid` over `Stencil`, and the two drivers in `PhaseARun`. Phase B is the work pool (`Pool`, `PoolBuild`),
the edge emitter (`PhaseB`), draining, merging and relabelling (`PhaseBRun`), and the one- and two-round schedules
(`Rounds`). `Claims`, `ProcessRun`, `ClaimedRun` and `Pipeline` put phase 1 together on every process. `Labels` is the
64-bit tip encoding, `Representatives` the representative-indirect relabelling, `Histogram*` the distributed size
histogram. `Phase3` is the flat finisher, `Staged` and `StagedRun` the staged gather, `EndToEnd` the exactness of the
final labels.

**Fetch, park, resume, terminate.** `Visitor` is the phase-3 visitor with its SEEN table. `WalkMachine` is one process
of the walk as a step system: lanes, placeholders with parked lists, mail, per-element queues and the credit counter,
one atomic operation a step. `WalkCredits`, `WalkInv`, `WalkSteps` and `WalkWork` prove its invariants and
termination, `WalkProgress` that a run ends only by firing, `WalkMeasure` and `WalkBound` that every run is finite,
`WalkCover` its completeness. `WalkEnd` joins all processes, `WholeRun` runs the pipeline from piece assignments to
labels, and `AnyWorld` and `Interleaved` show its hypotheses met. `Transposed`, `VisitLaws`, `Pacing` and
`PausingWalk` are the pausing traverser. `StarterPack`, `ChunkTurns` and `Canopy` are the chunked starter pack and its
installation.

**Flattening and tiling.** `Flatten` is the device tree, `FlatCheck` its structural check. `HostCells`, `HostSplit`
and `Flush` are the completion of an antichain of octree cells into splitters, and the flush that uses them.

A vertex of every graph is a particle `order`, as in the code. Coordinates are `real`. The grid takes a cell side c
with 6 c c = b2 instead of a square root. Heuristics (claim order, schedules, chunk sizes, split thresholds, cost
keys, pause limits, arrival orders) are arbitrary parameters, so the results hold for all of them.

## What the proofs found

- The flush loses a particle whose key is 2^64 - 1: the clamp that keeps the last `to` from wrapping excludes it.
  `Flush.Flush` sends everything if and only if every key lies below the top one (and in the space); the reader aborts
  on the short count (src/Reader.h:231-236).
- `-(boss + 2)` leaves a 64-bit long exactly for the two topmost encodings (`Labels.TouchedFits`).
- The dense histogram array is exact if and only if no two of its labels share a cell (`HistogramRun.DenseExact`).
  Labels encoded by one process never do, and every caller encodes first. Bare orders would: the comment at
  fof/FoFPhase1.h:4168-4174 says they are indexed as they are, but since the tip is the high field the index drops
  their low 20 bits. That is a latent hazard, not a live one (`HistogramRun.BareOrdersAlias`).
- The periodic box gap bounds the distance of two points if and only if they are at most one and a half periods apart
  (`Geometry.AxisGapExact`); within one period it always does.
- `Partition::goDown` never posts `resumeAfterPause`. It leaves paused work with no message under way if and only if
  none was under way and either something was paused already or, at some opened local node it reaches, the handle or
  request counter is over its limit (`PausingWalk.Traverser.GoDown`, `Pacing.TripsWhere`). `PausingWalk.Strand` is
  such a run for any non-zero limits: an installed root over one canopy node that the shared starter pack was cut before.
- The comment at fof/FoFPhase3.h:771-774 says the winning root is not the minimum particle order. Since the tip is the
  high field it is (`EndToEnd.LabelsExact`), as fof/FoFPhase1.h:128-158 says.
- `getDescendant` asked for a key that is not below its start does not return null: it follows the key's low digits
  from the start. It finds the key asked for only if the start is above it (`Canopy.RenamedExact`). Its 64-bit product
  wraps for starts from 2^61 on, and the loop overruns its array exactly when the start's low 61 bits are zero
  (`Canopy.OverrunExact`).

## Model

| member | source | states |
|---|---|---|
| Graph.ContractionExact | fof/FoFPhase1.h:1196-1210 | Solving a contraction of the link graph along sound first-stage tips solves the link graph itself, component for component and minimum for minimum |
| Graph.ComponentMinUnique | fof/FoFPhase1.h:128-135 | Two vertices have the same component minimum if and only if they are connected, so the minimum order names the group |
| Geometry.AxisGapExact | fof/FoFPhase1.h:253-262 | The three-shift periodic gap of two points is at most their wrapped distance if and only if they lie within one and a half periods |
| Geometry.MinDistBound | fof/FoFPhase1.h:253-272 | The box gap never exceeds the periodic distance of any contained pair in reach |
| Geometry.MaxDistBound | fof/FoFPhase1.h:281-289 | With open boundaries no contained pair is farther apart than the far corners |
| Geometry.DistBoundsTight | fof/FoFPhase1.h:253-289 | Both bounds are attained by contained pairs |
| Geometry.GateKeepsCertificates | fof/FoFPhase1.h:4492-4504 | Whenever the positive certificate holds, msum*msum <= 12*b2, so the cheap gate never hides it |
| Geometry.WrapNearest | fof/FoFPhase1.h:226-235 | The wrapped difference on a periodic axis is the smallest over all whole numbers of periods, and at most half a period |
| Geometry.LinkedIsShift | fof/FoFPhase1.h:226-235 | Two particles are linked if and only if some image of one, moved by whole periods on the periodic axes, lies within the linking length of the other |
| Geometry.LinkedSymmetric | fof/FoFPhase1.h:226-235 | The link relation is symmetric, rounding halves away from zero included |
| Forest.CompressKeepsRoots | fof/FoFPhase1.h:4934-4943 | Pointing a particle at its root changes no particle's root |
| Forest.LinkMovesTree | fof/FoFPhase1.h:4945-4955 | Hanging a root under a smaller-ranked one moves exactly its own tree |
| Forest.UnionSolves | fof/FoFPhase1.h:1196-1205 | If the tip forest solves the edges so far, one min-union makes it solve one edge more: every boss is its component's least tip |
| Forest.TipForest.Find | fof/FoFPhase1.h:1366-1380 | findRoot returns the boss, registers a new tip as its own root, leaves the tip asked for pointing at it, changes other parents only to that boss, and no boss at all |
| Forest.TipForest.UnionAll | fof/FoFPhase1.h:1196-1205 | After the loop every tip's boss is the least tip of its component in the edges, and exactly the endpoints have been added |
| PhaseA.Engine.Find | fof/FoFPhase1.h:4934-4943 | Returns the root; compression moves no root |
| PhaseA.Engine.Unite | fof/FoFPhase1.h:4945-4955 | Two connected particles share a root afterwards, every earlier join is kept, no unsound join is made |
| PhaseA.Engine.FirstFlat | fof/FoFPhase1.h:4710-4738 | Returns the first particle below a non-empty node |
| PhaseA.Engine.UniteSubtree | fof/FoFPhase1.h:4740-4766 | All particles below a node that is one component share the representative's root |
| PhaseA.Engine.CertRep | fof/FoFPhase1.h:4767-4775 | The memoised representative's tree holds every particle below the node, on the first certificate and on every later lookup, which changes nothing; the node and its representative are memoised |
| PhaseA.Engine.ConnectedRep | fof/FoFPhase1.h:4784-4815 | It answers yes if and only if the node is memoised already, or all its particles share a root and, for an inner node, its non-empty children are memoised; exactly the positive answers are memoised; asking changes no root |
| PhaseA.Engine.Prune | fof/FoFPhase1.h:4492-4559 | Connectivity suppression skips a pair if and only if both nodes are memoised and their representatives share a root; then every link of the pair is already joined |
| PhaseA.Engine.Certify | fof/FoFPhase1.h:4492-4504 | A certified pair ends with all its links joined, soundly even where neither node is a clique by itself |
| PhaseA.Engine.LeafSelfUnion | fof/FoFPhase1.h:4879-4891 | Every link inside a leaf is joined |
| PhaseA.Engine.LeafPairUnion | fof/FoFPhase1.h:4891-4901 | Every link between two leaves is joined, also when one witness ends the rows of internally connected leaves |
| PhaseA.CertifiedNode | fof/FoFPhase1.h:4767-4775 | A node all of whose pairs with a non-empty partner are links lies in one component |
| PhaseA.OneTreeSolves | fof/FoFPhase1.h:4784-4815 | Two internally connected nodes whose representatives share a root have nothing left to join |
| PhaseA.CoarserMemo | fof/FoFPhase1.h:4767-4775 | Memo entries survive every later union |
| PhaseA.UniteRoots | fof/FoFPhase1.h:4945-4955 | Linking two roots by rank joins exactly their trees and stays sound |
| PhaseAWalk.FarApart | fof/FoFPhase1.h:4486-4491 | Boxes farther apart than the linking length hold no linked pair |
| PhaseAWalk.AllNear | fof/FoFPhase1.h:4492-4504 | Under open boundaries, far corners within the linking length make every pair a link |
| PhaseAWalk.GateIsFree | fof/FoFPhase1.h:4492-4504 | The walk's verdict with the cheap gate equals the verdict without it |
| PhaseAWalk.Walk | fof/FoFPhase1.h:4485-4559 | The dual walk joins every link between its two nodes, whatever is pruned, certified or handed to the grid |
| PhaseAWalk.GridNode | fof/FoFPhase1.h:4599-4608 | The grid taken at a node joins every link below the node, or declines and changes nothing; it declines exactly when the box needs more than 20 bits on an axis or spans more than half a period |
| Stencil.GridOffsets | fof/FoFPhase1.h:4567-4590 | The loop collects each reachable offset or its negation exactly once, and nothing else |
| Stencil.StencilComplete | fof/FoFPhase1.h:4567-4590 | Points within b lie in cells whose offset the stencil reaches: no offset is missed |
| Stencil.NearIsFree | fof/FoFPhase1.h:4640-4682 | Points in one cell or in face-adjacent cells are within b, so those unions need no test |
| Grid.PackUnpacks | fof/FoFPhase1.h:4608-4645 | Within 20 bits an axis, packing a cell and unpacking it is the identity |
| Grid.HalfPeriodExact | fof/FoFPhase1.h:4608-4625 | Over a box plain distances equal the periodic ones if and only if it spans at most half a period on every periodic axis: the grid declines no more boxes than it must |
| Grid.FindOcc | fof/FoFPhase1.h:4655-4672 | The binary search returns the run of a key if and only if one exists |
| Grid.CrossCells | fof/FoFPhase1.h:4672-4695 | Crossing two cells joins every link between them, whether free, skipped or settled by one witness |
| Grid.GridCovers | fof/FoFPhase1.h:4655-4699 | Cliques and forward neighbours together cover every pair of the range |
| Grid.GridSelfUnion | fof/FoFPhase1.h:4608-4699 | Accepting, it joins every link of its range soundly; declining, it changes nothing |
| PhaseARun.Admit | fof/FoFPhase1.h:1481-1491 | Admission appends a piece's particles at the flat indices after the present ones and keeps every present join and its soundness |
| PhaseARun.PhaseAExact | fof/FoFPhase1.h:4485-4559 | After a complete walk two particles share a root if and only if they are connected, and the root has the least order of the component |
| PhaseARun.RunStatic | fof/FoFPhase1.h:1640-1722 | The static path ends exact: same root iff connected, roots carry minima |
| PhaseARun.RunClaims | fof/FoFPhase1.h:1535-1619 | The claim path, admitting and self-walking each piece as it is won, in any order, ends exact too |
| Annotation.FragOfLeaf | fof/FoFData.h:44-63 | A leaf's annotation is the least and greatest tip and the count of its particles |
| Annotation.PlusDescribes | fof/FoFData.h:69-76 | operator+= describes the union of what its operands describe |
| Annotation.Annotate | fof/FoFPhase1.h:1854-1906 | The upward pass annotates every node with exactly what lies below it |
| Annotation.UniformMeansOneTip | fof/FoFData.h:65-67 | uniform() holds if and only if the node is non-empty and all particles below it carry one tip |
| Annotation.UniformBelow | fof/FoFData.h:65-67 | Non-empty nodes below a uniform node are uniform |
| PhaseB.Emitter.EmitSubtree | fof/FoFPhase1.h:4838-4855 | Afterwards the edges connect every tip below the node to the representative tip |
| PhaseB.Emitter.CertTipRep | fof/FoFPhase1.h:4821-4836 | The returned tip's star covers the node, with no edge at all under a single fragment |
| PhaseB.Emitter.Certify | fof/FoFPhase1.h:4821-4855 | After a certificate the edges connect the tips of every pair, and every edge joins connected tips |
| PhaseB.Emitter.LeafEmit | fof/FoFPhase1.h:4903-4930 | Every linked pair of two leaves has its tips connected by the edges, early exits included |
| PhaseB.Emitter.Walk | fof/FoFPhase1.h:4485-4559 | A unit's walk connects the tips of every linked pair below it and emits only edges between connected tips |
| PhaseB.UniformPairEmits | fof/FoFPhase1.h:4903-4930 | Between two uniform leaves one edge settles all pairs |
| Pool.ChildrenShareWeight | fof/FoFPhase1.h:2850-2859 | A particle pair below (a, b) is below exactly one pair of children |
| Pool.PushInto | fof/FoFPhase1.h:2739-2859 | Splitting adds exactly the unit pairs in reach at which the policy stops, level by level from the two nodes, and puts each interacting pair in the pool exactly once more |
| Pool.TimesPermutes | fof/FoFPhase1.h:2917-2926 | Reordering the pool changes no pair's count |
| PoolBuild.AllPairsTimes | fof/FoFPhase1.h:2892-2915 | The piece-pair enumeration has every cross-PE particle pair once and every same-PE pair never |
| PoolBuild.StridesCover | fof/FoFPhase1.h:2892-2915 | The ranks' strides together take every piece pair exactly once |
| PoolBuild.RoundRobin | fof/FoFPhase1.h:2929-2945 | The merge takes the first unit of every slice, then the second of every slice, and so on; it is a permutation of the concatenation |
| PoolBuild.TailSplit | fof/FoFPhase1.h:2946-3023 | Every unit left comes from a pool unit by opening costly ones, at most four levels deep, and is itself not to be opened; at any thresholds every interacting pair keeps its count |
| PoolBuild.ReorderPermutes | fof/FoFPhase1.h:3181-3271 | Partition-contiguous reordering with a tail is a permutation of the pool |
| PoolBuild.Reorder | fof/FoFPhase1.h:3181-3271 | The reordered pool has the B1 units first, their regions in the order of cost, then the tail in the order of cost, with the boundary exactly between them |
| PoolBuild.BuildPool | fof/FoFPhase1.h:2892-3023 | Each interacting cross-PE particle pair is in exactly one unit of the final pool, no same-PE pair in any; every unit comes from a piece pair by the split policy and the tail split; the B2 boundary parts the tail from the rest |
| PhaseBRun.DrainStage | fof/FoFPhase1.h:1929-1985 | Whatever schedule draws from the shared cursor, every unit of the stage is walked by one PE and the buffers' edges connect its linked pairs |
| PhaseBRun.MergeBody | fof/FoFPhase1.h:1196-1210 | tip_map holds exactly the tips that are not their component's minimum, mapped to it |
| PhaseBRun.RelabelExact | fof/FoFPhase1.h:2005-2012 | Relabelling sound, complete tips by the merge's map makes them the exact component minima |
| Rounds.OneRound | fof/FoFPhase1.h:1901-1985 | A drain, the merge and the relabel end with exact process tips |
| Rounds.TwoRounds | fof/FoFPhase1.h:3278-3334 | B1, the relabel between, B2 and the last merge over the kept B1 edges end with exact process tips |
| Rounds.ExactTipsAgree | fof/FoFPhase1.h:3278-3334 | Exact labels depend on the particles alone: one round or two, any blocks, the same label per particle |
| Claims.StealPool.Claim | fof/FoFPhase1.h:1555-1569 | The compare-and-swap gives an unclaimed piece to the caller and leaves a claimed one alone |
| Claims.ClaimAll | fof/FoFPhase1.h:1535-1619 | For every interleaving each piece ends in exactly one PE's bucket |
| ProcessRun.PePhaseA | fof/FoFPhase1.h:1535-1619 | A PE ends phase A with frozen labels exact for its own particles |
| ProcessRun.Phase1 | fof/FoFPhase1.h:1901-1985 | Phase 1 of a process labels each particle with the least order of its component there, for every distribution of pieces and every heuristic choice |
| ClaimedRun.Phase1Claimed | fof/FoFPhase1.h:1535-1619 | The same with racing claims, for a permutation of the process's particles |
| Pipeline.Phase1Everywhere | fof/FoFPhase1.h:1535-1619 | Phase 1 on every process leaves a world of exact process tips, ready for phase 3 |
| Labels.EncodeRoundTrip | fof/FoFPhase1.h:144-149 | Owner and tip are read back if and only if both fit their fields, and the sign bit stays clear |
| Labels.DecodeRoundTrip | fof/FoFPhase1.h:144-149 | Every non-negative long is the encoding of its own owner and tip |
| Labels.EncodeOrders | fof/FoFPhase1.h:128-135 | Encoded tips compare by particle order first, then by process |
| Labels.LabelsDecode | fof/FoFPhase1.h:151-158 | Touched and untouched labels decode to their tip, and neither can be mistaken for the other or for the unset mark |
| Labels.TouchedFits | fof/FoFPhase1.h:151-158 | -(boss + 2) and back stays in a long exactly for all but the two topmost encodings |
| Labels.ImageMin | fof/FoFPhase1.h:128-135 | An order-preserving renaming carries component minima to component minima |
| Representatives.DepositsAreSizes | fof/FoFPhase1.h:1738-1781 | Summing representative counts by current label equals counting particles by label |
| Representatives.PeLabels.Freeze | fof/FoFPhase1.h:1727-1781 | After the freeze every particle's label is its root's order and the counts are the tree sizes |
| Representatives.PeLabels.CollectRoots | fof/FoFPhase1.h:1762-1776 | The representatives are exactly the indices that count a particle, each listed once and labelled with its order |
| Representatives.PeLabels.DeviceAdopt | fof/FoFPhase1.h:2565-2612 | Run-length adoption of device labels keeps every particle's label and sets up valid representatives |
| Representatives.PeLabels.Materialize | fof/FoFPhase1.h:2019-2023 | Every particle gets its representative's label |
| Representatives.PeLabels.ApplyMap | fof/FoFPhase1.h:4418-4432 | Rewriting representatives and materialising equals applying the map to every particle |
| Representatives.PeLabels.ApplySlice | fof/FoFPhase1.h:4439-4449 | The same for a slice, an empty one skipping both passes |
| Representatives.PeLabels.ApplyTipEncoding | fof/FoFPhase1.h:3376-3389 | Every particle's label becomes its encoding with this process, or the run aborts on a label that is no order |
| Representatives.PeLabels.ApplyMaps | fof/FoFPhase1.h:4418-4449 | For any sequence of maps the particles end as if each map had been applied per particle, and deposits equal a recount |
| Histogram.BinnedConserves | fof/FoFPhase1.h:4218-4240 | If every label is binned once with its mass, the bins sum to all that was deposited |
| Histogram.SumByLabel | fof/FoFPhase1.h:4270-4323 | The sort-and-sum of a shard has each of its labels once, in order, with its total |
| HistogramRun.DenseExact | fof/FoFPhase1.h:4140-4175 | For positive counts, the dense array reports every label's size if and only if no two of its labels share a cell |
| HistogramRun.EncodedFaithful | fof/FoFPhase1.h:4140-4175 | Labels encoded by one process never share a dense cell |
| HistogramRun.BareOrdersAlias | fof/FoFPhase1.h:4167-4190 | A latent hazard: in the window made for orders 0 and 1, bare orders with three and four particles would come out as one component of seven |
| HistogramRun.LabelShards.Deposit | fof/FoFPhase1.h:4140-4216 | Each pair is added to its dense cell or filed with the one shard its hash picks; nothing else changes |
| HistogramRun.LabelShards.HistogramShard | fof/FoFPhase1.h:4244-4323 | A shard bins each of its non-negative labels once with its full size and passes on each touched label once with its total |
| HistogramAll.DepositsCountParticles | fof/FoFPhase1.h:4140-4216 | What a PE deposits under a label is the number of its particles with that label |
| HistogramAll.OwnerOfTouched | fof/FoFPhase1.h:4346-4365 | The owner read off the touched label of an encoded tip is the process that encoded it |
| HistogramAll.Scatter | fof/FoFPhase1.h:4343-4372 | If every label is the touched form of a tip of some process of the run nothing aborts, and each such label's pairs land at that process and nowhere else with their full count; in general it aborts exactly when an owner does not exist |
| HistogramAll.Run | fof/FoFPhase1.h:4218-4411 | Under the sign contract the distributed histogram succeeds iff every boss owner exists, in particular whenever the touched labels name tips of the run's processes; then it bins every label of the run once with its full size, and the bins sum to all particles |
| Phase3.Dedup | fof/FoFPhase3.h:764-790 | The duplicate-free edge list has the same edges |
| Phase3.FlatLabels | fof/FoFPhase3.h:779-822 | The flat union-find labels exactly the edges' endpoints, each -(least tip of its component + 2) |
| Phase3.FinalLabelsUnique | fof/FoFPhase3.h:779-822 | Final labels are determined by the set of edges |
| Phase3.StageNode.ContractLocal | fof/FoFPhase1.h:1261-1287 | The local forest solves the process's own edges, and the owned tips are recorded |
| Phase3.StageNode.RouteCross | fof/FoFPhase1.h:1289-1311 | Each cross edge goes, with our endpoint replaced by its root, to the other endpoint's owner and nowhere else |
| Phase3.StageNode.ContractRemote | fof/FoFPhase1.h:1313-1332 | Each received edge is contracted on our side and recorded once; our endpoint becomes known |
| Phase3.StageNode.Expand | fof/FoFPhase1.h:1346-1363 | Every owned touched tip gets its root's delivered label, or the root's own touched label if none was delivered |
| Staged.StagePhase3Edges | fof/FoFPhase1.h:3678-3690 | Own and foreign edges are separated by ownership, none lost |
| Staged.BothHalves | fof/FoFPhase1.h:1289-1332 | Contracting at both owners replaces both endpoints by their local roots |
| Staged.StagingContracts | fof/FoFPhase1.h:1212-1260 | The gathered edges are a contraction of the raw edges along the local forests |
| Staged.ExpandedLabel | fof/FoFPhase1.h:1346-1363 | An expanded label is the touched form of the least tip of the raw component |
| StagedRun.Interleave | fof/FoFPhase1.h:1289-1332 | Routing and delivery in any interleaving lose no edge and know only contracted ones |
| StagedRun.Settled | fof/FoFPhase1.h:1334-1344 | At quiescence the gathered edges are exactly the contracted cross edges, and every process knows exactly its touched tips |
| StagedRun.StagedLabels | fof/FoFPhase3.h:1047-1107 | For every message order each process ends with a label for exactly its touched tips, the least tip of the raw component |
| StagedRun.StagedIsFlat | fof/FoFPhase3.h:1047-1107 | Each process's staged labels equal its slice of the flat label map, tip for tip |
| EndToEnd.LabelsExact | fof/FoFPhase3.h:779-822 | Given edges that bridge the processes, the final label of every particle decodes to the least order of its component in the whole link graph |
| EndToEnd.LabelNames | fof/FoFPhase3.h:805-822 | The final label is the encoding of the group's least order under the process that holds it, in the touched form if and only if the group has members with other tips |
| EndToEnd.TouchedSpans | fof/FoFPhase3.h:805-822 | A cross-process edge touches a tip if and only if its group has members with other tips |
| EndToEnd.NamesTellGroups | fof/FoFPhase1.h:4218-4232 | Two particles carry one label if and only if they are in one group, and an untouched label stays within one process: the contract the histogram counts on |
| EndToEnd.DecompositionFree | fof/FoFPhase1.h:128-158 | Two decompositions of the same particles give every particle the same group name |
| EndToEnd.SliceSuffices | fof/FoFPhase1.h:4439-4449 | Relabelling by the owner's slice equals relabelling by the whole map |
| EndToEnd.FinishRun | fof/FoFPhase3.h:779-822 | Given bridging edges (and, for the staged gather, a staging of them), whole map, slices or staged gather end with every label its group's exact name: decoding to the least order, with the owner and the sign right |
| Visitor.CellThenOpen | fof/FoFPhase3.h:259-278 | cell agrees with open on the SEEN it sees, and a pair cell rejects is rejected by every later open |
| Visitor.ExpandCovers | fof/FoFPhase3.h:191-342 | Handling a work item loses no owed particle pair: its tips are SEEN or some pushed item still covers it |
| Visitor.ExpandFits | fof/FoFPhase3.h:191-342 | Pushed items are well formed, rejected ones carrying their rejection |
| Visitor.ExpandInserts | fof/FoFPhase3.h:280-342 | Handling an item inserts nothing, or exactly one pair, witnessed by a link whose second particle is this process's, whose edge is then owed |
| Visitor.ExpandVets | src/Traverser.h:813-845 | Past the ownership and mirror prunes only sources that the element is to keep are scanned or insert anything; an empty target, a local source or a mirrored pair kept by the other side is dropped |
| WalkMeasure.ExpandShrinks | src/Traverser.h:850-907 | All that handling a work item pushes is together smaller than the item, in a measure over the nodes and particles on both sides and the tests left in a particle loop |
| WalkSteps.StepInv | src/CacheManager.h:191-220 | Every step keeps placement of credits, counter, lanes, mail, nodes, queues and seeds consistent |
| WalkWork.CreditsCounted | src/CacheManager.h:191-220 | In every reachable armed state the counter is the open credit plus requests, resume messages and goDown messages not yet finished |
| WalkWork.ZeroIsQuiescent | src/CacheManager.h:356-369 | Counter zero means no parked walker, no request, no message, no queued node |
| WalkWork.FiredMeansDone | src/CacheManager.h:394-420 | On every interleaving the done reduction fires at most once, and then nothing is pending and every recorded pair was walked exactly as often as it was recorded |
| WalkWork.QueueHasOneGoDown | src/Resumer.h:43-66 | A (traversal, element) queue with work has exactly one goDown, in flight or with the home lane; a goDown in flight, or a lane with one anywhere but at the loop's test, has work; no other lane ever has it |
| WalkWork.StepWork | src/Traverser.h:169-208 | Every step keeps each recorded pair awaited: parked, mailed, queued or being walked, whether its park came before or after the install |
| WalkCover.WalkComplete | src/Traverser.h:771-923 | When the walk has fired, its edges are exactly the SEEN pairs, each once, each witnessed by a linked pair, and every owed pair is among them |
| WalkProgress.ZeroFires | src/CacheManager.h:211-219 | In every reachable armed state with the counter at zero a lane stands at the exchange, and its step fires the done reduction, which had not fired |
| WalkProgress.NoDeadlock | src/CacheManager.h:191-220 | In every reachable state of an armed walk some step is enabled |
| WalkProgress.StuckIffFired | src/CacheManager.h:191-220 | In every run no step is enabled if and only if the done reduction has fired, exactly once |
| WalkBound.StepShrinks | src/Traverser.h:771-923 | Every step of every lane makes one global measure of frames, mail, parked walkers, queues, set-aside pairs and seeds smaller |
| WalkBound.RunsAreShort | src/Traverser.h:771-923 | No run takes more steps than a number fixed by the configuration's trees and targets, whatever the interleaving; so a lane makes finitely many visits between messages, and in all |
| WalkBound.GoesOn | src/CacheManager.h:191-220 | Every run can be gone on with, in finitely many steps, to a state in which the done reduction has fired and nothing is enabled |
| WalkEnd.KeepsOneSide | src/Traverser.h:771-790 | For two different pieces exactly one of the two owners keeps the pair, under parity and under weights |
| WalkEnd.ParityAlternates | src/Traverser.h:771-776 | By parity the kept pairs alternate on either side of a piece, on the target side and on the source side |
| WalkEnd.WalksBridge | src/Traverser.h:771-923 | For any placement of the tree's particles on processes, the edges of all processes' finished walks bridge the world: every cross-process link with different tips has its tip pair, and only connected tips are joined |
| WalkEnd.PipelineExact | fof/FoFPhase3.h:617-822 | For any placement of the tree's particles on processes, exact process tips, fired walks on every process, the flat union-find and the relabel give every particle the least order of its component |
| WholeRun.WalksAtHome | fof/FoFPhase1.h:1289-1311 | Every edge a process's walk emits has an end owned by that process and both owners exist, so the owners never refuse one |
| WholeRun.StageAll | fof/FoFPhase1.h:3678-3690 | Splitting every process's edges by ownership gives a well-formed staging of exactly the walks' edges |
| WholeRun.FinishWalked | fof/FoFPhase3.h:1047-1107 | After walks that have fired, each of the three deliveries, the staged gather included, ends with labels that decode to the component minima; nothing else is assumed of the edges |
| WholeRun.Run | fof/FoFPhase1.h:1535-1619 | For every assignment of pieces to processes, every race and heuristic, any walks that go on as long as they can in the world phase 1 leaves, and every delivery, each particle's label is its group's exact name |
| WholeRun.WalksExist | src/TreePiece.h:325-351 | Whatever the processes see, there are walks over it that go on to their end |
| AnyWorld.SomeWalks | src/TreePiece.h:325-351 | Every world of exact tips whose particles lie in reach has views of its tree and walks over them that end |
| Interleaved.HypothesesHold | src/Decomposition.C:509-592 | A world whose two octants each hold pieces of both processes satisfies every hypothesis of the pipeline theorem about the tree |
| Interleaved.WalksEndToo | src/TreePiece.h:325-351 | Both processes' walks over this world can be run to their end |
| StarterPack.SortStorage | src/Driver.h:615-637 | The pack has each stored key once, in key order, with its newest entry |
| StarterPack.ChunksTile | src/Driver.h:595-599 | The first k chunks in order are the starter pack up to the k-th bound; all chunks are the starter pack |
| StarterPack.ChunksEven | src/Driver.h:595-599 | Every chunk has the quotient of entries by chunks, or one more |
| ChunkTurns.StepInv | src/CacheManager.h:278-330 | Every step keeps: one installer at most, a log that is a prefix of the chunks, pending chunks not yet installed, at most one contribution |
| ChunkTurns.ChunksComplete | src/CacheManager.h:278-330 | On every interleaving chunks are installed in key order, at most once, by one lane at a time; once all have arrived nothing is pending and exactly one contribution was made |
| ChunkTurns.ChunksEnd | src/CacheManager.h:278-330 | On every interleaving of n chunks a run has at most 3n + 1 steps, can be gone on with until it has exactly these, and is settled exactly then |
| ChunkTurns.PrefixClosed | src/Driver.h:560-567 | Cutting a parent-closed sorted pack at any length leaves it parent-closed |
| ChunkTurns.ParentsFirst | src/TreeCache.h:458-467 | In every reachable state the installed entries are a prefix of the starter pack and every entry's parent precedes it |
| Canopy.RenamedExact | src/Node.h:435-453 | The digit walk leads to the key asked for if and only if the start is above that key |
| Canopy.DigitsFit | src/Node.h:435-453 | A 64-bit octree key has at most 21 digits below any start |
| Canopy.OverrunExact | src/Node.h:441-446 | With the product taken in 64 bits the digit loop overruns its array of 64, whatever key is asked for, if and only if the start's low 61 bits are zero; the bound is the intended one if and only if 8 times the start fits |
| Canopy.FirstOverrun | src/Node.h:441-446 | The depth-21 start with key 2^63 overruns for every key |
| Canopy.Tree.GetChild | src/Node.h:411-421 | A placeholder has no child; a slot filled is returned; a canopy node's absent slot is filled and returned exactly when the canopy is lazy; any other absent slot gives nothing and changes nothing |
| Canopy.ReachChild | src/Node.h:411-453 | From a node reached, a child is reached if and only if the node is no placeholder and the slot is filled, or the node is a lazy canopy node |
| Canopy.Tree.GetDescendant | src/Node.h:435-453 | Returns the node the digits lead to if and only if every slot on the way is filled (or filled on asking), else nothing; only placeholders are added |
| Canopy.Tree.InstallBoundary | src/TreeCache.h:458-467 | If the walk finds the parent, the entry becomes a canopy node with its child slots and nothing else changes; if not, nothing is installed; local pieces stay adopted either way |
| Canopy.Tree.InstallAll | src/CacheManager.h:270-276 | Every entry of an ordered run finds its parent installed, and every entry and adopted piece can be walked to from the root |
| Canopy.ArrivalsInOrder | src/CacheManager.h:278-330 | For every arrival order of the chunks the entries installed so far form such an ordered run |
| Flatten.FlattenTree | src/DeviceTree.h:76-146 | Breadth-first emission and the reverse scan produce the flat form of the tree without its empty nodes |
| Flatten.ChildrenContiguous | src/DeviceTree.h:76-146 | An entry's children are contiguous, at indices above it, and exactly the node's non-empty children in order |
| Flatten.RangesExact | src/DeviceTree.h:76-146 | No entry is empty, and its particles are exactly [partBegin, partBegin + nBelow) |
| FlatCheck.VerifyFlatTree | src/DeviceTree.h:152-208 | On any array the check passes if and only if the array agrees with the tree node by node from the root, has no other entry, and its root counts the leaves' particles |
| FlatCheck.PassesByPath | src/DeviceTree.h:165-208 | A non-empty tree's array passes if and only if every path of child positions leads through the childBegin fields to an entry in range that describes the node there (for a leaf: no children, its first particle, its count), there is no other entry, and the root counts the leaves' particles |
| FlatCheck.OwnFormPasses | src/DeviceTree.h:152-208 | A tree's own flat form passes if and only if no inner node is empty all the way down |
| HostCells.LeavesCover | src/Decomposition.C:533-558 | The leaves of a completed cell set cover the key space |
| HostCells.LeavesApart | src/Decomposition.C:533-558 | The leaves never overlap |
| HostSplit.Fill | src/Decomposition.C:542-548 | The fill gives every split node all eight children and adds nothing else |
| HostSplit.FillsAbut | src/Decomposition.C:550-574 | Sorted leaf ranges follow one another without gap or overlap from the first key to the last |
| HostSplit.TopClamp | src/Decomposition.C:565-571 | The computed end is the next leaf's start, or the clamp for the leaf whose end would wrap |
| HostSplit.FindSplitters | src/Decomposition.C:509-587 | It aborts exactly on bad keys, nested cells or a wrong particle count; otherwise the splitters tile the key space, exactly one per staged cell and missing sibling, with that cell's range and its staged count |
| Flush.LowerBound | src/Utility.h:34-58 | The binary search returns the first position in the range whose key is at least the one asked for |
| Flush.Flush | src/Decomposition.C:349-374 | Every particle in the tiled range is sent exactly once, to the leaf whose range holds its key, none outside it; everything is sent if and only if every key is in range |
| Flush.OneLeaf | src/Decomposition.C:349-374 | A key lies in one splitter's range only |
| Flush.TopKeyLost | src/Decomposition.C:349-374 | The key 2^64 - 1 lies in no splitter's range |
| Transposed.LeavesNext | src/Traverser.h:347-412 | The obligations left by the first c children, and by one more, add up |
| VisitLaws.VisitedOnce | src/Traverser.h:347-412 | The uninterrupted walk visits a leaf for a bucket once if every node above it is opened by the bucket and it is not the bucket's own leaf or self calls are on, an inner node once if every node above it is opened and it is not, and makes no other visit |
| Transposed.Served | src/Traverser.h:416-463 | Replacing a wait by what its node's descent made and left keeps visits made plus visits owed at the uninterrupted total |
| Transposed.Continued | src/Traverser.h:332-345 | The same for continuing a paused node |
| Pacing.TripsConcat | src/Traverser.h:331-345 | A walk comes to a stop in a run of events if and only if it does in the first part, or in the second with the counts of the first |
| Pacing.TripsWhere | src/Traverser.h:331-345 | Equivalently: some event is an opened local node at which the opened nodes up to it, or the first requests before it, take a counter over its limit |
| Pacing.ShareUnique | src/Traverser.h:332-345 | The number of paused nodes a resumption takes is determined: all, or as few as take a counter over its limit from zero; at least one if there is one |
| PausingWalk.Traverser.Recurse | src/Traverser.h:347-412 | A descent's visits plus the waits and pauses it leaves are exactly the uninterrupted recursion's visits below the node; it pauses if and only if a counter is over its limit at an opened local node, and otherwise its counters and waits are those of the uninterrupted walk |
| PausingWalk.Traverser.Start | src/TreePiece.h:302-323 | Afterwards visits made plus owed equal the uninterrupted walk's, and paused work has a message under way |
| PausingWalk.Traverser.GoDown | src/Traverser.h:413-463 | Every queued wait is taken up once, the total is kept, other waits stand; for any limits it leaves unattended work if and only if no message was under way and either something was paused already or a counter is over its limit at an opened local node it reaches |
| PausingWalk.Traverser.ResumeAfterPause | src/Traverser.h:332-345 | From counters at zero it takes up exactly that share of the paused nodes; the others stay in front of what is newly paused; something is newly paused if and only if the walk below the share stops; the message is posted again exactly when the share takes a counter over its limit; paused work shrinks; the total and every wait are kept |
| PausingWalk.Traverser.ResumeAll | src/Traverser.h:332-345 | Taking up the messages one after another ends, with nothing paused and no message under way, whatever nodes have not arrived |
| PausingWalk.Traverser.WalkThrough | src/TreePiece.h:302-323 | With every node here a walk and its resumptions end having made exactly the uninterrupted walk's visits, each due visit once, for any limits |
| PausingWalk.Traverser.AllVisited | src/Traverser.h:347-463 | With nothing waited for and nothing paused, the visits made are exactly the uninterrupted walk's |
| PausingWalk.Strand | src/Partition.h:208-215 | For any non-zero limits, this run from an installed root over one missing canopy node ends with paused work, no message under way and nothing to wait for |

## Left out

- GPU kernels, HAPI streams and device staging; only `deviceAdopt` and the flat tree are modelled.
- The distributed `UnionFindLib` path, message aggregation and compression waves.
- Input and output, configuration, `pup` serialisation, keep-alive and timing probes, load-model prints.
- Floating-point rounding: coordinates are reals, and the grid side is exact.
- The quality of heuristics (LPT, KD partitions, cost keys, pause limits): only their permutation and coverage effects.
- The PE-set split (`peSetsHere() > 1`): one set per process.
- Memory order of atomics: each atomic operation is one step.
- The debug tripwires (`enforceValidAnnotation`, `verifyEncodedTips`) and the log2 binning, maximum and survivor tallies of the histogram.
- The per-PE duplicate filter in front of the phase-3 edge buffers: the process-wide SEEN table already gives each pair once.
- `pe_of_index` placement of components: any assignment of a slice to a PE of its owner.
- Insert batching under the shard lock, and the resize policy of shards.
- Kd, LongestDim and SFC splitter searches, load balancing, gravity and SPH.
- Iterator invalidation and other memory errors of C++ containers; a cached node's payload.
- HistogramAll.Run: the cross-process exchange is one step after all shards, as its barrier makes it.
- Claims.ClaimAll: a schedule is a finite list of claims followed by PEs draining what is left.
- PhaseAWalk.Walk: null child slots and empty leaves are one thing, an empty leaf.
- Visitor.ExpandCovers: the choice of the side to open is free, so every depth rule is covered but none is singled out.
- WalkWork.CreditsCounted: the release broadcast that gives up the open credit is one step, enabled once every element has seeded.
- WalkBound.RunsAreShort: runs are finite sequences of steps; that the scheduler goes on while a step is possible (it delivers messages in the end and stops no lane for good) is what ending means, and is not proved of Charm++.
- AnyWorld.SomeWalks: the views it builds are of a tree of one leaf; that the program's own tree gives such views is the hypothesis `WalkEnd.Sees`, met by an interleaved tree in `Interleaved`.
- PausingWalk.Traverser.Recurse: nodes are installed between calls, not in the middle of one; each node is asked for once a descent, so a snapshot is no loss.
- Canopy.Tree.InstallBoundary: without a parent the code dereferences null, which the model turns into installing nothing; publication through the parent's slot is one step with the insertion of its children.
- HostSplit.FindSplitters: every key of acceptable depth is taken to be an octree key (1 followed by octal digits); what other bit patterns do is left out.
- FlatCheck.VerifyFlatTree: box corners are compared as reals, not after rounding to float.
- EndToEnd.FinishRun: labels are rewritten per particle; that the code's rewriting by representatives gives the same is Representatives.PeLabels.ApplyMaps.
- Flatten.FlattenTree: annotations other than counts and positions are left out.
