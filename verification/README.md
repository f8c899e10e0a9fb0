# Five pieces of the Graal compiler, modelled in Dafny

This project models five classes of the Graal compiler (graal-core) and proves properties of
them:

- **ExtractInstrumentationPhase** is a high-tier phase. For every `InstrumentationBeginNode`
  it finds the region of the graph between that node and its paired `InstrumentationEndNode`.
  It does this with a control-flow flood followed by a data-flow flood. When the begin
  marker is anchored or has a target, the phase inserts an `InstrumentationNode` before it,
  gives that node a new frame state, and copies the region into a standalone graph.
  - In the copy, every value from outside the region becomes a parameter.
  - The same value also becomes a weak dependency of the `InstrumentationNode`.

  Finally the phase unlinks the region from the host graph.
- **UnsafeLoadNode** is an unchecked load at an offset from an object. The model covers its
  constructors, `cloneAsArrayAccess` and its escape-analysis `virtualize` callback.
- **VirtualizableInvokeMacroNode** is a call whose `virtualize` callback asks for a deletion
  once for each argument that aliases a virtual object.
- **AMD64HotSpotBackendFactory** builds the caller-save register list of the native calling
  convention (Microsoft x64 or System V) and HotSpot's special registers. It also decides
  which compiler configurations it serves.
- **LoopUnswitchTest** gives two pairs of snippets. In each pair, one snippet has a
  loop-invariant branch inside a loop; its reference does the same work with the branch
  hoisted out by hand. The model proves that both snippets of a pair compute the same int,
  using Java's wrapping arithmetic.

## Modules

- `Wrappers` holds the `Option`, `Result` and `Outcome` datatypes.
- `Flood` models `NodeFlood`, a worklist flood that marks nodes as it adds them.
  - The flood is proved to visit exactly the nodes reachable from its seeds.
  - Its visited set is proved closed under the successor function and the least such set.
- `Graph` is an arena model of `StructuredGraph`: a class whose node table (kinds, typed
  input edges, successor slots, predecessor, live set, attached sub-graphs) the phase's
  graph operations update in place.
- `ExtractInstrumentationPhase` contains:
  - the two floods;
  - `shouldIncludeValueInput`;
  - `genInstrumentationGraph`, a loop nest that appends weak dependencies in place;
  - `unlink`;
  - the loop of `run`.
- `Virtualization` covers Java kinds, the virtualizer's view of nodes and a
  `VirtualizerTool` class that records alias queries and delete requests.
- `UnsafeLoadNode`, `VirtualizableInvokeMacroNode`, `AMD64HotSpotBackendFactory` and
  `LoopUnswitchTest` model the other four classes.

## Model

Source paths are relative to the repository root.

| member | source | states |
|---|---|---|
| Flood.Flood | graal/com.oracle.graal.phases.common/src/com/oracle/graal/phases/common/instrumentation/ExtractInstrumentationPhase.java:101-113 | The flood's visited set is exactly the set of nodes reachable from the seeds. It contains every seed, is closed under the successor function, and is listed once each in a visiting order in which every node is a seed or a successor of an earlier node. |
| Flood.FloodIsLeast | graal/com.oracle.graal.phases.common/src/com/oracle/graal/phases/common/instrumentation/ExtractInstrumentationPhase.java:123-151 | The visited set of a flood is contained in every set that holds the seeds and is closed under the successors. |
| Graph.StructuredGraph.Next | graal/com.oracle.graal.phases.common/src/com/oracle/graal/phases/common/instrumentation/ExtractInstrumentationPhase.java:102 | `next()` answers a node in the graph that is one of the node's successor slots. |
| Graph.StructuredGraph.Add | graal/com.oracle.graal.phases.common/src/com/oracle/graal/phases/common/instrumentation/ExtractInstrumentationPhase.java:71 | `addWithoutUnique` appends one live node with the given kind, inputs and empty successor slots, numbered after every existing node, and changes nothing else. |
| Graph.StructuredGraph.AppendInput | graal/com.oracle.graal.phases.common/src/com/oracle/graal/phases/common/instrumentation/ExtractInstrumentationPhase.java:173 | Adding a weak dependency appends one edge to one node's inputs and leaves every other node unchanged. |
| Graph.StructuredGraph.SetNext | graal/com.oracle.graal.phases.common/src/com/oracle/graal/phases/common/instrumentation/ExtractInstrumentationPhase.java:204-205 | `setNext` sets the node's only successor slot. The old successor loses its predecessor, and the new successor gets the node as its predecessor. |
| Graph.StructuredGraph.ReplaceAtPredecessor | graal/com.oracle.graal.phases.common/src/com/oracle/graal/phases/common/instrumentation/ExtractInstrumentationPhase.java:206 | `replaceAtPredecessor` redirects the first successor slot of the node's predecessor to the other node and moves the predecessor link with it. The whole successor table and predecessor array are given by `RedirectedSlots` and `RedirectedPredecessors`: that one slot and the two links change, nothing else does. Without a predecessor, nothing changes. |
| Graph.StructuredGraph.AddBeforeFixed | graal/com.oracle.graal.phases.common/src/com/oracle/graal/phases/common/instrumentation/ExtractInstrumentationPhase.java:72 | `addBeforeFixed` splices the new node between a fixed node and its predecessor. The whole successor table and predecessor array are given by `SlotsBefore` and `PredecessorsBefore`. The old predecessor's first slot naming the node now names the new node, and the new node's only successor is the node. The new node takes over the old predecessor and becomes the node's predecessor. Every other slot and predecessor is kept. |
| Graph.StructuredGraph.KillCFG | graal/com.oracle.graal.phases.common/src/com/oracle/graal/phases/common/instrumentation/ExtractInstrumentationPhase.java:207 | `killCFG` removes the begin marker and the control set from the live nodes. |
| Graph.StructuredGraph.SetInstrumentationGraph | graal/com.oracle.graal.phases.common/src/com/oracle/graal/phases/common/instrumentation/ExtractInstrumentationPhase.java:81 | The summary node's sub-graph is replaced and every other attachment is kept. |
| ExtractInstrumentationPhase.LastInstrumentationEnd | graal/com.oracle.graal.phases.common/src/com/oracle/graal/phases/common/instrumentation/ExtractInstrumentationPhase.java:103-105 | The recorded end is the last end marker in the flood's visiting order: the flood visited it and visited no end marker after it. None is recorded exactly when the flood visited no end marker. |
| ExtractInstrumentationPhase.FollowedInputs | graal/com.oracle.graal.phases.common/src/com/oracle/graal/phases/common/instrumentation/ExtractInstrumentationPhase.java:128-149 | The data flood adds exactly the inputs that pass its rules. Every non-Value input is followed. A Value input is followed only when the user is not a frame state and the input is a floating, non-local node that passes `shouldIncludeValueInput`. |
| ExtractInstrumentationPhase.MarkedInOrder | graal/com.oracle.graal.phases.common/src/com/oracle/graal/phases/common/instrumentation/ExtractInstrumentationPhase.java:123-125 | Iterating the control bitmap yields exactly its members, which seed the data flood. |
| ExtractInstrumentationPhase.ShouldIncludeValueInput | graal/com.oracle.graal.phases.common/src/com/oracle/graal/phases/common/instrumentation/ExtractInstrumentationPhase.java:190-201 | True exactly when no non-Value input of the node is a fixed node outside the control set. |
| ExtractInstrumentationPhase.NewInstrumentation | graal/com.oracle.graal.phases.common/src/com/oracle/graal/phases/common/instrumentation/ExtractInstrumentationPhase.java:97-152 | Fails with the missing-end error exactly when no end marker is control-reachable from `begin.next()`. The control edges are those of `ControlSuccessors`: every successor slot of an ordinary node, the merge of an end node, and nothing after a loop end or an end marker. Otherwise the control set is the control-reachable set. It is listed without duplicates in a visiting order where every node is `begin.next()` or a control successor of an earlier node. The end marker is in the control set and is the last end marker in that order. The extracted set is the data-reachable set from the control set and `begin.stateAfter()`; it contains the control set and is closed under the followed edges. |
| ExtractInstrumentationPhase.DataFlood | graal/com.oracle.graal.phases.common/src/com/oracle/graal/phases/common/instrumentation/ExtractInstrumentationPhase.java:123-151 | The extracted set is exactly the set reachable along the followed edges from the control set and `begin.stateAfter()`. It contains the control set, lies in the graph and is closed under the followed edges. |
| ExtractInstrumentationPhase.NonValueInputsIncluded | graal/com.oracle.graal.phases.common/src/com/oracle/graal/phases/common/instrumentation/ExtractInstrumentationPhase.java:146-148 | Every non-Value input of an extracted node is extracted too. |
| ExtractInstrumentationPhase.ValueInputIncludedOnlyIfSafe | graal/com.oracle.graal.phases.common/src/com/oracle/graal/phases/common/instrumentation/ExtractInstrumentationPhase.java:130-145 | Suppose a node was extracted only as a Value input. Then it is a floating non-local node that passes `shouldIncludeValueInput`, and some extracted non-frame-state node uses it as a Value input. |
| ExtractInstrumentationPhase.OutsideInputsMembers | graal/com.oracle.graal.phases.common/src/com/oracle/graal/phases/common/instrumentation/ExtractInstrumentationPhase.java:165-168 | The inputs that ask for a parameter are exactly the value nodes outside the extracted set. |
| ExtractInstrumentationPhase.WalkMembers | graal/com.oracle.graal.phases.common/src/com/oracle/graal/phases/common/instrumentation/ExtractInstrumentationPhase.java:163-178 | The walk over the extracted nodes meets exactly the outside value inputs of the extracted nodes. |
| ExtractInstrumentationPhase.FirstMetMembers | graal/com.oracle.graal.phases.common/src/com/oracle/graal/phases/common/instrumentation/ExtractInstrumentationPhase.java:168-174 | The `replacements` check gives each outside value exactly one parameter, with no duplicates and none missing. |
| ExtractInstrumentationPhase.FirstMetOrder | graal/com.oracle.graal.phases.common/src/com/oracle/graal/phases/common/instrumentation/ExtractInstrumentationPhase.java:162-171 | Parameters are numbered in first-met order: a value with a lower index was met before any occurrence of a value with a higher one. |
| ExtractInstrumentationPhase.WalkStable | graal/com.oracle.graal.phases.common/src/com/oracle/graal/phases/common/instrumentation/ExtractInstrumentationPhase.java:71-79 | Adding the summary node and its frame state, and changing their inputs, leaves the outside values of the region unchanged. |
| ExtractInstrumentationPhase.WeakDependencies | graal/com.oracle.graal.phases.common/src/com/oracle/graal/phases/common/instrumentation/ExtractInstrumentationPhase.java:173 | There is one unchecked weak-dependency edge per parameter, in parameter order. |
| ExtractInstrumentationPhase.ConsiderInput | graal/com.oracle.graal.phases.common/src/com/oracle/graal/phases/common/instrumentation/ExtractInstrumentationPhase.java:166-175 | A value input outside the region that has no replacement gets the next parameter number and one weak dependency. Any other input changes nothing. Every parameter stays mapped to its number. |
| ExtractInstrumentationPhase.AddParameters | graal/com.oracle.graal.phases.common/src/com/oracle/graal/phases/common/instrumentation/ExtractInstrumentationPhase.java:165-177 | After one node's inputs, the parameters are the first-met outside values of the walk extended by those inputs. The summary node's inputs are its old edges plus one weak dependency per parameter. |
| ExtractInstrumentationPhase.ScanNode | graal/com.oracle.graal.phases.common/src/com/oracle/graal/phases/common/instrumentation/ExtractInstrumentationPhase.java:163-178 | Scanning one more node extends the walk by that node's outside inputs when it is extracted. |
| ExtractInstrumentationPhase.GenInstrumentationGraph | graal/com.oracle.graal.phases.common/src/com/oracle/graal/phases/common/instrumentation/ExtractInstrumentationPhase.java:159-184 | The parameters are the distinct outside value inputs of the extracted nodes, in first-met order, and the summary node gains exactly one weak dependency per parameter. The sub-graph copies the extracted set, starts at the copy of `begin.next()` with the copy of `begin.stateAfter()`, and returns at the copy of the end marker. |
| ExtractInstrumentationPhase.InputsCovered | graal/com.oracle.graal.phases.common/src/com/oracle/graal/phases/common/instrumentation/ExtractInstrumentationPhase.java:179 | Every input edge of an extracted node points into the extracted set or at a value that has a parameter, so the duplication has a replacement for every edge it copies. |
| ExtractInstrumentationPhase.OuterFrameState | graal/com.oracle.graal.phases.common/src/com/oracle/graal/phases/common/instrumentation/ExtractInstrumentationPhase.java:73-76 | The new state's only possible input is a State input of `currentState`. There is none exactly when `currentState` has no State input. Values, locks and escape-object mappings are dropped. `OuterFrameStateFirst` proves that the kept input is the first State input. |
| ExtractInstrumentationPhase.FirstOfTypeIsFirst | graal/com.oracle.graal.phases.common/src/com/oracle/graal/phases/common/instrumentation/ExtractInstrumentationPhase.java:73-74 | The edge `FirstOfType` picks is the first edge of the list with that role: every edge before it has another role. |
| ExtractInstrumentationPhase.OuterFrameStateFirst | graal/com.oracle.graal.phases.common/src/com/oracle/graal/phases/common/instrumentation/ExtractInstrumentationPhase.java:73-76 | The one input the new state keeps is the first State input of `currentState`: no State input comes before it. |
| ExtractInstrumentationPhase.LinkSummary | graal/com.oracle.graal.phases.common/src/com/oracle/graal/phases/common/instrumentation/ExtractInstrumentationPhase.java:71-72 | An InstrumentationNode with the marker's anchoring and target is appended as a live node with no inputs; kinds, inputs and live nodes are given in full. The successor table and predecessor array are those of `addBeforeFixed` on the table extended by the new node: `SlotsBefore` and `PredecessorsBefore`, which `LinkedSlots` spells out node by node. |
| ExtractInstrumentationPhase.LinkedSlots | graal/com.oracle.graal.phases.common/src/com/oracle/graal/phases/common/instrumentation/ExtractInstrumentationPhase.java:71-72 | What `SlotsBefore`/`PredecessorsBefore` give node by node after linking the summary node in. The summary node leads to the begin marker and becomes its predecessor. It takes over the marker's predecessor when that node's slots name the marker, and that node's first slot naming the marker now names it. Every other node keeps its slots and predecessor. |
| ExtractInstrumentationPhase.SummariseRegion | graal/com.oracle.graal.phases.common/src/com/oracle/graal/phases/common/instrumentation/ExtractInstrumentationPhase.java:73-81 | A live FrameState with no successors is added; kinds, live nodes, successors and predecessors are given in full. Then `Summarised` holds against the graph its caller passes as `kinds0` and `inputs0`. The inputs are the old ones plus the summary node's (its state, then one weak dependency per parameter) and the state's (only the outer state of the marker's state). The sub-graph map gains exactly the summary node's entry: the region's copy, its outside values as parameters, the copy of `begin.next()` as start, the copy of `begin.stateAfter()` as start state and the end marker as return. Every other entry is kept. |
| ExtractInstrumentationPhase.SummarisedFrom | graal/com.oracle.graal.phases.common/src/com/oracle/graal/phases/common/instrumentation/ExtractInstrumentationPhase.java:73-81 | Adding the outer frame state after the summary node, then attaching the sub-graph and its weak dependencies, leaves the inputs and sub-graphs `Summarised` describes. |
| ExtractInstrumentationPhase.AddOuterState | graal/com.oracle.graal.phases.common/src/com/oracle/graal/phases/common/instrumentation/ExtractInstrumentationPhase.java:73-77 | One live FrameState node with no successors is added. It holds only the outer state of the marker's state and becomes the summary node's only input. Nothing else changes. |
| ExtractInstrumentationPhase.AttachSubGraph | graal/com.oracle.graal.phases.common/src/com/oracle/graal/phases/common/instrumentation/ExtractInstrumentationPhase.java:79-81 | The sub-graph map gains the summary node's entry and keeps every other one. That entry has the region's outside values in the graph `kinds0`/`inputs0` as parameters, copies the region, and starts at `begin.next()` with `begin.stateAfter()`. It returns at the end marker. The summary node gains one weak dependency per parameter, and no other node's inputs change. |
| ExtractInstrumentationPhase.AttachSummary | graal/com.oracle.graal.phases.common/src/com/oracle/graal/phases/common/instrumentation/ExtractInstrumentationPhase.java:67-81 | The summary node is always added as a live node and linked in before the begin marker. Successors and predecessors are `SlotsBefore`/`PredecessorsBefore` of the old table, plus an empty entry for the frame state on success. The phase fails with a missing state exactly when the begin marker has no state, and then inputs and sub-graphs gain nothing but the summary node's empty input list. Otherwise its frame state is added too, and `Summarised` holds against the graph before the summary node existed. |
| ExtractInstrumentationPhase.Unlink | graal/com.oracle.graal.phases.common/src/com/oracle/graal/phases/common/instrumentation/ExtractInstrumentationPhase.java:203-208 | The whole successor table and predecessor array are given by `UnlinkedSlots` and `UnlinkedPredecessors`. The end marker's next slot is cleared and its old next node loses the end marker as predecessor. The begin marker's predecessor is redirected to that node, which takes the predecessor over. The begin marker and the control set leave the live nodes. No other node's successors change. |
| ExtractInstrumentationPhase.SlotsAfterUnlinked | graal/com.oracle.graal.phases.common/src/com/oracle/graal/phases/common/instrumentation/ExtractInstrumentationPhase.java:203-208 | The successor table an extraction leaves (`SlotsAfter`) is `Unlinked`, for an observed and an unobserved marker alike. The end marker's next slot is cleared. The begin marker's old predecessor now names the end marker's old next node, or, for an observed marker, the summary node, which leads to that next node. Every other node keeps its slots. |
| ExtractInstrumentationPhase.ExtractedPredecessors | graal/com.oracle.graal.phases.common/src/com/oracle/graal/phases/common/instrumentation/ExtractInstrumentationPhase.java:203-208 | The predecessor array an extraction leaves (`PredecessorsAfter`), when the begin marker's predecessor `p` leads to it and the end marker leads to `x`. The begin marker has no predecessor left. `x` takes over `p`, or, for an observed marker, the summary node sits between them. Every other node keeps its predecessor. |
| ExtractInstrumentationPhase.ObservedExtracted | graal/com.oracle.graal.phases.common/src/com/oracle/graal/phases/common/instrumentation/ExtractInstrumentationPhase.java:67-84 | Attaching the summary and then unlinking the region composes to the nodes, edges and sub-graphs of an observed extraction. |
| ExtractInstrumentationPhase.ExtractOne | graal/com.oracle.graal.phases.common/src/com/oracle/graal/phases/common/instrumentation/ExtractInstrumentationPhase.java:65-85 | One begin marker is processed. It fails with a missing end exactly when no end marker is control-reachable from `begin.next()`, and the graph is then unchanged. It fails with a missing state exactly when an end is reachable, the marker is observed and has no state. The graph then holds just the linked-in summary node. Otherwise it passes. The region is the one the two floods find from `begin.next()` and `begin.stateAfter()`, and its end marker is the last end marker the control flood visits. `Extracted` holds for it, as described for `ExtractRegion`. |
| ExtractInstrumentationPhase.ExtractRegion | graal/com.oracle.graal.phases.common/src/com/oracle/graal/phases/common/instrumentation/ExtractInstrumentationPhase.java:67-84 | Once the region is known, it fails exactly when the marker is `Observed` (anchored or with a target) and has no state. Then only the summary node is added and linked in. On success `Extracted` holds, which gives every field of the graph. Kinds grow by the summary node and its frame state for an observed marker, and by nothing otherwise. Successors and predecessors are `SlotsAfter`/`PredecessorsAfter`; `Unlinked` and `ExtractedPredecessors` give their meaning. Inputs and sub-graphs are `Summarised` for an observed marker and unchanged otherwise. The begin marker and the control set are dead, and only the new nodes come alive. |
| ExtractInstrumentationPhase.ExtractObserved | graal/com.oracle.graal.phases.common/src/com/oracle/graal/phases/common/instrumentation/ExtractInstrumentationPhase.java:67-84 | For an observed marker, the summary node is added, and on success its frame state too. It fails exactly when the marker has no state, as `AttachSummary` does, with only the summary node linked in. On success `Extracted` holds against the graph before the call. |
| ExtractInstrumentationPhase.Run | graal/com.oracle.graal.phases.common/src/com/oracle/graal/phases/common/instrumentation/ExtractInstrumentationPhase.java:64-86 | When the phase succeeds, no live begin marker is left in the graph, and the node table only grows. A failure names a begin marker that was live in the original graph and is still live. In the graph the phase leaves, its end is not control-reachable from its next node, or it is observed and has no state. |
| ExtractInstrumentationPhase.CheckContract | graal/com.oracle.graal.phases.common/src/com/oracle/graal/phases/common/instrumentation/ExtractInstrumentationPhase.java:212-215 | The phase opts out of the contract check. |
| Virtualization.StackKind | graal/com.oracle.graal.nodes/src/com/oracle/graal/nodes/extended/UnsafeLoadNode.java:60 | A stack kind is never a sub-int kind, and every other kind is its own stack kind. |
| Virtualization.EntryIndexForOffset | graal/com.oracle.graal.nodes/src/com/oracle/graal/nodes/extended/UnsafeLoadNode.java:81-83 | Answers -1 exactly when the offset table has no entry for the (offset, kind) pair; otherwise it answers the mapped index. |
| Virtualization.VirtualizerTool.GetAlias | graal/com.oracle.graal.replacements/src/com/oracle/graal/replacements/nodes/VirtualizableInvokeMacroNode.java:52 | Answers the node's alias (the node itself when it has none) and records the query. |
| Virtualization.VirtualizerTool.Delete | graal/com.oracle.graal.replacements/src/com/oracle/graal/replacements/nodes/VirtualizableInvokeMacroNode.java:54 | Records one more delete request. |
| UnsafeLoadNode.NewGuardedUnsafeLoad | graal/com.oracle.graal.nodes/src/com/oracle/graal/nodes/extended/UnsafeLoadNode.java:59-62 | The load keeps its object, offset, access kind, location and condition. Its stamp has the access kind's stack kind, which is never a sub-int kind. |
| UnsafeLoadNode.NewUnsafeLoad | graal/com.oracle.graal.nodes/src/com/oracle/graal/nodes/extended/UnsafeLoadNode.java:55-57 | Like the guarded constructor, with no guarding condition. |
| UnsafeLoadNode.CloneAsArrayAccess | graal/com.oracle.graal.nodes/src/com/oracle/graal/nodes/extended/UnsafeLoadNode.java:100-102 | The clone reads the same object with the same access kind and guard at the new location. A well-formed load keeps its stamp. |
| UnsafeLoadNode.CloneAtSameLocation | graal/com.oracle.graal.nodes/src/com/oracle/graal/nodes/extended/UnsafeLoadNode.java:100-102 | Cloning a well-formed load at its own location yields the same load. |
| UnsafeLoadNode.Virtualize | graal/com.oracle.graal.nodes/src/com/oracle/graal/nodes/extended/UnsafeLoadNode.java:74-92 | The load is replaced exactly when four things hold: the object's alias is virtual, the offset's alias is a constant, the offset table has an entry for it, and that entry's stack kind equals the load's or the entry kind equals the access kind. The replacement is that entry. |
| UnsafeLoadNode.VirtualizeReadsMappedEntry | graal/com.oracle.graal.nodes/src/com/oracle/graal/nodes/extended/UnsafeLoadNode.java:81-87 | A replaced load is replaced by the entry its (offset, kind) pair maps to, never by another entry. |
| VirtualizableInvokeMacroNode.Virtualize | graal/com.oracle.graal.replacements/src/com/oracle/graal/replacements/nodes/VirtualizableInvokeMacroNode.java:50-57 | Exactly one alias query per argument, in argument order, and exactly one delete request per argument whose alias is virtual. |
| VirtualizableInvokeMacroNode.DeleteRequestedIffVirtualArgument | graal/com.oracle.graal.replacements/src/com/oracle/graal/replacements/nodes/VirtualizableInvokeMacroNode.java:51-56 | Deletion is requested exactly when some argument aliases a virtual object. |
| VirtualizableInvokeMacroNode.CountVirtualBounded | graal/com.oracle.graal.replacements/src/com/oracle/graal/replacements/nodes/VirtualizableInvokeMacroNode.java:51-56 | There are never more delete requests than arguments. |
| VirtualizableInvokeMacroNode.CountVirtualAll | graal/com.oracle.graal.replacements/src/com/oracle/graal/replacements/nodes/VirtualizableInvokeMacroNode.java:51-56 | Every argument requests a deletion exactly when every argument aliases a virtual object. |
| AMD64HotSpotBackendFactory.RemoveFirst | graal/com.oracle.graal.hotspot.amd64/src/com/oracle/graal/hotspot/amd64/AMD64HotSpotBackendFactory.java:205 | `List.remove` shortens the list by one exactly when the register is present. |
| AMD64HotSpotBackendFactory.Without | graal/com.oracle.graal.hotspot.amd64/src/com/oracle/graal/hotspot/amd64/AMD64HotSpotBackendFactory.java:202-249 | Reference definition: the registers of the list that are not in the removal list. |
| AMD64HotSpotBackendFactory.CreateNativeABICallerSaveRegisters | graal/com.oracle.graal.hotspot.amd64/src/com/oracle/graal/hotspot/amd64/AMD64HotSpotBackendFactory.java:201-255 | A fresh array holding, in order and as values, the registers of `CallerSave`: the list left after removing the convention's callee-saved registers one by one. |
| AMD64HotSpotBackendFactory.RemoveFirstIsWithout | graal/com.oracle.graal.hotspot.amd64/src/com/oracle/graal/hotspot/amd64/AMD64HotSpotBackendFactory.java:205 | On a list without duplicates, removing the first occurrence removes every occurrence. |
| AMD64HotSpotBackendFactory.RemoveEachIsWithout | graal/com.oracle.graal.hotspot.amd64/src/com/oracle/graal/hotspot/amd64/AMD64HotSpotBackendFactory.java:203-248 | On a list without duplicates, the sequence of removals equals the filter by the removal list. |
| AMD64HotSpotBackendFactory.WithoutIsSubsequence | graal/com.oracle.graal.hotspot.amd64/src/com/oracle/graal/hotspot/amd64/AMD64HotSpotBackendFactory.java:250-253 | Filtering keeps the remaining registers in their original order. |
| AMD64HotSpotBackendFactory.RemoveEachKeeps | graal/com.oracle.graal.hotspot.amd64/src/com/oracle/graal/hotspot/amd64/AMD64HotSpotBackendFactory.java:203-248 | A register that is not removed stays in the list. |
| AMD64HotSpotBackendFactory.RemoveEachOnlyRemoves | graal/com.oracle.graal.hotspot.amd64/src/com/oracle/graal/hotspot/amd64/AMD64HotSpotBackendFactory.java:203-248 | The removals never add a register. |
| AMD64HotSpotBackendFactory.CallerSaveIsFiltered | graal/com.oracle.graal.hotspot.amd64/src/com/oracle/graal/hotspot/amd64/AMD64HotSpotBackendFactory.java:201-255 | For allocatable registers without duplicates, `CallerSave` is exactly the allocatable registers outside the convention's callee-saved set. It keeps their order and has no duplicates. |
| AMD64HotSpotBackendFactory.WindowsCallerSave | graal/com.oracle.graal.hotspot.amd64/src/com/oracle/graal/hotspot/amd64/AMD64HotSpotBackendFactory.java:203-223 | On Windows, rdi, rsi, rbx, rbp, rsp, r12 to r15 and xmm6 to xmm15 are never caller-save. |
| AMD64HotSpotBackendFactory.SystemVCallerSave | graal/com.oracle.graal.hotspot.amd64/src/com/oracle/graal/hotspot/amd64/AMD64HotSpotBackendFactory.java:224-249 | Elsewhere, rbp, rbx and r12 to r15 are never caller-save; every other allocatable register is, and nothing else is. |
| AMD64HotSpotBackendFactory.CallerSaveKeepsOthers | graal/com.oracle.graal.hotspot.amd64/src/com/oracle/graal/hotspot/amd64/AMD64HotSpotBackendFactory.java:201-249 | Even with repeated registers, every allocatable register outside the callee-saved set is caller-save, and every caller-save register is allocatable. |
| AMD64HotSpotBackendFactory.CreateRegisters | graal/com.oracle.graal.hotspot.amd64/src/com/oracle/graal/hotspot/amd64/AMD64HotSpotBackendFactory.java:169-171 | The thread register is r15, the heap base is r12 and the stack pointer is rsp. |
| AMD64HotSpotBackendFactory.SpecialRegistersAreCalleeSaved | graal/com.oracle.graal.hotspot.amd64/src/com/oracle/graal/hotspot/amd64/AMD64HotSpotBackendFactory.java:169-171 | Under both conventions, the thread and heap-base registers are never caller-save, so they survive a native call. |
| AMD64HotSpotBackendFactory.Root | graal/com.oracle.graal.hotspot.amd64/src/com/oracle/graal/hotspot/amd64/AMD64HotSpotBackendFactory.java:86 | The top of a factory's superclass chain is not itself a subclass. |
| AMD64HotSpotBackendFactory.InstanceOfRoot | graal/com.oracle.graal.hotspot.amd64/src/com/oracle/graal/hotspot/amd64/AMD64HotSpotBackendFactory.java:86 | `instanceof` a root class holds exactly for the factories it roots. |
| AMD64HotSpotBackendFactory.IsAssociatedWith | graal/com.oracle.graal.hotspot.amd64/src/com/oracle/graal/hotspot/amd64/AMD64HotSpotBackendFactory.java:85-87 | The factory serves exactly the configuration factories that descend from the core or the economy factory. |
| LoopUnswitchTest.Add32 | graal/com.oracle.graal.compiler.test/src/com/oracle/graal/compiler/test/LoopUnswitchTest.java:43 | Java int addition: when the exact sum fits in an int, it is the result. Otherwise the result differs from the exact sum by a multiple of 2^32. |
| LoopUnswitchTest.AddLong | graal/com.oracle.graal.compiler.test/src/com/oracle/graal/compiler/test/LoopUnswitchTest.java:70 | `sum += t` with a long `t`, computed as a long and narrowed, equals the exact sum wrapped to an int. |
| LoopUnswitchTest.NarrowWrap | graal/com.oracle.graal.compiler.test/src/com/oracle/graal/compiler/test/LoopUnswitchTest.java:70 | Narrowing a wrapped long to an int is wrapping the exact value to an int. |
| LoopUnswitchTest.Wrap32Add | graal/com.oracle.graal.compiler.test/src/com/oracle/graal/compiler/test/LoopUnswitchTest.java:47 | Adding to a wrapped int wraps like adding to the exact sum. |
| LoopUnswitchTest.ReferenceSnippet1 | graal/com.oracle.graal.compiler.test/src/com/oracle/graal/compiler/test/LoopUnswitchTest.java:39-51 | Answers 2000 when a > 2, otherwise 1000 * a as an int. |
| LoopUnswitchTest.Test1Snippet | graal/com.oracle.graal.compiler.test/src/com/oracle/graal/compiler/test/LoopUnswitchTest.java:53-63 | Answers the same as `ReferenceSnippet1` for every `a`: the unswitched and the original loop agree. |
| LoopUnswitchTest.ClockSumIsWrappedTotal | graal/com.oracle.graal.compiler.test/src/com/oracle/graal/compiler/test/LoopUnswitchTest.java:69-71 | The int sum of the clock readings is their exact total wrapped to an int. |
| LoopUnswitchTest.ReferenceSnippet2 | graal/com.oracle.graal.compiler.test/src/com/oracle/graal/compiler/test/LoopUnswitchTest.java:65-91 | Answers the wrapped sum of the 1000 readings for a == 0, 6000 for 1, 5000 for 55 and 0 otherwise. |
| LoopUnswitchTest.Test2Snippet | graal/com.oracle.graal.compiler.test/src/com/oracle/graal/compiler/test/LoopUnswitchTest.java:93-113 | Answers the same as `ReferenceSnippet2` for every `a` and the same readings; the fall-through from case 1 into case 55 gives 6 per iteration. |

## Left out

- DeadCodeEliminationPhase, run on the copied sub-graph, is not part of this model.
- `GenInstrumentationGraph`: the standalone sub-graph is a value describing its parameters,
  the copied nodes, the copy that follows its start node, its start state and its return.
  The model does not build the node-by-node duplicate that `addDuplicates` makes.
  - The parameter stamps are not modelled.
  - The ParameterNode indices are the positions in the parameter list.
- `KillCFG`: `GraphUtil.killCFG` is modelled as removing the begin marker and the control
  set from the live nodes. The model does not follow dead floating nodes or the usages
  that `killCFG` also cleans up.
- `OuterFrameState`: of the new FrameState's fields, only the outer state is modelled.
  Method, bci, the rethrow and during-call flags, locals, stack and locks are not. The
  outer state is taken to be a frame state's first State input, ahead of its
  escape-object mappings, which are State inputs too.
- The targets of InstrumentationBeginNode and InstrumentationNode are stored in the node
  kind, not as input edges. Neither flood nor the parameter walk follows them, so a value
  reached only as such a target is neither extracted nor made a parameter.
- `Graph.StructuredGraph.AddBeforeFixed`: requires the new node to have a single, empty
  successor slot, as the InstrumentationNode the phase has just added does. Splicing in a
  node that is already linked elsewhere is not modelled; StructuredGraph itself is not part
  of this model.
- `Graph.StructuredGraph.ReplaceAtPredecessor`: when the predecessor has no slot naming the
  node, the model changes no slot. Graal fails there instead; in a valid graph the slot
  always exists.
- `ExtractInstrumentationPhase.Run`: walks the node numbers that exist when the phase
  starts. The phase adds only summary nodes and frame states, so this meets the same begin
  markers as the source's iteration. On failure the graph is left as the failed step left
  it; the source throws and abandons the compilation.
- `ExtractInstrumentationPhase.NewInstrumentation`: the source's `GraalError` becomes a
  `Failure` value. A begin marker without a state (`stateAfter()` null) becomes a failure
  in `AttachSummary`, where the source would throw a NullPointerException.
- `Debug.dump` and the debug scopes are I/O and are left out.
- Null input slots are not stored in a node's input list, because every traversal of the
  phase skips them.
- The graph's input typing is assumed where it matters: `InputsCovered` takes it as a
  precondition that Value edges point at value nodes.
- `UnsafeLoadNode.lower`, `cloneAsFieldAccess` and the `load` node intrinsic belong to
  lowering and code generation and are left out.
- `VirtualizerTool.getEntry` and `replaceWith` are modelled through the value that
  `UnsafeLoadNode.Virtualize` returns, not as updates of the tool.
- `UnsafeLoadNode.Virtualize`: the offset constant is modelled as a mathematical integer.
  `asLong()` on a constant of another width is not modelled.
- `AMD64HotSpotBackendFactory.CallerSaveIsFiltered`, `WindowsCallerSave`, `SystemVCallerSave`
  and `SpecialRegistersAreCalleeSaved` assume allocatable registers without duplicates, as
  a register configuration provides them. `CallerSaveKeepsOthers` states the
  membership facts without that assumption.
- `AMD64HotSpotBackendFactory.IsAssociatedWith`: the configuration factories are a small
  datatype of classes with their superclass chains. Java's class loading and interfaces are
  not modelled.
- The other `create*` factory methods of AMD64HotSpotBackendFactory (providers, lowering,
  the backend itself) build objects of code outside this model and are left out.
- `System.currentTimeMillis()` in the second pair of snippets is modelled as a sequence of
  1000 long readings given as a parameter, the same readings for both snippets.
- The test driver of LoopUnswitchTest is not modelled: LoopUnswitchingPhase, the
  canonicalizer and the graph comparison of `assertEquals`. The model proves instead that
  each snippet and its reference compute the same value.
- PhaseContext and AArch64BreakpointOp are not part of this model.
