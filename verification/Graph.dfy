/**
 * A small arena model of the sea-of-nodes graph (StructuredGraph), holding only what the
 * instrumentation-extraction phase reads and changes. Nodes are numbered by their index in
 * the node table; a node is never renumbered and a deleted node keeps its slot but leaves
 * the set of live nodes.
 *
 * Each node has a kind, an ordered list of typed input edges and an ordered list of control
 * successor slots, which may be empty (null). Null input slots are not stored: every
 * traversal of the phase ignores them.
 */
module Graph {
  import opened Wrappers

  type NodeId = nat

  /** The role of an input edge (InputType). */
  datatype InputType = Value | Logic | Memory | Condition | State | Guard | Anchor | Association | Extension | Unchecked

  /** An input edge of a node: its role and the node it points at. */
  datatype Edge = Edge(inputType: InputType, target: NodeId)

  /** The node kinds the instrumentation phase tells apart. */
  datatype NodeKind =
    | Start
      /** InstrumentationBeginNode: whether it is anchored, and its target value, if any. */
    | InstrumentationBegin(anchored: bool, target: Option<NodeId>)
    | InstrumentationEnd
      /** InstrumentationNode, the summary node that replaces an extracted region. */
    | Instrumentation(anchored: bool, target: Option<NodeId>)
    | LoopEnd
      /** Any other AbstractEndNode, with the merge it ends in. */
    | End(merge: NodeId)
      /** Any other FixedNode (control splits, merges, invokes, returns, ...). */
    | Fixed
    | FrameState
      /** A FloatingNode that is not an AbstractLocalNode. */
    | Floating
      /** An AbstractLocalNode (such as a ParameterNode); also a FloatingNode. */
    | Local

  predicate IsFixed(k: NodeKind)
  {
    !(k.FrameState? || k.Floating? || k.Local?)
  }

  predicate IsFloating(k: NodeKind)
  {
    k.Floating? || k.Local?
  }

  /** Every kind but a frame state is a ValueNode. */
  predicate IsValueNode(k: NodeKind)
  {
    !k.FrameState?
  }

  /** The standalone graph an InstrumentationNode carries, described by what it copies. */
  datatype InstrumentationGraph = InstrumentationGraph(
    /** Parameter i of the sub-graph stands for the host value parameters[i]. */
    parameters: seq<NodeId>,
    /** The host nodes duplicated into the sub-graph. */
    copied: set<NodeId>,
    /** The host node whose copy follows the sub-graph's start node. */
    startNext: Option<NodeId>,
    /** The host frame state whose copy is the start node's state. */
    startState: Option<NodeId>,
    /** The host end marker whose copy is replaced by the sub-graph's return. */
    returnAt: NodeId)

  ghost predicate KindInRange(k: NodeKind, size: nat)
  {
    match k
    case InstrumentationBegin(_, target) => target.Some? ==> target.value < size
    case Instrumentation(_, target) => target.Some? ==> target.value < size
    case End(merge) => merge < size
    case _ => true
  }

  ghost predicate EdgesInRange(es: seq<Edge>, size: nat)
  {
    forall e :: e in es ==> e.target < size
  }

  ghost predicate SlotsInRange(slots: seq<Option<NodeId>>, size: nat)
  {
    forall m :: Some(m) in slots ==> m < size
  }

  /** The index of the first slot equal to `x`. */
  function FirstSlot(slots: seq<Option<NodeId>>, x: Option<NodeId>): (i: nat)
    requires x in slots
    ensures i < |slots| && slots[i] == x && x !in slots[..i]
  {
    if slots[0] == x then 0 else 1 + FirstSlot(slots[1..], x)
  }

  /** The first slot equal to `from` redirected to `to`, as Node.replaceFirstSuccessor does. */
  function ReplaceFirst(slots: seq<Option<NodeId>>, from: Option<NodeId>, to: Option<NodeId>): (r: seq<Option<NodeId>>)
  {
    if from in slots then slots[FirstSlot(slots, from) := to] else slots
  }

  /**
   * Node.updatePredecessor: `owner` stops being the predecessor of `oldSuccessor` and
   * becomes the predecessor of `newSuccessor`.
   */
  function UpdatePredecessor(pred: seq<Option<NodeId>>, owner: NodeId, oldSuccessor: Option<NodeId>, newSuccessor: Option<NodeId>): (r: seq<Option<NodeId>>)
    ensures |r| == |pred|
    ensures newSuccessor.Some? && newSuccessor.value < |pred| ==> r[newSuccessor.value] == Some(owner)
    ensures oldSuccessor.Some? && oldSuccessor.value < |pred| && oldSuccessor != newSuccessor ==> r[oldSuccessor.value] == None
    ensures forall n :: 0 <= n < |pred| && Some(n) != oldSuccessor && Some(n) != newSuccessor ==> r[n] == pred[n]
  {
    var cleared := if oldSuccessor.Some? && oldSuccessor.value < |pred| then pred[oldSuccessor.value := None] else pred;
    if newSuccessor.Some? && newSuccessor.value < |pred| then cleared[newSuccessor.value := Some(owner)] else cleared
  }

  /** FixedWithNextNode.next() on a table of successor slots: the node's first slot. */
  function NextIn(successors: seq<seq<Option<NodeId>>>, n: NodeId): Option<NodeId>
  {
    if n < |successors| && |successors[n]| > 0 then successors[n][0] else None
  }

  /** Whether the predecessor of `n` is recorded and names a node of the slot table. */
  predicate HasPredecessor(successors: seq<seq<Option<NodeId>>>, predecessor: seq<Option<NodeId>>, n: NodeId)
  {
    n < |predecessor| && predecessor[n].Some? && predecessor[n].value < |successors|
  }

  /**
   * The successor slots after Node.replaceAtPredecessor(other) on `n`: the first slot of the
   * predecessor of `n` that names `n` names `other` instead.
   */
  function RedirectedSlots(successors: seq<seq<Option<NodeId>>>, predecessor: seq<Option<NodeId>>,
                           n: NodeId, other: Option<NodeId>): seq<seq<Option<NodeId>>>
  {
    if HasPredecessor(successors, predecessor, n)
    then var p := predecessor[n].value; successors[p := ReplaceFirst(successors[p], Some(n), other)]
    else successors
  }

  /**
   * The predecessors after Node.replaceAtPredecessor(other) on `n`: when the predecessor of
   * `n` had a slot naming `n`, the predecessor link moves from `n` to `other`.
   */
  function RedirectedPredecessors(successors: seq<seq<Option<NodeId>>>, predecessor: seq<Option<NodeId>>,
                                  n: NodeId, other: Option<NodeId>): seq<Option<NodeId>>
  {
    if HasPredecessor(successors, predecessor, n) && Some(n) in successors[predecessor[n].value]
    then UpdatePredecessor(predecessor, predecessor[n].value, Some(n), other)
    else predecessor
  }

  /**
   * The successor slots after Graph.addBeforeFixed(node, newNode): the predecessor of `node`
   * leads to `newNode`, which leads to `node`.
   */
  function SlotsBefore(successors: seq<seq<Option<NodeId>>>, predecessor: seq<Option<NodeId>>,
                       node: NodeId, newNode: NodeId): seq<seq<Option<NodeId>>>
  {
    var redirected := RedirectedSlots(successors, predecessor, node, Some(newNode));
    if newNode < |redirected| then redirected[newNode := [Some(node)]] else redirected
  }

  /**
   * The predecessors after Graph.addBeforeFixed(node, newNode): `newNode` takes over the
   * predecessor of `node` and becomes the predecessor of `node`.
   */
  function PredecessorsBefore(successors: seq<seq<Option<NodeId>>>, predecessor: seq<Option<NodeId>>,
                              node: NodeId, newNode: NodeId): seq<Option<NodeId>>
  {
    var taken := if HasPredecessor(successors, predecessor, node) && Some(node) in successors[predecessor[node].value] && newNode < |predecessor|
                 then predecessor[newNode := predecessor[node]] else predecessor;
    if node < |taken| then taken[node := Some(newNode)] else taken
  }

  class StructuredGraph {
    var kinds: seq<NodeKind>
    var inputs: seq<seq<Edge>>
    var successors: seq<seq<Option<NodeId>>>
    var predecessor: seq<Option<NodeId>>
    var live: set<NodeId>
    /** The sub-graphs attached to InstrumentationNodes (setInstrumentationGraph). */
    var instrumentationGraphs: map<NodeId, InstrumentationGraph>

    /** The node table is consistent: every reference it holds names a slot of the table. */
    ghost predicate Valid()
      reads this
    {
      && |inputs| == |kinds|
      && |successors| == |kinds|
      && |predecessor| == |kinds|
      && forall n :: 0 <= n < |kinds| ==> NodeValid(n)
    }

    /** Every reference held by node `n` names a slot of the table. */
    ghost predicate NodeValid(n: NodeId)
      reads this
    {
      && n < |kinds| && n < |inputs| && n < |successors| && n < |predecessor|
      && KindInRange(kinds[n], |kinds|)
      && EdgesInRange(inputs[n], |kinds|)
      && SlotsInRange(successors[n], |kinds|)
      && (predecessor[n].Some? ==> predecessor[n].value < |kinds|)
    }

    /** FixedWithNextNode.next(): the node's first successor slot. */
    function Next(n: NodeId): (r: Option<NodeId>)
      reads this
      requires Valid() && n < |kinds|
      ensures r.Some? ==> r.value < |kinds| && r in successors[n]
    {
      assert NodeValid(n);
      NextIn(successors, n)
    }

    /** Graph.addWithoutUnique: appends a node with the given inputs and empty successor slots. */
    method Add(kind: NodeKind, ins: seq<Edge>, slotCount: nat) returns (id: NodeId)
      requires Valid()
      requires KindInRange(kind, |kinds|) && EdgesInRange(ins, |kinds|)
      modifies this`kinds, this`inputs, this`successors, this`predecessor, this`live
      ensures Valid()
      ensures id == old(|kinds|)
      ensures kinds == old(kinds) + [kind]
      ensures inputs == old(inputs) + [ins]
      ensures successors == old(successors) + [seq(slotCount, _ => None)]
      ensures predecessor == old(predecessor) + [None]
      ensures live == old(live) + {id}
    {
      id := |kinds|;
      kinds := kinds + [kind];
      inputs := inputs + [ins];
      successors := successors + [seq(slotCount, _ => None)];
      predecessor := predecessor + [None];
      live := live + {id};
      forall m | 0 <= m < |kinds|
        ensures NodeValid(m)
      {
        if m < id {
          assert old(NodeValid(m));
        }
      }
    }

    /** Appends one input edge to node `n` (an input list's add). */
    method AppendInput(n: NodeId, e: Edge)
      requires Valid() && n < |kinds| && e.target < |kinds|
      modifies this`inputs
      ensures Valid()
      ensures inputs == old(inputs)[n := old(inputs)[n] + [e]]
    {
      assert old(NodeValid(n));
      inputs := inputs[n := inputs[n] + [e]];
      forall m | 0 <= m < |kinds|
        ensures NodeValid(m)
      {
        assert old(NodeValid(m));
      }
    }

    /** FixedWithNextNode.setNext: the node's next slot becomes `next`, with the predecessors kept in step. */
    method SetNext(n: NodeId, next: Option<NodeId>)
      requires Valid() && n < |kinds|
      requires next.Some? ==> next.value < |kinds|
      modifies this`successors, this`predecessor
      ensures Valid()
      ensures successors == old(successors)[n := [next]]
      ensures predecessor == UpdatePredecessor(old(predecessor), n, old(Next(n)), next)
    {
      var current := Next(n);
      predecessor := UpdatePredecessor(predecessor, n, current, next);
      successors := successors[n := [next]];
      forall m | 0 <= m < |kinds|
        ensures NodeValid(m)
      {
        assert old(NodeValid(m));
      }
    }

    /**
     * Node.replaceAtPredecessor: the predecessor of `n`, if any, has its first slot that
     * points at `n` redirected to `other`.
     */
    method ReplaceAtPredecessor(n: NodeId, other: Option<NodeId>)
      requires Valid() && n < |kinds|
      requires other.Some? ==> other.value < |kinds|
      modifies this`successors, this`predecessor
      ensures Valid()
      ensures old(predecessor[n]).Some? ==> old(predecessor[n]).value < |kinds|
      ensures successors == RedirectedSlots(old(successors), old(predecessor), n, other)
      ensures predecessor == RedirectedPredecessors(old(successors), old(predecessor), n, other)
      ensures old(predecessor[n]).None? ==> successors == old(successors) && predecessor == old(predecessor)
      ensures old(predecessor[n]).Some? ==>
        var p := old(predecessor[n]).value;
        Some(n) in old(successors[p]) ==>
        && Some(n) !in successors[p][..FirstSlot(old(successors[p]), Some(n))]
        && successors[p][FirstSlot(old(successors[p]), Some(n))] == other
        && (other.Some? ==> predecessor[other.value] == Some(p))
    {
      assert NodeValid(n);
      if predecessor[n].Some? {
        var p := predecessor[n].value;
        assert NodeValid(p);
        var found := Some(n) in successors[p];
        successors := successors[p := ReplaceFirst(successors[p], Some(n), other)];
        if found {
          predecessor := UpdatePredecessor(predecessor, p, Some(n), other);
        }
        forall m | 0 <= m < |kinds|
          ensures NodeValid(m)
        {
          assert old(NodeValid(m));
        }
      }
    }

    /**
     * Graph.addBeforeFixed: links `newNode`, a fresh node with one empty next slot, into the
     * control flow just before `node`.
     */
    method AddBeforeFixed(node: NodeId, newNode: NodeId)
      requires Valid() && node < |kinds| && newNode < |kinds|
      requires node != newNode && successors[newNode] == [None]
      modifies this`successors, this`predecessor
      ensures Valid() && |kinds| == old(|kinds|)
      ensures successors == SlotsBefore(old(successors), old(predecessor), node, newNode)
      ensures predecessor == PredecessorsBefore(old(successors), old(predecessor), node, newNode)
      ensures old(predecessor[node]).Some? ==> old(predecessor[node]).value < |kinds|
      ensures old(predecessor[node]).Some? && old(predecessor[node]).value != newNode ==>
        var p := old(predecessor[node]).value;
        successors[p] == ReplaceFirst(old(successors[p]), Some(node), Some(newNode))
      ensures successors[newNode] == [Some(node)]
      ensures predecessor[node] == Some(newNode)
      ensures old(predecessor[node]).Some? ==>
        var p := old(predecessor[node]).value;
        Some(node) in old(successors[p]) ==> predecessor[newNode] == Some(p)
      ensures forall m :: 0 <= m < |kinds| && m != newNode && Some(m) != old(predecessor[node]) ==> successors[m] == old(successors[m])
      ensures forall m :: 0 <= m < |kinds| && m != newNode && m != node ==>
        predecessor[m] == old(predecessor[m])
    {
      assert NodeValid(node);
      ReplaceAtPredecessor(node, Some(newNode));
      assert Next(newNode) == None;
      SetNext(newNode, Some(node));
    }

    /**
     * GraphUtil.killCFG, abstracted: `begin` and the control flow hanging from it, given as
     * `span`, leave the graph.
     */
    method KillCFG(begin: NodeId, span: set<NodeId>)
      requires Valid()
      modifies this`live
      ensures Valid()
      ensures live == old(live) - ({begin} + span)
    {
      live := live - ({begin} + span);
      assert forall m :: 0 <= m < |kinds| ==> old(NodeValid(m)) ==> NodeValid(m);
    }

    /** InstrumentationNode.setInstrumentationGraph. */
    method SetInstrumentationGraph(n: NodeId, graph: InstrumentationGraph)
      requires Valid()
      modifies this`instrumentationGraphs
      ensures Valid()
      ensures instrumentationGraphs == old(instrumentationGraphs)[n := graph]
    {
      instrumentationGraphs := instrumentationGraphs[n := graph];
      assert forall m :: 0 <= m < |kinds| ==> old(NodeValid(m)) ==> NodeValid(m);
    }
  }
}
