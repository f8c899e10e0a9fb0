/**
 * ExtractInstrumentationPhase: every instrumentation region, delimited by an
 * InstrumentationBeginNode and its paired InstrumentationEndNode, is detached from the host
 * graph. When the region has an observer (the begin marker is anchored or has a target) it
 * is first copied into a standalone graph carried by a new summary InstrumentationNode, whose
 * weak dependencies are the region's outside value inputs.
 */
module ExtractInstrumentationPhase {
  import opened Wrappers
  import opened Graph
  import Flood

  /** The fatal errors the phase can raise. */
  datatype PhaseError =
      /** No InstrumentationEndNode is reachable from the begin marker (GraalError.shouldNotReachHere). */
    | MissingInstrumentationEnd(begin: NodeId)
      /** An observed begin marker has no frame state to copy (a null dereference in the phase). */
    | MissingFrameState(begin: NodeId)

  /**
   * The region being detached: its markers, the control set found by the control flood with
   * the order in which that flood visited it, and the node set found by the data flood.
   */
  datatype Region = Region(begin: NodeId, end: NodeId, controlNodes: set<NodeId>, controlOrder: seq<NodeId>, nodes: set<NodeId>)

  // Kind queries on the node table; a number outside the table answers false.

  predicate IsFixedAt(kinds: seq<NodeKind>, n: NodeId)
  {
    n < |kinds| && IsFixed(kinds[n])
  }

  predicate IsFloatingAt(kinds: seq<NodeKind>, n: NodeId)
  {
    n < |kinds| && IsFloating(kinds[n])
  }

  predicate IsLocalAt(kinds: seq<NodeKind>, n: NodeId)
  {
    n < |kinds| && kinds[n].Local?
  }

  predicate IsFrameStateAt(kinds: seq<NodeKind>, n: NodeId)
  {
    n < |kinds| && kinds[n].FrameState?
  }

  predicate IsValueNodeAt(kinds: seq<NodeKind>, n: NodeId)
  {
    n < |kinds| && IsValueNode(kinds[n])
  }

  predicate IsInstrumentationEndAt(kinds: seq<NodeKind>, n: NodeId)
  {
    n < |kinds| && kinds[n].InstrumentationEnd?
  }

  function InputsOf(inputs: seq<seq<Edge>>, n: NodeId): seq<Edge>
  {
    if n < |inputs| then inputs[n] else []
  }

  function SlotsOf(successors: seq<seq<Option<NodeId>>>, n: NodeId): seq<Option<NodeId>>
  {
    if n < |successors| then successors[n] else []
  }

  function AsList(x: Option<NodeId>): seq<NodeId>
  {
    if x.Some? then [x.value] else []
  }

  /** StateSplit.stateAfter(): the first State input of a node, if any. */
  function StateAfter(inputs: seq<seq<Edge>>, n: NodeId): (r: Option<NodeId>)
    ensures r.Some? ==> Edge(State, r.value) in InputsOf(inputs, n)
  {
    FirstOfType(InputsOf(inputs, n), State)
  }

  /** The target of the first edge of `es` with role `t`, if any. */
  function FirstOfType(es: seq<Edge>, t: InputType): (r: Option<NodeId>)
    ensures r.Some? ==> Edge(t, r.value) in es
    ensures r.None? <==> forall e :: e in es ==> e.inputType != t
  {
    if es == [] then None
    else if es[0].inputType == t then Some(es[0].target)
    else FirstOfType(es[1..], t)
  }

  /** The edge `FirstOfType` picks is the first edge of `es` with role `t`. */
  lemma {:induction false} FirstOfTypeIsFirst(es: seq<Edge>, t: InputType)
    ensures var r := FirstOfType(es, t);
      r.Some? ==> exists i :: 0 <= i < |es| && es[i] == Edge(t, r.value) && forall j :: 0 <= j < i ==> es[j].inputType != t
  {
    if es == [] {
    } else if es[0].inputType == t {
      assert es[0] == Edge(t, es[0].target);
    } else {
      FirstOfTypeIsFirst(es[1..], t);
      var r := FirstOfType(es[1..], t);
      if r.Some? {
        var i :| 0 <= i < |es[1..]| && es[1..][i] == Edge(t, r.value) && forall j :: 0 <= j < i ==> es[1..][j].inputType != t;
        assert es[i + 1] == Edge(t, r.value);
        forall j | 0 <= j < i + 1
          ensures es[j].inputType != t
        {
          if j > 0 {
            assert es[j] == es[1..][j - 1];
          }
        }
      }
    }
  }

  /** Node.successors(): the non-null successor slots, in slot order. */
  function PresentSlots(slots: seq<Option<NodeId>>): (r: seq<NodeId>)
    ensures forall m :: m in r <==> Some(m) in slots
  {
    if slots == [] then []
    else AsList(slots[0]) + PresentSlots(slots[1..])
  }

  // ---------------------------------------------------------------------------------------
  // The control flood (ExtractInstrumentationPhase.java, lines 101-113)

  /**
   * What the control flood adds after visiting `n`: nothing after an end marker or a loop
   * end, the merge after any other end node, and the successors after every other node.
   */
  function ControlSuccessors(kinds: seq<NodeKind>, successors: seq<seq<Option<NodeId>>>, n: NodeId): seq<NodeId>
  {
    if n >= |kinds| then []
    else match kinds[n]
      case InstrumentationEnd => []
      case LoopEnd => []
      case End(merge) => [merge]
      case _ => PresentSlots(SlotsOf(successors, n))
  }

  function ControlStep(kinds: seq<NodeKind>, successors: seq<seq<Option<NodeId>>>): nat -> seq<nat>
  {
    (n: nat) => ControlSuccessors(kinds, successors, n)
  }

  /**
   * The last end marker in a visiting order: the control flood overwrites its record at
   * every end marker it visits, so the one it visits last is the one it keeps.
   */
  function LastInstrumentationEnd(kinds: seq<NodeKind>, order: seq<NodeId>): (r: Option<NodeId>)
    ensures r.Some? ==> r.value in order && IsInstrumentationEndAt(kinds, r.value)
    ensures r.Some? ==> exists i :: 0 <= i < |order| && order[i] == r.value &&
                                    forall j :: i < j < |order| ==> !IsInstrumentationEndAt(kinds, order[j])
    ensures r.None? ==> forall v :: v in order ==> !IsInstrumentationEndAt(kinds, v)
  {
    if order == [] then None
    else if IsInstrumentationEndAt(kinds, order[|order| - 1]) then Some(order[|order| - 1])
    else LastInstrumentationEnd(kinds, order[..|order| - 1])
  }

  // ---------------------------------------------------------------------------------------
  // The data flood (ExtractInstrumentationPhase.java, lines 123-151 and 190-201)

  /**
   * shouldIncludeValueInput, as a predicate: no non-Value input of `n` is a fixed node
   * outside the control set.
   */
  predicate IncludesValueInput(kinds: seq<NodeKind>, inputs: seq<seq<Edge>>, controlNodes: set<NodeId>, n: NodeId)
  {
    forall e :: e in InputsOf(inputs, n) && e.inputType != Value ==>
      !(IsFixedAt(kinds, e.target) && e.target !in controlNodes)
  }

  /**
   * Whether the data flood follows input edge `e` of node `user`: every non-Value edge, and
   * a Value edge only when the user is not a frame state and the input is a floating node
   * that is not a local and passes shouldIncludeValueInput.
   */
  predicate Follows(kinds: seq<NodeKind>, inputs: seq<seq<Edge>>, controlNodes: set<NodeId>, user: NodeId, e: Edge)
  {
    e.inputType == Value ==>
      && !IsFrameStateAt(kinds, user)
      && IsFloatingAt(kinds, e.target)
      && !IsLocalAt(kinds, e.target)
      && IncludesValueInput(kinds, inputs, controlNodes, e.target)
  }

  /** The targets of the edges of `es` the data flood follows, in input order. */
  function FollowedInputs(kinds: seq<NodeKind>, inputs: seq<seq<Edge>>, controlNodes: set<NodeId>, user: NodeId, es: seq<Edge>): (r: seq<NodeId>)
    ensures forall x :: x in r <==> exists e :: e in es && e.target == x && Follows(kinds, inputs, controlNodes, user, e)
  {
    if es == [] then []
    else
      (if Follows(kinds, inputs, controlNodes, user, es[0]) then [es[0].target] else [])
      + FollowedInputs(kinds, inputs, controlNodes, user, es[1..])
  }

  function DataStep(kinds: seq<NodeKind>, inputs: seq<seq<Edge>>, controlNodes: set<NodeId>): nat -> seq<nat>
  {
    (n: nat) => FollowedInputs(kinds, inputs, controlNodes, n, InputsOf(inputs, n))
  }

  /** The members of `marked` below `n` in increasing order: how a NodeBitMap is iterated. */
  function MarkedInOrder(marked: set<NodeId>, n: nat): (r: seq<NodeId>)
    ensures forall x :: x in r <==> x in marked && x < n
  {
    if n == 0 then []
    else MarkedInOrder(marked, n - 1) + (if n - 1 in marked then [n - 1] else [])
  }

  /** The data flood's seeds: the control set in node order, then the begin marker's state. */
  function DataSeeds(size: nat, controlNodes: set<NodeId>, state: Option<NodeId>): seq<NodeId>
  {
    MarkedInOrder(controlNodes, size) + AsList(state)
  }

  /**
   * The shouldIncludeValueInput loop: true exactly when no non-Value input of `node` is a
   * fixed node outside the control set.
   */
  method ShouldIncludeValueInput(g: StructuredGraph, node: NodeId, controlNodes: set<NodeId>) returns (r: bool)
    requires g.Valid() && node < |g.kinds|
    ensures r == IncludesValueInput(g.kinds, g.inputs, controlNodes, node)
  {
    assert g.NodeValid(node);
    var ins := g.inputs[node];
    for k := 0 to |ins|
      invariant forall i :: 0 <= i < k && ins[i].inputType != Value ==>
        !(IsFixedAt(g.kinds, ins[i].target) && ins[i].target !in controlNodes)
    {
      if ins[k].inputType == Value {
        continue;
      }
      assert ins[k] in ins;
      var input := ins[k].target;
      if IsFixed(g.kinds[input]) && input !in controlNodes {
        return false;
      }
    }
    return true;
  }

  lemma ControlStepBounded(g: StructuredGraph)
    requires g.Valid()
    ensures Flood.Bounded(ControlStep(g.kinds, g.successors), |g.kinds|)
  {
    forall v: nat, w | v < |g.kinds| && w in ControlStep(g.kinds, g.successors)(v)
      ensures w < |g.kinds|
    {
      assert g.NodeValid(v);
    }
  }

  lemma DataStepBounded(g: StructuredGraph, controlNodes: set<NodeId>)
    requires g.Valid()
    ensures Flood.Bounded(DataStep(g.kinds, g.inputs, controlNodes), |g.kinds|)
  {
    forall v: nat, w | v < |g.kinds| && w in DataStep(g.kinds, g.inputs, controlNodes)(v)
      ensures w < |g.kinds|
    {
      assert g.NodeValid(v);
    }
  }

  /**
   * `controlNodes` is the set the control flood reaches from the begin marker's next node
   * `next`, and `nodes` the set the data flood reaches from the control set and the marker's
   * state; `nodes` is closed under the edges the data flood follows.
   */
  ghost predicate FloodsOf(kinds: seq<NodeKind>, successors: seq<seq<Option<NodeId>>>, inputs: seq<seq<Edge>>,
                           next: Option<NodeId>, begin: NodeId, controlNodes: set<NodeId>, nodes: set<NodeId>)
  {
    && (forall v {:trigger Flood.Reachable(AsList(next), ControlStep(kinds, successors), v)} ::
          v in controlNodes <==> Flood.Reachable(AsList(next), ControlStep(kinds, successors), v))
    && (forall v {:trigger Flood.Reachable(DataSeeds(|kinds|, controlNodes, StateAfter(inputs, begin)), DataStep(kinds, inputs, controlNodes), v)} ::
          v in nodes <==>
          Flood.Reachable(DataSeeds(|kinds|, controlNodes, StateAfter(inputs, begin)), DataStep(kinds, inputs, controlNodes), v))
    && Flood.Closed(DataStep(kinds, inputs, controlNodes), nodes)
  }

  /**
   * The Instrumentation constructor: the control flood from begin.next() finds the paired
   * end marker, and the data flood from the control set and begin.stateAfter() finds the
   * nodes to extract. Fails when no end marker is control-reachable.
   */
  method NewInstrumentation(g: StructuredGraph, begin: NodeId) returns (r: Result<Region, PhaseError>)
    requires g.Valid() && begin < |g.kinds|
    ensures r.Failure? ==>
      && r.error == MissingInstrumentationEnd(begin)
      && forall v :: Flood.Reachable(AsList(g.Next(begin)), ControlStep(g.kinds, g.successors), v) ==>
           !IsInstrumentationEndAt(g.kinds, v)
    ensures r.Success? ==>
      var inst := r.value;
      && inst.begin == begin
      && IsInstrumentationEndAt(g.kinds, inst.end)
      && inst.end in inst.controlNodes
      && (forall v :: v in inst.controlNodes <==> v in inst.controlOrder)
      && Flood.NoDuplicates(inst.controlOrder)
      && Flood.Provenance(AsList(g.Next(begin)), ControlStep(g.kinds, g.successors), inst.controlOrder)
      && LastInstrumentationEnd(g.kinds, inst.controlOrder) == Some(inst.end)
      && FloodsOf(g.kinds, g.successors, g.inputs, g.Next(begin), begin, inst.controlNodes, inst.nodes)
      && (forall v :: v in inst.controlNodes ==> v in inst.nodes)
      && (forall v :: v in inst.nodes ==> v < |g.kinds|)
  {
    ControlStepBounded(g);
    var controlNodes, controlOrder := Flood.Flood(AsList(g.Next(begin)), ControlStep(g.kinds, g.successors), |g.kinds|);
    var end := LastInstrumentationEnd(g.kinds, controlOrder);
    if end.None? {
      return Failure(MissingInstrumentationEnd(begin));
    }
    var nodes := DataFlood(g, begin, controlNodes);
    return Success(Region(begin, end.value, controlNodes, controlOrder, nodes));
  }

  /**
   * The data flood of the Instrumentation constructor: from the control set `controlNodes`
   * and begin.stateAfter(), over the value inputs of the nodes it reaches.
   */
  method DataFlood(g: StructuredGraph, begin: NodeId, controlNodes: set<NodeId>) returns (nodes: set<NodeId>)
    requires g.Valid() && begin < |g.kinds|
    ensures forall v :: v in nodes <==>
      Flood.Reachable(DataSeeds(|g.kinds|, controlNodes, StateAfter(g.inputs, begin)), DataStep(g.kinds, g.inputs, controlNodes), v)
    ensures Flood.Closed(DataStep(g.kinds, g.inputs, controlNodes), nodes)
    ensures forall v :: v in controlNodes && v < |g.kinds| ==> v in nodes
    ensures forall v :: v in nodes ==> v < |g.kinds|
  {
    DataStepBounded(g, controlNodes);
    var state := StateAfter(g.inputs, begin);
    assert state.Some? ==> state.value < |g.kinds| by {
      assert g.NodeValid(begin);
    }
    var seeds := DataSeeds(|g.kinds|, controlNodes, state);
    var order;
    nodes, order := Flood.Flood(seeds, DataStep(g.kinds, g.inputs, controlNodes), |g.kinds|);
    forall v | v in controlNodes && v < |g.kinds|
      ensures v in nodes
    {
      assert v in seeds;
    }
  }

  /** Every non-Value input of an extracted node is extracted too. */
  lemma NonValueInputsIncluded(kinds: seq<NodeKind>, inputs: seq<seq<Edge>>, inst: Region, v: NodeId, e: Edge)
    requires Flood.Closed(DataStep(kinds, inputs, inst.controlNodes), inst.nodes)
    requires v in inst.nodes && e in InputsOf(inputs, v) && e.inputType != Value
    ensures e.target in inst.nodes
  {
    assert e.target in DataStep(kinds, inputs, inst.controlNodes)(v);
  }

  /**
   * A node that is not a seed and that the extracted set reaches only through Value edges
   * was added as a Value input: it is floating, not a local, passes shouldIncludeValueInput,
   * and some extracted node that is not a frame state uses it as a Value input.
   */
  lemma {:induction false} ValueInputIncludedOnlyIfSafe(kinds: seq<NodeKind>, inputs: seq<seq<Edge>>, seeds: seq<NodeId>, inst: Region, x: NodeId)
    requires forall v :: v in inst.nodes <==> Flood.Reachable(seeds, DataStep(kinds, inputs, inst.controlNodes), v)
    requires x in inst.nodes && x !in seeds
    requires forall v, e :: v in inst.nodes && e in InputsOf(inputs, v) && e.target == x ==> e.inputType == Value
    ensures IsFloatingAt(kinds, x) && !IsLocalAt(kinds, x)
    ensures IncludesValueInput(kinds, inputs, inst.controlNodes, x)
    ensures exists v :: v in inst.nodes && !IsFrameStateAt(kinds, v) && Edge(Value, x) in InputsOf(inputs, v)
  {
    var step := DataStep(kinds, inputs, inst.controlNodes);
    var p :| Flood.IsPath(step, p) && p[0] in seeds && p[|p| - 1] == x;
    var v := p[|p| - 2];
    var q := p[..|p| - 1];
    assert Flood.IsPath(step, q) && q[0] in seeds && q[|q| - 1] == v;
    assert v in inst.nodes;
    assert x in step(v);
    var e :| e in InputsOf(inputs, v) && e.target == x && Follows(kinds, inputs, inst.controlNodes, v, e);
    assert e == Edge(Value, x);
  }

  // ---------------------------------------------------------------------------------------
  // The copy into a standalone graph (ExtractInstrumentationPhase.java, lines 159-184)

  /** The outside value inputs met in the edge list `es`, in input order. */
  function OutsideInputs(kinds: seq<NodeKind>, nodes: set<NodeId>, es: seq<Edge>): seq<NodeId>
  {
    if es == [] then []
    else
      var last := es[|es| - 1];
      OutsideInputs(kinds, nodes, es[..|es| - 1])
      + (if IsValueNodeAt(kinds, last.target) && last.target !in nodes then [last.target] else [])
  }

  /**
   * The outside value inputs met while walking the extracted nodes below `n` in node order,
   * each node's inputs in input order, repetitions included.
   */
  function Walk(kinds: seq<NodeKind>, inputs: seq<seq<Edge>>, nodes: set<NodeId>, n: nat): seq<NodeId>
  {
    if n == 0 then []
    else Walk(kinds, inputs, nodes, n - 1) + (if n - 1 in nodes then OutsideInputs(kinds, nodes, InputsOf(inputs, n - 1)) else [])
  }

  /** OutsideInputs holds exactly the targets of `es` that are value nodes outside `nodes`. */
  lemma {:induction false} OutsideInputsMembers(kinds: seq<NodeKind>, nodes: set<NodeId>, es: seq<Edge>)
    ensures forall x :: x in OutsideInputs(kinds, nodes, es) <==>
      exists e :: e in es && e.target == x && IsValueNodeAt(kinds, x) && x !in nodes
  {
    if es != [] {
      OutsideInputsMembers(kinds, nodes, es[..|es| - 1]);
      assert es == es[..|es| - 1] + [es[|es| - 1]];
    }
  }

  /**
   * The walk below `n` meets exactly the outside value inputs of the nodes of `nodes` below
   * `n` (each characterised by OutsideInputsMembers).
   */
  lemma {:induction false} WalkMembers(kinds: seq<NodeKind>, inputs: seq<seq<Edge>>, nodes: set<NodeId>, n: nat)
    ensures forall x :: x in Walk(kinds, inputs, nodes, n) <==>
      exists v :: 0 <= v < n && v in nodes && x in OutsideInputs(kinds, nodes, InputsOf(inputs, v))
  {
    if n > 0 {
      WalkMembers(kinds, inputs, nodes, n - 1);
    }
  }

  /** OutsideInputs only looks at the kinds of the targets of `es`. */
  lemma {:induction false} OutsideInputsStable(kinds: seq<NodeKind>, kinds': seq<NodeKind>, nodes: set<NodeId>, es: seq<Edge>)
    requires kinds <= kinds' && EdgesInRange(es, |kinds|)
    ensures OutsideInputs(kinds', nodes, es) == OutsideInputs(kinds, nodes, es)
  {
    if es != [] {
      OutsideInputsStable(kinds, kinds', nodes, es[..|es| - 1]);
      assert es[|es| - 1] in es;
    }
  }

  /**
   * Adding nodes outside the extracted set, and changing the inputs of such nodes, leaves the
   * walk over the extracted nodes unchanged.
   */
  lemma {:induction false} WalkStable(kinds: seq<NodeKind>, inputs: seq<seq<Edge>>, kinds': seq<NodeKind>, inputs': seq<seq<Edge>>, nodes: set<NodeId>, n: nat)
    requires kinds <= kinds' && |kinds| <= n
    requires forall v :: v in nodes ==> v < |kinds| && v < |inputs| && v < |inputs'| && inputs'[v] == inputs[v]
    requires forall v :: v in nodes ==> EdgesInRange(inputs[v], |kinds|)
    ensures Walk(kinds', inputs', nodes, n) == Walk(kinds, inputs, nodes, |kinds|)
  {
    if n > |kinds| {
      WalkStable(kinds, inputs, kinds', inputs', nodes, n - 1);
    } else if n > 0 {
      WalkPrefixStable(kinds, inputs, kinds', inputs', nodes, n);
    }
  }

  lemma {:induction false} WalkPrefixStable(kinds: seq<NodeKind>, inputs: seq<seq<Edge>>, kinds': seq<NodeKind>, inputs': seq<seq<Edge>>, nodes: set<NodeId>, n: nat)
    requires kinds <= kinds' && n <= |kinds|
    requires forall v :: v in nodes ==> v < |kinds| && v < |inputs| && v < |inputs'| && inputs'[v] == inputs[v]
    requires forall v :: v in nodes ==> EdgesInRange(inputs[v], |kinds|)
    ensures Walk(kinds', inputs', nodes, n) == Walk(kinds, inputs, nodes, n)
  {
    if n > 0 {
      WalkPrefixStable(kinds, inputs, kinds', inputs', nodes, n - 1);
      if n - 1 in nodes {
        OutsideInputsStable(kinds, kinds', nodes, inputs[n - 1]);
      }
    }
  }

  function AddIfAbsent(acc: seq<NodeId>, x: NodeId): seq<NodeId>
  {
    if x in acc then acc else acc + [x]
  }

  /** The distinct elements of `s`, each at the place it is first met. */
  function FirstMet(s: seq<NodeId>): seq<NodeId>
  {
    if s == [] then [] else AddIfAbsent(FirstMet(s[..|s| - 1]), s[|s| - 1])
  }

  /** FirstMet holds every element of `s`, and each once. */
  lemma {:induction false} FirstMetMembers(s: seq<NodeId>)
    ensures Flood.NoDuplicates(FirstMet(s))
    ensures forall x :: x in FirstMet(s) <==> x in s
  {
    if s != [] {
      var s' := s[..|s| - 1];
      FirstMetMembers(s');
      assert s == s' + [s[|s| - 1]];
    }
  }

  /**
   * FirstMet keeps first-met order: wherever a later element occurs in `s`, every earlier
   * element has already occurred.
   */
  lemma {:induction false} FirstMetOrder(s: seq<NodeId>)
    ensures forall i, j, k :: 0 <= i < j < |FirstMet(s)| && 0 <= k < |s| && s[k] == FirstMet(s)[j] ==>
      FirstMet(s)[i] in s[..k]
  {
    if s != [] {
      var s', x := s[..|s| - 1], s[|s| - 1];
      var r, r' := FirstMet(s), FirstMet(s');
      FirstMetOrder(s');
      FirstMetMembers(s');
      forall i, j, k | 0 <= i < j < |r| && 0 <= k < |s| && s[k] == r[j]
        ensures r[i] in s[..k]
      {
        if k < |s'| {
          assert s'[k] == s[k];
          assert s'[..k] == s[..k];
          if x in r' {
            assert r == r';
          } else {
            assert r == r' + [x];
            assert s'[k] in s';
          }
        } else {
          assert s[..k] == s';
          if x in r' {
            assert r == r';
            var k' :| 0 <= k' < |s'| && s'[k'] == x;
            assert r'[i] in s'[..k'];
          } else {
            assert r == r' + [x];
            assert r[i] in r';
          }
        }
      }
    }
  }

  /** The weak-dependency edges a list of outside values adds to the summary node. */
  function WeakDependencies(values: seq<NodeId>): (r: seq<Edge>)
    ensures |r| == |values|
    ensures forall i :: 0 <= i < |values| ==> r[i] == Edge(Unchecked, values[i])
  {
    if values == [] then []
    else WeakDependencies(values[..|values| - 1]) + [Edge(Unchecked, values[|values| - 1])]
  }

  /**
   * genInstrumentationGraph: one parameter, numbered in first-met order, per distinct outside
   * value input of the extracted nodes, each also recorded as a weak dependency of the
   * summary node; the extracted nodes are then duplicated into the sub-graph.
   */
  method GenInstrumentationGraph(g: StructuredGraph, inst: Region, summary: NodeId)
    returns (sub: InstrumentationGraph)
    requires g.Valid() && summary < |g.kinds| && inst.begin < |g.kinds|
    requires summary !in inst.nodes && summary != inst.begin
    requires forall v :: v in inst.nodes ==> v < |g.kinds|
    modifies g`inputs
    ensures g.Valid()
    ensures sub.parameters == FirstMet(Walk(old(g.kinds), old(g.inputs), inst.nodes, |old(g.kinds)|))
    ensures sub.copied == inst.nodes && sub.returnAt == inst.end
    ensures sub.startNext == old(g.Next(inst.begin)) && sub.startState == StateAfter(old(g.inputs), inst.begin)
    ensures g.inputs == old(g.inputs)[summary := old(g.inputs[summary]) + WeakDependencies(sub.parameters)]
  {
    ghost var kinds, inputs := g.kinds, g.inputs;
    var replacements: map<NodeId, nat> := map[];
    var parameters: seq<NodeId> := [];
    assert WeakDependencies(parameters) == [] && inputs[summary] + [] == inputs[summary];
    assert inputs[summary := inputs[summary] + WeakDependencies(parameters)] == inputs;
    for current := 0 to |g.kinds|
      invariant g.Valid() && g.kinds == kinds
      invariant g.inputs == inputs[summary := inputs[summary] + WeakDependencies(parameters)]
      invariant parameters == FirstMet(Walk(kinds, inputs, inst.nodes, current))
      invariant Numbered(parameters, replacements)
    {
      parameters, replacements := ScanNode(g, summary, inst.nodes, current, parameters, replacements, kinds, inputs);
    }
    // addDuplicates copies the extracted nodes; the start node is followed by the copy of
    // begin.next() and takes the copy of begin.stateAfter(); the copy of the end marker is
    // replaced by a return.
    sub := InstrumentationGraph(parameters, inst.nodes, g.Next(inst.begin), StateAfter(g.inputs, inst.begin), inst.end);
  }

  /**
   * One step of the outer loop of genInstrumentationGraph: when `current` is extracted, its
   * inputs are scanned for outside values.
   */
  method ScanNode(g: StructuredGraph, summary: NodeId, nodes: set<NodeId>, current: NodeId,
                  parameters: seq<NodeId>, replacements: map<NodeId, nat>,
                  ghost kinds: seq<NodeKind>, ghost inputs: seq<seq<Edge>>)
    returns (parameters': seq<NodeId>, replacements': map<NodeId, nat>)
    requires g.Valid() && g.kinds == kinds && |inputs| == |kinds|
    requires current < |kinds| && summary < |kinds| && summary !in nodes
    requires g.inputs == inputs[summary := inputs[summary] + WeakDependencies(parameters)]
    requires parameters == FirstMet(Walk(kinds, inputs, nodes, current))
    requires Numbered(parameters, replacements)
    modifies g`inputs
    ensures g.Valid() && g.kinds == kinds
    ensures g.inputs == inputs[summary := inputs[summary] + WeakDependencies(parameters')]
    ensures parameters' == FirstMet(Walk(kinds, inputs, nodes, current + 1))
    ensures Numbered(parameters', replacements')
  {
    if current in nodes {
      assert g.NodeValid(current);
      assert g.inputs[current] == inputs[current];
      parameters', replacements' := AddParameters(g, summary, nodes, g.inputs[current], parameters, replacements,
                                                  inputs[summary], Walk(kinds, inputs, nodes, current), inputs);
      assert Walk(kinds, inputs, nodes, current + 1)
        == Walk(kinds, inputs, nodes, current) + OutsideInputs(kinds, nodes, inputs[current]);
    } else {
      parameters', replacements' := parameters, replacements;
      assert Walk(kinds, inputs, nodes, current + 1) == Walk(kinds, inputs, nodes, current);
    }
  }

  lemma OutsideInputsSnoc(kinds: seq<NodeKind>, nodes: set<NodeId>, es: seq<Edge>, k: nat)
    requires k < |es|
    ensures OutsideInputs(kinds, nodes, es[..k + 1]) == OutsideInputs(kinds, nodes, es[..k])
      + (if IsValueNodeAt(kinds, es[k].target) && es[k].target !in nodes then [es[k].target] else [])
  {
    assert es[..k + 1][..k] == es[..k];
  }

  lemma UpdateTwice<T>(s: seq<T>, i: nat, x: T, y: T)
    requires i < |s|
    ensures s[i := x][i := y] == s[i := y]
  {
  }

  lemma FirstMetSnoc(s: seq<NodeId>, x: NodeId)
    ensures FirstMet(s + [x]) == AddIfAbsent(FirstMet(s), x)
  {
    assert (s + [x])[..|s|] == s;
  }

  lemma WeakDependenciesSnoc(values: seq<NodeId>, x: NodeId)
    ensures WeakDependencies(values + [x]) == WeakDependencies(values) + [Edge(Unchecked, x)]
  {
    assert (values + [x])[..|values|] == values;
  }

  /**
   * The replacement map of genInstrumentationGraph sends exactly the outside values that
   * have a parameter to that parameter's number.
   */
  ghost predicate Numbered(parameters: seq<NodeId>, replacements: map<NodeId, nat>)
  {
    && (forall x :: x in replacements <==> x in parameters)
    && (forall i :: 0 <= i < |parameters| ==> replacements[parameters[i]] == i)
  }

  lemma NumberedExtend(parameters: seq<NodeId>, replacements: map<NodeId, nat>, x: NodeId)
    requires Numbered(parameters, replacements) && x !in replacements
    ensures x !in parameters
    ensures Numbered(parameters + [x], replacements[x := |parameters|])
  {
  }

  /**
   * The body of the inner loop of genInstrumentationGraph for one input: a value node outside
   * `nodes` without a replacement gets the next parameter number and becomes a weak
   * dependency of the summary node; any other input changes nothing.
   */
  method ConsiderInput(g: StructuredGraph, summary: NodeId, nodes: set<NodeId>, input: NodeId,
                       parameters: seq<NodeId>, replacements: map<NodeId, nat>,
                       ghost base: seq<Edge>, ghost inputs: seq<seq<Edge>>)
    returns (parameters': seq<NodeId>, replacements': map<NodeId, nat>)
    requires g.Valid() && summary < |g.kinds| && input < |g.kinds| && summary < |inputs|
    requires g.inputs == inputs[summary := base + WeakDependencies(parameters)]
    requires Numbered(parameters, replacements)
    modifies g`inputs
    ensures g.Valid()
    ensures parameters' == (if IsValueNodeAt(g.kinds, input) && input !in nodes then AddIfAbsent(parameters, input) else parameters)
    ensures Numbered(parameters', replacements')
    ensures g.inputs == inputs[summary := base + WeakDependencies(parameters')]
  {
    parameters', replacements' := parameters, replacements;
    if IsValueNode(g.kinds[input]) && input !in nodes && input !in replacements {
      var index := |parameters|;
      assert g.inputs[summary] == base + WeakDependencies(parameters);
      g.AppendInput(summary, Edge(Unchecked, input));
      UpdateTwice(inputs, summary, base + WeakDependencies(parameters), base + WeakDependencies(parameters) + [Edge(Unchecked, input)]);
      replacements' := replacements[input := index];
      parameters' := parameters + [input];
      NumberedExtend(parameters, replacements, input);
      WeakDependenciesSnoc(parameters, input);
      assert base + WeakDependencies(parameters) + [Edge(Unchecked, input)] == base + WeakDependencies(parameters');
    }
  }

  /** One more input of the walk: FirstMet of the longer walk is what ConsiderInput computes. */
  lemma MetStep(kinds: seq<NodeKind>, nodes: set<NodeId>, met: seq<NodeId>, ins: seq<Edge>, k: nat)
    requires k < |ins|
    ensures FirstMet(met + OutsideInputs(kinds, nodes, ins[..k + 1]))
      == (var x := ins[k].target;
          var p := FirstMet(met + OutsideInputs(kinds, nodes, ins[..k]));
          if IsValueNodeAt(kinds, x) && x !in nodes then AddIfAbsent(p, x) else p)
  {
    var seen := met + OutsideInputs(kinds, nodes, ins[..k]);
    OutsideInputsSnoc(kinds, nodes, ins, k);
    if IsValueNodeAt(kinds, ins[k].target) && ins[k].target !in nodes {
      assert met + OutsideInputs(kinds, nodes, ins[..k + 1]) == seen + [ins[k].target];
      FirstMetSnoc(seen, ins[k].target);
    } else {
      assert met + OutsideInputs(kinds, nodes, ins[..k + 1]) == seen;
    }
  }

  /**
   * The inner loop of genInstrumentationGraph over the inputs `ins` of one extracted node:
   * each value input outside `nodes` without a replacement yet gets the next parameter number
   * and becomes a weak dependency of the summary node. `met` is the walk so far, of which
   * `parameters` holds the first-met elements.
   */
  method AddParameters(g: StructuredGraph, summary: NodeId, nodes: set<NodeId>, ins: seq<Edge>,
                       parameters: seq<NodeId>, replacements: map<NodeId, nat>,
                       ghost base: seq<Edge>, ghost met: seq<NodeId>, ghost inputs: seq<seq<Edge>>)
    returns (parameters': seq<NodeId>, replacements': map<NodeId, nat>)
    requires g.Valid() && summary < |g.kinds| && summary < |inputs| && EdgesInRange(ins, |g.kinds|)
    requires g.inputs == inputs[summary := base + WeakDependencies(parameters)]
    requires parameters == FirstMet(met)
    requires Numbered(parameters, replacements)
    modifies g`inputs
    ensures g.Valid()
    ensures parameters' == FirstMet(met + OutsideInputs(g.kinds, nodes, ins))
    ensures Numbered(parameters', replacements')
    ensures g.inputs == inputs[summary := base + WeakDependencies(parameters')]
  {
    ghost var kinds := g.kinds;
    parameters', replacements' := parameters, replacements;
    assert met + OutsideInputs(kinds, nodes, ins[..0]) == met;
    for k := 0 to |ins|
      invariant g.Valid() && g.kinds == kinds
      invariant g.inputs == inputs[summary := base + WeakDependencies(parameters')]
      invariant parameters' == FirstMet(met + OutsideInputs(kinds, nodes, ins[..k]))
      invariant Numbered(parameters', replacements')
    {
      var input := ins[k].target;
      assert input < |g.kinds| by {
        assert ins[k] in ins;
      }
      MetStep(kinds, nodes, met, ins, k);
      parameters', replacements' := ConsiderInput(g, summary, nodes, input, parameters', replacements', base, inputs);
    }
    assert ins[..|ins|] == ins;
  }

  /**
   * Every input of an extracted node is either extracted or stands behind a parameter, so
   * the duplication has a replacement for every edge it copies. Value edges are assumed to
   * point at value nodes, as the graph's input typing guarantees.
   */
  lemma InputsCovered(kinds: seq<NodeKind>, inputs: seq<seq<Edge>>, inst: Region, v: NodeId, e: Edge)
    requires Flood.Closed(DataStep(kinds, inputs, inst.controlNodes), inst.nodes)
    requires v in inst.nodes && v < |kinds| && e in InputsOf(inputs, v)
    requires e.inputType == Value ==> IsValueNodeAt(kinds, e.target)
    ensures e.target in inst.nodes || e.target in FirstMet(Walk(kinds, inputs, inst.nodes, |kinds|))
  {
    if e.inputType != Value {
      NonValueInputsIncluded(kinds, inputs, inst, v, e);
    } else if e.target !in inst.nodes {
      OutsideInputsMembers(kinds, inst.nodes, InputsOf(inputs, v));
      WalkMembers(kinds, inputs, inst.nodes, |kinds|);
      FirstMetMembers(Walk(kinds, inputs, inst.nodes, |kinds|));
    }
  }

  // ---------------------------------------------------------------------------------------
  // Unlinking and the phase (ExtractInstrumentationPhase.java, lines 64-86 and 203-208)

  /**
   * unlink: the end marker loses its next node, the begin marker's predecessor is redirected
   * to that node, and the begin marker and the control set leave the graph.
   */
  method Unlink(g: StructuredGraph, inst: Region)
    requires g.Valid() && inst.begin < |g.kinds| && inst.end < |g.kinds|
    modifies g`successors, g`predecessor, g`live
    ensures g.Valid()
    ensures g.successors == UnlinkedSlots(old(g.successors), old(g.predecessor), inst)
    ensures g.predecessor == UnlinkedPredecessors(old(g.successors), old(g.predecessor), inst)
    ensures g.successors[inst.end] == [None]
    ensures old(g.predecessor[inst.begin]).Some? ==> old(g.predecessor[inst.begin]).value < |g.kinds|
    ensures forall p :: old(g.predecessor[inst.begin]) == Some(p) && p != inst.end && old(g.Next(inst.end)) != Some(inst.begin) ==>
      g.successors[p] == ReplaceFirst(old(g.successors[p]), Some(inst.begin), old(g.Next(inst.end)))
    ensures forall m :: 0 <= m < |g.kinds| && m != inst.end && Some(m) != old(g.predecessor[inst.begin]) ==>
      g.successors[m] == old(g.successors[m])
    ensures g.live == old(g.live) - ({inst.begin} + inst.controlNodes)
  {
    assert g.NodeValid(inst.begin);
    var next := g.Next(inst.end);
    g.SetNext(inst.end, None);
    g.ReplaceAtPredecessor(inst.begin, next);
    g.KillCFG(inst.begin, inst.controlNodes);
  }

  /**
   * The successor slots after unlinking `inst` from a graph with successor slots `successors`
   * and predecessors `predecessor`: end.setNext(null), then replaceAtPredecessor on the begin
   * marker with the end marker's old next node.
   */
  function UnlinkedSlots(successors: seq<seq<Option<NodeId>>>, predecessor: seq<Option<NodeId>>,
                         inst: Region): seq<seq<Option<NodeId>>>
  {
    var next := NextIn(successors, inst.end);
    var cleared := if inst.end < |successors| then successors[inst.end := [None]] else successors;
    RedirectedSlots(cleared, UpdatePredecessor(predecessor, inst.end, next, None), inst.begin, next)
  }

  /** The predecessors after unlinking `inst`, as UnlinkedSlots. */
  function UnlinkedPredecessors(successors: seq<seq<Option<NodeId>>>, predecessor: seq<Option<NodeId>>,
                                inst: Region): seq<Option<NodeId>>
  {
    var next := NextIn(successors, inst.end);
    var cleared := if inst.end < |successors| then successors[inst.end := [None]] else successors;
    RedirectedPredecessors(cleared, UpdatePredecessor(predecessor, inst.end, next, None), inst.begin, next)
  }

  /** Whether a begin marker gets a summary node: it is anchored or has a target. */
  predicate Observed(k: NodeKind)
    requires k.InstrumentationBegin?
  {
    k.anchored || k.target.Some?
  }

  /**
   * The observed case of the phase's loop body: a summary node is added and linked in just
   * before the begin marker, given a fresh frame state that keeps only the outer state of
   * the marker's state, and handed the copy of the region. Fails, leaving the summary node
   * linked in, when the begin marker has no state.
   */
  method AttachSummary(g: StructuredGraph, inst: Region) returns (outcome: Outcome<PhaseError>)
    requires g.Valid() && inst.begin < |g.kinds| && g.kinds[inst.begin].InstrumentationBegin?
    requires forall v :: v in inst.nodes ==> v < |g.kinds|
    modifies g`kinds, g`inputs, g`successors, g`predecessor, g`live, g`instrumentationGraphs
    ensures g.Valid()
    ensures var kind := old(g.kinds[inst.begin]);
      g.kinds == old(g.kinds) + (if outcome.Pass? then [Instrumentation(kind.anchored, kind.target), FrameState]
                                 else [Instrumentation(kind.anchored, kind.target)])
    ensures outcome.Pass? ==> g.live == old(g.live) + {old(|g.kinds|), old(|g.kinds|) + 1}
    ensures outcome.Fail? ==> g.live == old(g.live) + {old(|g.kinds|)}
    ensures outcome.Pass? ==>
      g.successors == SlotsBefore(old(g.successors) + [[None]], old(g.predecessor) + [None], inst.begin, old(|g.kinds|)) + [[]]
    ensures outcome.Pass? ==>
      g.predecessor == PredecessorsBefore(old(g.successors) + [[None]], old(g.predecessor) + [None], inst.begin, old(|g.kinds|)) + [None]
    ensures outcome.Fail? ==>
      && g.successors == SlotsBefore(old(g.successors) + [[None]], old(g.predecessor) + [None], inst.begin, old(|g.kinds|))
      && g.predecessor == PredecessorsBefore(old(g.successors) + [[None]], old(g.predecessor) + [None], inst.begin, old(|g.kinds|))
    ensures outcome.Fail? <==> StateAfter(old(g.inputs), inst.begin).None?
    ensures outcome.Fail? ==> outcome.error == MissingFrameState(inst.begin)
    ensures outcome.Fail? ==> g.inputs == old(g.inputs) + [[]] && g.instrumentationGraphs == old(g.instrumentationGraphs)
    ensures outcome.Pass? ==>
      Summarised(g.inputs, g.instrumentationGraphs, old(g.kinds), old(g.inputs), old(g.instrumentationGraphs),
                 NextIn(SlotsBefore(old(g.successors) + [[None]], old(g.predecessor) + [None], inst.begin, old(|g.kinds|)), inst.begin),
                 inst)
  {
    RegionInputsInRange(g, inst.nodes);
    assert g.NodeValid(inst.begin);
    var summary := LinkSummary(g, inst.begin);
    assert InputsOf(g.inputs, inst.begin) == InputsOf(old(g.inputs), inst.begin);
    var currentState := StateAfter(g.inputs, inst.begin);
    if currentState.None? {
      return Fail(MissingFrameState(inst.begin));
    }
    assert g.Next(inst.begin) == NextIn(g.successors, inst.begin);
    assert old(g.NodeValid(inst.begin));
    SummariseRegion(g, inst, summary, currentState.value, old(g.kinds), old(g.inputs));
    return Pass;
  }

  /**
   * What linking a summary node in before `begin` does, node by node: the summary node
   * `|successors0|` leads to `begin` and takes over its predecessor, whose slot naming `begin`
   * now names the summary node; no other node's slots or predecessor change.
   */
  lemma LinkedSlots(successors0: seq<seq<Option<NodeId>>>, predecessor0: seq<Option<NodeId>>, begin: NodeId)
    requires |successors0| == |predecessor0| && begin < |successors0|
    requires predecessor0[begin].Some? ==> predecessor0[begin].value < |successors0|
    ensures var count := |successors0|;
      var pred := predecessor0[begin];
      var s := SlotsBefore(successors0 + [[None]], predecessor0 + [None], begin, count);
      var p := PredecessorsBefore(successors0 + [[None]], predecessor0 + [None], begin, count);
      && |s| == |p| == count + 1
      && s[count] == [Some(begin)]
      && p[begin] == Some(count)
      && p[count] == (if pred.Some? && Some(begin) in successors0[pred.value] then pred else None)
      && (forall q :: pred == Some(q) ==> s[q] == ReplaceFirst(successors0[q], Some(begin), Some(count)))
      && (forall m :: 0 <= m < count && Some(m) != pred ==> s[m] == successors0[m])
      && (forall m :: 0 <= m < count && m != begin ==> p[m] == predecessor0[m])
  {
    var count := |successors0|;
    forall m | 0 <= m < count
      ensures (successors0 + [[None]])[m] == successors0[m] && (predecessor0 + [None])[m] == predecessor0[m]
    {
    }
  }

  /** The summary node is added and linked in just before the begin marker. */
  method LinkSummary(g: StructuredGraph, begin: NodeId) returns (summary: NodeId)
    requires g.Valid() && begin < |g.kinds| && g.kinds[begin].InstrumentationBegin?
    modifies g`kinds, g`inputs, g`successors, g`predecessor, g`live
    ensures g.Valid() && summary == old(|g.kinds|)
    ensures g.kinds == old(g.kinds) + [Instrumentation(old(g.kinds[begin]).anchored, old(g.kinds[begin]).target)]
    ensures g.inputs == old(g.inputs) + [[]]
    ensures g.live == old(g.live) + {summary}
    ensures g.successors == SlotsBefore(old(g.successors) + [[None]], old(g.predecessor) + [None], begin, summary)
    ensures g.predecessor == PredecessorsBefore(old(g.successors) + [[None]], old(g.predecessor) + [None], begin, summary)
  {
    assert g.NodeValid(begin);
    var kind := g.kinds[begin];
    summary := g.Add(Instrumentation(kind.anchored, kind.target), [], 1);
    assert g.successors[summary] == [None];
    assert g.successors == old(g.successors) + [[None]];
    g.AddBeforeFixed(begin, summary);
  }

  /**
   * The summary node gets a fresh frame state that keeps only the outer state of the begin
   * marker's state `state`, and the copy of the region as its sub-graph; `kinds0` and
   * `inputs0` are the node kinds and inputs before the summary node was added.
   */
  method SummariseRegion(g: StructuredGraph, inst: Region, summary: NodeId, state: NodeId,
                         ghost kinds0: seq<NodeKind>, ghost inputs0: seq<seq<Edge>>)
    requires g.Valid() && kinds0 <= g.kinds && summary == |kinds0| && |g.kinds| == summary + 1
    requires g.inputs == inputs0 + [[]]
    requires inst.begin < |kinds0| && state < |kinds0|
    requires summary !in inst.nodes && forall v :: v in inst.nodes ==> v < |kinds0|
    requires forall v :: v in inst.nodes ==> EdgesInRange(inputs0[v], |kinds0|)
    requires StateAfter(inputs0, inst.begin) == Some(state)
    modifies g`kinds, g`inputs, g`successors, g`predecessor, g`live, g`instrumentationGraphs
    ensures g.Valid()
    ensures g.kinds == old(g.kinds) + [FrameState]
    ensures g.live == old(g.live) + {old(|g.kinds|)}
    ensures g.successors == old(g.successors) + [[]]
    ensures g.predecessor == old(g.predecessor) + [None]
    ensures Summarised(g.inputs, g.instrumentationGraphs, kinds0, inputs0, old(g.instrumentationGraphs),
                       old(g.Next(inst.begin)), inst)
  {
    var newState := AddOuterState(g, summary, state);
    assert g.Next(inst.begin) == old(g.Next(inst.begin)) by {
      assert g.successors[inst.begin] == old(g.successors[inst.begin]);
    }
    ghost var added := g.inputs;
    AppendedInputs(inputs0, Edge(State, newState), OuterFrameState(old(g.inputs[state])));
    AttachSubGraph(g, inst, summary, kinds0, inputs0, [[Edge(State, newState)], OuterFrameState(old(g.inputs[state]))]);
    SummarisedFrom(g.inputs, g.instrumentationGraphs, kinds0, inputs0, old(g.instrumentationGraphs),
                   old(g.Next(inst.begin)), inst, state, old(g.inputs), added);
  }

  /**
   * Adding the outer frame state after the summary node and then attaching the sub-graph, with
   * the weak dependencies on its parameters, leaves the summary as `Summarised` states it.
   */
  lemma SummarisedFrom(inputs: seq<seq<Edge>>, graphs: map<NodeId, InstrumentationGraph>,
                       kinds0: seq<NodeKind>, inputs0: seq<seq<Edge>>, graphs0: map<NodeId, InstrumentationGraph>,
                       startNext: Option<NodeId>, inst: Region, state: NodeId,
                       inputs1: seq<seq<Edge>>, added: seq<seq<Edge>>)
    requires |inputs0| == |kinds0| && inst.begin < |kinds0| && state < |kinds0|
    requires StateAfter(inputs0, inst.begin) == Some(state)
    requires inputs1 == inputs0 + [[]]
    requires added == (inputs1 + [OuterFrameState(inputs1[state])])[|kinds0| := [Edge(State, |kinds0| + 1)]]
    requires graphs == graphs0[|kinds0| := InstrumentationGraph(FirstMet(Walk(kinds0, inputs0, inst.nodes, |kinds0|)),
                                                                inst.nodes, startNext, StateAfter(added, inst.begin), inst.end)]
    requires inputs == added[|kinds0| := added[|kinds0|] + WeakDependencies(graphs[|kinds0|].parameters)]
    ensures Summarised(inputs, graphs, kinds0, inputs0, graphs0, startNext, inst)
  {
    assert inputs1[state] == inputs0[state];
    AppendedInputs(inputs0, Edge(State, |kinds0| + 1), OuterFrameState(inputs0[state]));
    assert InputsOf(added, inst.begin) == InputsOf(inputs0, inst.begin);
  }

  /**
   * The inputs after the summary node `|inputs0|`, appended with no inputs, is given the
   * state edge `e` and its frame state `|inputs0| + 1` with inputs `outer` is appended, and
   * then the summary node gets further inputs `weak`.
   */
  lemma AppendedInputs(inputs0: seq<seq<Edge>>, e: Edge, outer: seq<Edge>)
    ensures (inputs0 + [[]] + [outer])[|inputs0| := [e]] == inputs0 + [[e], outer]
    ensures forall weak :: (inputs0 + [[e], outer])[|inputs0| := [e] + weak] == inputs0 + [[e] + weak, outer]
  {
  }

  /** The summary node is handed the copy of the region and depends weakly on its outside values. */
  method AttachSubGraph(g: StructuredGraph, inst: Region, summary: NodeId,
                        ghost kinds0: seq<NodeKind>, ghost inputs0: seq<seq<Edge>>, ghost added: seq<seq<Edge>>)
    requires g.Valid() && summary < |g.kinds| && inst.begin < |g.kinds|
    requires summary !in inst.nodes && summary != inst.begin
    requires |inputs0| == |kinds0| && g.inputs == inputs0 + added
    requires forall v :: v in inst.nodes ==> v < |kinds0|
    requires forall v :: v in inst.nodes ==> EdgesInRange(inputs0[v], |kinds0|)
    requires kinds0 <= g.kinds
    modifies g`inputs, g`instrumentationGraphs
    ensures g.Valid()
    ensures g.instrumentationGraphs == old(g.instrumentationGraphs)[summary := InstrumentationGraph(
              FirstMet(Walk(kinds0, inputs0, inst.nodes, |kinds0|)), inst.nodes,
              old(g.Next(inst.begin)), StateAfter(old(g.inputs), inst.begin), inst.end)]
    ensures g.inputs == old(g.inputs)[summary := old(g.inputs[summary]) + WeakDependencies(g.instrumentationGraphs[summary].parameters)]
  {
    ghost var kinds, inputs := g.kinds, g.inputs;
    assert forall v :: v in inst.nodes ==> inputs[v] == inputs0[v];
    var sub := GenInstrumentationGraph(g, inst, summary);
    WalkStable(kinds0, inputs0, kinds, inputs, inst.nodes, |kinds|);
    g.SetInstrumentationGraph(summary, sub);
  }

  /**
   * The new FrameState, built from the outer state of `state` alone, is added and becomes the
   * only input of the summary node, which had none.
   */
  method AddOuterState(g: StructuredGraph, summary: NodeId, state: NodeId) returns (newState: NodeId)
    requires g.Valid() && summary < |g.kinds| && state < |g.kinds| && g.inputs[summary] == []
    modifies g`kinds, g`inputs, g`successors, g`predecessor, g`live
    ensures g.Valid() && newState == old(|g.kinds|)
    ensures g.kinds == old(g.kinds) + [FrameState]
    ensures g.live == old(g.live) + {newState}
    ensures g.successors == old(g.successors) + [[]]
    ensures g.predecessor == old(g.predecessor) + [None]
    ensures g.inputs == (old(g.inputs) + [OuterFrameState(old(g.inputs[state]))])[summary := [Edge(State, newState)]]
  {
    assert g.NodeValid(state);
    // The new state keeps the outer frame state and drops values, locks and mappings.
    newState := g.Add(FrameState, OuterFrameState(g.inputs[state]), 0);
    assert |g.successors[newState]| == 0;
    assert g.successors == old(g.successors) + [[]];
    assert g.inputs[summary] == [] && [] + [Edge(State, newState)] == [Edge(State, newState)];
    g.AppendInput(summary, Edge(State, newState));
  }

  /** The input edges of the region's nodes point into the graph. */
  lemma RegionInputsInRange(g: StructuredGraph, nodes: set<NodeId>)
    requires g.Valid() && forall v :: v in nodes ==> v < |g.kinds|
    ensures forall v :: v in nodes ==> v < |g.inputs| && EdgesInRange(g.inputs[v], |g.kinds|)
  {
    forall v | v in nodes
      ensures v < |g.inputs| && EdgesInRange(g.inputs[v], |g.kinds|)
    {
      assert g.NodeValid(v);
    }
  }

  /**
   * The successor slots after extracting the region `inst` from a graph of `count` nodes
   * whose successor slots and predecessors were `successors0` and `predecessor0`, where `next`
   * is the end marker's next node there: the end marker's next slot is cleared. An
   * unobserved marker's predecessor now points at `next` where it pointed at the marker; an
   * observed marker's predecessor points at the summary node `count` instead, and the summary
   * node leads to `next`. No other node's slots change.
   */
  ghost predicate Unlinked(successors: seq<seq<Option<NodeId>>>,
                           successors0: seq<seq<Option<NodeId>>>, predecessor0: seq<Option<NodeId>>,
                           count: nat, inst: Region, observed: bool)
  {
    var pred := if inst.begin < |predecessor0| then predecessor0[inst.begin] else None;
    var next := NextIn(successors0, inst.end);
    && |successors| == |successors0| + (if observed then 2 else 0)
    && inst.end < |successors| && successors[inst.end] == [None]
    && (pred.Some? && pred.value != inst.end && (observed || next != Some(inst.begin)) ==>
          && pred.value < |successors0|
          && successors[pred.value]
             == ReplaceFirst(successors0[pred.value], Some(inst.begin), if observed then Some(count) else next))
    && (observed ==>
          && count < |successors|
          && (pred != Some(inst.end) && next != Some(inst.begin) ==> successors[count] == [next]))
    && (forall m :: 0 <= m < |successors0| && m != inst.end && Some(m) != pred ==> successors[m] == successors0[m])
  }

  /**
   * The data side of summarising the region `inst` of a graph whose node kinds, inputs and
   * sub-graphs were `kinds0`, `inputs0` and `graphs0`, where the begin marker's next node was
   * `startNext` once the summary node was linked in: the summary node `|kinds0|` carries the
   * copy of the region, and depends on its new frame state `|kinds0| + 1` and weakly on the
   * region's outside values; the new frame state holds only the outer state of the begin
   * marker's state; no other node's inputs or sub-graph change.
   */
  ghost predicate Summarised(inputs: seq<seq<Edge>>, graphs: map<NodeId, InstrumentationGraph>,
                             kinds0: seq<NodeKind>, inputs0: seq<seq<Edge>>, graphs0: map<NodeId, InstrumentationGraph>,
                             startNext: Option<NodeId>, inst: Region)
  {
    var summary := |kinds0|;
    var parameters := FirstMet(Walk(kinds0, inputs0, inst.nodes, summary));
    && |inputs0| == summary
    && StateAfter(inputs0, inst.begin).Some?
    && graphs == graphs0[summary := InstrumentationGraph(parameters, inst.nodes, startNext,
                                                         StateAfter(inputs0, inst.begin), inst.end)]
    && inputs == inputs0 + [[Edge(State, summary + 1)] + WeakDependencies(parameters),
                            OuterFrameState(InputsOf(inputs0, StateAfter(inputs0, inst.begin).value))]
  }

  /**
   * The successor slots after extracting the region `inst` from a graph of `count` nodes with
   * successor slots `successors0` and predecessors `predecessor0`: for an observed marker the
   * summary node `count` is added and linked in before the begin marker and its frame state
   * `count + 1` added, then the region is unlinked.
   */
  function SlotsAfter(successors0: seq<seq<Option<NodeId>>>, predecessor0: seq<Option<NodeId>>,
                      count: nat, inst: Region, observed: bool): seq<seq<Option<NodeId>>>
  {
    if observed then
      UnlinkedSlots(SlotsBefore(successors0 + [[None]], predecessor0 + [None], inst.begin, count) + [[]],
                    PredecessorsBefore(successors0 + [[None]], predecessor0 + [None], inst.begin, count) + [None], inst)
    else UnlinkedSlots(successors0, predecessor0, inst)
  }

  /** The predecessors after extracting the region `inst`, as SlotsAfter. */
  function PredecessorsAfter(successors0: seq<seq<Option<NodeId>>>, predecessor0: seq<Option<NodeId>>,
                             count: nat, inst: Region, observed: bool): seq<Option<NodeId>>
  {
    if observed then
      UnlinkedPredecessors(SlotsBefore(successors0 + [[None]], predecessor0 + [None], inst.begin, count) + [[]],
                           PredecessorsBefore(successors0 + [[None]], predecessor0 + [None], inst.begin, count) + [None], inst)
    else UnlinkedPredecessors(successors0, predecessor0, inst)
  }

  /**
   * What extracting the region `inst` leaves behind: the graph whose node kinds, inputs,
   * successor slots, predecessors, live nodes and sub-graphs were `kinds0`, `inputs0`,
   * `successors0`, `predecessor0`, `live0` and `graphs0` now has `kinds`, `inputs`,
   * `successors`, `predecessor`, `live` and `graphs`, as ExtractedEdges says, and the begin
   * marker and the control set are dead while, for an observed marker, the summary node and
   * its frame state are live.
   */
  ghost predicate Extracted(kinds: seq<NodeKind>, inputs: seq<seq<Edge>>, successors: seq<seq<Option<NodeId>>>,
                            predecessor: seq<Option<NodeId>>, live: set<NodeId>, graphs: map<NodeId, InstrumentationGraph>,
                            kinds0: seq<NodeKind>, inputs0: seq<seq<Edge>>,
                            successors0: seq<seq<Option<NodeId>>>, predecessor0: seq<Option<NodeId>>,
                            live0: set<NodeId>, graphs0: map<NodeId, InstrumentationGraph>,
                            inst: Region, observed: bool)
  {
    && ExtractedEdges(kinds, inputs, successors, predecessor, graphs, kinds0, inputs0, successors0, predecessor0, graphs0, inst, observed)
    && live == live0 + (if observed then {|kinds0|, |kinds0| + 1} else {}) - ({inst.begin} + inst.controlNodes)
  }

  /**
   * The nodes, edges and sub-graphs an extraction of `inst` leaves: the slots and
   * predecessors of SlotsAfter and PredecessorsAfter, which are Unlinked and, for an observed
   * marker, the summary node and its frame state added and Summarised; for an unobserved
   * marker no node, input or sub-graph is added.
   */
  ghost predicate ExtractedEdges(kinds: seq<NodeKind>, inputs: seq<seq<Edge>>, successors: seq<seq<Option<NodeId>>>,
                                 predecessor: seq<Option<NodeId>>, graphs: map<NodeId, InstrumentationGraph>,
                                 kinds0: seq<NodeKind>, inputs0: seq<seq<Edge>>,
                                 successors0: seq<seq<Option<NodeId>>>, predecessor0: seq<Option<NodeId>>,
                                 graphs0: map<NodeId, InstrumentationGraph>, inst: Region, observed: bool)
  {
    var count := |kinds0|;
    && inst.begin < count && kinds0[inst.begin].InstrumentationBegin?
    && kinds == kinds0 + (if observed then [Instrumentation(kinds0[inst.begin].anchored, kinds0[inst.begin].target), FrameState] else [])
    && successors == SlotsAfter(successors0, predecessor0, count, inst, observed)
    && predecessor == PredecessorsAfter(successors0, predecessor0, count, inst, observed)
    && Unlinked(successors, successors0, predecessor0, count, inst, observed)
    && (observed ==>
          Summarised(inputs, graphs, kinds0, inputs0, graphs0,
                     NextIn(SlotsBefore(successors0 + [[None]], predecessor0 + [None], inst.begin, count), inst.begin), inst))
    && (!observed ==> inputs == inputs0 && graphs == graphs0)
  }

  /**
   * Attaching the summary (from the graph before to `kinds`, `inputs`, `successors1`,
   * `predecessor1` and `graphs`) and then unlinking the region (to `successors` and
   * `predecessor`) leaves the edges of an observed extraction.
   */
  lemma ObservedExtracted(kinds: seq<NodeKind>, inputs: seq<seq<Edge>>,
                          successors1: seq<seq<Option<NodeId>>>, predecessor1: seq<Option<NodeId>>,
                          successors: seq<seq<Option<NodeId>>>, predecessor: seq<Option<NodeId>>,
                          graphs: map<NodeId, InstrumentationGraph>,
                          kinds0: seq<NodeKind>, inputs0: seq<seq<Edge>>,
                          successors0: seq<seq<Option<NodeId>>>, predecessor0: seq<Option<NodeId>>,
                          graphs0: map<NodeId, InstrumentationGraph>, inst: Region)
    requires inst.begin < |kinds0| && kinds0[inst.begin].InstrumentationBegin?
    requires kinds == kinds0 + [Instrumentation(kinds0[inst.begin].anchored, kinds0[inst.begin].target), FrameState]
    requires successors1 == SlotsBefore(successors0 + [[None]], predecessor0 + [None], inst.begin, |kinds0|) + [[]]
    requires predecessor1 == PredecessorsBefore(successors0 + [[None]], predecessor0 + [None], inst.begin, |kinds0|) + [None]
    requires Summarised(inputs, graphs, kinds0, inputs0, graphs0,
                        NextIn(SlotsBefore(successors0 + [[None]], predecessor0 + [None], inst.begin, |kinds0|), inst.begin), inst)
    requires successors == UnlinkedSlots(successors1, predecessor1, inst)
    requires predecessor == UnlinkedPredecessors(successors1, predecessor1, inst)
    requires |successors0| == |predecessor0| == |kinds0| && inst.end < |kinds0|
    requires predecessor0[inst.begin].Some? ==> predecessor0[inst.begin].value < |kinds0|
    ensures ExtractedEdges(kinds, inputs, successors, predecessor, graphs,
                           kinds0, inputs0, successors0, predecessor0, graphs0, inst, true)
  {
    SlotsAfterUnlinked(successors0, predecessor0, |kinds0|, inst, true);
  }

  /**
   * The slots an extraction leaves are Unlinked: the successor side of SlotsAfter, for an
   * unobserved and an observed marker alike.
   */
  lemma SlotsAfterUnlinked(successors0: seq<seq<Option<NodeId>>>, predecessor0: seq<Option<NodeId>>,
                           count: nat, inst: Region, observed: bool)
    requires |successors0| == |predecessor0| == count && inst.begin < count && inst.end < count
    requires predecessor0[inst.begin].Some? ==> predecessor0[inst.begin].value < count
    ensures Unlinked(SlotsAfter(successors0, predecessor0, count, inst, observed), successors0, predecessor0, count, inst, observed)
  {
    if observed {
      ObservedSlotsUnlinked(successors0, predecessor0, count, inst);
    } else {
      UnobservedSlotsUnlinked(successors0, predecessor0, count, inst);
    }
  }

  lemma UnobservedSlotsUnlinked(successors0: seq<seq<Option<NodeId>>>, predecessor0: seq<Option<NodeId>>,
                                count: nat, inst: Region)
    requires |successors0| == |predecessor0| == count && inst.begin < count && inst.end < count
    requires predecessor0[inst.begin].Some? ==> predecessor0[inst.begin].value < count
    ensures Unlinked(SlotsAfter(successors0, predecessor0, count, inst, false), successors0, predecessor0, count, inst, false)
  {
    var next := NextIn(successors0, inst.end);
    var cleared := successors0[inst.end := [None]];
    var q1 := UpdatePredecessor(predecessor0, inst.end, next, None);
    assert SlotsAfter(successors0, predecessor0, count, inst, false) == RedirectedSlots(cleared, q1, inst.begin, next);
  }

  lemma ObservedSlotsUnlinked(successors0: seq<seq<Option<NodeId>>>, predecessor0: seq<Option<NodeId>>,
                              count: nat, inst: Region)
    requires |successors0| == |predecessor0| == count && inst.begin < count && inst.end < count
    requires predecessor0[inst.begin].Some? ==> predecessor0[inst.begin].value < count
    ensures Unlinked(SlotsAfter(successors0, predecessor0, count, inst, true), successors0, predecessor0, count, inst, true)
  {
    var pred := predecessor0[inst.begin];
    var next := NextIn(successors0, inst.end);
    var s := SlotsBefore(successors0 + [[None]], predecessor0 + [None], inst.begin, count) + [[]];
    var q := PredecessorsBefore(successors0 + [[None]], predecessor0 + [None], inst.begin, count) + [None];
    assert q[inst.begin] == Some(count) && s[count] == [Some(inst.begin)];
    forall m | 0 <= m < count && Some(m) != pred
      ensures s[m] == successors0[m]
    {
      assert (successors0 + [[None]])[m] == successors0[m];
    }
    if pred.Some? {
      assert (successors0 + [[None]])[pred.value] == successors0[pred.value];
    }
    if pred != Some(inst.end) {
      assert s[inst.end] == successors0[inst.end];
    }
    var next' := NextIn(s, inst.end);
    var cleared := s[inst.end := [None]];
    var q1 := UpdatePredecessor(q, inst.end, next', None);
    var r := SlotsAfter(successors0, predecessor0, count, inst, true);
    assert r == RedirectedSlots(cleared, q1, inst.begin, next');
    if pred != Some(inst.end) && next != Some(inst.begin) {
      assert next' == next;
      assert q1[inst.begin] == Some(count);
      assert r[count] == ReplaceFirst([Some(inst.begin)], Some(inst.begin), next);
    }
  }

  /**
   * The predecessor links an extraction leaves when the begin marker's predecessor `p` leads
   * to it and the end marker leads to `x`: `x` takes over `p` as its predecessor, or, for an
   * observed marker, the summary node `count` sits between them; the begin marker has no
   * predecessor left, and every other node keeps its own.
   */
  lemma {:induction false} ExtractedPredecessors(successors0: seq<seq<Option<NodeId>>>, predecessor0: seq<Option<NodeId>>,
                                                 count: nat, inst: Region, observed: bool, p: NodeId, x: NodeId)
    requires |successors0| == |predecessor0| == count && inst.begin < count && inst.end < count
    requires predecessor0[inst.begin] == Some(p) && p < count && p != inst.end && Some(inst.begin) in successors0[p]
    requires NextIn(successors0, inst.end) == Some(x) && x < count && x != inst.begin
    ensures var r := PredecessorsAfter(successors0, predecessor0, count, inst, observed);
      && |r| == count + (if observed then 2 else 0)
      && r[inst.begin] == None
      && r[x] == (if observed then Some(count) else Some(p))
      && (observed ==> r[count] == Some(p) && r[count + 1] == None)
      && forall m :: 0 <= m < count && m != inst.begin && m != x ==> r[m] == predecessor0[m]
  {
    var s, q := successors0, predecessor0;
    if observed {
      var s' := SlotsBefore(successors0 + [[None]], predecessor0 + [None], inst.begin, count) + [[]];
      var q' := PredecessorsBefore(successors0 + [[None]], predecessor0 + [None], inst.begin, count) + [None];
      assert (successors0 + [[None]])[p] == successors0[p];
      assert s'[inst.end] == successors0[inst.end];
      assert s'[count] == [Some(inst.begin)];
      assert q'[inst.begin] == Some(count) && q'[count] == Some(p);
      s, q := s', q';
    }
    var cleared := s[inst.end := [None]];
    var q1 := UpdatePredecessor(q, inst.end, Some(x), None);
    assert NextIn(s, inst.end) == Some(x);
    var owner := if observed then count else p;
    assert q1[inst.begin] == Some(owner);
    assert Some(inst.begin) in cleared[owner];
  }

  /** Some end marker is control-reachable from `next`. */
  ghost predicate EndReachable(kinds: seq<NodeKind>, successors: seq<seq<Option<NodeId>>>, next: Option<NodeId>)
  {
    exists v :: Flood.Reachable(AsList(next), ControlStep(kinds, successors), v) && IsInstrumentationEndAt(kinds, v)
  }

  /**
   * The body of the phase's loop for one begin marker: the region is found, summarised when
   * the marker is observed, and unlinked. Fails, changing nothing, when no end marker is
   * reachable, and fails, leaving the summary node linked in, when the marker is observed and
   * has no state. On success `inst` is the region the two floods found, with the end marker
   * the control flood visited last, and that region is extracted.
   */
  method ExtractOne(g: StructuredGraph, begin: NodeId) returns (outcome: Outcome<PhaseError>, inst: Region)
    requires g.Valid() && begin < |g.kinds| && g.kinds[begin].InstrumentationBegin?
    modifies g`kinds, g`inputs, g`successors, g`predecessor, g`live, g`instrumentationGraphs
    ensures g.Valid()
    ensures old(g.kinds) <= g.kinds
    ensures forall n :: old(|g.kinds|) <= n < |g.kinds| ==> g.kinds[n].Instrumentation? || g.kinds[n].FrameState?
    ensures forall n :: n in g.live && n < old(|g.kinds|) ==> n in old(g.live)
    ensures outcome.Fail? ==> outcome.error in {MissingInstrumentationEnd(begin), MissingFrameState(begin)}
    ensures outcome == Fail(MissingInstrumentationEnd(begin)) <==>
      !EndReachable(old(g.kinds), old(g.successors), old(g.Next(begin)))
    ensures outcome == Fail(MissingFrameState(begin)) <==>
      && EndReachable(old(g.kinds), old(g.successors), old(g.Next(begin)))
      && Observed(old(g.kinds[begin])) && StateAfter(old(g.inputs), begin).None?
    ensures outcome == Fail(MissingInstrumentationEnd(begin)) ==>
      && g.kinds == old(g.kinds) && g.inputs == old(g.inputs) && g.successors == old(g.successors)
      && g.predecessor == old(g.predecessor) && g.live == old(g.live)
      && g.instrumentationGraphs == old(g.instrumentationGraphs)
    ensures outcome == Fail(MissingFrameState(begin)) ==>
      && g.kinds == old(g.kinds) + [Instrumentation(old(g.kinds[begin]).anchored, old(g.kinds[begin]).target)]
      && g.inputs == old(g.inputs) + [[]] && g.live == old(g.live) + {old(|g.kinds|)}
      && g.instrumentationGraphs == old(g.instrumentationGraphs)
    ensures outcome == Fail(MissingFrameState(begin)) ==>
      && g.successors == SlotsBefore(old(g.successors) + [[None]], old(g.predecessor) + [None], begin, old(|g.kinds|))
      && g.predecessor == PredecessorsBefore(old(g.successors) + [[None]], old(g.predecessor) + [None], begin, old(|g.kinds|))
    ensures outcome.Pass? ==>
      && inst.begin == begin
      && FloodsOf(old(g.kinds), old(g.successors), old(g.inputs), old(g.Next(begin)), begin, inst.controlNodes, inst.nodes)
      && (forall v :: v in inst.controlNodes <==> v in inst.controlOrder)
      && Flood.NoDuplicates(inst.controlOrder)
      && Flood.Provenance(AsList(old(g.Next(begin))), ControlStep(old(g.kinds), old(g.successors)), inst.controlOrder)
      && LastInstrumentationEnd(old(g.kinds), inst.controlOrder) == Some(inst.end)
      && IsInstrumentationEndAt(old(g.kinds), inst.end)
      && Extracted(g.kinds, g.inputs, g.successors, g.predecessor, g.live, g.instrumentationGraphs,
                   old(g.kinds), old(g.inputs), old(g.successors), old(g.predecessor), old(g.live),
                   old(g.instrumentationGraphs), inst, Observed(old(g.kinds[begin])))
  {
    var r := NewInstrumentation(g, begin);
    if r.Failure? {
      return Fail(r.error), Region(begin, begin, {}, [], {});
    }
    inst := r.value;
    assert Flood.Reachable(AsList(g.Next(begin)), ControlStep(g.kinds, g.successors), inst.end);
    outcome := ExtractRegion(g, inst);
  }

  /** ExtractOne once the region of the begin marker `inst.begin` is known. */
  method ExtractRegion(g: StructuredGraph, inst: Region) returns (outcome: Outcome<PhaseError>)
    requires g.Valid() && inst.begin < |g.kinds| && g.kinds[inst.begin].InstrumentationBegin?
    requires inst.end < |g.kinds| && forall v :: v in inst.nodes ==> v < |g.kinds|
    modifies g`kinds, g`inputs, g`successors, g`predecessor, g`live, g`instrumentationGraphs
    ensures g.Valid()
    ensures old(g.kinds) <= g.kinds
    ensures forall n :: old(|g.kinds|) <= n < |g.kinds| ==> g.kinds[n].Instrumentation? || g.kinds[n].FrameState?
    ensures forall n :: n in g.live && n < old(|g.kinds|) ==> n in old(g.live)
    ensures outcome.Fail? <==> Observed(old(g.kinds[inst.begin])) && StateAfter(old(g.inputs), inst.begin).None?
    ensures outcome.Fail? ==> outcome.error == MissingFrameState(inst.begin)
    ensures outcome.Fail? ==>
      && g.kinds == old(g.kinds) + [Instrumentation(old(g.kinds[inst.begin]).anchored, old(g.kinds[inst.begin]).target)]
      && g.inputs == old(g.inputs) + [[]] && g.live == old(g.live) + {old(|g.kinds|)}
      && g.instrumentationGraphs == old(g.instrumentationGraphs)
    ensures outcome.Fail? ==>
      && g.successors == SlotsBefore(old(g.successors) + [[None]], old(g.predecessor) + [None], inst.begin, old(|g.kinds|))
      && g.predecessor == PredecessorsBefore(old(g.successors) + [[None]], old(g.predecessor) + [None], inst.begin, old(|g.kinds|))
    ensures outcome.Pass? ==>
      Extracted(g.kinds, g.inputs, g.successors, g.predecessor, g.live, g.instrumentationGraphs,
                old(g.kinds), old(g.inputs), old(g.successors), old(g.predecessor), old(g.live),
                old(g.instrumentationGraphs), inst, Observed(old(g.kinds[inst.begin])))
  {
    if Observed(g.kinds[inst.begin]) {
      outcome := ExtractObserved(g, inst);
    } else {
      Unlink(g, inst);
      outcome := Pass;
    }
  }

  /** ExtractRegion for an observed begin marker: the summary is attached, then the region unlinked. */
  method ExtractObserved(g: StructuredGraph, inst: Region) returns (outcome: Outcome<PhaseError>)
    requires g.Valid() && inst.begin < |g.kinds| && g.kinds[inst.begin].InstrumentationBegin?
    requires Observed(g.kinds[inst.begin])
    requires inst.end < |g.kinds| && forall v :: v in inst.nodes ==> v < |g.kinds|
    modifies g`kinds, g`inputs, g`successors, g`predecessor, g`live, g`instrumentationGraphs
    ensures g.Valid()
    ensures var kind := old(g.kinds[inst.begin]);
      g.kinds == old(g.kinds) + (if outcome.Pass? then [Instrumentation(kind.anchored, kind.target), FrameState]
                                 else [Instrumentation(kind.anchored, kind.target)])
    ensures forall n :: n in g.live && n < old(|g.kinds|) ==> n in old(g.live)
    ensures outcome.Fail? <==> StateAfter(old(g.inputs), inst.begin).None?
    ensures outcome.Fail? ==> outcome.error == MissingFrameState(inst.begin)
    ensures outcome.Fail? ==>
      && g.inputs == old(g.inputs) + [[]] && g.live == old(g.live) + {old(|g.kinds|)}
      && g.instrumentationGraphs == old(g.instrumentationGraphs)
    ensures outcome.Pass? ==>
      Extracted(g.kinds, g.inputs, g.successors, g.predecessor, g.live, g.instrumentationGraphs,
                old(g.kinds), old(g.inputs), old(g.successors), old(g.predecessor), old(g.live),
                old(g.instrumentationGraphs), inst, true)
    ensures outcome.Fail? ==>
      && g.successors == SlotsBefore(old(g.successors) + [[None]], old(g.predecessor) + [None], inst.begin, old(|g.kinds|))
      && g.predecessor == PredecessorsBefore(old(g.successors) + [[None]], old(g.predecessor) + [None], inst.begin, old(|g.kinds|))
  {
    assert g.NodeValid(inst.end) && g.NodeValid(inst.begin);
    outcome := AttachSummary(g, inst);
    if outcome.Fail? {
      return;
    }
    label Attached:
    Unlink(g, inst);
    ObservedExtracted(g.kinds, g.inputs, old@Attached(g.successors), old@Attached(g.predecessor),
                      g.successors, g.predecessor, g.instrumentationGraphs,
                      old(g.kinds), old(g.inputs), old(g.successors), old(g.predecessor),
                      old(g.instrumentationGraphs), inst);
  }

  /**
   * The inputs of a frame state built from `currentState.outerFrameState()` alone, where `es`
   * are the inputs of `currentState`: the outer state is a frame state's first State input
   * (its escape-object mappings, also State inputs, come after it and are dropped), and the
   * new state has no values, locks or mappings.
   */
  function OuterFrameState(es: seq<Edge>): (r: seq<Edge>)
    ensures |r| <= 1
    ensures r == [] <==> forall e :: e in es ==> e.inputType != State
    ensures r != [] ==> r[0].inputType == State
  {
    var outer := FirstOfType(es, State);
    if outer.Some? then [Edge(State, outer.value)] else []
  }

  /** The one input `OuterFrameState` keeps is the first State input of `es`. */
  lemma OuterFrameStateFirst(es: seq<Edge>)
    ensures var r := OuterFrameState(es);
      r != [] ==> exists i :: 0 <= i < |es| && es[i] == r[0] && forall j :: 0 <= j < i ==> es[j].inputType != State
  {
    FirstOfTypeIsFirst(es, State);
  }

  /**
   * ExtractInstrumentationPhase.run: every live begin marker of the graph is extracted in
   * node order. Nodes the phase adds are summary nodes and frame states, never begin
   * markers, so walking the original node numbers meets every begin marker the source's
   * iteration meets. On success no begin marker is left in the graph; a failure names a
   * begin marker of the original graph, still live, that has no reachable end marker, or
   * that is observed and has no state.
   */
  method Run(g: StructuredGraph) returns (outcome: Outcome<PhaseError>)
    requires g.Valid()
    modifies g
    ensures g.Valid()
    ensures old(g.kinds) <= g.kinds
    ensures outcome.Pass? ==> forall n :: 0 <= n < |g.kinds| && n in g.live ==> !g.kinds[n].InstrumentationBegin?
    ensures outcome.Fail? ==>
      var b := outcome.error.begin;
      && b < old(|g.kinds|) && b in old(g.live) && old(g.kinds)[b].InstrumentationBegin?
      && b in g.live
      && (outcome.error.MissingInstrumentationEnd? ==> !EndReachable(g.kinds, g.successors, g.Next(b)))
      && (outcome.error.MissingFrameState? ==> Observed(g.kinds[b]) && StateAfter(g.inputs, b).None?)
  {
    var count := |g.kinds|;
    for id := 0 to count
      invariant g.Valid() && old(g.kinds) <= g.kinds
      invariant forall n :: count <= n < |g.kinds| ==> !g.kinds[n].InstrumentationBegin?
      invariant forall n :: 0 <= n < id && n in g.live ==> !g.kinds[n].InstrumentationBegin?
      invariant forall n :: 0 <= n < count && n in g.live ==> n in old(g.live)
    {
      if id in g.live && g.kinds[id].InstrumentationBegin? {
        var region;
        label Extract:
        outcome, region := ExtractOne(g, id);
        if outcome.Fail? {
          assert InputsOf(g.inputs, id) == InputsOf(old@Extract(g.inputs), id);
          return;
        }
      }
    }
    return Pass;
  }

  /** checkContract: the phase opts out of the framework's post-phase contract check. */
  function CheckContract(): (r: bool)
    ensures !r
  {
    false
  }
}
