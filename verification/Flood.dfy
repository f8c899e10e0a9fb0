/**
 * The generic worklist flood of the graph layer (NodeFlood with its NodeBitMap of visited
 * nodes). A flood is seeded with a list of nodes; iterating it pops a node and lets the
 * caller add successors. A node is marked when it is added, so the visiting order is the
 * marking order and the pending worklist is always a suffix of it.
 *
 * Nodes are identified by their index in the graph's node table; `bound` is the size of that
 * table and every node a flood can reach lies below it.
 */
module Flood {

  /** A path along the successor relation. */
  ghost predicate IsPath(succ: nat -> seq<nat>, p: seq<nat>)
  {
    |p| > 0 && forall i :: 0 <= i < |p| - 1 ==> p[i + 1] in succ(p[i])
  }

  /** `v` is reached from one of the seeds along the successor relation. */
  ghost predicate Reachable(seeds: seq<nat>, succ: nat -> seq<nat>, v: nat)
  {
    exists p :: IsPath(succ, p) && p[0] in seeds && p[|p| - 1] == v
  }

  /** `s` is closed under the successor relation. */
  ghost predicate Closed(succ: nat -> seq<nat>, s: set<nat>)
  {
    forall v, w :: v in s && w in succ(v) ==> w in s
  }

  /** Every successor of a node of the table is itself a node of the table. */
  predicate Bounded(succ: nat -> seq<nat>, bound: nat)
  {
    forall v: nat :: v < bound ==> forall w :: w in succ(v) ==> w < bound
  }

  predicate NoDuplicates(s: seq<nat>)
  {
    forall i, j :: 0 <= i < j < |s| ==> s[i] != s[j]
  }

  /**
   * Every node of the visiting order is a seed or was added as a successor of a node
   * visited before it: the order is topological with respect to the edges the flood used.
   */
  ghost predicate Provenance(seeds: seq<nat>, succ: nat -> seq<nat>, order: seq<nat>)
  {
    forall i :: 0 <= i < |order| ==>
      order[i] in seeds || exists j :: 0 <= j < i && order[i] in succ(order[j])
  }

  /**
   * Runs a flood to completion and returns its visited set (the NodeBitMap) together with
   * the visiting order. The visited set is exactly the set of nodes reachable from the seeds.
   */
  method Flood(seeds: seq<nat>, succ: nat -> seq<nat>, bound: nat)
    returns (visited: set<nat>, order: seq<nat>)
    requires forall s :: s in seeds ==> s < bound
    requires Bounded(succ, bound)
    ensures forall v :: v in visited <==> v in order
    ensures forall v :: v in visited ==> v < bound
    ensures NoDuplicates(order)
    ensures forall s :: s in seeds ==> s in visited
    ensures Closed(succ, visited)
    ensures Provenance(seeds, succ, order)
    ensures forall v :: v in visited <==> Reachable(seeds, succ, v)
  {
    visited, order := AddAll({}, [], seeds, bound);
    var head := 0;
    while head < |order|
      invariant head <= |order|
      invariant forall v :: v in visited <==> v in order
      invariant |visited| == |order|
      invariant NoDuplicates(order)
      invariant forall v :: v in order ==> v < bound
      invariant forall s :: s in seeds ==> s in visited
      invariant Provenance(seeds, succ, order)
      invariant forall j, w :: 0 <= j < head && w in succ(order[j]) ==> w in visited
      decreases bound - head
    {
      RangeCardinality(visited, bound);
      var current := order[head];
      assert current in order;
      ghost var before, seen := order, visited;
      visited, order := AddAll(visited, order, succ(current), bound);
      ClosedUpTo(succ, before, seen, order, visited, head);
      ProvenanceExtended(seeds, succ, before, order, head);
      head := head + 1;
    }
    VisitedIsReachable(seeds, succ, visited, order);
  }

  /**
   * NodeFlood.addAll: adds, in list order, every node of `next` that is not yet marked.
   * The visited set and the visiting order grow together by exactly those nodes.
   */
  method AddAll(visited: set<nat>, order: seq<nat>, next: seq<nat>, bound: nat)
    returns (visited': set<nat>, order': seq<nat>)
    requires forall v :: v in visited <==> v in order
    requires |visited| == |order| && NoDuplicates(order)
    requires forall v :: v in next ==> v < bound
    requires forall v :: v in order ==> v < bound
    ensures order <= order' && NoDuplicates(order')
    ensures visited <= visited'
    ensures forall v :: v in visited' <==> v in order'
    ensures |visited'| == |order'|
    ensures forall v :: v in order' ==> v < bound
    ensures forall v :: v in next ==> v in visited'
    ensures forall i :: |order| <= i < |order'| ==> order'[i] in next
  {
    visited', order' := visited, order;
    for k := 0 to |next|
      invariant order <= order' && NoDuplicates(order')
      invariant visited <= visited'
      invariant forall v :: v in visited' <==> v in order'
      invariant |visited'| == |order'|
      invariant forall v :: v in order' ==> v < bound
      invariant forall i :: 0 <= i < k ==> next[i] in visited'
      invariant forall i :: |order| <= i < |order'| ==> order'[i] in next
    {
      assert next[k] in next;
      if next[k] !in visited' {
        visited' := visited' + {next[k]};
        order' := order' + [next[k]];
      }
    }
  }

  /** After the successors of `order[head]` are added, every node up to `head` has its successors visited. */
  lemma ClosedUpTo(succ: nat -> seq<nat>, before: seq<nat>, seen: set<nat>, order: seq<nat>, visited: set<nat>, head: nat)
    requires head < |before| && before <= order && seen <= visited
    requires forall j, w :: 0 <= j < head && w in succ(before[j]) ==> w in seen
    requires forall w :: w in succ(before[head]) ==> w in visited
    ensures forall j, w :: 0 <= j <= head && w in succ(order[j]) ==> w in visited
  {
    forall j, w | 0 <= j <= head && w in succ(order[j])
      ensures w in visited
    {
      assert order[j] == before[j];
      if j < head {
        assert w in seen;
      }
    }
  }

  /** Appending successors of a node already in the order keeps the provenance of the order. */
  lemma ProvenanceExtended(seeds: seq<nat>, succ: nat -> seq<nat>, before: seq<nat>, order: seq<nat>, head: nat)
    requires head < |before| && before <= order
    requires Provenance(seeds, succ, before)
    requires forall i :: |before| <= i < |order| ==> order[i] in succ(before[head])
    ensures Provenance(seeds, succ, order)
  {
    forall i | 0 <= i < |order|
      ensures order[i] in seeds || exists j :: 0 <= j < i && order[i] in succ(order[j])
    {
      if i >= |before| {
        assert order[head] == before[head];
        assert order[i] in succ(order[head]);
      } else {
        assert order[i] == before[i];
        if order[i] !in seeds {
          var j :| 0 <= j < i && before[i] in succ(before[j]);
          assert order[j] == before[j];
        }
      }
    }
  }

  /** A closed visited set that holds the seeds, with a provenance order, is the reachable set. */
  lemma VisitedIsReachable(seeds: seq<nat>, succ: nat -> seq<nat>, visited: set<nat>, order: seq<nat>)
    requires forall v :: v in visited <==> v in order
    requires forall s :: s in seeds ==> s in visited
    requires forall j, w :: 0 <= j < |order| && w in succ(order[j]) ==> w in visited
    requires Provenance(seeds, succ, order)
    ensures Closed(succ, visited)
    ensures forall v :: v in visited <==> Reachable(seeds, succ, v)
  {
    forall v, w | v in visited && w in succ(v)
      ensures w in visited
    {
      var j :| 0 <= j < |order| && order[j] == v;
    }
    forall v | Reachable(seeds, succ, v)
      ensures v in visited
    {
      var p :| IsPath(succ, p) && p[0] in seeds && p[|p| - 1] == v;
      PathStaysInClosed(succ, visited, p);
    }
    forall v | v in visited
      ensures Reachable(seeds, succ, v)
    {
      var i :| 0 <= i < |order| && order[i] == v;
      OrderReachable(seeds, succ, order, i);
    }
  }

  /** A set of nodes below `bound` has at most `bound` elements. */
  lemma {:induction false} RangeCardinality(s: set<nat>, bound: nat)
    requires forall v :: v in s ==> v < bound
    ensures |s| <= bound
  {
    if bound > 0 {
      RangeCardinality(s - {bound - 1}, bound - 1);
    } else {
      assert s == {};
    }
  }

  /** A path that starts in a closed set never leaves it. */
  lemma {:induction false} PathStaysInClosed(succ: nat -> seq<nat>, s: set<nat>, p: seq<nat>)
    requires IsPath(succ, p) && p[0] in s
    requires Closed(succ, s)
    ensures p[|p| - 1] in s
  {
    if |p| > 1 {
      var q := p[..|p| - 1];
      assert IsPath(succ, q);
      PathStaysInClosed(succ, s, q);
      assert p[|p| - 1] in succ(q[|q| - 1]);
    }
  }

  /** Every node of a visiting order with provenance is reachable from the seeds. */
  lemma {:induction false} OrderReachable(seeds: seq<nat>, succ: nat -> seq<nat>, order: seq<nat>, i: nat)
    requires Provenance(seeds, succ, order)
    requires i < |order|
    ensures Reachable(seeds, succ, order[i])
    decreases i
  {
    if order[i] in seeds {
      assert IsPath(succ, [order[i]]);
    } else {
      var j :| 0 <= j < i && order[i] in succ(order[j]);
      OrderReachable(seeds, succ, order, j);
      var p :| IsPath(succ, p) && p[0] in seeds && p[|p| - 1] == order[j];
      PathSnoc(succ, p, order[i]);
    }
  }

  /** A path followed by a successor of its last node is a path with the same start. */
  lemma PathSnoc(succ: nat -> seq<nat>, p: seq<nat>, v: nat)
    requires IsPath(succ, p) && v in succ(p[|p| - 1])
    ensures IsPath(succ, p + [v]) && (p + [v])[0] == p[0] && (p + [v])[|p|] == v
  {
    var q := p + [v];
    forall i | 0 <= i < |q| - 1
      ensures q[i + 1] in succ(q[i])
    {
      if i + 1 < |p| {
        assert q[i] == p[i] && q[i + 1] == p[i + 1];
      }
    }
  }

  /** The visited set of a flood is the least set that holds the seeds and is closed. */
  lemma FloodIsLeast(seeds: seq<nat>, succ: nat -> seq<nat>, visited: set<nat>, s: set<nat>)
    requires forall v :: v in visited <==> Reachable(seeds, succ, v)
    requires forall v :: v in seeds ==> v in s
    requires Closed(succ, s)
    ensures visited <= s
  {
    forall v | v in visited
      ensures v in s
    {
      var p :| IsPath(succ, p) && p[0] in seeds && p[|p| - 1] == v;
      PathStaysInClosed(succ, s, p);
    }
  }
}
