/**
 * The part of the escape-analysis protocol that the virtualize callbacks of this model use:
 * Java kinds, the virtualizer's view of value nodes (virtual objects with their entries,
 * constants and other values) and the VirtualizerTool through which a node queries aliases
 * and commits its decision.
 */
module Virtualization {
  import opened Wrappers

  /** JavaKind, without widths or boxing. */
  datatype JavaKind = Boolean | Byte | Short | Char | Int | Float | Long | Double | Object | Void | Illegal

  /** The kinds that the operand stack widens to int. */
  predicate IsSubInt(k: JavaKind)
  {
    k.Boolean? || k.Byte? || k.Short? || k.Char?
  }

  /** JavaKind.getStackKind: a sub-int kind becomes Int, every other kind is its own stack kind. */
  function StackKind(k: JavaKind): (r: JavaKind)
    ensures !IsSubInt(r)
    ensures !IsSubInt(k) ==> r == k
  {
    if IsSubInt(k) then Int else k
  }

  type NodeRef = nat

  /** What the virtualizer knows of a value node. */
  datatype NodeDesc =
      /**
       * A VirtualObjectNode: the kind of each entry, and its offset table, which maps an
       * (offset, access kind) pair to the index of the entry it reads.
       */
    | VirtualObject(entryKinds: seq<JavaKind>, offsetIndex: map<(int, JavaKind), nat>)
      /** A constant of the given kind; `value` is what asJavaConstant().asLong() yields. */
    | Constant(value: int, kind: JavaKind)
      /** Any other value node, with the kind of its stamp. */
    | Other(kind: JavaKind)

  /** ValueNode.getStackKind. A virtual object is an object reference. */
  function NodeStackKind(d: NodeDesc): (r: JavaKind)
    ensures !IsSubInt(r)
  {
    match d
    case VirtualObject(_, _) => Object
    case Constant(_, k) => StackKind(k)
    case Other(k) => StackKind(k)
  }

  /**
   * VirtualObjectNode.entryIndexForOffset: the index of the entry the pair (offset, kind)
   * reads, or -1 when the offset table has none.
   */
  function EntryIndexForOffset(v: NodeDesc, offset: int, kind: JavaKind): (r: int)
    requires v.VirtualObject?
    ensures r == -1 <==> (offset, kind) !in v.offsetIndex
    ensures r != -1 ==> r == v.offsetIndex[(offset, kind)]
  {
    if (offset, kind) in v.offsetIndex then v.offsetIndex[(offset, kind)] else -1
  }

  /**
   * The state the virtualize callbacks read: the description of every node, the alias of
   * every node (getAlias answers the node itself when it has no other representative), and
   * the current entries of every virtual object.
   */
  datatype ToolView = ToolView(nodes: NodeRef -> NodeDesc, aliases: map<NodeRef, NodeRef>, entries: NodeRef -> seq<NodeRef>)
  {
    /** VirtualizerTool.getAlias. */
    function Alias(n: NodeRef): (r: NodeRef)
      ensures n !in aliases ==> r == n
    {
      if n in aliases then aliases[n] else n
    }

    /** The alias of `n` is a virtual object. */
    predicate IsVirtual(n: NodeRef)
    {
      nodes(Alias(n)).VirtualObject?
    }

    /**
     * Every virtual object has one entry per entry kind, and its offset table maps only to
     * indices of entries.
     */
    ghost predicate Valid()
    {
      forall n :: nodes(n).VirtualObject? ==>
        && |entries(n)| == |nodes(n).entryKinds|
        && forall key :: key in nodes(n).offsetIndex ==> nodes(n).offsetIndex[key] < |entries(n)|
    }
  }

  /**
   * The VirtualizerTool as the callbacks see it: a fixed view, the log of getAlias queries
   * and the number of delete requests.
   */
  class VirtualizerTool {
    const view: ToolView
    var queries: seq<NodeRef>
    var deletes: nat

    constructor (view: ToolView)
      ensures this.view == view
      ensures queries == [] && deletes == 0
    {
      this.view := view;
      queries := [];
      deletes := 0;
    }

    /** VirtualizerTool.getAlias: answers the alias of `n` and records the query. */
    method GetAlias(n: NodeRef) returns (alias: NodeRef)
      modifies this`queries
      ensures alias == view.Alias(n)
      ensures queries == old(queries) + [n]
    {
      alias := view.Alias(n);
      queries := queries + [n];
    }

    /** VirtualizerTool.delete: one more request that the current node be deleted. */
    method Delete()
      modifies this`deletes
      ensures deletes == old(deletes) + 1
    {
      deletes := deletes + 1;
    }
  }
}
