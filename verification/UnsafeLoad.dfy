/**
 * UnsafeLoadNode: a load of a value at an offset relative to an object, with no null check,
 * optionally guarded by a condition. Modelled as a value: its constructors and
 * cloneAsArrayAccess build loads, and its virtualize callback is a function of the tool's
 * view that answers the entry the load is replaced with, if any.
 */
module UnsafeLoadNode {
  import opened Wrappers
  import opened Virtualization

  /** LocationIdentity, abstracted to the memory location it names. */
  datatype LocationIdentity = AnyLocation | NamedLocation(name: string)

  /**
   * The fields of an UnsafeLoadNode: its object (`obj`) and offset inputs, its access kind and
   * location, the optional guarding condition, and the stack kind of its stamp.
   */
  datatype UnsafeLoad = UnsafeLoad(
    obj: NodeRef,
    offset: NodeRef,
    accessKind: JavaKind,
    locationIdentity: LocationIdentity,
    guardingCondition: Option<NodeRef>,
    stackKind: JavaKind)

  /** The five-argument constructor: the stamp is that of the access kind's stack kind. */
  function NewGuardedUnsafeLoad(obj: NodeRef, offset: NodeRef, accessKind: JavaKind,
                                locationIdentity: LocationIdentity, condition: Option<NodeRef>): (r: UnsafeLoad)
    ensures r.obj == obj && r.offset == offset
    ensures r.accessKind == accessKind && r.locationIdentity == locationIdentity
    ensures r.guardingCondition == condition
    ensures r.stackKind == StackKind(accessKind) && !IsSubInt(r.stackKind)
  {
    UnsafeLoad(obj, offset, accessKind, locationIdentity, condition, StackKind(accessKind))
  }

  /** The four-argument constructor: a load with no guarding condition. */
  function NewUnsafeLoad(obj: NodeRef, offset: NodeRef, accessKind: JavaKind, locationIdentity: LocationIdentity): (r: UnsafeLoad)
    ensures r.guardingCondition.None?
    ensures r.obj == obj && r.offset == offset
    ensures r.accessKind == accessKind && r.locationIdentity == locationIdentity
    ensures r.stackKind == StackKind(accessKind)
  {
    NewGuardedUnsafeLoad(obj, offset, accessKind, locationIdentity, None)
  }

  /** A load as the constructors build it: its stamp agrees with its access kind. */
  predicate WellFormed(load: UnsafeLoad)
  {
    load.stackKind == StackKind(load.accessKind)
  }

  /**
   * cloneAsArrayAccess: the same load of the same object, with the same access kind and
   * guarding condition, at a new location.
   */
  function CloneAsArrayAccess(load: UnsafeLoad, location: NodeRef, identity: LocationIdentity): (r: UnsafeLoad)
    ensures r.obj == load.obj && r.accessKind == load.accessKind
    ensures r.guardingCondition == load.guardingCondition
    ensures r.offset == location && r.locationIdentity == identity
    ensures WellFormed(load) ==> WellFormed(r) && r.stackKind == load.stackKind
  {
    NewGuardedUnsafeLoad(load.obj, location, load.accessKind, identity, load.guardingCondition)
  }

  /** Cloning a well-formed load at its own location gives the load back. */
  lemma CloneAtSameLocation(load: UnsafeLoad)
    requires WellFormed(load)
    ensures CloneAsArrayAccess(load, load.offset, load.locationIdentity) == load
  {
  }

  /**
   * virtualize: answers the node the load is replaced with (replaceWith), or None when the
   * load stays. It is replaced only when the alias of its object is a virtual object, the
   * alias of its offset is a constant, the offset table maps (offset, access kind) to an
   * entry, and that entry has the load's stack kind or is of the load's access kind; the
   * replacement is then exactly that entry.
   */
  function Virtualize(tool: ToolView, load: UnsafeLoad): (r: Option<NodeRef>)
    requires tool.Valid()
    ensures r.Some? ==> tool.IsVirtual(load.obj)
    ensures r.Some? ==> tool.nodes(tool.Alias(load.offset)).Constant?
    ensures r.Some? ==>
      var virtual := tool.nodes(tool.Alias(load.obj));
      var i := EntryIndexForOffset(virtual, tool.nodes(tool.Alias(load.offset)).value, load.accessKind);
      && 0 <= i < |tool.entries(tool.Alias(load.obj))|
      && r.value == tool.entries(tool.Alias(load.obj))[i]
      && (NodeStackKind(tool.nodes(r.value)) == load.stackKind || virtual.entryKinds[i] == load.accessKind)
    ensures tool.IsVirtual(load.obj) && tool.nodes(tool.Alias(load.offset)).Constant? ==>
      var virtual := tool.nodes(tool.Alias(load.obj));
      var i := EntryIndexForOffset(virtual, tool.nodes(tool.Alias(load.offset)).value, load.accessKind);
      i != -1 && (NodeStackKind(tool.nodes(tool.entries(tool.Alias(load.obj))[i])) == load.stackKind
                  || virtual.entryKinds[i] == load.accessKind)
      ==> r.Some?
  {
    var alias := tool.Alias(load.obj);
    if tool.nodes(alias).VirtualObject? then
      var virtual := tool.nodes(alias);
      var offsetValue := tool.nodes(tool.Alias(load.offset));
      if offsetValue.Constant? then
        var entryIndex := EntryIndexForOffset(virtual, offsetValue.value, load.accessKind);
        if entryIndex != -1 then
          var entry := tool.entries(alias)[entryIndex];
          var entryKind := virtual.entryKinds[entryIndex];
          if NodeStackKind(tool.nodes(entry)) == load.stackKind || entryKind == load.accessKind then
            Some(entry)
          else
            None
        else
          None
      else
        None
    else
      None
  }

  /**
   * Virtualization soundness: a load whose (offset, access kind) pair the offset table maps
   * to entry `i` is either left alone or replaced by entry `i` itself, never by the entry of
   * another index.
   */
  lemma VirtualizeReadsMappedEntry(tool: ToolView, load: UnsafeLoad, i: nat)
    requires tool.Valid() && tool.IsVirtual(load.obj)
    requires tool.nodes(tool.Alias(load.offset)).Constant?
    requires var key := (tool.nodes(tool.Alias(load.offset)).value, load.accessKind);
      key in tool.nodes(tool.Alias(load.obj)).offsetIndex && tool.nodes(tool.Alias(load.obj)).offsetIndex[key] == i
    ensures Virtualize(tool, load).Some? ==> Virtualize(tool, load) == Some(tool.entries(tool.Alias(load.obj))[i])
  {
  }
}
