/**
 * VirtualizableInvokeMacroNode: a call that may be dropped by escape analysis. Its
 * virtualize callback asks for the alias of every argument, in order, and requests the
 * node's deletion once for each argument whose alias is a virtual object.
 */
module VirtualizableInvokeMacroNode {
  import opened Virtualization

  /** The number of arguments in `args` whose alias is a virtual object. */
  function CountVirtual(view: ToolView, args: seq<NodeRef>): nat
  {
    if args == [] then 0
    else CountVirtual(view, args[..|args| - 1]) + (if view.IsVirtual(args[|args| - 1]) then 1 else 0)
  }

  /**
   * virtualize: one getAlias query per argument, in argument order, and one delete request
   * per argument whose alias is virtual; the loop has no early exit.
   */
  method Virtualize(arguments: seq<NodeRef>, tool: VirtualizerTool)
    modifies tool`queries, tool`deletes
    ensures tool.queries == old(tool.queries) + arguments
    ensures tool.deletes == old(tool.deletes) + CountVirtual(tool.view, arguments)
  {
    for k := 0 to |arguments|
      invariant tool.queries == old(tool.queries) + arguments[..k]
      invariant tool.deletes == old(tool.deletes) + CountVirtual(tool.view, arguments[..k])
    {
      var alias := tool.GetAlias(arguments[k]);
      assert arguments[..k + 1][..k] == arguments[..k];
      if tool.view.nodes(alias).VirtualObject? {
        tool.Delete();
      }
    }
    assert arguments[..|arguments|] == arguments;
  }

  /** Deletion is requested exactly when some argument's alias is a virtual object. */
  lemma {:induction false} DeleteRequestedIffVirtualArgument(view: ToolView, args: seq<NodeRef>)
    ensures CountVirtual(view, args) > 0 <==> exists i :: 0 <= i < |args| && view.IsVirtual(args[i])
  {
    if args != [] {
      var front := args[..|args| - 1];
      DeleteRequestedIffVirtualArgument(view, front);
      if CountVirtual(view, front) > 0 {
        var i :| 0 <= i < |front| && view.IsVirtual(front[i]);
        assert args[i] == front[i];
      }
      forall i | 0 <= i < |args| - 1
        ensures args[i] == front[i]
      {
      }
    }
  }

  /** There are never more delete requests than arguments. */
  lemma {:induction false} CountVirtualBounded(view: ToolView, args: seq<NodeRef>)
    ensures CountVirtual(view, args) <= |args|
  {
    if args != [] {
      CountVirtualBounded(view, args[..|args| - 1]);
    }
  }

  /** Every argument's alias is virtual exactly when every argument requests a deletion. */
  lemma {:induction false} CountVirtualAll(view: ToolView, args: seq<NodeRef>)
    ensures CountVirtual(view, args) == |args| <==> forall i :: 0 <= i < |args| ==> view.IsVirtual(args[i])
  {
    if args != [] {
      var front := args[..|args| - 1];
      CountVirtualAll(view, front);
      CountVirtualBounded(view, front);
      forall i | 0 <= i < |front|
        ensures args[i] == front[i]
      {
      }
    }
  }
}
