/**
 * `ToolBox` of package llm: an ordered list of tools; lookup by name returns
 * the first tool with that name.
 */
module LlmToolBox {
  import opened Wrappers

  /** A tool as the toolbox sees it: its name and description. */
  datatype Tool = Tool(name: string, description: string)

  /** The reference lookup: the first tool named `id`. */
  function FirstNamed(tools: seq<Tool>, id: string): (r: Option<Tool>)
    ensures r.Some? ==> r.value in tools && r.value.name == id
    ensures r.None? <==> forall k :: 0 <= k < |tools| ==> tools[k].name != id
  {
    if |tools| == 0 then None
    else if tools[0].name == id then Some(tools[0])
    else FirstNamed(tools[1..], id)
  }

  /** `FirstNamed` picks the earliest match: every tool before it has another name. */
  lemma {:induction false} FirstNamedIsEarliest(tools: seq<Tool>, id: string)
    requires FirstNamed(tools, id).Some?
    ensures exists i :: 0 <= i < |tools| && tools[i] == FirstNamed(tools, id).value
                        && forall k :: 0 <= k < i ==> tools[k].name != id
  {
    if tools[0].name != id {
      FirstNamedIsEarliest(tools[1..], id);
      var i :| 0 <= i < |tools[1..]| && tools[1..][i] == FirstNamed(tools[1..], id).value
               && forall k :: 0 <= k < i ==> tools[1..][k].name != id;
      assert tools[i + 1] == tools[1..][i];
      assert forall k :: 1 <= k < i + 1 ==> tools[k] == tools[1..][k - 1];
    } else {
      assert tools[0] == FirstNamed(tools, id).value;
    }
  }

  /** Adding tools never changes what an existing name finds. */
  lemma {:induction false} AddKeepsEarlierLookup(tools: seq<Tool>, more: seq<Tool>, id: string)
    requires FirstNamed(tools, id).Some?
    ensures FirstNamed(tools + more, id) == FirstNamed(tools, id)
  {
    assert (tools + more)[0] == tools[0];
    if tools[0].name != id {
      assert (tools + more)[1..] == tools[1..] + more;
      AddKeepsEarlierLookup(tools[1..], more, id);
    }
  }

  class ToolBox {
    var tools: seq<Tool>

    constructor ()
      ensures tools == []
    {
      tools := [];
    }

    /** `Add`: appends the tools in the order given. */
    method Add(newTools: seq<Tool>)
      modifies this
      ensures tools == old(tools) + newTools
    {
      tools := tools + newTools;
    }

    /** `Get`: the first tool named `id`, or none. */
    method Get(id: string) returns (tool: Option<Tool>)
      ensures tool == FirstNamed(tools, id)
    {
      var i := 0;
      while i < |tools|
        invariant 0 <= i <= |tools|
        invariant FirstNamed(tools[i..], id) == FirstNamed(tools, id)
      {
        if tools[i].name == id {
          return Some(tools[i]);
        }
        assert tools[i..][1..] == tools[i + 1..];
        i := i + 1;
      }
      tool := None;
    }

    /** `List`: a copy of the tools, in order. */
    method List() returns (out: seq<Tool>)
      ensures out == tools
    {
      out := tools;
    }
  }
}
