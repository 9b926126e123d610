/**
 * The tool list of the token controls in the host's scene toolbar, as far as the
 * effect-modifier controller touches it: each tool has a `data-tool` name and may
 * carry the `active` class.
 */
module SceneToolbar {
  import opened Wrappers

  /** One `li.control-tool` of the token controls. */
  datatype Tool = Tool(name: string, active: bool)

  /** The number of tools called `name`. */
  function CountNamed(tools: seq<Tool>, name: string): (n: nat)
    ensures n <= |tools|
    ensures n == 0 <==> forall i :: 0 <= i < |tools| ==> tools[i].name != name
  {
    if tools == [] then 0
    else (if tools[0].name == name then 1 else 0) + CountNamed(tools[1..], name)
  }

  /** The position of the first tool called `name`, in document order, as a selector lookup returns it. */
  function FindTool(tools: seq<Tool>, name: string): (r: Option<nat>)
    ensures r.Some? ==> r.value < |tools| && tools[r.value].name == name
    ensures r.Some? ==> forall j :: 0 <= j < r.value ==> tools[j].name != name
    ensures r.None? <==> CountNamed(tools, name) == 0
  {
    if tools == [] then None
    else if tools[0].name == name then Some(0)
    else match FindTool(tools[1..], name)
      case None => None
      case Some(i) => Some(i + 1)
  }

  /** The `active` class of the first tool called `name`, if there is one, says `flag`. */
  predicate ActiveAgrees(tools: seq<Tool>, name: string, flag: bool)
  {
    match FindTool(tools, name)
    case None => true
    case Some(i) => tools[i].active == flag
  }

  /** `classList.toggle('active')` on the first tool called `name`. */
  function ToggleFirst(tools: seq<Tool>, name: string): (r: seq<Tool>)
    requires FindTool(tools, name).Some?
    ensures |r| == |tools|
    ensures forall k :: 0 <= k < |r| ==> r[k].name == tools[k].name
    ensures var i := FindTool(tools, name).value;
      r[i].active == !tools[i].active && forall k :: 0 <= k < |r| && k != i ==> r[k] == tools[k]
  {
    var i := FindTool(tools, name).value;
    tools[i := tools[i].(active := !tools[i].active)]
  }

  /**
   * The button insertion of the toolbar render hook: a tool called `name` is
   * appended, with the given `active` class, only when the feature is enabled and
   * no tool of that name exists yet.
   */
  function WithButton(tools: seq<Tool>, enabled: bool, name: string, active: bool): (r: seq<Tool>)
    // the existing tools are kept in place, and at most one tool is added at the end
    ensures |r| == |tools| + (if enabled && CountNamed(tools, name) == 0 then 1 else 0)
    ensures r[..|tools|] == tools
    ensures |r| > |tools| ==> r[|tools|] == Tool(name, active)
  {
    if enabled && CountNamed(tools, name) == 0 then tools + [Tool(name, active)] else tools
  }

  lemma {:induction false} CountAppend(a: seq<Tool>, b: seq<Tool>, name: string)
    ensures CountNamed(a + b, name) == CountNamed(a, name) + CountNamed(b, name)
  {
    if a == [] {
      assert a + b == b;
    } else {
      assert (a + b)[1..] == a[1..] + b;
      CountAppend(a[1..], b, name);
    }
  }

  /** Lookup and counting depend on the names alone, not on the `active` classes. */
  lemma {:induction false} SameNames(a: seq<Tool>, b: seq<Tool>, name: string)
    requires |a| == |b|
    requires forall k :: 0 <= k < |a| ==> a[k].name == b[k].name
    ensures FindTool(a, name) == FindTool(b, name)
    ensures CountNamed(a, name) == CountNamed(b, name)
  {
    if a != [] {
      SameNames(a[1..], b[1..], name);
    }
  }

  /** Toggling the first tool called `name` keeps the lookup result and the tool count. */
  lemma ToggleKeepsLookup(tools: seq<Tool>, name: string)
    requires FindTool(tools, name).Some?
    ensures FindTool(ToggleFirst(tools, name), name) == FindTool(tools, name)
    ensures CountNamed(ToggleFirst(tools, name), name) == CountNamed(tools, name)
  {
    SameNames(tools, ToggleFirst(tools, name), name);
  }

  /** Toggling flips the class of the first tool called `name`, so it then agrees with the negated flag. */
  lemma ToggleFlips(tools: seq<Tool>, name: string, flag: bool)
    requires FindTool(tools, name).Some?
    requires ActiveAgrees(tools, name, flag)
    ensures ActiveAgrees(ToggleFirst(tools, name), name, !flag)
  {
    ToggleKeepsLookup(tools, name);
  }

  /** Two toggles restore the tool list. */
  lemma ToggleTwice(tools: seq<Tool>, name: string)
    requires FindTool(tools, name).Some?
    ensures FindTool(ToggleFirst(tools, name), name).Some?
    ensures ToggleFirst(ToggleFirst(tools, name), name) == tools
  {
    ToggleKeepsLookup(tools, name);
  }

  /**
   * However often the toolbar is rendered, the button is added at most once: the
   * count of tools called `name` goes from 0 to 1 when enabled and is otherwise
   * unchanged, the existing tools stay as they were, a new button is the first of
   * its name and carries the requested class, and a second insertion adds nothing.
   */
  lemma InsertOnce(tools: seq<Tool>, enabled: bool, name: string, active: bool, active2: bool)
    ensures CountNamed(WithButton(tools, enabled, name, active), name)
      == if enabled && CountNamed(tools, name) == 0 then 1 else CountNamed(tools, name)
    ensures WithButton(tools, enabled, name, active)[..|tools|] == tools
    ensures enabled && CountNamed(tools, name) == 0 ==>
      FindTool(WithButton(tools, enabled, name, active), name) == Some(|tools|)
      && ActiveAgrees(WithButton(tools, enabled, name, active), name, active)
    ensures WithButton(WithButton(tools, enabled, name, active), enabled, name, active2)
      == WithButton(tools, enabled, name, active)
  {
    if enabled && CountNamed(tools, name) == 0 {
      CountAppend(tools, [Tool(name, active)], name);
      assert CountNamed([Tool(name, active)], name) == 1;
    }
  }

  /** The token controls' tool list, re-rendered by the host. */
  class Toolbar {
    var tools: seq<Tool>

    constructor (tools: seq<Tool>)
      ensures this.tools == tools
    {
      this.tools := tools;
    }

    /** Toggles the `active` class of the first tool called `name`; the lookup fails when there is none. */
    method ToggleActive(name: string)
      requires FindTool(tools, name).Some?
      modifies this
      ensures tools == ToggleFirst(old(tools), name)
    {
      tools := ToggleFirst(tools, name);
    }

    method Append(tool: Tool)
      modifies this
      ensures tools == old(tools) + [tool]
    {
      tools := tools + [tool];
    }
  }
}
