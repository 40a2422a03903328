/** Which names a compiled graph goes by, and which model feeds a field in the end. */
module ToolOutcomes {
  import opened Options
  import opened ToolGraph
  import opened ToolInheritance

  /** The name a target's tool goes by: that of its last registration, else its class's own. */
  ghost predicate GoesLastBy(world: World, t: Target, name: string) {
    || (exists k :: 0 <= k < |world.tools| && world.tools[k] == Tool(t, name)
          && forall j :: k < j < |world.tools| ==> world.tools[j].target != t)
    || ((forall k :: 0 <= k < |world.tools| ==> world.tools[k].target != t)
        && t in world.defaults && world.defaults[t] == name)
  }

  lemma {:induction false} LastForAt(tools: seq<Tool>, t: Target) returns (k: nat)
    requires LastFor(tools, t).Some?
    ensures k < |tools| && LastFor(tools, t) == Some(tools[k]) && tools[k].target == t
    ensures forall j :: k < j < |tools| ==> tools[j].target != t
  {
    k := |tools| - 1;
    if tools[k].target != t {
      var front := tools[..k];
      k := LastForAt(front, t);
      assert front[k] == tools[k] && forall j :: 0 <= j < |front| ==> front[j] == tools[j];
    }
  }

  lemma NameIsLast(world: World, t: Target)
    requires world.IsRegistered(t) || t in world.defaults
    ensures GoesLastBy(world, t, world.NameOf(t))
  {
    LastForIsIn(world.tools, t);
    if LastFor(world.tools, t).Some? {
      var k := LastForAt(world.tools, t);
    }
  }

  lemma {:induction false} LastNamedAt(tools: seq<Tool>, name: string)
    ensures var last := LastNamed(tools, name);
      if last.Some? then
        (exists k :: 0 <= k < |tools| && tools[k] == last.value && tools[k].name == name
           && forall j :: k < j < |tools| ==> tools[j].name != name)
      else forall k :: 0 <= k < |tools| ==> tools[k].name != name
    decreases |tools|
  {
    if |tools| > 0 {
      var last := |tools| - 1;
      if tools[last].name != name {
        var front := tools[..last];
        LastNamedAt(front, name);
        assert forall j :: 0 <= j < last ==> front[j] == tools[j];
        if LastNamed(tools, name).Some? {
          var k :| 0 <= k < |front| && front[k] == LastNamed(front, name).value && front[k].name == name
              && forall j :: k < j < |front| ==> front[j].name != name;
          assert tools[k] == LastNamed(tools, name).value;
        }
      }
    }
  }

  /** The registered tool of a name is the last one given that name. */
  lemma RegisteredIsLast(world: World, name: string)
    ensures var found := world.Registered(name);
      && (found.None? <==> forall k :: 0 <= k < |world.tools| ==> world.tools[k].name != name)
      && (found.Some? ==>
            (exists k :: 0 <= k < |world.tools| && world.tools[k] == found.value && world.tools[k].name == name
               && forall j :: k < j < |world.tools| ==> world.tools[j].name != name))
  {
    LastNamedAt(world.tools, name);
  }

  /** The entry feeds the argument with the tool of that very model, by id and by name. */
  ghost predicate FeedsFrom(world: World, dependency: ToolDependency, argName: string, model: Target) {
    && dependency.argName == argName && dependency.toolId == dependency.toolName
    && GoesLastBy(world, model, dependency.toolName)
  }

  /** Where nobody misleads anybody, a field that can be fed and has no declaration is fed by its own model. */
  lemma FedByItsModel(world: World, compiled: seq<Tool>, lists: Lists, t: Target, i: nat)
    requires world.Valid() && Outcome(world, compiled, lists) && ListsStay(world) && InferenceIsShared(world)
    requires world.KeepsList(t) && world.Sole(t, i)
    requires !HasArgument(world.Declared(t), world.Fields(t)[i].argName)
    ensures exists dependency ::
      dependency in world.ReadList(lists, t) &&
      FeedsFrom(world, dependency, world.Fields(t)[i].argName, world.Fields(t)[i].nested)
  {
    FedIsRead(world, compiled, lists, t, i);
    var list, field := world.ReadList(lists, t), world.Fields(t)[i];
    var k :| 0 <= k < |list| && list[k].argName == field.argName;
    SharedIsOnly(world, compiled, lists, t, list[k]);
    assert list[k] !in world.Declared(t);
    hide Outcome, ListsStay, InferenceIsShared, world.KeepsList, world.ReadList, world.NameOf, GoesLastBy;
    InfersThis(world, t, i, list[k]);
    NameIsLast(world, field.nested);
    assert FeedsFrom(world, list[k], field.argName, field.nested);
  }

  /** Two fields of a model that both infer are told apart by their arguments. */
  lemma InfersThis(world: World, t: Target, i: nat, dependency: ToolDependency)
    requires world.Valid() && world.Sole(t, i) && Infers(world, t, dependency)
    requires dependency.argName == world.Fields(t)[i].argName
    ensures dependency.toolId == dependency.toolName == world.NameOf(world.Fields(t)[i].nested)
    ensures world.Fields(t)[i].nested in world.defaults
  {
    var j: nat :| world.Sole(t, j) && world.InferredAt(t, j) == dependency;
    hide world.Sole;
    assert t in world.models && world.models[t][i].nested in world.models;
  }
}
