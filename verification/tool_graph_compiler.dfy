/** The depth-first compilation itself, over the tables it updates as it goes. */
module ToolGraphCompiler {
  import opened Options
  import opened ToolGraph
  import opened ToolInheritance
  import opened ToolReferences

  class GraphCompiler {
    const world: World
    /** How many direct fields hold each model. */
    const counts: map<Target, nat>
    var byTarget: map<Target, Tool>
    var byName: map<string, Tool>
    /** The dependency lists of the targets that have one of their own. */
    var lists: Lists
    var visited: set<Target>
    var visiting: set<Target>
    var compiled: seq<Tool>

    /** The lookup tables, without the traversal. */
    ghost predicate GoodTables()
      reads this
    {
      && world.Valid() && Tables(world, byTarget, byName) && Grounded(world, byTarget.Keys)
      && Grown(world, lists) && Sourced(world, lists) && CountsRight(world, counts)
    }

    ghost predicate GoodTraversal()
      reads this
    {
      && visited == TargetsOf(compiled) && NoRepeats(compiled) && Listed(world, compiled)
      && visited !! visiting && visited + visiting <= byTarget.Keys
      && AllSettled(world, compiled, visiting)
      && forall t :: t in visited ==> Fed(world, lists, t)
    }

    /** The tables of the registered tools: for each target and each name the last one given. */
    constructor (world: World, counts: map<Target, nat>)
      requires world.Valid() && CountsRight(world, counts)
      ensures Valid() && this.world == world && this.counts == counts && compiled == [] && visiting == {}
      ensures HasRegistered(world, byTarget.Keys) && ClassesMet({})
    {
      this.world, this.counts := world, counts;
      lists, visited, visiting, compiled := world.declared, {}, {}, [];
      byTarget, byName := map[], map[];
      new;
      for i := 0 to |world.tools|
        invariant lists == world.declared && visited == {} && visiting == {} && compiled == [] && this.world == world
        invariant this.counts == counts
        invariant Seeded(world.tools[..i], byTarget, byName)
      {
        var tool := world.tools[i];
        assert world.tools[..i + 1] == world.tools[..i] + [tool];
        SeededNext(world.tools[..i], byTarget, byName, tool);
        hide *;
        byTarget := byTarget[tool.target := tool];
        byName := byName[tool.name := tool];
      }
      assert world.tools[..|world.tools|] == world.tools;
      SeededTables(world, byTarget, byName);
      SeededRegistered(world, byTarget, byName);
      NothingYet(world);
      hide Tables, Grounded, Grown, Sourced, CountsRight, AllSettled, Listed, Fed, Seeded, HasRegistered, TargetsOf;
      assert GoodTables() && GoodTraversal();
    }

    ghost predicate Valid()
      reads this
    {
      GoodTables() && GoodTraversal()
    }

    /** Every target there is. */
    ghost function Universe(): set<Target> {
      world.models.Keys + TargetsOf(world.tools)
    }

    ghost function RemainingOf(done: set<Target>, open: set<Target>): nat {
      |Universe() - done - open|
    }

    lemma KnownInUniverse(t: Target)
      requires GoodTables() && t in byTarget
      ensures t in Universe()
    {
      var name := byTarget[t].name;
      if Tool(t, name) in world.tools {
        var i :| 0 <= i < |world.tools| && world.tools[i] == Tool(t, name);
        assert world.tools[i].target in TargetsOf(world.tools);
      }
    }

    /** The metadata of a nested model, registered on first sight. */
    method ToolOfNested(t: Target, d: Target) returns (tool: Tool)
      requires Valid() && t in byTarget && world.Nests(t, d) && ClassesMet({})
      modifies this`byTarget, this`byName
      ensures ClassesMet({d})
      ensures Valid() && tool.target == d && d in byTarget && world.GoesBy(d, tool.name) && tool.name == world.NameOf(d)
      ensures byTarget.Keys == old(byTarget.Keys) + {d}
      ensures byTarget == old(byTarget)[d := tool]
      ensures byName == if d in old(byTarget) then old(byName) else old(byName)[tool.name := tool]
    {
      if d in byTarget {
        hide GoodTraversal, Grown, Sourced, CountsRight, Grounded, NameTable;
        assert byTarget.Keys == byTarget.Keys + {d};
        tool := byTarget[d];
      } else {
        tool := RegisterClass(t, d);
      }
    }

    /** `tool_metadata_for_callable`: a class goes by its own name. */
    method RegisterClass(t: Target, d: Target) returns (tool: Tool)
      requires Valid() && t in byTarget && world.Nests(t, d) && ClassesMet({}) && d !in byTarget
      modifies this`byTarget, this`byName
      ensures ClassesMet({d})
      ensures Valid() && tool.target == d && world.GoesBy(d, tool.name) && tool.name == world.NameOf(d)
      ensures byTarget == old(byTarget)[d := tool] && byName == old(byName)[tool.name := tool]
    {
      hide Grown, Sourced, CountsRight, AllSettled, Listed, NoRepeats, Fed, TargetsOf, Grounded, TargetTable, NameTable;
      NestedIsModel(t, d);
      NestedIsGrounded(world, byTarget.Keys, t, d);
      NameIsFree(d);
      TablesExtended(world, byTarget, byName, d);
      hide Tables, world.GoesBy, world.NameOf;
      tool := Tool(d, world.defaults[d]);
      assert byTarget[d := tool].Keys == byTarget.Keys + {d};
      byTarget := byTarget[d := tool];
      byName := byName[tool.name := tool];
    }

    lemma NestedIsModel(t: Target, d: Target)
      requires world.Valid() && world.Nests(t, d)
      ensures d in world.models && d in world.defaults
    {
    }

    /** A class not registered by the caller takes no registered name, if classes never do. */
    lemma NameIsFree(d: Target)
      requires GoodTables() && d !in byTarget && d in world.defaults
      ensures world.NamesApart() ==> world.Registered(world.defaults[d]).None?
    {
    }

    /** `_append_model_dependency`: one more entry in the list the class reads, be it a base's, unless the
        argument already has one there; a class that reads none is given one. */
    method AppendModelDependency(t: Target, i: nat, name: string)
      requires Valid() && world.Sole(t, i) && name == world.NameOf(world.Fields(t)[i].nested)
      modifies this`lists
      ensures lists == Appended(world, old(lists), t, world.InferredAt(t, i))
      ensures Valid() && Takes(world, lists, t, world.Fields(t)[i].argName)
      ensures forall other, argName :: Takes(world, old(lists), other, argName) ==> Takes(world, lists, other, argName)
    {
      hide Tables, Grounded, AllSettled, Listed, NoRepeats, Grown, Sourced, CountsRight, Fed, Takes, HasArgument,
        TargetsOf;
      AppendKeeps(world, lists, t, i);
      FedStays(world, lists, Appended(world, lists, t, world.InferredAt(t, i)));
      var argName := world.Fields(t)[i].argName;
      var holder, dependencies := world.Holder(lists, t), [];
      if holder.None? {
        NothingHasArgument(argName);
        holder := Some(t);
        lists := lists[t := []];
      } else {
        dependencies := lists[holder.value];
      }
      if !HasArgument(dependencies, argName) {
        lists := lists[holder.value := dependencies + [ToolDependency(argName, name, name)]];
      }
    }

    /** `_registered_tool_dependencies`: the producers known by now, by id, else by name. */
    method Producers(t: Target) returns (producers: seq<Tool>)
      ensures producers == FoundAll(byName, world.ReadList(lists, t))
    {
      producers := [];
      var dependencies := world.ReadList(lists, t);
      for i := 0 to |dependencies|
        invariant producers == FoundAll(byName, dependencies[..i])
      {
        var dependency := dependencies[i];
        assert dependencies[..i + 1][..i] == dependencies[..i];
        if dependency.toolId in byName {
          producers := producers + [byName[dependency.toolId]];
        } else if dependency.toolName in byName {
          producers := producers + [byName[dependency.toolName]];
        }
      }
      assert dependencies[..|dependencies|] == dependencies;
    }

    /** A class registered on the way is visited at once: all but `coming` are. */
    ghost predicate ClassesMet(coming: set<Target>)
      reads this
    {
      forall name ::
        name in byName && world.Registered(name).None? ==> Met(byName[name].target) || byName[name].target in coming
    }

    /** Every producer found is a known tool, and one the target may depend on unless it has been met. */
    lemma FoundAreEdges(t: Target, k: nat)
      requires GoodTables() && ClassesMet({}) && k < |FoundAll(byName, world.ReadList(lists, t))|
      ensures var producer := FoundAll(byName, world.ReadList(lists, t))[k];
        producer.target in byTarget && world.GoesBy(producer.target, producer.name) &&
          (Met(producer.target) || world.Edge(t, producer.target))
    {
      hide Grown, Sourced, CountsRight;
      var dependencies := world.ReadList(lists, t);
      var i := FoundFrom(byName, dependencies, k);
      var dependency, producer := dependencies[i], FoundAll(byName, dependencies)[k];
      var name := if dependency.toolId in byName then dependency.toolId else dependency.toolName;
      if world.NamesApart() && world.Registered(name).None? {
        assert Met(producer.target);
      } else {
        assert world.MayMean(dependency, producer.target);
        DependencyIsEdge(world, lists, t, i, producer.target);
      }
    }

    /** Every registered producer that a declaration means is found. */
    lemma MeantAreFound(t: Target, d: Target)
      requires GoodTables() && world.NamesApart() && world.KeepsList(t) && world.DeclaresProducer(t, d)
      ensures var found := FoundAll(byName, world.ReadList(lists, t));
        exists k :: 0 <= k < |found| && found[k].target == d
    {
      var i, producer :|
        0 <= i < |world.Declared(t)| && world.Means(world.Declared(t)[i], producer) && producer.target == d;
      DeclaredIsRead(world, lists, t);
      assert world.ReadList(lists, t)[i] == world.Declared(t)[i];
      hide Grown, Sourced, CountsRight;
      MeantIsFound(world.Declared(t)[i], producer);
      var k := FoundAt(byName, world.ReadList(lists, t), i);
    }

    // -------------------------------------------------------------- the traversal

    /** What a visit may do to the state another visit is in the middle of. */
    twostate predicate Grows()
      reads this
    {
      && visiting == old(visiting) && old(visited) <= visited && old(byTarget.Keys) <= byTarget.Keys
      && old(compiled) <= compiled
      && forall t, argName :: Takes(world, old(lists), t, argName) ==> Takes(world, lists, t, argName)
    }

    /** What has been listed meanwhile is reached from `t`. */
    twostate predicate OnlyFrom(t: Target)
      reads this
    {
      forall v :: v in visited ==> v in old(visited) || Reaches(world, t, v)
    }

    /** Everything on the way to `t` reaches it. */
    ghost predicate LeadsTo(t: Target)
      reads this
    {
      forall v :: v in visiting ==> Reaches(world, v, t)
    }

    ghost predicate Met(d: Target)
      reads this
    {
      d in visited || d in visiting
    }

    lemma LeadsFurther(t: Target, d: Target)
      requires LeadsTo(t) && world.Edge(t, d)
      ensures LeadsTo(d)
    {
      forall v | v in visiting
        ensures Reaches(world, v, d)
      {
        ReachesFurther(world, v, t, d);
      }
    }

    lemma RemainingShrinks(t: Target)
      requires GoodTables() && t in byTarget && t !in visited && t !in visiting
      ensures |Universe() - visited - (visiting + {t})| < RemainingOf(visited, visiting)
    {
      KnownInUniverse(t);
      assert Universe() - visited - (visiting + {t}) == (Universe() - visited - visiting) - {t};
    }

    method Open(t: Target)
      requires Valid() && LeadsTo(t) && t in byTarget && t !in visited && t !in visiting
      modifies this`visiting
      ensures Valid() && LeadsTo(t) && visiting == old(visiting) + {t}
      ensures forall v :: v in visiting ==> Reaches(world, v, t)
      ensures RemainingOf(visited, visiting) < old(RemainingOf(visited, visiting))
    {
      hide Tables, Grounded, Grown, Sourced, CountsRight, Listed, Fed, NoRepeats, AllSettled, Reaches, TargetsOf;
      RemainingShrinks(t);
      OpenedStaysSettled(world, compiled, visiting, t);
      ReachesItself(world, t);
      visiting := visiting + {t};
    }

    method Close(tool: Tool)
      requires Valid() && LeadsTo(tool.target) && tool.target in visiting && world.GoesBy(tool.target, tool.name)
      requires Fed(world, lists, tool.target) && forall d :: world.Needs(tool.target, d) ==> Met(d)
      modifies this`visiting, this`visited, this`compiled
      ensures Valid() && visiting == old(visiting) - {tool.target} && visited == old(visited) + {tool.target}
      ensures compiled == old(compiled) + [tool]
    {
      hide AllSettled, Tables, Grounded, Grown, Sourced, CountsRight, Fed, Before, Reaches;
      ClosedIsSettled(world, compiled, visiting, tool);
      TargetsAppend(compiled, tool);
      visiting := visiting - {tool.target};
      visited := visited + {tool.target};
      compiled := compiled + [tool];
    }

    /** `visit`: list the tool after all it needs, unless it is listed or already being visited. */
    method Visit(tool: Tool)
      requires Valid() && (Met(tool.target) || LeadsTo(tool.target)) && tool.target in byTarget
      requires world.GoesBy(tool.target, tool.name)
      requires ClassesMet({tool.target})
      modifies this
      ensures ClassesMet({})
      ensures Valid() && Grows() && Met(tool.target)
      ensures if old(Met(tool.target)) then visited == old(visited) else OnlyFrom(tool.target)
      decreases RemainingOf(visited, visiting), 1
    {
      var t := tool.target;
      if t in visited || t in visiting {
        return;
      }
      VisitNew(tool);
    }

    method VisitNew(tool: Tool)
      requires Valid() && LeadsTo(tool.target) && tool.target in byTarget && world.GoesBy(tool.target, tool.name)
      requires tool.target !in visited && tool.target !in visiting
      requires ClassesMet({tool.target})
      modifies this
      ensures ClassesMet({})
      ensures Valid() && Grows() && tool.target in visited && OnlyFrom(tool.target)
      decreases RemainingOf(visited, visiting), 0
    {
      var t := tool.target;
      hide Valid, Reaches, RemainingOf, LeadsTo;
      Open(t);
      ghost var open := visiting;
      VisitNeeds(t);
      ReachesItself(world, t);
      SameStack(open, t);
      Close(tool);
    }

    lemma SameStack(open: set<Target>, t: Target)
      requires open == visiting && forall v :: v in open ==> Reaches(world, v, t)
      ensures LeadsTo(t)
    {
    }

    /** Everything a target needs is listed, or already being visited. */
    method VisitNeeds(t: Target)
      requires Valid() && LeadsTo(t) && t in byTarget
      requires ClassesMet({})
      modifies this
      ensures ClassesMet({})
      ensures Valid() && Grows() && Fed(world, lists, t) && forall d :: world.Needs(t, d) ==> Met(d)
      ensures OnlyFrom(t)
      decreases RemainingOf(visited, visiting), 5
    {
      hide Valid, Reaches, RemainingOf;
      VisitNested(t);
      ghost var nested := visited;
      RemainingKeeps(old(visited), old(visiting));
      VisitProducers(t);
      forall d | world.Nests(t, d)
        ensures Met(d)
      {
        assert d in nested || d in visiting;
      }
    }

    /** The registered tools in turn. */
    method VisitRegistered()
      requires Valid() && visiting == {} && compiled == [] && HasRegistered(world, byTarget.Keys)
      requires ClassesMet({})
      modifies this
      ensures Outcome(world, compiled, lists) && KeepsOrder(world, compiled, |world.tools|)
    {
      hide Valid, RemainingOf, KeepsOrder, ReachedBy, Reaches;
      InOrderSoFar(0);
      for i := 0 to |world.tools|
        invariant Valid() && Grows() && ClassesMet({}) && visiting == {}
        invariant forall k :: 0 <= k < i ==> world.tools[k].target in visited
        invariant KeepsOrder(world, compiled, i) && forall v :: v in visited ==> ReachedBy(world, i, v)
      {
        assert world.GoesBy(world.tools[i].target, world.tools[i].name);
        ghost var before := compiled;
        VisitedAreListed();
        Visit(world.tools[i]);
        NextInOrder(before, i);
      }
      AllListed();
    }

    lemma VisitedAreListed()
      requires Valid()
      ensures visited == TargetsOf(compiled)
    {
    }

    lemma InOrderSoFar(n: nat)
      requires Valid() && compiled == [] && n == 0
      ensures KeepsOrder(world, compiled, n) && visited == {}
    {
    }

    lemma NextInOrder(before: seq<Tool>, i: nat)
      requires Valid() && i < |world.tools| && before <= compiled && KeepsOrder(world, before, i)
      requires forall k :: 0 <= k < i ==> world.tools[k].target in TargetsOf(before)
      requires forall v :: v in TargetsOf(before) ==> ReachedBy(world, i, v)
      requires forall v :: v in visited ==> v in TargetsOf(before) || Reaches(world, world.tools[i].target, v)
      ensures KeepsOrder(world, compiled, i + 1) && forall v :: v in visited ==> ReachedBy(world, i + 1, v)
    {
      hide GoodTables, Reaches, Before, TargetsOf;
      forall v | v in visited
        ensures ReachedBy(world, i + 1, v)
      {
        if v in TargetsOf(before) {
          assert ReachedBy(world, i, v);
        }
      }
      forall k, d | 0 <= k < i && d in TargetsOf(compiled) && !ReachedBy(world, k + 1, d)
        ensures Before(compiled, world.tools[k].target, d)
      {
        BeforeStays(before, compiled, world.tools[k].target, d);
      }
    }

    lemma AllListed()
      requires Valid() && visiting == {} && HasRegistered(world, visited)
      ensures Outcome(world, compiled, lists)
    {
      VisitedGrounded(world, visited, byTarget.Keys);
    }

    /** The nested models of one target, each registered and visited. */
    method VisitNested(t: Target)
      requires Valid() && LeadsTo(t) && t in byTarget
      requires ClassesMet({})
      modifies this
      ensures ClassesMet({})
      ensures Valid() && Grows() && Fed(world, lists, t) && forall d :: world.Nests(t, d) ==> Met(d)
      ensures OnlyFrom(t)
      decreases RemainingOf(visited, visiting), 4
    {
      var fields := world.Fields(t);
      hide Valid, Reaches, RemainingOf;
      for i := 0 to |fields|
        invariant Valid() && Grows() && ClassesMet({}) && OnlyFrom(t)
        invariant forall j :: 0 <= j < i ==> Met(fields[j].nested)
        invariant forall j: nat :: j < i && world.Sole(t, j) ==> Takes(world, lists, t, fields[j].argName)
      {
        RemainingKeeps(old(visited), old(visiting));
        VisitField(t, i);
      }
    }

    method VisitField(t: Target, i: nat)
      requires Valid() && LeadsTo(t) && t in byTarget && i < |world.Fields(t)|
      requires ClassesMet({})
      modifies this
      ensures ClassesMet({})
      ensures Valid() && Grows() && Met(world.Fields(t)[i].nested)
      ensures world.Sole(t, i) ==> Takes(world, lists, t, world.Fields(t)[i].argName)
      ensures OnlyFrom(t)
      decreases RemainingOf(visited, visiting), 2
    {
      hide Valid, LeadsTo, RemainingOf, Takes, Reaches, world.Sole, world.GoesBy, ClassesMet;
      FieldLeads(t, i);
      var nested := EnterField(t, i);
      Visit(nested);
    }

    lemma FieldLeads(t: Target, i: nat)
      requires i < |world.Fields(t)|
      ensures forall v :: Reaches(world, world.Fields(t)[i].nested, v) ==> Reaches(world, t, v)
    {
      assert world.Nests(t, world.Fields(t)[i].nested);
      FromFurther(t, world.Fields(t)[i].nested);
    }

    lemma FromFurther(t: Target, d: Target)
      requires world.Edge(t, d)
      ensures forall v :: Reaches(world, d, v) ==> Reaches(world, t, v)
    {
      forall v | Reaches(world, d, v)
        ensures Reaches(world, t, v)
      {
        ReachesBefore(world, t, d, v);
      }
    }

    /** The nested tool of a field, and the dependency the field infers, if it does. */
    method EnterField(t: Target, i: nat) returns (nested: Tool)
      requires Valid() && LeadsTo(t) && t in byTarget && i < |world.Fields(t)|
      requires ClassesMet({})
      modifies this`byTarget, this`byName, this`lists
      ensures var target := world.Fields(t)[i].nested;
        && ClassesMet({target}) && Valid() && LeadsTo(target)
        && nested.target == target && target in byTarget && world.GoesBy(target, nested.name)
      ensures old(byTarget.Keys) <= byTarget.Keys
      ensures world.Sole(t, i) ==> Takes(world, lists, t, world.Fields(t)[i].argName)
      ensures forall other, argName :: Takes(world, old(lists), other, argName) ==> Takes(world, lists, other, argName)
    {
      var field := world.Fields(t)[i];
      assert world.Nests(t, field.nested) && world.Edge(t, field.nested);
      LeadsFurther(t, field.nested);
      CountsSingleOut(t, i);
      hide Valid, Takes, Reaches;
      nested := ToolOfNested(t, field.nested);
      if field.direct && field.nested in counts && counts[field.nested] == 1 {
        AppendModelDependency(t, i, nested.name);
      }
    }

    lemma CountsSingleOut(t: Target, i: nat)
      requires Valid() && t in byTarget && i < |world.Fields(t)|
      ensures Injectable(counts, world.Fields(t)[i]) <==> world.Sole(t, i)
    {
      hide Tables, Grown, Sourced, GoodTraversal, Injectable;
      assert world.Wanted(t);
    }

    method VisitProducers(t: Target)
      requires Valid() && LeadsTo(t) && t in byTarget
      requires ClassesMet({})
      modifies this
      ensures ClassesMet({})
      ensures Valid() && Grows() && OnlyFrom(t)
      ensures (world.NamesApart() && world.KeepsList(t) ==> forall d :: world.DeclaresProducer(t, d) ==> Met(d))
      decreases RemainingOf(visited, visiting), 4
    {
      var producers := Producers(t);
      forall k | 0 <= k < |producers|
        ensures producers[k].target in byTarget && world.GoesBy(producers[k].target, producers[k].name)
        ensures Met(producers[k].target) || world.Edge(t, producers[k].target)
      {
        FoundAreEdges(t, k);
      }
      if world.NamesApart() && world.KeepsList(t) {
        forall d | world.DeclaresProducer(t, d)
          ensures exists k :: 0 <= k < |producers| && producers[k].target == d
        {
          MeantAreFound(t, d);
        }
      }
      hide *;
      VisitAll(t, producers);
      MetAll(t, producers);
    }

    lemma MetAll(t: Target, producers: seq<Tool>)
      requires forall k :: 0 <= k < |producers| ==> Met(producers[k].target)
      requires world.NamesApart() && world.KeepsList(t) ==>
        forall d :: world.DeclaresProducer(t, d) ==> exists k :: 0 <= k < |producers| && producers[k].target == d
      ensures world.NamesApart() && world.KeepsList(t) ==> forall d :: world.DeclaresProducer(t, d) ==> Met(d)
    {
      hide Met;
    }

    method VisitAll(t: Target, producers: seq<Tool>)
      requires Valid() && LeadsTo(t)
      requires forall k :: 0 <= k < |producers| ==>
        && producers[k].target in byTarget && world.GoesBy(producers[k].target, producers[k].name)
        && (Met(producers[k].target) || world.Edge(t, producers[k].target))
      requires ClassesMet({})
      modifies this
      ensures ClassesMet({})
      ensures Valid() && Grows() && forall k :: 0 <= k < |producers| ==> Met(producers[k].target)
      ensures OnlyFrom(t)
      decreases RemainingOf(visited, visiting), 2
    {
      hide Valid, Reaches, RemainingOf;
      for k := 0 to |producers|
        invariant Valid() && Grows() && ClassesMet({}) && OnlyFrom(t)
        invariant forall j :: 0 <= j < k ==> Met(producers[j].target)
      {
        if world.Edge(t, producers[k].target) {
          LeadsFurther(t, producers[k].target);
          FromFurther(t, producers[k].target);
        }
        RemainingKeeps(old(visited), old(visiting));
        Visit(producers[k]);
      }
    }

    lemma RemainingKeeps(before: set<Target>, open: set<Target>)
      requires before <= visited && open == visiting
      ensures RemainingOf(visited, visiting) <= RemainingOf(before, open)
    {
      SubsetIsSmaller(Universe() - visited - visiting, Universe() - before - open);
    }

    /** The registered producer a declaration means is the one the lookup finds. */
    lemma MeantIsFound(dependency: ToolDependency, producer: Tool)
      requires GoodTables() && world.NamesApart() && world.Means(dependency, producer)
      ensures Found(byName, dependency) == Some(producer)
    {
    }
  }

  /** The tables after these tools were entered. */
  ghost predicate Seeded(tools: seq<Tool>, byTarget: map<Target, Tool>, byName: map<string, Tool>) {
    && (forall i :: 0 <= i < |tools| ==> tools[i].target in byTarget)
    && (forall t ::
         t in byTarget ==> byTarget[t].target == t && byTarget[t] in tools && LastFor(tools, t) == Some(byTarget[t]))
    && (forall t :: t !in byTarget ==> LastFor(tools, t).None?)
    && (forall name :: name in byName ==> LastNamed(tools, name) == Some(byName[name]))
    && (forall name :: LastNamed(tools, name).Some? ==> name in byName)
  }

  lemma SeededNext(tools: seq<Tool>, byTarget: map<Target, Tool>, byName: map<string, Tool>, tool: Tool)
    requires Seeded(tools, byTarget, byName)
    ensures Seeded(tools + [tool], byTarget[tool.target := tool], byName[tool.name := tool])
  {
    assert (tools + [tool])[..|tools|] == tools;
  }

  lemma SeededTables(world: World, byTarget: map<Target, Tool>, byName: map<string, Tool>)
    requires Seeded(world.tools, byTarget, byName)
    ensures Tables(world, byTarget, byName) && Grounded(world, byTarget.Keys)
  {
    forall name | name in byName
      ensures byName[name].name == name && byName[name] in world.tools
    {
      LastNamedIsIn(world.tools, name);
    }
    forall t | t in byTarget
      ensures world.GoesBy(t, byTarget[t].name)
    {
      assert byTarget[t] == Tool(t, byTarget[t].name);
    }
    forall name | name in byName
      ensures world.GoesBy(byName[name].target, name)
    {
      assert byName[name] == Tool(byName[name].target, name);
    }
  }

  lemma SeededRegistered(world: World, byTarget: map<Target, Tool>, byName: map<string, Tool>)
    requires Seeded(world.tools, byTarget, byName)
    ensures HasRegistered(world, byTarget.Keys)
    ensures forall name :: name in byName ==> world.Registered(name).Some?
  {
  }

  /** Before the first visit nothing is listed and only declarations are there. */
  lemma NothingYet(world: World)
    ensures TargetsOf([]) == {} && Listed(world, []) && AllSettled(world, [], {})
    ensures Grown(world, world.declared) && Sourced(world, world.declared)
  {
  }

  /** `compile_tool_metadata_graph`. */
  method CompileToolMetadataGraph(world: World) returns (compiled: seq<Tool>, lists: Lists)
    requires world.Valid()
    ensures Outcome(world, compiled, lists)
    ensures KeepsOrder(world, compiled, |world.tools|)
  {
    var counts, models := DirectCounts(world);
    DirectCountsAreRight(world, counts, models);
    var compiler := new GraphCompiler(world, counts);
    compiler.VisitRegistered();
    compiled, lists := compiler.compiled, compiler.lists;
  }

  lemma VisitedGrounded(world: World, visited: set<Target>, known: set<Target>)
    requires Grounded(world, known) && visited <= known
    ensures Grounded(world, visited)
  {
  }

  lemma SubsetIsSmaller<T>(a: set<T>, b: set<T>)
    requires a <= b
    ensures |a| <= |b|
  {
    assert b == a + (b - a);
  }

  /** A class that is not registered goes by its own name. */
  lemma ClassNameIsItsOwn(world: World, byTarget: map<Target, Tool>, byName: map<string, Tool>, d: Target)
    requires Tables(world, byTarget, byName) && d !in byTarget && d in world.defaults
    ensures world.NameOf(d) == world.defaults[d] && world.GoesBy(d, world.defaults[d])
  {
    LastForIsIn(world.tools, d);
    hide LastNamed, LastFor;
  }

  lemma TargetTableExtended(world: World, byTarget: map<Target, Tool>, d: Target, tool: Tool)
    requires TargetTable(world, byTarget) && tool.target == d && tool.name == world.NameOf(d)
    requires world.GoesBy(d, tool.name)
    ensures TargetTable(world, byTarget[d := tool])
  {
    hide world.GoesBy, world.NameOf;
  }

  lemma NameTableExtended(world: World, known: set<Target>, byName: map<string, Tool>, d: Target)
    requires NameTable(world, known, byName) && d in world.defaults && world.GoesBy(d, world.defaults[d])
    requires world.NamesApart() ==> world.Registered(world.defaults[d]).None?
    ensures var tool := Tool(d, world.defaults[d]); NameTable(world, known + {d}, byName[tool.name := tool])
  {
    assert world.defaults[d] in world.defaults.Values;
    hide LastNamed, LastFor, world.GoesBy, world.NamesApart, world.Registered;
  }

  /** The tables with one class more. */
  lemma TablesExtended(world: World, byTarget: map<Target, Tool>, byName: map<string, Tool>, d: Target)
    requires Tables(world, byTarget, byName) && d !in byTarget && d in world.defaults
    requires world.NamesApart() ==> world.Registered(world.defaults[d]).None?
    ensures var tool := Tool(d, world.defaults[d]);
      Tables(world, byTarget[d := tool], byName[tool.name := tool])
    ensures world.NameOf(d) == world.defaults[d] && world.GoesBy(d, world.defaults[d])
  {
    ClassNameIsItsOwn(world, byTarget, byName, d);
    hide TargetTable, NameTable, world.GoesBy, world.NamesApart, world.Registered;
    var tool := Tool(d, world.defaults[d]);
    TargetTableExtended(world, byTarget, d, tool);
    NameTableExtended(world, byTarget.Keys, byName, d);
    assert byTarget[d := tool].Keys == byTarget.Keys + {d};
  }

  function Found(byName: map<string, Tool>, dependency: ToolDependency): Option<Tool> {
    if dependency.toolId in byName then Some(byName[dependency.toolId])
    else if dependency.toolName in byName then Some(byName[dependency.toolName])
    else None
  }

  /** A class registered on the way hides a registered producer from a declaration if and only if it takes
      the name the producer is found under; every other lookup stays as it was or was empty before. */
  lemma HidesProducerIff(world: World, byTarget: map<Target, Tool>, byName: map<string, Tool>, d: Target,
                         dependency: ToolDependency, producer: Tool)
    requires Tables(world, byTarget, byName) && d !in byTarget && d in world.defaults
    requires Found(byName, dependency) == Some(producer)
    ensures var byName1 := byName[world.defaults[d] := Tool(d, world.defaults[d])];
      Found(byName1, dependency) != Some(producer) <==>
        world.defaults[d] == dependency.toolId || world.defaults[d] == producer.name
    ensures world.Registered(producer.name) == Some(producer) && world.defaults[d] == producer.name ==>
      !world.NamesApart()
  {
    var name := if dependency.toolId in byName then dependency.toolId else dependency.toolName;
    assert producer == byName[name] && producer.name == name && producer.target in byTarget;
  }

  function FoundAll(byName: map<string, Tool>, dependencies: seq<ToolDependency>): seq<Tool> {
    if |dependencies| == 0 then []
    else
      var last := Found(byName, dependencies[|dependencies| - 1]);
      FoundAll(byName, dependencies[..|dependencies| - 1]) + if last.Some? then [last.value] else []
  }

  lemma {:induction false} FoundFrom(byName: map<string, Tool>, dependencies: seq<ToolDependency>, k: nat)
    returns (i: nat)
    requires k < |FoundAll(byName, dependencies)|
    ensures i < |dependencies| && Found(byName, dependencies[i]) == Some(FoundAll(byName, dependencies)[k])
    decreases |dependencies|
  {
    var front := dependencies[..|dependencies| - 1];
    if k < |FoundAll(byName, front)| {
      i := FoundFrom(byName, front, k);
    } else {
      i := |dependencies| - 1;
    }
  }

  lemma {:induction false} FoundAt(byName: map<string, Tool>, dependencies: seq<ToolDependency>, i: nat)
    returns (k: nat)
    requires i < |dependencies| && Found(byName, dependencies[i]).Some?
    ensures k < |FoundAll(byName, dependencies)|
    ensures FoundAll(byName, dependencies)[k] == Found(byName, dependencies[i]).value
    decreases |dependencies|
  {
    var front := dependencies[..|dependencies| - 1];
    if i < |front| {
      k := FoundAt(byName, front, i);
    } else {
      k := |FoundAll(byName, front)|;
    }
  }
}
