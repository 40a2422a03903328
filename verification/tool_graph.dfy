/** Compilation of a scope's tools into one list, nested models and declared producers included. */
module ToolGraph {
  import opened Options

  /** The identity of a tool's callable or model class. */
  type Target = nat

  datatype Tool = Tool(target: Target, name: string)

  /** A model-valued field: `direct` when the field's whole annotation is the nested model. */
  datatype ModelField = ModelField(argName: string, nested: Target, direct: bool)

  datatype ToolDependency = ToolDependency(argName: string, toolId: string, toolName: string)

  /** The dependency lists that targets have of their own. */
  type Lists = map<Target, seq<ToolDependency>>

  /** What compilation is given: the fields of every model class, the name a class gets when it is
      registered on the way, the classes it inherits attributes from, nearest first, the dependency
      lists that targets have of their own, and the registered tools. */
  datatype World = World(
    models: map<Target, seq<ModelField>>,
    defaults: map<Target, string>,
    bases: map<Target, seq<Target>>,
    declared: Lists,
    tools: seq<Tool>)
  {
    function Fields(t: Target): seq<ModelField> { if t in models then models[t] else [] }

    /** Every nested class is a model class with a name of its own, and the only one of a direct field. */
    ghost predicate Valid() {
      && models.Keys == defaults.Keys
      && (forall t, i :: t in models && 0 <= i < |models[t]| ==> models[t][i].nested in models)
      && (forall t, i, j :: t in models && 0 <= i < |models[t]| && 0 <= j < |models[t]| && models[t][i].direct ==>
            (models[t][i].argName == models[t][j].argName ==> i == j))
    }

    /** Where an attribute of `t` is looked for. */
    function Line(t: Target): seq<Target> { [t] + if t in bases then bases[t] else [] }

    /** The class whose list `t` reads: a subclass without one reads its base's, the very same list. */
    function Holder(lists: Lists, t: Target): Option<Target> { FirstIn(Line(t), lists.Keys) }

    function ReadList(lists: Lists, t: Target): seq<ToolDependency> {
      var holder := Holder(lists, t);
      if holder.Some? then lists[holder.value] else []
    }

    /** The declarations `t` starts with, inherited or its own. */
    function Declared(t: Target): seq<ToolDependency> { ReadList(declared, t) }

    function OwnDeclared(c: Target): seq<ToolDependency> { if c in declared then declared[c] else [] }

    /** Registered, or nested in a model that is wanted for the same reason. */
    ghost predicate Wanted(t: Target) {
      forall all: set<Target> :: HasRegistered(this, all) && ClosedUnderNesting(this, all) ==> t in all
    }

    /** The field is the only direct one for its model in the whole graph, so that model's one result can feed it. */
    ghost predicate Sole(t: Target, i: int) {
      && 0 <= i < |Fields(t)| && Fields(t)[i].direct && Wanted(t)
      && forall u, j ::
           Wanted(u) && 0 <= j < |Fields(u)| && Fields(u)[j].direct && Fields(u)[j].nested == Fields(t)[i].nested ==>
           u == t && j == i
    }

    /** The name a target's tool goes by: the last it was registered under, else its class's. */
    function NameOf(t: Target): string {
      var last := LastFor(tools, t);
      if last.Some? then last.value.name else if t in defaults then defaults[t] else ""
    }

    /** The dependency that a field infers: fed by its model's tool. */
    function InferredAt(t: Target, i: nat): ToolDependency
      requires i < |Fields(t)|
    {
      var name := NameOf(Fields(t)[i].nested);
      ToolDependency(Fields(t)[i].argName, name, name)
    }

    /** A class that is given a list of its own, as it has none and a field that infers a dependency. */
    ghost predicate Gains(c: Target) {
      Holder(declared, c).None? && exists i: nat :: Sole(c, i)
    }

    ghost predicate CanHold(c: Target) { c in declared || Gains(c) }

    /** `t` may come to read the list of `c`: nothing nearer had one to begin with. */
    ghost predicate CanRead(t: Target, c: Target) {
      exists k ::
        0 <= k < |Line(t)| && Line(t)[k] == c && CanHold(c) && forall j :: 0 <= j < k ==> Line(t)[j] !in declared
    }

    /** No list that a nearer base gains hides the one `t` reads. */
    ghost predicate KeepsList(t: Target) {
      forall c, other :: CanRead(t, c) && CanRead(t, other) ==> c == other
    }

    predicate IsRegistered(t: Target) {
      exists i :: 0 <= i < |tools| && tools[i].target == t
    }

    /** The name a tool of this target may go by: one it was registered under, else its class's. */
    ghost predicate GoesBy(t: Target, name: string) {
      if IsRegistered(t) then Tool(t, name) in tools else t in defaults && defaults[t] == name
    }

    ghost predicate Nests(t: Target, d: Target) {
      exists i :: 0 <= i < |Fields(t)| && Fields(t)[i].nested == d
    }

    /** The last registered tool of a name. */
    function Registered(name: string): Option<Tool> { LastNamed(tools, name) }

    /** Classes registered on the way take no registered tool's name. */
    ghost predicate NamesApart() {
      forall t :: t in defaults && Registered(defaults[t]).Some? ==> IsRegistered(t)
    }

    /** The registered producer a declaration means: by id, else by name when no tool can go by the id. */
    ghost predicate Means(dependency: ToolDependency, producer: Tool) {
      if Registered(dependency.toolId).Some? then Registered(dependency.toolId).value == producer
      else Registered(dependency.toolName) == Some(producer) && dependency.toolId !in defaults.Values
    }

    ghost predicate DeclaresProducer(t: Target, d: Target) {
      exists i, producer :: 0 <= i < |Declared(t)| && Means(Declared(t)[i], producer) && producer.target == d
    }

    /** What has to be compiled before `t`. */
    ghost predicate Needs(t: Target, d: Target) {
      Nests(t, d) || (NamesApart() && KeepsList(t) && DeclaresProducer(t, d))
    }

    /** A lookup of the dependency may lead to the registered tool `d`: by id, else by name. Classes that
        take registered names make any tool of either name possible. */
    ghost predicate MayMean(dependency: ToolDependency, d: Target) {
      if !NamesApart() then GoesBy(d, dependency.toolId) || GoesBy(d, dependency.toolName)
      else
        var found :=
          if Registered(dependency.toolId).Some? then Registered(dependency.toolId)
          else Registered(dependency.toolName);
        found.Some? && found.value.target == d
    }

    ghost predicate Declares(t: Target, d: Target) {
      exists i :: 0 <= i < |Declared(t)| && MayMean(Declared(t)[i], d)
    }

    /** An inferred dependency leads to the registered tool of the model's name, for whoever reads the list. */
    ghost predicate Shares(t: Target, d: Target) {
      exists c, u, i: nat :: CanRead(t, c) && CanRead(u, c) && Sole(u, i) && MayMean(InferredAt(u, i), d)
    }

    /** `t` may depend on `d`. */
    ghost predicate Edge(t: Target, d: Target) {
      Nests(t, d) || Declares(t, d) || Shares(t, d)
    }

    /** No class may read a list in which another's inferred dependencies stand. */
    ghost predicate Alone() {
      forall t, u, c, i: nat :: CanRead(t, c) && CanRead(u, c) && Sole(u, i) ==> t == u
    }

    /** No registered name is used twice, no declared id is at once unregistered and a class's name, and
        lists are neither hidden nor shared with an inferred dependency. */
    ghost predicate Tidy() {
      && NamesApart() && Alone() && (forall t :: Holder(declared, t).Some? ==> KeepsList(t))
      && (forall i, j :: 0 <= i < j < |tools| ==> tools[i].name != tools[j].name)
      && (forall t, i ::
           0 <= i < |Declared(t)| && Registered(Declared(t)[i].toolId).None? ==>
           Declared(t)[i].toolId !in defaults.Values)
    }
  }

  function FirstIn(line: seq<Target>, keys: set<Target>): (found: Option<Target>)
    ensures found.Some? ==> found.value in keys
    ensures found.Some? ==>
      exists k :: 0 <= k < |line| && line[k] == found.value && forall j :: 0 <= j < k ==> line[j] !in keys
    ensures found.None? ==> forall c :: c in line ==> c !in keys
  {
    if |line| == 0 then None
    else if line[0] in keys then assert line[0] == line[0]; Some(line[0])
    else
      var rest := FirstIn(line[1..], keys);
      assert rest.Some? ==> forall k :: 0 <= k < |line[1..]| ==> line[1..][k] == line[k + 1];
      rest
  }

  function LastFor(tools: seq<Tool>, t: Target): Option<Tool> {
    if |tools| == 0 then None
    else if tools[|tools| - 1].target == t then Some(tools[|tools| - 1])
    else LastFor(tools[..|tools| - 1], t)
  }

  function LastNamed(tools: seq<Tool>, name: string): Option<Tool> {
    if |tools| == 0 then None
    else if tools[|tools| - 1].name == name then Some(tools[|tools| - 1])
    else LastNamed(tools[..|tools| - 1], name)
  }

  // ---------------------------------------------------------------- paths

  ghost predicate IsPath(world: World, path: seq<Target>) {
    |path| > 0 && forall i :: 0 <= i < |path| - 1 ==> world.Edge(path[i], path[i + 1])
  }

  ghost predicate Reaches(world: World, a: Target, b: Target) {
    exists path :: IsPath(world, path) && path[0] == a && path[|path| - 1] == b
  }

  lemma ReachesItself(world: World, a: Target)
    ensures Reaches(world, a, a)
  {
    assert IsPath(world, [a]);
  }

  lemma ReachesFurther(world: World, a: Target, b: Target, c: Target)
    requires Reaches(world, a, b) && world.Edge(b, c)
    ensures Reaches(world, a, c)
  {
    var path :| IsPath(world, path) && path[0] == a && path[|path| - 1] == b;
    var longer := path + [c];
    forall i | 0 <= i < |longer| - 1
      ensures world.Edge(longer[i], longer[i + 1])
    {
      if i < |path| - 1 {
        assert world.Edge(path[i], path[i + 1]);
      }
    }
    assert IsPath(world, longer);
  }

  lemma ReachesBefore(world: World, a: Target, b: Target, c: Target)
    requires world.Edge(a, b) && Reaches(world, b, c)
    ensures Reaches(world, a, c)
  {
    var path :| IsPath(world, path) && path[0] == b && path[|path| - 1] == c;
    var longer := [a] + path;
    forall i | 0 <= i < |longer| - 1
      ensures world.Edge(longer[i], longer[i + 1])
    {
      if i > 0 {
        assert world.Edge(path[i - 1], path[i]);
      }
    }
    assert IsPath(world, longer);
  }

  // ---------------------------------------------------------------- what compilation keeps

  /** `d` is listed before `t`. */
  ghost predicate Before(compiled: seq<Tool>, d: Target, t: Target) {
    exists i, j :: 0 <= i < j < |compiled| && compiled[i].target == d && compiled[j].target == t
  }

  function TargetsOf(compiled: seq<Tool>): set<Target> {
    set i | 0 <= i < |compiled| :: compiled[i].target
  }

  /** Something among the first `n` registered tools reaches `d`. */
  ghost predicate ReachedBy(world: World, n: nat, d: Target) {
    exists k :: 0 <= k < n && k < |world.tools| && Reaches(world, world.tools[k].target, d)
  }

  /** Registration order: a registered tool comes before all that neither it nor an earlier one depends on. */
  ghost predicate KeepsOrder(world: World, compiled: seq<Tool>, n: nat) {
    forall k, d :: 0 <= k < n && k < |world.tools| && d in TargetsOf(compiled) ==>
      ReachedBy(world, k + 1, d) || Before(compiled, world.tools[k].target, d)
  }

  lemma BeforeStays(compiled: seq<Tool>, longer: seq<Tool>, a: Target, b: Target)
    requires compiled <= longer && a in TargetsOf(compiled) && b in TargetsOf(longer)
    ensures Before(compiled, a, b) || b !in TargetsOf(compiled) ==> Before(longer, a, b)
  {
    if Before(compiled, a, b) {
      var i, j :| 0 <= i < j < |compiled| && compiled[i].target == a && compiled[j].target == b;
      assert longer[i] == compiled[i] && longer[j] == compiled[j];
    } else if b !in TargetsOf(compiled) {
      var i :| 0 <= i < |compiled| && compiled[i].target == a;
      var j :| 0 <= j < |longer| && longer[j].target == b;
      assert forall k :: 0 <= k < |compiled| ==> longer[k] == compiled[k] && compiled[k].target in TargetsOf(compiled);
    }
  }

  predicate NoRepeats(compiled: seq<Tool>) {
    forall i, j :: 0 <= i < j < |compiled| ==> compiled[i].target != compiled[j].target
  }

  /** Whatever a listed tool needs is listed before it, or lies with it on a cycle. */
  ghost predicate Settled(world: World, compiled: seq<Tool>, open: set<Target>, t: Target) {
    forall d :: world.Needs(t, d) ==>
      Before(compiled, d, t) || ((d in open || d in TargetsOf(compiled)) && Reaches(world, d, t))
  }

  ghost predicate AllSettled(world: World, compiled: seq<Tool>, open: set<Target>) {
    forall t :: t in TargetsOf(compiled) ==> Settled(world, compiled, open, t)
  }

  /** The table by target holds every registered tool, and each known one under the target's own name. */
  ghost predicate TargetTable(world: World, byTarget: map<Target, Tool>) {
    && (forall i :: 0 <= i < |world.tools| ==> world.tools[i].target in byTarget)
    && (forall t ::
         t in byTarget ==>
         byTarget[t].target == t && byTarget[t].name == world.NameOf(t) && world.GoesBy(t, byTarget[t].name))
  }

  /** The table by name holds known tools, and registered names keep their tools. */
  ghost predicate NameTable(world: World, known: set<Target>, byName: map<string, Tool>) {
    && (forall name :: name in byName ==>
          byName[name].name == name && byName[name].target in known && world.GoesBy(byName[name].target, name))
    && (forall name :: name in byName && world.Registered(name).None? ==> name in world.defaults.Values)
    && (forall name ::
         world.Registered(name).Some? ==>
         name in byName && (world.NamesApart() ==> byName[name] == world.Registered(name).value))
  }

  /** The lookup tables hold real tools. */
  ghost predicate Tables(world: World, byTarget: map<Target, Tool>, byName: map<string, Tool>) {
    TargetTable(world, byTarget) && NameTable(world, byTarget.Keys, byName)
  }

  /** A list that was there only gains entries at its end. */
  ghost predicate Grown(world: World, lists: Lists) {
    forall t :: t in world.declared ==> t in lists && world.declared[t] <= lists[t]
  }

  predicate HasArgument(dependencies: seq<ToolDependency>, argName: string) {
    exists j :: 0 <= j < |dependencies| && dependencies[j].argName == argName
  }

  /** The argument has a dependency in some list that `t` may read. */
  ghost predicate Takes(world: World, lists: Lists, t: Target, argName: string) {
    exists c :: c in lists && world.CanRead(t, c) && HasArgument(lists[c], argName)
  }

  /** Every field of the model that can be fed has a dependency, declared or inferred. */
  ghost predicate Fed(world: World, lists: Lists, t: Target) {
    forall i: nat :: world.Sole(t, i) ==> Takes(world, lists, t, world.Fields(t)[i].argName)
  }

  /** Some class that may read the list infers this. */
  ghost predicate InferredBy(world: World, c: Target, dependency: ToolDependency) {
    exists u, i: nat :: world.Sole(u, i) && world.CanRead(u, c) && world.InferredAt(u, i) == dependency
  }

  /** An entry that was not declared was inferred, for an argument that had no entry yet. */

  ghost predicate Sourced(world: World, lists: Lists) {
    && (forall c :: c in lists ==> world.CanHold(c))
    && forall c, i :: c in lists && |world.OwnDeclared(c)| <= i < |lists[c]| ==>
         InferredBy(world, c, lists[c][i]) && !HasArgument(lists[c][..i], lists[c][i].argName)
  }

  /** Every known tool is registered, or nested in a model that is known for the same reason. */
  ghost predicate Grounded(world: World, known: set<Target>) {
    forall t :: t in known ==> world.Wanted(t)
  }

  predicate HasRegistered(world: World, all: set<Target>) {
    forall i :: 0 <= i < |world.tools| ==> world.tools[i].target in all
  }

  ghost predicate ClosedUnderNesting(world: World, all: set<Target>) {
    forall t, d :: t in all && world.Nests(t, d) ==> d in all
  }

  lemma NestedIsGrounded(world: World, known: set<Target>, t: Target, d: Target)
    requires Grounded(world, known) && t in known && world.Nests(t, d)
    ensures Grounded(world, known + {d})
  {
  }

  ghost predicate Listed(world: World, compiled: seq<Tool>) {
    forall i :: 0 <= i < |compiled| ==> world.GoesBy(compiled[i].target, compiled[i].name)
  }

  lemma TargetsAppend(compiled: seq<Tool>, tool: Tool)
    ensures TargetsOf(compiled + [tool]) == TargetsOf(compiled) + {tool.target}
    ensures forall d, t :: Before(compiled, d, t) ==> Before(compiled + [tool], d, t)
    ensures forall d :: d in TargetsOf(compiled) ==> Before(compiled + [tool], d, tool.target)
  {
    var longer := compiled + [tool];
    assert longer[|compiled|] == tool;
    assert forall i :: 0 <= i < |compiled| ==> longer[i] == compiled[i];
    forall t
      ensures t in TargetsOf(longer) <==> t in TargetsOf(compiled) || t == tool.target
    {
      if t in TargetsOf(compiled) {
        var i :| 0 <= i < |compiled| && compiled[i].target == t;
        assert longer[i].target == t;
      }
    }
    forall d, t | Before(compiled, d, t)
      ensures Before(longer, d, t)
    {
      var i, j :| 0 <= i < j < |compiled| && compiled[i].target == d && compiled[j].target == t;
      assert longer[i].target == d && longer[j].target == t;
    }
    forall d | d in TargetsOf(compiled)
      ensures Before(longer, d, tool.target)
    {
      var i :| 0 <= i < |compiled| && compiled[i].target == d;
      assert longer[i].target == d && longer[|compiled|].target == tool.target;
    }
  }

  /** Opening a target settles no less. */
  lemma OpenedStaysSettled(world: World, compiled: seq<Tool>, open: set<Target>, t: Target)
    requires AllSettled(world, compiled, open)
    ensures AllSettled(world, compiled, open + {t})
  {
    forall other | other in TargetsOf(compiled)
      ensures Settled(world, compiled, open + {t}, other)
    {
      assert Settled(world, compiled, open, other);
    }
  }

  /** A target that has everything it needs listed or open can be closed. */
  lemma ClosedIsSettled(world: World, compiled: seq<Tool>, open: set<Target>, tool: Tool)
    requires AllSettled(world, compiled, open) && tool.target in open
    requires forall v :: v in open ==> Reaches(world, v, tool.target)
    requires forall d :: world.Needs(tool.target, d) ==> d in open || d in TargetsOf(compiled)
    ensures AllSettled(world, compiled + [tool], open - {tool.target})
  {
    TargetsAppend(compiled, tool);
    forall other | other in TargetsOf(compiled + [tool])
      ensures Settled(world, compiled + [tool], open - {tool.target}, other)
    {
      hide *;
      if other in TargetsOf(compiled) {
        OtherStaysSettled(world, compiled, open, tool, other);
      } else {
        assert other == tool.target;
        LastIsSettled(world, compiled, open, tool);
      }
    }
  }

  lemma OtherStaysSettled(world: World, compiled: seq<Tool>, open: set<Target>, tool: Tool, other: Target)
    requires AllSettled(world, compiled, open) && other in TargetsOf(compiled)
    ensures Settled(world, compiled + [tool], open - {tool.target}, other)
  {
    TargetsAppend(compiled, tool);
    assert Settled(world, compiled, open, other);
    hide Before, Reaches, TargetsOf;
  }

  lemma LastIsSettled(world: World, compiled: seq<Tool>, open: set<Target>, tool: Tool)
    requires forall v :: v in open ==> Reaches(world, v, tool.target)
    requires forall d :: world.Needs(tool.target, d) ==> d in open || d in TargetsOf(compiled)
    ensures Settled(world, compiled + [tool], open - {tool.target}, tool.target)
  {
    TargetsAppend(compiled, tool);
    hide Before, Reaches, TargetsOf;
  }

  // ---------------------------------------------------------------- names and edges

  lemma {:induction false} LastNamedIsIn(tools: seq<Tool>, name: string)
    ensures LastNamed(tools, name).Some? ==>
      LastNamed(tools, name).value in tools && LastNamed(tools, name).value.name == name
  {
    if |tools| > 0 && tools[|tools| - 1].name != name {
      LastNamedIsIn(tools[..|tools| - 1], name);
    }
  }

  /** What has to come first is something the tool may depend on. */
  lemma NeedsAreEdges(world: World, t: Target, d: Target)
    requires world.Needs(t, d)
    ensures world.Edge(t, d)
  {
    if !world.Nests(t, d) {
      var i, producer :|
        0 <= i < |world.Declared(t)| && world.Means(world.Declared(t)[i], producer) && producer.target == d;
      assert world.MayMean(world.Declared(t)[i], d);
    }
  }

  lemma {:induction false} RegisteredIsUnique(tools: seq<Tool>, i: nat)
    requires i < |tools| && forall j, k :: 0 <= j < k < |tools| ==> tools[j].name != tools[k].name
    ensures LastNamed(tools, tools[i].name) == Some(tools[i])
  {
    if i < |tools| - 1 {
      assert tools[..|tools| - 1][i] == tools[i];
      RegisteredIsUnique(tools[..|tools| - 1], i);
    }
  }

  /** With tidy names a tool may depend on nothing but what it needs: its edges are no over-approximation. */
  lemma EdgesAreNeeds(world: World, t: Target, d: Target)
    requires world.Valid() && world.Tidy()
    ensures world.Edge(t, d) <==> world.Needs(t, d)
  {
    if world.Needs(t, d) {
      NeedsAreEdges(world, t, d);
    }
    if world.Edge(t, d) && !world.Nests(t, d) {
      if world.Declares(t, d) {
        var i :| 0 <= i < |world.Declared(t)| && world.MayMean(world.Declared(t)[i], d);
        var dependency := world.Declared(t)[i];
        var found :=
          if world.Registered(dependency.toolId).Some? then world.Registered(dependency.toolId)
          else world.Registered(dependency.toolName);
        assert world.Means(dependency, found.value);
      } else {
        SharedIsNested(world, t, d);
      }
    }
  }

  lemma SharedIsNested(world: World, t: Target, d: Target)
    requires world.Valid() && world.Tidy() && world.Shares(t, d)
    ensures world.Nests(t, d)
  {
    var c, u, i: nat :|
      world.CanRead(t, c) && world.CanRead(u, c) && world.Sole(u, i) && world.MayMean(world.InferredAt(u, i), d);
    assert t == u;
    var nested := world.Fields(t)[i].nested;
    var name := world.NameOf(nested);
    NameIsItsOwn(world, nested);
    LastNamedIsIn(world.tools, name);
    if Tool(nested, name) in world.tools {
      var k :| 0 <= k < |world.tools| && world.tools[k] == Tool(nested, name);
      RegisteredIsUnique(world.tools, k);
    }
  }

  lemma {:induction false} LastForIsIn(tools: seq<Tool>, t: Target)
    ensures var last := LastFor(tools, t);
      if last.Some? then last.value in tools && last.value.target == t
        else forall i :: 0 <= i < |tools| ==> tools[i].target != t
  {
    if |tools| > 0 && tools[|tools| - 1].target != t {
      LastForIsIn(tools[..|tools| - 1], t);
      assert forall i :: 0 <= i < |tools| - 1 ==> tools[i] == tools[..|tools| - 1][i];
    }
  }

  /** The name of a target's tool is one it may go by. */
  lemma NameIsItsOwn(world: World, t: Target)
    requires world.IsRegistered(t) || t in world.defaults
    ensures world.GoesBy(t, world.NameOf(t))
  {
    LastForIsIn(world.tools, t);
  }

  ghost predicate Acyclic(world: World) {
    forall t, d :: world.Edge(t, d) ==> !Reaches(world, d, t)
  }

  /** What compilation promises of its list. */
  ghost predicate Compiles(world: World, compiled: seq<Tool>) {
    && NoRepeats(compiled) && Listed(world, compiled)
    && HasRegistered(world, TargetsOf(compiled)) && Grounded(world, TargetsOf(compiled))
    && AllSettled(world, compiled, {})
  }

  /** What compilation leaves behind: the list, and the dependency lists with what it inferred. */
  ghost predicate Outcome(world: World, compiled: seq<Tool>, lists: Lists) {
    && Compiles(world, compiled) && Grown(world, lists) && Sourced(world, lists)
    && forall t :: t in TargetsOf(compiled) ==> Fed(world, lists, t)
  }

  /** The listed targets are exactly the least set with every registered tool and every model nested in
      one of its own. */
  lemma CompiledIsLeastClosure(world: World, compiled: seq<Tool>)
    requires Compiles(world, compiled)
    ensures HasRegistered(world, TargetsOf(compiled)) && ClosedUnderNesting(world, TargetsOf(compiled))
    ensures forall all: set<Target> ::
      HasRegistered(world, all) && ClosedUnderNesting(world, all) ==> TargetsOf(compiled) <= all
  {
    forall t, d | t in TargetsOf(compiled) && world.Nests(t, d)
      ensures d in TargetsOf(compiled)
    {
      assert Settled(world, compiled, {}, t);
      assert world.Needs(t, d);
    }
  }

  /** In an acyclic graph every nested model and every declared registered producer comes before its consumer. */
  lemma ProducersComeFirst(world: World, compiled: seq<Tool>, t: Target, d: Target)
    requires Compiles(world, compiled) && Acyclic(world)
    requires t in TargetsOf(compiled) && world.Needs(t, d)
    ensures Before(compiled, d, t) && !Before(compiled, t, d)
  {
    NeedsAreEdges(world, t, d);
    assert Settled(world, compiled, {}, t);
  }

  /** A path along what has to come first. */
  ghost predicate IsNeedsPath(world: World, path: seq<Target>) {
    |path| > 0 && forall i :: 0 <= i < |path| - 1 ==> world.Needs(path[i], path[i + 1])
  }

  ghost predicate NeedsAcyclic(world: World) {
    forall path: seq<Target> :: IsNeedsPath(world, path) && |path| > 1 ==> path[0] != path[|path| - 1]
  }

  lemma NeedsAcyclicIsAcyclic(world: World)
    requires world.Valid() && world.Tidy() && NeedsAcyclic(world)
    ensures Acyclic(world)
  {
    forall t: Target, d: Target | world.Edge(t, d)
      ensures !Reaches(world, d, t)
    {
      if Reaches(world, d, t) {
        var path :| IsPath(world, path) && path[0] == d && path[|path| - 1] == t;
        EdgesAreNeeds(world, t, d);
        var round := [t] + path;
        forall i | 0 <= i < |round| - 1
          ensures world.Needs(round[i], round[i + 1])
        {
          if i > 0 {
            assert world.Edge(path[i - 1], path[i]);
            EdgesAreNeeds(world, path[i - 1], path[i]);
          }
        }
        assert IsNeedsPath(world, round);
        assert false;
      }
    }
  }

  /** With tidy names it is enough that the needs themselves have no cycle. */
  lemma NeededComeFirst(world: World, compiled: seq<Tool>, t: Target, d: Target)
    requires Compiles(world, compiled) && world.Valid() && world.Tidy() && NeedsAcyclic(world)
    requires t in TargetsOf(compiled) && world.Needs(t, d)
    ensures Before(compiled, d, t) && !Before(compiled, t, d)
  {
    NeedsAcyclicIsAcyclic(world);
    ProducersComeFirst(world, compiled, t, d);
  }
}
