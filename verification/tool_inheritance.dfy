/** Dependency lists that classes share with their bases: what a compilation may put into them. */
module ToolInheritance {
  import opened Options
  import opened ToolGraph

  /** `_append_model_dependency`: the entry goes to the list the class reads. */
  function Appended(world: World, lists: Lists, t: Target, dependency: ToolDependency): Lists {
    var holder := if world.Holder(lists, t).Some? then world.Holder(lists, t).value else t;
    var dependencies := world.ReadList(lists, t);
    if HasArgument(dependencies, dependency.argName) then lists else lists[holder := dependencies + [dependency]]
  }

  /** A list in force is one the class may read. */
  lemma HolderCanBeRead(world: World, lists: Lists, t: Target)
    requires Grown(world, lists) && (forall c :: c in lists ==> world.CanHold(c))
    ensures world.Holder(lists, t).Some? ==> world.CanRead(t, world.Holder(lists, t).value)
  {
  }

  lemma GainerCanBeRead(world: World, lists: Lists, t: Target, i: nat)
    requires Grown(world, lists) && world.Holder(lists, t).None? && world.Sole(t, i)
    ensures world.CanRead(t, t)
  {
    assert world.Line(t)[0] == t;
    assert world.Holder(world.declared, t).None?;
    assert world.Gains(t);
  }

  lemma ArgumentsAppend(dependencies: seq<ToolDependency>, dependency: ToolDependency)
    ensures HasArgument(dependencies + [dependency], dependency.argName)
    ensures forall argName :: HasArgument(dependencies, argName) ==> HasArgument(dependencies + [dependency], argName)
  {
    var longer := dependencies + [dependency];
    assert longer[|dependencies|] == dependency;
    assert forall i :: 0 <= i < |dependencies| ==> longer[i] == dependencies[i];
  }

  function Extended(lists: Lists, c: Target, dependency: ToolDependency): Lists {
    lists[c := (if c in lists then lists[c] else []) + [dependency]]
  }

  lemma ExtendedIsSourced(world: World, lists: Lists, c: Target, dependency: ToolDependency)
    requires Grown(world, lists) && Sourced(world, lists) && world.CanHold(c) && InferredBy(world, c, dependency)
    requires !HasArgument(if c in lists then lists[c] else [], dependency.argName)
    ensures Grown(world, Extended(lists, c, dependency)) && Sourced(world, Extended(lists, c, dependency))
  {
    hide InferredBy, HasArgument, world.CanHold;
    var lists1 := Extended(lists, c, dependency);
    var before := if c in lists then lists[c] else [];
    forall other, i | other in lists1 && |world.OwnDeclared(other)| <= i < |lists1[other]|
      ensures InferredBy(world, other, lists1[other][i]) && !HasArgument(lists1[other][..i], lists1[other][i].argName)
    {
      if other != c {
        assert other in lists;
      } else if i < |before| {
        assert lists1[c][i] == lists[c][i] && lists1[c][..i] == lists[c][..i];
      } else {
        assert lists1[c][..i] == before && lists1[c][i] == dependency;
      }
    }
  }

  lemma ExtendedTakes(world: World, lists: Lists, c: Target, dependency: ToolDependency, t: Target)
    requires world.CanRead(t, c)
    ensures var lists1 := Extended(lists, c, dependency);
      && Takes(world, lists1, t, dependency.argName)
      && (forall other, argName :: Takes(world, lists, other, argName) ==> Takes(world, lists1, other, argName))
  {
    var lists1 := Extended(lists, c, dependency);
    ArgumentsAppend(if c in lists then lists[c] else [], dependency);
    hide HasArgument;
    forall other, argName | Takes(world, lists, other, argName)
      ensures Takes(world, lists1, other, argName)
    {
      var holder :| holder in lists && world.CanRead(other, holder) && HasArgument(lists[holder], argName);
      assert HasArgument(lists1[holder], argName);
    }
  }

  /** Where an inferred dependency goes: to a list that can be read and that it may be inferred for. */
  lemma AppendTarget(world: World, lists: Lists, t: Target, i: nat) returns (c: Target)
    requires Grown(world, lists) && Sourced(world, lists) && world.Sole(t, i)
    ensures world.CanHold(c) && world.CanRead(t, c)
    ensures c == if world.Holder(lists, t).Some? then world.Holder(lists, t).value else t
    ensures world.ReadList(lists, t) == if c in lists then lists[c] else []
    ensures InferredBy(world, c, world.InferredAt(t, i))
  {
    c := if world.Holder(lists, t).Some? then world.Holder(lists, t).value else t;
    HolderCanBeRead(world, lists, t);
    if world.Holder(lists, t).None? {
      GainerCanBeRead(world, lists, t, i);
      assert world.Line(t)[0] == t && t !in lists;
    }
    hide Sourced;
  }

  /** An inferred dependency goes to a list the class may read, and nothing is lost. */
  lemma AppendKeeps(world: World, lists: Lists, t: Target, i: nat)
    requires Grown(world, lists) && Sourced(world, lists) && world.Sole(t, i)
    ensures var lists1 := Appended(world, lists, t, world.InferredAt(t, i));
      && Grown(world, lists1) && Sourced(world, lists1)
      && Takes(world, lists1, t, world.Fields(t)[i].argName)
      && (forall other, argName :: Takes(world, lists, other, argName) ==> Takes(world, lists1, other, argName))
  {
    var dependency := world.InferredAt(t, i);
    hide Grown, Sourced, InferredBy, HasArgument;
    var c := AppendTarget(world, lists, t, i);
    if HasArgument(world.ReadList(lists, t), dependency.argName) {
      assert HasArgument([], dependency.argName) ==> c in lists by {
        NothingHasArgument(dependency.argName);
      }
    } else {
      ExtendedIsSourced(world, lists, c, dependency);
      ExtendedTakes(world, lists, c, dependency, t);
    }
  }

  lemma NothingHasArgument(argName: string)
    ensures !HasArgument([], argName)
  {
  }

  lemma FedStays(world: World, lists: Lists, lists1: Lists)
    requires forall other, argName :: Takes(world, lists, other, argName) ==> Takes(world, lists1, other, argName)
    ensures forall t :: Fed(world, lists, t) ==> Fed(world, lists1, t)
  {
    hide Takes;
  }

  /** The first holder among more keys is the first among fewer that have it. */
  lemma FirstAmongFewer(line: seq<Target>, fewer: set<Target>, more: set<Target>)
    requires fewer <= more
    ensures var first := FirstIn(line, more); first.Some? && first.value in fewer ==> FirstIn(line, fewer) == first
  {
  }

  /** What a class reads was declared for it, or inferred by a class that may read the same list, for an
      argument without a declaration. */
  lemma ReadIsDeclaredOrShared(world: World, lists: Lists, t: Target, i: nat)
    requires Grown(world, lists) && Sourced(world, lists) && i < |world.ReadList(lists, t)|
    ensures var c, dependency := world.Holder(lists, t).value, world.ReadList(lists, t)[i];
      && world.CanRead(t, c)
      && ((i < |world.Declared(t)| && dependency == world.Declared(t)[i])
          || (InferredBy(world, c, dependency) && !HasArgument(world.OwnDeclared(c), dependency.argName)))
  {
    HolderCanBeRead(world, lists, t);
    FirstAmongFewer(world.Line(t), world.declared.Keys, lists.Keys);
    var c := world.Holder(lists, t).value;
    if |world.OwnDeclared(c)| <= i {
      assert world.OwnDeclared(c) <= lists[c][..i];
      FewerArguments(world.OwnDeclared(c), lists[c][..i]);
    }
    hide InferredBy, HasArgument, world.CanRead, world.CanHold;
  }

  lemma FewerArguments(fewer: seq<ToolDependency>, more: seq<ToolDependency>)
    requires fewer <= more
    ensures forall argName :: HasArgument(fewer, argName) ==> HasArgument(more, argName)
  {
    assert forall j :: 0 <= j < |fewer| ==> fewer[j] == more[j];
  }

  /** Whatever such an entry may lead to is a tool the class may depend on. */
  lemma DependencyIsEdge(world: World, lists: Lists, t: Target, i: nat, d: Target)
    requires Grown(world, lists) && Sourced(world, lists) && i < |world.ReadList(lists, t)|
    requires world.MayMean(world.ReadList(lists, t)[i], d)
    ensures world.Edge(t, d)
  {
    ReadIsDeclaredOrShared(world, lists, t, i);
    hide Grown, Sourced;
    var c, dependency := world.Holder(lists, t).value, world.ReadList(lists, t)[i];
    if InferredBy(world, c, dependency) {
      var u, j: nat :| world.Sole(u, j) && world.CanRead(u, c) && world.InferredAt(u, j) == dependency;
      assert world.Shares(t, d);
    } else {
      assert world.Declares(t, d);
    }
  }

  /** The declarations a class starts with stay those it reads, unless a nearer list can hide them. */
  lemma DeclaredIsRead(world: World, lists: Lists, t: Target)
    requires Grown(world, lists) && Sourced(world, lists) && world.KeepsList(t) && |world.Declared(t)| > 0
    ensures world.Declared(t) <= world.ReadList(lists, t)
  {
    var c := world.Holder(world.declared, t).value;
    HolderCanBeRead(world, lists, t);
    assert world.CanRead(t, c);
  }

  // ---------------------------------------------------------------- when only own fields are inferred

  /** A class that reads a list to begin with, or is given one. */
  ghost predicate Rooted(world: World, t: Target) {
    world.Holder(world.declared, t).Some? || world.Gains(t)
  }

  /** No list in use is hidden later by one that a nearer base gains. */
  ghost predicate ListsStay(world: World) {
    forall t :: Rooted(world, t) ==> world.KeepsList(t)
  }

  /** `t` reads the list of `c` in the end: nothing nearer has one, to begin with or by then. */
  ghost predicate ReadsFrom(world: World, t: Target, c: Target) {
    exists k ::
      0 <= k < |world.Line(t)| && world.Line(t)[k] == c && world.CanHold(c) &&
      forall j :: 0 <= j < k ==> !world.CanHold(world.Line(t)[j])
  }

  /** The dependency stands for a field of `t` and names that field's own model. */
  ghost predicate Infers(world: World, t: Target, dependency: ToolDependency) {
    exists i: nat :: world.Sole(t, i) && world.InferredAt(t, i) == dependency
  }

  /** What compilation is for: beside its declarations a class reads only what its own fields infer. */
  ghost predicate OnlyInferred(world: World, lists: Lists) {
    forall t, dependency ::
      dependency in world.ReadList(lists, t) ==> dependency in world.Declared(t) || Infers(world, t, dependency)
  }

  /** The field infers a dependency that is not declared. */
  ghost predicate Adds(world: World, u: Target, i: nat) {
    world.Sole(u, i) && !HasArgument(world.Declared(u), world.Fields(u)[i].argName)
  }

  /** Whoever reads a list to which a field's dependency is added has a field that infers the same. */
  ghost predicate InferenceIsShared(world: World) {
    forall t, u, c, i: nat ::
      ReadsFrom(world, t, c) && ReadsFrom(world, u, c) && Adds(world, u, i) ==> Infers(world, t, world.InferredAt(u, i))
  }

  lemma WantedIsListed(world: World, compiled: seq<Tool>, t: Target)
    requires Compiles(world, compiled) && world.Wanted(t)
    ensures t in TargetsOf(compiled)
  {
    CompiledIsLeastClosure(world, compiled);
  }

  /** A field that can be fed has its dependency in the list its class reads. */
  lemma FedIsRead(world: World, compiled: seq<Tool>, lists: Lists, t: Target, i: nat)
    requires Outcome(world, compiled, lists) && world.KeepsList(t) && world.Sole(t, i)
    ensures world.Holder(lists, t).Some? && HasArgument(world.ReadList(lists, t), world.Fields(t)[i].argName)
  {
    WantedIsListed(world, compiled, t);
    HolderCanBeRead(world, lists, t);
    hide Compiles, HasArgument;
    var argName := world.Fields(t)[i].argName;
    assert Takes(world, lists, t, argName);
    var c :| c in lists && world.CanRead(t, c) && HasArgument(lists[c], argName);
    assert c in world.Line(t);
  }

  /** The lists there are in the end are known beforehand. */
  lemma HeldExactly(world: World, compiled: seq<Tool>, lists: Lists, c: Target)
    requires Outcome(world, compiled, lists) && ListsStay(world)
    ensures c in lists <==> world.CanHold(c)
  {
    if world.Gains(c) {
      GainedIsHeld(world, compiled, lists, c);
    }
    hide Compiles, Fed, InferredBy, HasArgument, world.Gains;
  }

  lemma GainedIsHeld(world: World, compiled: seq<Tool>, lists: Lists, c: Target)
    requires Outcome(world, compiled, lists) && ListsStay(world) && world.Gains(c)
    ensures c in lists
  {
    hide Compiles, Grown, Fed, InferredBy, HasArgument, FirstIn, world.CanRead, world.Sole;
    GainerReadsItself(world, c);
    var i: nat :| world.Sole(c, i);
    FedIsRead(world, compiled, lists, c, i);
    HolderCanBeRead(world, lists, c);
  }

  lemma GainerReadsItself(world: World, c: Target)
    requires world.Gains(c)
    ensures world.CanRead(c, c) && Rooted(world, c)
  {
    hide world.Gains, FirstIn;
    assert world.Line(c)[0] == c;
  }

  lemma ReadIsFrom(world: World, compiled: seq<Tool>, lists: Lists, t: Target, c: Target)
    requires Outcome(world, compiled, lists) && ListsStay(world)
    ensures ReadsFrom(world, t, c) <==> world.Holder(lists, t) == Some(c)
  {
    forall other
      ensures other in lists <==> world.CanHold(other)
    {
      HeldExactly(world, compiled, lists, other);
    }
    hide Outcome, ListsStay, world.CanHold;
    var line := world.Line(t);
    if ReadsFrom(world, t, c) {
      var k :| 0 <= k < |line| && line[k] == c && world.CanHold(c) &&
        forall j :: 0 <= j < k ==> !world.CanHold(line[j]);
      assert c in line;
      var h := world.Holder(lists, t).value;
      var l :| 0 <= l < |line| && line[l] == h && forall j :: 0 <= j < l ==> line[j] !in lists.Keys;
      assert l == k;
    }
  }

  /** What a class may come to read it does read, if lists stay and the class is in need of one. */
  lemma CanReadIsFrom(world: World, compiled: seq<Tool>, lists: Lists, u: Target, i: nat, c: Target)
    requires Outcome(world, compiled, lists) && ListsStay(world) && world.Sole(u, i) && world.CanRead(u, c)
    ensures ReadsFrom(world, u, c) && (c in world.declared ==> world.Declared(u) == world.declared[c])
    ensures (c !in world.declared ==> world.Declared(u) == [])
  {
    assert Rooted(world, u);
    FedIsRead(world, compiled, lists, u, i);
    HolderCanBeRead(world, lists, u);
    ReadIsFrom(world, compiled, lists, u, c);
    FirstAmongFewer(world.Line(u), world.declared.Keys, lists.Keys);
    if c !in world.declared && world.Holder(world.declared, u).Some? {
      DeclaredCanBeRead(world, u);
    }
  }

  lemma DeclaredCanBeRead(world: World, t: Target)
    requires world.Holder(world.declared, t).Some?
    ensures world.CanRead(t, world.Holder(world.declared, t).value)
  {
  }

  /** Readers of one list start with the same declarations. */
  lemma SameDeclared(world: World, compiled: seq<Tool>, lists: Lists, t: Target, c: Target)
    requires Outcome(world, compiled, lists) && ListsStay(world) && world.Holder(lists, t) == Some(c)
    ensures world.Declared(t) == world.OwnDeclared(c)
  {
    HolderCanBeRead(world, lists, t);
    FirstAmongFewer(world.Line(t), world.declared.Keys, lists.Keys);
    if world.Holder(world.declared, t).Some? {
      DeclaredCanBeRead(world, t);
      assert Rooted(world, t);
    }
    hide Outcome;
  }

  lemma SharedIsOnly(world: World, compiled: seq<Tool>, lists: Lists, t: Target, dependency: ToolDependency)
    requires Outcome(world, compiled, lists) && ListsStay(world) && InferenceIsShared(world)
    requires dependency in world.ReadList(lists, t)
    ensures dependency in world.Declared(t) || Infers(world, t, dependency)
  {
    var k: nat :| k < |world.ReadList(lists, t)| && world.ReadList(lists, t)[k] == dependency;
    ReadIsDeclaredOrShared(world, lists, t, k);
    hide Compiles, Grown, Sourced, Fed, ListsStay, ReadsFrom, HasArgument, FirstIn;
    var c := world.Holder(lists, t).value;
    ReadIsFrom(world, compiled, lists, t, c);
    if dependency !in world.Declared(t) {
      var u, i: nat :| world.Sole(u, i) && world.CanRead(u, c) && world.InferredAt(u, i) == dependency;
      hide world.Sole, world.CanRead;
      AddsThere(world, compiled, lists, u, i, c);
    }
  }

  lemma AddsThere(world: World, compiled: seq<Tool>, lists: Lists, u: Target, i: nat, c: Target)
    requires Outcome(world, compiled, lists) && ListsStay(world) && world.Sole(u, i) && world.CanRead(u, c)
    requires !HasArgument(world.OwnDeclared(c), world.Fields(u)[i].argName)
    ensures ReadsFrom(world, u, c) && Adds(world, u, i)
  {
    CanReadIsFrom(world, compiled, lists, u, i, c);
    hide Outcome, ListsStay, world.CanRead, HasArgument;
  }

  /** The entry that a field adds is in the list, if every class reads only what its own fields infer. */
  lemma AddedIsThere(world: World, compiled: seq<Tool>, lists: Lists, u: Target, i: nat)
    requires world.Valid() && Outcome(world, compiled, lists) && ListsStay(world) && OnlyInferred(world, lists)
    requires Adds(world, u, i)
    ensures world.InferredAt(u, i) in world.ReadList(lists, u)
  {
    var argName := world.Fields(u)[i].argName;
    assert Rooted(world, u);
    FedIsRead(world, compiled, lists, u, i);
    var k :| 0 <= k < |world.ReadList(lists, u)| && world.ReadList(lists, u)[k].argName == argName;
    var dependency := world.ReadList(lists, u)[k];
    hide Outcome, ListsStay, Rooted;
    assert dependency in world.ReadList(lists, u) && dependency !in world.Declared(u);
    InferredForField(world, u, i, dependency);
  }

  lemma InferredForField(world: World, u: Target, i: nat, dependency: ToolDependency)
    requires world.Valid() && world.Sole(u, i) && Infers(world, u, dependency)
    requires dependency.argName == world.Fields(u)[i].argName
    ensures dependency == world.InferredAt(u, i)
  {
    var j: nat :| world.Sole(u, j) && world.InferredAt(u, j) == dependency;
    assert u in world.models && world.Fields(u) == world.models[u];
    assert j == i;
  }

  lemma OnlyIsShared(world: World, compiled: seq<Tool>, lists: Lists, t: Target, u: Target, c: Target, i: nat)
    requires world.Valid() && Outcome(world, compiled, lists) && ListsStay(world) && OnlyInferred(world, lists)
    requires ReadsFrom(world, t, c) && ReadsFrom(world, u, c) && Adds(world, u, i)
    ensures Infers(world, t, world.InferredAt(u, i))
  {
    hide Outcome, ListsStay, ReadsFrom, Infers;
    AddedIsThere(world, compiled, lists, u, i);
    ReadIsFrom(world, compiled, lists, t, c);
    ReadIsFrom(world, compiled, lists, u, c);
    SameDeclared(world, compiled, lists, t, c);
    SameDeclared(world, compiled, lists, u, c);
    assert world.InferredAt(u, i) !in world.Declared(t);
  }

  /** The exact condition: beside its declarations every class reads only what its own fields infer if and
      only if whoever reads a list to which a field's dependency is added has a field that infers the same. */
  lemma OnlyInferredIff(world: World, compiled: seq<Tool>, lists: Lists)
    requires world.Valid() && Outcome(world, compiled, lists) && ListsStay(world)
    ensures OnlyInferred(world, lists) <==> InferenceIsShared(world)
  {
    hide Outcome, ListsStay, ReadsFrom, Infers, HasArgument, world.Valid;
    if InferenceIsShared(world) {
      forall t: Target, dependency | dependency in world.ReadList(lists, t)
        ensures dependency in world.Declared(t) || Infers(world, t, dependency)
      {
        SharedIsOnly(world, compiled, lists, t, dependency);
      }
    }
    if OnlyInferred(world, lists) {
      forall t: Target, u: Target, c: Target, i: nat
        | ReadsFrom(world, t, c) && ReadsFrom(world, u, c) && Adds(world, u, i)
        ensures Infers(world, t, world.InferredAt(u, i))
      {
        OnlyIsShared(world, compiled, lists, t, u, c, i);
      }
    }
  }

  /** No class reads a list to which another's field adds a dependency. */
  ghost predicate InfersAlone(world: World) {
    forall t, u, c, i: nat :: ReadsFrom(world, t, c) && ReadsFrom(world, u, c) && Adds(world, u, i) ==> t == u
  }

  ghost predicate NamesDiffer(world: World) {
    forall a, b :: a in world.models && b in world.models && world.NameOf(a) == world.NameOf(b) ==> a == b
  }

  /** Where models have different names, two classes never infer the same, so the condition is that no class
      shares a list to which a dependency is added: no base hands its list down to one that adds to it. */
  lemma SharedIffAlone(world: World)
    requires world.Valid() && NamesDiffer(world)
    ensures InferenceIsShared(world) <==> InfersAlone(world)
  {
    hide ReadsFrom, world.CanHold;
    if InferenceIsShared(world) {
      forall t: Target, u: Target, c: Target, i: nat
        | ReadsFrom(world, t, c) && ReadsFrom(world, u, c) && Adds(world, u, i)
        ensures t == u
      {
        InferringIsUnique(world, t, u, i);
      }
    }
  }

  lemma InferringIsUnique(world: World, t: Target, u: Target, i: nat)
    requires world.Valid() && NamesDiffer(world) && world.Sole(u, i) && Infers(world, t, world.InferredAt(u, i))
    ensures t == u
  {
    var j: nat :| world.Sole(t, j) && world.InferredAt(t, j) == world.InferredAt(u, i);
    var nested, other := world.Fields(u)[i].nested, world.Fields(t)[j].nested;
    assert nested in world.models && other in world.models;
    assert nested == other;
  }

  // ---------------------------------------------------------------- when lists stay

  /** Classes with one base each: what is looked through behind a base is the base's own line. */
  ghost predicate OneBase(world: World) {
    forall t, k :: 0 <= k < |world.Line(t)| ==> world.Line(world.Line(t)[k]) == world.Line(t)[k..]
  }

  /** A class keeps the model-valued fields of its bases. */
  ghost predicate FieldsKept(world: World) {
    forall t, c, i ::
      world.Wanted(t) && c in world.Line(t) && 0 <= i < |world.Fields(c)| && world.Fields(c)[i].direct ==>
      exists j ::
        0 <= j < |world.Fields(t)| && world.Fields(t)[j].direct &&
        world.Fields(t)[j].nested == world.Fields(c)[i].nested
  }

  /** With one base each and no field overridden, no list in use is ever hidden. */
  lemma KeptFieldsStay(world: World)
    requires OneBase(world) && FieldsKept(world)
    ensures ListsStay(world)
  {
    forall t | Rooted(world, t)
      ensures world.KeepsList(t)
    {
      forall c | world.CanRead(t, c)
        ensures c == if world.Holder(world.declared, t).Some? then world.Holder(world.declared, t).value else t
      {
        OnlyOneToRead(world, t, c);
      }
    }
  }

  lemma OnlyOneToRead(world: World, t: Target, c: Target)
    requires OneBase(world) && FieldsKept(world) && Rooted(world, t) && world.CanRead(t, c)
    ensures c == if world.Holder(world.declared, t).Some? then world.Holder(world.declared, t).value else t
  {
    if world.Holder(world.declared, t).Some? {
      OnlyDeclaredToRead(world, t, c);
    } else {
      OnlyGainedToRead(world, t, c);
    }
  }

  /** A nearer base would read the declared list itself, so it gains none. */
  lemma OnlyDeclaredToRead(world: World, t: Target, c: Target)
    requires OneBase(world) && world.Holder(world.declared, t).Some? && world.CanRead(t, c)
    ensures world.Holder(world.declared, t) == Some(c)
  {
    hide FirstIn, OneBase, world.Line, world.Sole;
    var line, o := world.Line(t), world.Holder(world.declared, t).value;
    var k :| 0 <= k < |line| && line[k] == c && world.CanHold(c) &&
      forall j :: 0 <= j < k ==> line[j] !in world.declared;
    var m :| 0 <= m < |line| && line[m] == o && forall j :: 0 <= j < m ==> line[j] !in world.declared.Keys;
    assert k <= m;
    BaseReads(world, t, k, m);
    assert !world.Gains(c);
  }

  lemma BaseReads(world: World, t: Target, k: nat, m: nat)
    requires OneBase(world) && k <= m < |world.Line(t)| && world.Line(t)[m] in world.declared
    ensures world.Holder(world.declared, world.Line(t)[k]).Some?
  {
    var line := world.Line(t);
    assert world.Line(line[k]) == line[k..] && line[k..][m - k] == line[m];
    hide world.Line;
  }

  /** A base whose field is kept has no sole field, so it gains no list. */
  lemma OnlyGainedToRead(world: World, t: Target, c: Target)
    requires FieldsKept(world) && world.Holder(world.declared, t).None? && world.Gains(t) && world.CanRead(t, c)
    ensures c == t
  {
    assert c in world.Line(t) && world.Gains(c);
    var i: nat :| world.Sole(c, i);
    hide FirstIn, world.Line;
    var own: nat :| world.Sole(t, own);
  }

  // ---------------------------------------------------------------- an inherited list

  const BASE: Target := 0
  const FIRST: Target := 1
  const SECOND: Target := 2

  /** A base with a declared dependency, and two classes of it whose field `b` is a model each of its own. */
  const SIBLINGS := World(
    map[BASE := [], FIRST := [ModelField("b", 3, true)], SECOND := [ModelField("b", 4, true)], 3 := [], 4 := []],
    map[BASE := "P", FIRST := "Q1", SECOND := "Q2", 3 := "B1", 4 := "B2"],
    map[FIRST := [BASE], SECOND := [BASE]],
    map[BASE := [ToolDependency("x", "X", "X")]],
    [Tool(FIRST, "Q1"), Tool(SECOND, "Q2")])

  lemma SiblingsWanted(t: Target)
    ensures SIBLINGS.Wanted(t) <==> t in {FIRST, SECOND, 3, 4}
  {
    var all: set<Target> := {FIRST, SECOND, 3, 4};
    assert SIBLINGS.tools[0].target == FIRST && SIBLINGS.tools[1].target == SECOND;
    assert SIBLINGS.Fields(FIRST)[0].nested == 3 && SIBLINGS.Fields(SECOND)[0].nested == 4;
    assert SIBLINGS.Nests(FIRST, 3) && SIBLINGS.Nests(SECOND, 4);
    assert HasRegistered(SIBLINGS, all) && ClosedUnderNesting(SIBLINGS, all);
  }

  lemma SiblingsAreSole()
    ensures SIBLINGS.Sole(FIRST, 0) && SIBLINGS.Sole(SECOND, 0)
  {
    forall t
      ensures SIBLINGS.Wanted(t) <==> t in {FIRST, SECOND, 3, 4}
    {
      SiblingsWanted(t);
    }
  }

  lemma FirstOfTwo(a: Target, b: Target, keys: set<Target>)
    requires a !in keys && b in keys
    ensures FirstIn([a, b], keys) == Some(b)
  {
    assert [a, b][1..] == [b];
  }

  /** All three read the base's list, before and after. */
  lemma SiblingsRead(lists: Lists)
    requires Grown(SIBLINGS, lists) && forall c :: c in lists ==> SIBLINGS.CanHold(c)
    ensures SIBLINGS.Holder(lists, FIRST) == Some(BASE) && SIBLINGS.Holder(lists, SECOND) == Some(BASE)
    ensures SIBLINGS.Holder(lists, BASE) == Some(BASE)
  {
    assert SIBLINGS.Line(FIRST) == [FIRST, BASE] && SIBLINGS.Line(SECOND) == [SECOND, BASE] &&
      SIBLINGS.Line(BASE) == [BASE];
    hide SIBLINGS.Sole, SIBLINGS.Line;
    FirstOfTwo(FIRST, BASE, SIBLINGS.declared.Keys);
    FirstOfTwo(SECOND, BASE, SIBLINGS.declared.Keys);
    assert FIRST !in lists && SECOND !in lists && BASE in lists;
    FirstOfTwo(FIRST, BASE, lists.Keys);
    FirstOfTwo(SECOND, BASE, lists.Keys);
  }

  lemma SiblingsHaveOneBase()
    ensures OneBase(SIBLINGS)
  {
    var first, second := SIBLINGS.Line(FIRST), SIBLINGS.Line(SECOND);
    assert first[1..] == [BASE] && second[1..] == [BASE] && SIBLINGS.Line(BASE) == [BASE];
    forall t, k | 0 <= k < |SIBLINGS.Line(t)|
      ensures SIBLINGS.Line(SIBLINGS.Line(t)[k]) == SIBLINGS.Line(t)[k..]
    {
      if k == 0 {
        assert SIBLINGS.Line(t)[0] == t;
      }
    }
  }

  lemma SiblingsStay()
    ensures ListsStay(SIBLINGS)
  {
    assert FieldsKept(SIBLINGS) by {
      hide SIBLINGS.Wanted;
    }
    SiblingsHaveOneBase();
    KeptFieldsStay(SIBLINGS);
  }

  /** A field's entry that is there was inferred for one of the two. */
  lemma SiblingsEntry(lists: Lists, dependency: ToolDependency)
    requires InferredBy(SIBLINGS, BASE, dependency)
    ensures dependency == ToolDependency("b", "B1", "B1") || dependency == ToolDependency("b", "B2", "B2")
  {
    var u, i: nat :| SIBLINGS.Sole(u, i) && SIBLINGS.CanRead(u, BASE) && SIBLINGS.InferredAt(u, i) == dependency;
    hide SIBLINGS.CanRead, SIBLINGS.Wanted;
    assert (u == FIRST || u == SECOND) && i == 0;
    assert SIBLINGS.tools[..1] == [Tool(FIRST, "Q1")] && SIBLINGS.tools[..1][..0] == [];
    assert LastFor(SIBLINGS.tools[..1], 3).None? && LastFor(SIBLINGS.tools[..1], 4).None?;
  }

  /** Whatever a compilation leaves behind, exactly one of the two fields is fed by its own model, the other
      by its sibling's, and the base reads a dependency for a field it does not have. */
  lemma SharedListMisleads(compiled: seq<Tool>, lists: Lists)
    requires Outcome(SIBLINGS, compiled, lists)
    ensures BASE in lists && SIBLINGS.ReadList(lists, BASE) == lists[BASE]
    ensures SIBLINGS.ReadList(lists, FIRST) == lists[BASE] && SIBLINGS.ReadList(lists, SECOND) == lists[BASE]
    ensures ToolDependency("b", "B1", "B1") in lists[BASE] <==> ToolDependency("b", "B2", "B2") !in lists[BASE]
    ensures !OnlyInferred(SIBLINGS, lists)
  {
    SiblingsRead(lists);
    var k := SiblingsFed(compiled, lists);
    hide Outcome, InferredBy, SIBLINGS.Sole;
    SiblingsEntry(lists, lists[BASE][k]);
    MisleadsBase(lists, k);
  }

  lemma MisleadsBase(lists: Lists, k: nat)
    requires SIBLINGS.Holder(lists, BASE) == Some(BASE) && BASE in lists && k < |lists[BASE]|
    requires lists[BASE][k].argName == "b"
    ensures !OnlyInferred(SIBLINGS, lists)
  {
    assert SIBLINGS.Line(BASE) == [BASE];
    assert SIBLINGS.Declared(BASE) == [ToolDependency("x", "X", "X")];
    assert lists[BASE][k] in SIBLINGS.ReadList(lists, BASE);
    NothingToInfer(BASE);
    hide SIBLINGS.Sole;
  }

  lemma SiblingsFed(compiled: seq<Tool>, lists: Lists) returns (k: nat)
    requires Outcome(SIBLINGS, compiled, lists)
    ensures BASE in lists && 1 <= k < |lists[BASE]| && lists[BASE][k].argName == "b"
    ensures InferredBy(SIBLINGS, BASE, lists[BASE][k])
    ensures forall j :: 0 <= j < |lists[BASE]| && j != k ==> lists[BASE][j].argName != "b"
  {
    hide Compiles, Fed, SIBLINGS.Sole, SIBLINGS.KeepsList, SIBLINGS.CanHold, SIBLINGS.Line, InferredBy, FirstIn;
    SiblingsAreSole();
    SiblingsRead(lists);
    SiblingsKeep();
    FedIsRead(SIBLINGS, compiled, lists, FIRST, 0);
    hide Sourced, Grown;
    k :| k < |lists[BASE]| && lists[BASE][k].argName == "b";
    DeclaredComesFirst(lists);
    OnlyOneFor(lists, k);
  }

  lemma SiblingsKeep()
    ensures SIBLINGS.KeepsList(FIRST)
  {
    SiblingsStay();
    SiblingsRead(SIBLINGS.declared);
    hide SIBLINGS.KeepsList;
    assert Rooted(SIBLINGS, FIRST);
  }

  lemma DeclaredComesFirst(lists: Lists)
    requires Grown(SIBLINGS, lists)
    ensures SIBLINGS.OwnDeclared(BASE) == [ToolDependency("x", "X", "X")]
    ensures BASE in lists && |lists[BASE]| > 0 && lists[BASE][0].argName == "x"
  {
  }

  lemma NothingToInfer(t: Target)
    requires SIBLINGS.Fields(t) == []
    ensures forall i: nat :: !SIBLINGS.Sole(t, i)
  {
  }

  /** The argument of an inferred entry has no other entry. */
  lemma OnlyOneFor(lists: Lists, k: nat)
    requires Grown(SIBLINGS, lists) && Sourced(SIBLINGS, lists) && BASE in lists && 1 <= k < |lists[BASE]|
    ensures forall j :: 0 <= j < |lists[BASE]| && j != k ==> lists[BASE][j].argName != lists[BASE][k].argName
  {
    hide InferredBy, SIBLINGS.CanHold;
    var list := lists[BASE];
    assert |SIBLINGS.OwnDeclared(BASE)| == 1;
    forall j | 0 <= j < |list| && j != k
      ensures list[j].argName != list[k].argName
    {
      var low, high := if j < k then j else k, if j < k then k else j;
      assert list[..high][low] == list[low];
    }
  }
}
