/** Counting direct references: which fields infer a dependency at all. */
module ToolReferences {
  import opened Options
  import opened ToolGraph

  function CountOf(counts: map<Target, nat>, m: Target): nat {
    if m in counts then counts[m] else 0
  }

  /** The test for an inferred dependency. */
  predicate Injectable(counts: map<Target, nat>, field: ModelField) {
    field.direct && CountOf(counts, field.nested) == 1
  }

  function DirectIn(fields: seq<ModelField>, m: Target): nat {
    if |fields| == 0 then 0
    else
      var last := fields[|fields| - 1];
      DirectIn(fields[..|fields| - 1], m) + if last.direct && last.nested == m then 1 else 0
  }

  /** How many direct fields of these models hold `m`. */
  function DirectAmong(world: World, models: seq<Target>, m: Target): nat {
    if |models| == 0 then 0
    else DirectAmong(world, models[..|models| - 1], m) + DirectIn(world.Fields(models[|models| - 1]), m)
  }

  /** Each model once, no model left out that a listed one or a registered tool leads to, and none without reason. */
  ghost predicate ListsReachable(world: World, models: seq<Target>, pending: seq<Target>) {
    && (forall i, j :: 0 <= i < j < |models| ==> models[i] != models[j])
    && (forall i :: 0 <= i < |world.tools| && world.tools[i].target in world.models ==>
          world.tools[i].target in models || world.tools[i].target in pending)
    && (forall t, d :: t in models && world.Nests(t, d) ==> d in models || d in pending)
    && (forall t :: t in models || t in pending ==> t in world.models)
    && (forall all: set<Target>, t ::
         HasRegistered(world, all) && ClosedUnderNesting(world, all) && (t in models || t in pending) ==> t in all)
  }

  /** The fields of one model, counted and put on the list. */
  method CountFields(fields: seq<ModelField>, counts: map<Target, nat>)
    returns (counts1: map<Target, nat>, more: seq<Target>)
    ensures forall m :: CountOf(counts1, m) == CountOf(counts, m) + DirectIn(fields, m)
    ensures more == seq(|fields|, i requires 0 <= i < |fields| => fields[i].nested)
  {
    counts1, more := counts, [];
    for i := 0 to |fields|
      invariant forall m :: CountOf(counts1, m) == CountOf(counts, m) + DirectIn(fields[..i], m)
      invariant more == seq(i, k requires 0 <= k < i => fields[k].nested)
    {
      assert fields[..i + 1][..i] == fields[..i];
      if fields[i].direct {
        counts1 := counts1[fields[i].nested := CountOf(counts1, fields[i].nested) + 1];
      }
      more := more + [fields[i].nested];
    }
    assert fields[..|fields|] == fields;
  }

  lemma AlreadyCounted(world: World, models: seq<Target>, pending: seq<Target>)
    requires |pending| > 0 && pending[|pending| - 1] in models && ListsReachable(world, models, pending)
    ensures ListsReachable(world, models, pending[..|pending| - 1])
  {
    assert forall t :: t in pending ==> t in pending[..|pending| - 1] || t == pending[|pending| - 1];
  }

  lemma CountedNext(world: World, models: seq<Target>, pending: seq<Target>, more: seq<Target>)
    requires world.Valid() && |pending| > 0 && pending[|pending| - 1] !in models
    requires ListsReachable(world, models, pending)
    requires var fields := world.Fields(pending[|pending| - 1]);
      more == seq(|fields|, i requires 0 <= i < |fields| => fields[i].nested)
    ensures ListsReachable(world, models + [pending[|pending| - 1]], pending[..|pending| - 1] + more)
  {
    var t := pending[|pending| - 1];
    assert forall d :: d in more <==> world.Nests(t, d) by {
      forall d
        ensures d in more <==> world.Nests(t, d)
      {
        if world.Nests(t, d) {
          var i :| 0 <= i < |world.Fields(t)| && world.Fields(t)[i].nested == d;
          assert more[i] == d;
        }
      }
    }
    assert forall d :: d in pending ==> d in pending[..|pending| - 1] || d == t;
    assert t in pending;
  }

  method RegisteredModels(world: World) returns (pending: seq<Target>)
    ensures ListsReachable(world, [], pending)
  {
    pending := [];
    for i := 0 to |world.tools|
      invariant forall t :: t in pending <==> exists k :: 0 <= k < i && world.tools[k].target == t && t in world.models
    {
      if world.tools[i].target in world.models {
        pending := pending + [world.tools[i].target];
      }
    }
  }

  /** `_direct_model_reference_counts`: over every model reachable from the registered ones, each counted once. */
  method DirectCounts(world: World) returns (counts: map<Target, nat>, ghost models: seq<Target>)
    requires world.Valid()
    ensures ListsReachable(world, models, [])
    ensures forall m :: CountOf(counts, m) == DirectAmong(world, models, m)
  {
    counts, models := map[], [];
    var pending := RegisteredModels(world);
    var visited: set<Target> := {};
    while |pending| > 0
      invariant CountedTo(world, counts, models, visited, pending)
      decreases |world.models.Keys - visited|, |pending|
    {
      var t := pending[|pending| - 1];
      if t in visited {
        AlreadyCounted(world, models, pending);
        pending := pending[..|pending| - 1];
      } else {
        var counts1, more := CountFields(world.Fields(t), counts);
        CountedFurther(world, counts, counts1, models, visited, pending, more);
        hide *;
        counts := counts1;
        visited := visited + {t};
        models := models + [t];
        pending := pending[..|pending| - 1] + more;
      }
    }
    assert pending == [];
  }

  /** What the count has come to. */
  ghost predicate CountedTo(world: World, counts: map<Target, nat>, models: seq<Target>, visited: set<Target>,
                            pending: seq<Target>) {
    && (forall t :: t in visited <==> t in models)
    && ListsReachable(world, models, pending)
    && forall m :: CountOf(counts, m) == DirectAmong(world, models, m)
  }

  lemma CountedFurther(world: World, counts: map<Target, nat>, counts1: map<Target, nat>, models: seq<Target>,
                       visited: set<Target>, pending: seq<Target>, more: seq<Target>)
    requires world.Valid() && |pending| > 0 && pending[|pending| - 1] !in visited
    requires CountedTo(world, counts, models, visited, pending)
    requires var fields := world.Fields(pending[|pending| - 1]);
      && more == seq(|fields|, i requires 0 <= i < |fields| => fields[i].nested)
      && forall m :: CountOf(counts1, m) == CountOf(counts, m) + DirectIn(fields, m)
    ensures var t := pending[|pending| - 1];
      && CountedTo(world, counts1, models + [t], visited + {t}, pending[..|pending| - 1] + more)
      && |world.models.Keys - (visited + {t})| < |world.models.Keys - visited|
  {
    var t := pending[|pending| - 1];
    assert t in pending && t in world.models;
    CountedNext(world, models, pending, more);
    DirectAmongNext(world, models, t);
    hide ListsReachable, DirectAmong, DirectIn, CountOf;
    assert world.models.Keys - (visited + {t}) == (world.models.Keys - visited) - {t};
  }

  lemma DirectAmongNext(world: World, models: seq<Target>, t: Target)
    ensures forall m ::
      DirectAmong(world, models + [t], m) == DirectAmong(world, models, m) + DirectIn(world.Fields(t), m)
  {
    assert (models + [t])[..|models|] == models;
  }

  // ---------------------------------------------------------------- what a count of one means

  predicate DirectAt(fields: seq<ModelField>, i: int, m: Target) {
    0 <= i < |fields| && fields[i].direct && fields[i].nested == m
  }

  lemma {:induction false} NoDirect(fields: seq<ModelField>, m: Target)
    ensures DirectIn(fields, m) == 0 <==> forall i :: !DirectAt(fields, i, m)
  {
    if |fields| > 0 {
      var front, last := fields[..|fields| - 1], |fields| - 1;
      NoDirect(front, m);
      assert forall i :: 0 <= i < last ==> DirectAt(front, i, m) == DirectAt(fields, i, m);
      assert DirectIn(fields, m) == DirectIn(front, m) + if DirectAt(fields, last, m) then 1 else 0;
      if DirectIn(front, m) == 0 && !DirectAt(fields, last, m) {
        forall i
          ensures !DirectAt(fields, i, m)
        {
          assert 0 <= i < last ==> !DirectAt(front, i, m);
        }
      }
    }
  }

  lemma {:induction false} OneDirect(fields: seq<ModelField>, i: int, m: Target)
    requires DirectAt(fields, i, m)
    ensures DirectIn(fields, m) >= 1
    ensures DirectIn(fields, m) == 1 <==> forall j :: DirectAt(fields, j, m) ==> j == i
  {
    var front, last := fields[..|fields| - 1], |fields| - 1;
    assert forall j :: 0 <= j < last ==> DirectAt(front, j, m) == DirectAt(fields, j, m);
    NoDirect(front, m);
    if i < last {
      OneDirect(front, i, m);
      if DirectIn(fields, m) == 1 {
        forall j | DirectAt(fields, j, m)
          ensures j == i
        {
          assert j < last ==> DirectAt(front, j, m);
        }
      }
      if forall j :: DirectAt(fields, j, m) ==> j == i {
        forall j | DirectAt(front, j, m)
          ensures j == i
        {
          assert DirectAt(fields, j, m);
        }
        assert !DirectAt(fields, last, m);
      }
    } else if DirectIn(fields, m) == 1 {
      forall j | DirectAt(fields, j, m)
        ensures j == i
      {
        assert j < last ==> !DirectAt(front, j, m);
      }
    }
  }

  lemma {:induction false} NoneAmong(world: World, models: seq<Target>, m: Target)
    ensures DirectAmong(world, models, m) == 0 <==>
      forall k :: 0 <= k < |models| ==> DirectIn(world.Fields(models[k]), m) == 0
  {
    if |models| > 0 {
      NoneAmong(world, models[..|models| - 1], m);
    }
  }

  lemma {:induction false} OneAmong(world: World, models: seq<Target>, p: nat, m: Target)
    requires p < |models| && DirectIn(world.Fields(models[p]), m) >= 1
    ensures DirectAmong(world, models, m) >= 1
    ensures DirectAmong(world, models, m) == 1 <==>
      (DirectIn(world.Fields(models[p]), m) == 1
       && forall k :: 0 <= k < |models| && k != p ==> DirectIn(world.Fields(models[k]), m) == 0)
  {
    var front := models[..|models| - 1];
    NoneAmong(world, front, m);
    if p < |front| {
      OneAmong(world, front, p, m);
    }
  }

  /** The models counted are exactly the wanted ones. */
  lemma CountedAreWanted(world: World, models: seq<Target>, t: Target)
    requires world.Valid() && ListsReachable(world, models, [])
    ensures t in models <==> world.Wanted(t) && t in world.models
  {
    var all := TargetsOf(world.tools) + set m | m in models;
    forall u: Target, d: Target | u in all && world.Nests(u, d)
      ensures d in all
    {
      assert u in world.models;
      if u in TargetsOf(world.tools) {
        var i :| 0 <= i < |world.tools| && world.tools[i].target == u;
      }
    }
    assert HasRegistered(world, all) && ClosedUnderNesting(world, all);
    if world.Wanted(t) && t in world.models {
      assert t in all;
    }
  }

  /** The field is the only direct one for its model among these. */
  ghost predicate OnlyDirect(world: World, t: Target, i: int, m: Target) {
    forall u, j :: world.Wanted(u) && DirectAt(world.Fields(u), j, m) ==> u == t && j == i
  }

  lemma OnlyDirectCounts(world: World, models: seq<Target>, p: nat, i: int, m: Target)
    requires world.Valid() && ListsReachable(world, models, []) && p < |models|
    requires DirectAt(world.Fields(models[p]), i, m)
    requires OnlyDirect(world, models[p], i, m)
    ensures DirectAmong(world, models, m) == 1
  {
    hide ListsReachable, DirectAt, DirectAmong, DirectIn;
    CountedAreWanted(world, models, models[p]);
    OneDirect(world.Fields(models[p]), i, m);
    forall k | 0 <= k < |models| && k != p
      ensures DirectIn(world.Fields(models[k]), m) == 0
    {
      CountedAreWanted(world, models, models[k]);
      Distinct(world, models, k, p);
      NoDirect(world.Fields(models[k]), m);
    }
    OneAmong(world, models, p, m);
  }

  lemma Distinct(world: World, models: seq<Target>, k: nat, p: nat)
    requires ListsReachable(world, models, []) && k < |models| && p < |models| && k != p
    ensures models[k] != models[p]
  {
  }

  lemma CountedIsOnlyDirect(world: World, models: seq<Target>, p: nat, i: int, m: Target)
    requires world.Valid() && ListsReachable(world, models, []) && p < |models|
    requires DirectAt(world.Fields(models[p]), i, m)
    requires DirectAmong(world, models, m) == 1
    ensures OnlyDirect(world, models[p], i, m)
  {
    OneDirect(world.Fields(models[p]), i, m);
    OneAmong(world, models, p, m);
    hide ListsReachable, DirectAmong, DirectIn;
    forall u, j | world.Wanted(u) && DirectAt(world.Fields(u), j, m)
      ensures u == models[p] && j == i
    {
      CountedAreWanted(world, models, u);
      var k: nat :| k < |models| && models[k] == u;
      NoDirect(world.Fields(models[k]), m);
      assert k == p;
    }
  }

  /** A field of a wanted model passes the test if and only if it is the only direct field for its model
      among all wanted models. */
  lemma CountedOnceIffSole(world: World, counts: map<Target, nat>, models: seq<Target>, t: Target, i: nat)
    requires world.Valid() && ListsReachable(world, models, [])
    requires forall m :: CountOf(counts, m) == DirectAmong(world, models, m)
    requires world.Wanted(t) && i < |world.Fields(t)|
    ensures Injectable(counts, world.Fields(t)[i]) <==> world.Sole(t, i)
  {
    hide ListsReachable, DirectAmong, CountOf;
    if world.Fields(t)[i].direct {
      var m := world.Fields(t)[i].nested;
      CountedAreWanted(world, models, t);
      var p: nat :| p < |models| && models[p] == t;
      if Injectable(counts, world.Fields(t)[i]) {
        CountedIsOnlyDirect(world, models, p, i, m);
        SoleIffOnlyDirect(world, t, i);
      }
      if world.Sole(t, i) {
        SoleIffOnlyDirect(world, t, i);
        OnlyDirectCounts(world, models, p, i, m);
      }
    }
  }

  lemma SoleIffOnlyDirect(world: World, t: Target, i: nat)
    requires i < |world.Fields(t)| && world.Fields(t)[i].direct && world.Wanted(t)
    ensures world.Sole(t, i) <==> OnlyDirect(world, t, i, world.Fields(t)[i].nested)
  {
    var m := world.Fields(t)[i].nested;
    if OnlyDirect(world, t, i, m) {
      forall u, j
        | world.Wanted(u) && 0 <= j < |world.Fields(u)| && world.Fields(u)[j].direct && world.Fields(u)[j].nested == m
        ensures u == t && j == i
      {
        assert DirectAt(world.Fields(u), j, m);
      }
    }
  }

  /** The test singles out exactly the sole fields. */
  ghost predicate CountsRight(world: World, counts: map<Target, nat>) {
    forall t, i: nat ::
      world.Wanted(t) && i < |world.Fields(t)| ==> (Injectable(counts, world.Fields(t)[i]) <==> world.Sole(t, i))
  }

  lemma DirectCountsAreRight(world: World, counts: map<Target, nat>, models: seq<Target>)
    requires world.Valid() && ListsReachable(world, models, [])
    requires forall m :: CountOf(counts, m) == DirectAmong(world, models, m)
    ensures CountsRight(world, counts)
  {
    hide ListsReachable, DirectAmong, CountOf, Injectable;
    forall t, i: nat | world.Wanted(t) && i < |world.Fields(t)|
      ensures Injectable(counts, world.Fields(t)[i]) <==> world.Sole(t, i)
    {
      CountedOnceIffSole(world, counts, models, t, i);
    }
  }
}
