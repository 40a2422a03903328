/** From tools that can come to wait for one another in a cycle to a plan of calls that hangs: which tools
    to let finish first, and which to leave waiting. */
module ToolPlan {
  import opened Options
  import opened ToolCatalog
  import opened ToolFeeding

  ghost predicate LeadPath(cat: Catalog, how: Reading, path: seq<Tool>) {
    |path| > 0 && forall i :: 0 <= i < |path| - 1 ==> Leads(cat, how, path[i], path[i + 1])
  }

  ghost predicate Reaches(cat: Catalog, how: Reading, a: Tool, b: Tool) {
    exists path :: LeadPath(cat, how, path) && path[0] == a && path[|path| - 1] == b
  }

  lemma ReachesItself(cat: Catalog, how: Reading, a: Tool)
    ensures Reaches(cat, how, a, a)
  {
    assert LeadPath(cat, how, [a]);
  }

  lemma ReachesJoin(cat: Catalog, how: Reading, a: Tool, b: Tool, c: Tool)
    requires Reaches(cat, how, a, b) && Reaches(cat, how, b, c)
    ensures Reaches(cat, how, a, c)
  {
    hide Leads;
    var first :| LeadPath(cat, how, first) && first[0] == a && first[|first| - 1] == b;
    var second :| LeadPath(cat, how, second) && second[0] == b && second[|second| - 1] == c;
    var path := first + second[1..];
    forall i | 0 <= i < |path| - 1
      ensures Leads(cat, how, path[i], path[i + 1])
    {
      if i < |first| - 1 {
        assert path[i] == first[i] && path[i + 1] == first[i + 1];
      } else {
        assert path[i] == second[i - |first| + 1] && path[i + 1] == second[i - |first| + 2];
      }
    }
    assert LeadPath(cat, how, path);
  }

  lemma LeadReaches(cat: Catalog, how: Reading, a: Tool, b: Tool)
    requires Leads(cat, how, a, b)
    ensures Reaches(cat, how, a, b)
  {
    assert LeadPath(cat, how, [a, b]);
  }

  /** From any tool of a cycle the first one is reached. */
  lemma {:induction false} CycleReaches(cat: Catalog, how: Reading, tools: seq<Tool>, i: nat)
    requires FedCycle(cat, how, tools) && i < |tools|
    ensures Reaches(cat, how, tools[i], tools[0])
    decreases |tools| - i
  {
    hide Leads, Reaches;
    var next := Following(tools, i);
    assert Leads(cat, how, tools[i], next);
    LeadReaches(cat, how, tools[i], next);
    if i + 1 < |tools| {
      CycleReaches(cat, how, tools, i + 1);
      ReachesJoin(cat, how, tools[i], next, tools[0]);
    }
  }

  lemma {:induction false} CycleReached(cat: Catalog, how: Reading, tools: seq<Tool>, i: nat)
    requires FedCycle(cat, how, tools) && i < |tools|
    ensures Reaches(cat, how, tools[0], tools[i])
  {
    hide Leads, Reaches;
    if i == 0 {
      ReachesItself(cat, how, tools[0]);
    } else {
      CycleReached(cat, how, tools, i - 1);
      assert Leads(cat, how, tools[i - 1], Following(tools, i - 1));
      LeadReaches(cat, how, tools[i - 1], tools[i]);
      ReachesJoin(cat, how, tools[0], tools[i - 1], tools[i]);
    }
  }

  // ---------------------------------------------------------------- everything on a cycle through one tool

  /** The tools that `c` reaches and that reach it. */
  ghost function Knot(cat: Catalog, how: Reading, c: Tool): set<Tool> {
    set t | t in cat.tools && Reaches(cat, how, c, t) && Reaches(cat, how, t, c)
  }

  /** A tool of a cycle's knot leads to another of the knot. */
  lemma KnotLeads(cat: Catalog, how: Reading, tools: seq<Tool>, t: Tool) returns (u: Tool)
    requires FedCycle(cat, how, tools) && t in Knot(cat, how, tools[0])
    ensures u in Knot(cat, how, tools[0]) && Leads(cat, how, t, u)
  {
    hide Leads, Reaches;
    var c := tools[0];
    if t == c {
      u := Following(tools, 0);
      assert Leads(cat, how, tools[0], u);
      if |tools| > 1 {
        CycleReaches(cat, how, tools, 1);
      }
    } else {
      u := FirstOnTheWay(cat, how, t, c);
    }
    LeadReaches(cat, how, t, u);
    ReachesJoin(cat, how, c, t, u);
    ReachedIsRegistered(cat, how, t, u);
  }

  lemma FirstOnTheWay(cat: Catalog, how: Reading, t: Tool, c: Tool) returns (u: Tool)
    requires Reaches(cat, how, t, c) && t != c
    ensures Leads(cat, how, t, u) && Reaches(cat, how, u, c)
  {
    hide Leads;
    var path :| LeadPath(cat, how, path) && path[0] == t && path[|path| - 1] == c;
    u := path[1];
    assert LeadPath(cat, how, path[1..]) && path[1..][0] == u;
  }

  lemma ReachedIsRegistered(cat: Catalog, how: Reading, t: Tool, u: Tool)
    requires Leads(cat, how, t, u)
    ensures u in cat.tools && MayCall(cat, how, u)
  {
  }

  /** The first dependency of `t` that a tool of the set surely feeds. */
  ghost predicate FirstFed(cat: Catalog, how: Reading, ts: set<Tool>, t: Tool, p: nat) {
    && p < |t.dependencies|
    && (exists u :: u in ts && Reads(cat, how, u, t.dependencies[p]))
    && (forall q, u :: 0 <= q < p && u in ts ==> !Reads(cat, how, u, t.dependencies[q]))
  }

  lemma {:induction false} FindFirstFed(cat: Catalog, how: Reading, ts: set<Tool>, t: Tool, j: nat, u: Tool)
    returns (p: nat)
    requires j < |t.dependencies| && u in ts && Reads(cat, how, u, t.dependencies[j])
    ensures p <= j && FirstFed(cat, how, ts, t, p)
    decreases j
  {
    if q, v :| 0 <= q < j && v in ts && Reads(cat, how, v, t.dependencies[q]) {
      p := FindFirstFed(cat, how, ts, t, q, v);
    } else {
      p := j;
    }
  }

  // ---------------------------------------------------------------- what is let finish

  /** The part of an order that does not reach `c`. */
  ghost function Apart(cat: Catalog, how: Reading, ks: seq<Tool>, c: Tool): (kept: seq<Tool>)
    ensures forall k :: k in kept <==> k in ks && !Reaches(cat, how, k, c)
  {
    if |ks| == 0 then []
    else
      var front, last := ks[..|ks| - 1], ks[|ks| - 1];
      assert forall k :: k in ks <==> k in front || k == last;
      if Reaches(cat, how, last, c) then Apart(cat, how, front, c) else Apart(cat, how, front, c) + [last]
  }

  /** What a tool surely reads for a dependency that stands behind passable ones, it leads to. */
  lemma ReadIsLead(cat: Catalog, how: Reading, t: Tool, j: nat, u: Tool)
    requires MayCall(cat, how, t) && j < |t.dependencies| && Reads(cat, how, u, t.dependencies[j])
    requires PassesTo(cat, how, AllFed(cat, how), t, j)
    ensures Leads(cat, how, t, u)
  {
  }

  /** Up to a position, a tool that meets its dependencies meets them out of what does not reach `c`,
      unless one of its feeders there does. */
  lemma PassesApart(cat: Catalog, how: Reading, ks: seq<Tool>, c: Tool, t: Tool, n: nat)
    requires MayCall(cat, how, t) && ToSet(ks) <= AllFed(cat, how) && PassesTo(cat, how, ToSet(ks), t, n)
    requires forall j, u :: 0 <= j < n && u in ks && Reads(cat, how, u, t.dependencies[j]) && Leads(cat, how, t, u) ==>
      !Reaches(cat, how, u, c)
    ensures PassesTo(cat, how, ToSet(Apart(cat, how, ks, c)), t, n)
  {
    PassesMore(cat, how, ToSet(ks), AllFed(cat, how), t, n);
    hide Reaches, Leads, Reads;
    forall j | 0 <= j < n
      ensures Passes(cat, how, ToSet(Apart(cat, how, ks, c)), t, t.dependencies[j])
    {
      assert Passes(cat, how, ToSet(ks), t, t.dependencies[j]);
      if !Retainable(cat, t, t.dependencies[j]) {
        var u :| u in ToSet(ks) && Reads(cat, how, u, t.dependencies[j]);
        ReadIsLead(cat, how, t, j, u);
        assert u in Apart(cat, how, ks, c);
      }
    }
  }

  /** It is an order of feeding of its own: what feeds a tool that does not reach `c` does not either. */
  lemma {:induction false} ApartIsOrder(cat: Catalog, how: Reading, ks: seq<Tool>, c: Tool)
    requires FeedOrder(cat, how, ks) && ToSet(ks) <= AllFed(cat, how)
    ensures FeedOrder(cat, how, Apart(cat, how, ks, c))
  {
    if |ks| > 0 {
      var front, last := ks[..|ks| - 1], ks[|ks| - 1];
      assert forall k :: k in front ==> k in ks;
      ApartIsOrder(cat, how, front, c);
      if !Reaches(cat, how, last, c) {
        forall u | Leads(cat, how, last, u)
          ensures !Reaches(cat, how, u, c)
        {
          NextIsApart(cat, how, last, u, c);
        }
        hide Reaches, Leads;
        PassesApart(cat, how, front, c, last, |last.dependencies|);
        var kept := Apart(cat, how, front, c) + [last];
        assert kept[..|kept| - 1] == Apart(cat, how, front, c);
      }
    }
  }

  lemma NextIsApart(cat: Catalog, how: Reading, t: Tool, u: Tool, c: Tool)
    requires Leads(cat, how, t, u) && !Reaches(cat, how, t, c)
    ensures !Reaches(cat, how, u, c)
  {
    hide Reaches, Leads;
    if Reaches(cat, how, u, c) {
      LeadReaches(cat, how, t, u);
      ReachesJoin(cat, how, t, u, c);
    }
  }

  // ---------------------------------------------------------------- the plan

  /** Once the tools of `fs` have returned, a call of `t` meets dependencies up to one that a tool of
      `ts` surely feeds. */
  ghost predicate ComesToWait(cat: Catalog, how: Reading, fs: seq<Tool>, ts: set<Tool>, t: Tool) {
    exists p: nat ::
      p < |t.dependencies| && PassesTo(cat, how, ToSet(fs), t, p) &&
        exists u :: u in ts && Reads(cat, how, u, t.dependencies[p])
  }

  ghost predicate Plan(cat: Catalog, how: Reading, fs: seq<Tool>, ts: set<Tool>) {
    && FeedOrder(cat, how, fs)
    && forall t :: t in ts ==> MayCall(cat, how, t) && t !in fs && ComesToWait(cat, how, fs, ts, t)
  }

  lemma KnotComesToWait(cat: Catalog, how: Reading, tools: seq<Tool>, ks: seq<Tool>, t: Tool)
    requires FedCycle(cat, how, tools) && t in Knot(cat, how, tools[0])
    requires FeedOrder(cat, how, ks) && ToSet(ks) == AllFed(cat, how)
    ensures MayCall(cat, how, t) && ComesToWait(cat, how, Apart(cat, how, ks, tools[0]), Knot(cat, how, tools[0]), t)
  {
    var c, ts := tools[0], Knot(cat, how, tools[0]);
    var u := KnotLeads(cat, how, tools, t);
    var j: nat :|
      j < |t.dependencies| && Reads(cat, how, u, t.dependencies[j]) && PassesTo(cat, how, AllFed(cat, how), t, j);
    var p := FindFirstFed(cat, how, ts, t, j, u);
    forall q, k | 0 <= q < p && k in ks && Reads(cat, how, k, t.dependencies[q]) && Leads(cat, how, t, k)
      ensures !Reaches(cat, how, k, c)
    {
      assert k !in ts;
      NotInKnot(cat, how, c, t, k);
    }
    assert PassesTo(cat, how, AllFed(cat, how), t, p);
    hide Reaches, Leads, Reads, FedCycle;
    PassesApart(cat, how, ks, c, t, p);
  }

  /** What a tool of the knot leads to without its being in the knot does not lead back. */
  lemma NotInKnot(cat: Catalog, how: Reading, c: Tool, t: Tool, k: Tool)
    requires t in Knot(cat, how, c) && Leads(cat, how, t, k) && k !in Knot(cat, how, c)
    ensures !Reaches(cat, how, k, c)
  {
    ReachedIsRegistered(cat, how, t, k);
    LeadReaches(cat, how, t, k);
    ReachesJoin(cat, how, c, t, k);
    hide Reaches, Leads;
  }

  lemma CycleInKnot(cat: Catalog, how: Reading, tools: seq<Tool>, i: nat)
    requires FedCycle(cat, how, tools) && i < |tools|
    ensures tools[i] in Knot(cat, how, tools[0])
  {
    CycleReaches(cat, how, tools, i);
    CycleReached(cat, how, tools, i);
    assert Leads(cat, how, tools[i], Following(tools, i));
    hide Reaches;
  }

  /** Every cycle gives a plan that leaves its tools waiting. */
  lemma CyclePlan(cat: Catalog, how: Reading, tools: seq<Tool>) returns (fs: seq<Tool>, ts: set<Tool>)
    requires FedCycle(cat, how, tools)
    ensures Plan(cat, how, fs, ts) && forall t :: t in tools ==> t in ts
  {
    hide Reaches, Leads, FeedOrder, ComesToWait, FedCycle, MayCall, AllFed, FeedClosed;
    CycleIsNotEmpty(cat, how, tools);
    var ks := LeastFeed(cat, how);
    fs, ts := Apart(cat, how, ks, tools[0]), Knot(cat, how, tools[0]);
    ApartIsOrder(cat, how, ks, tools[0]);
    forall t | t in ts
      ensures MayCall(cat, how, t) && t !in fs && ComesToWait(cat, how, fs, ts, t)
    {
      KnotComesToWait(cat, how, tools, ks, t);
    }
    forall i | 0 <= i < |tools|
      ensures tools[i] in ts
    {
      CycleInKnot(cat, how, tools, i);
    }
  }

  lemma CycleIsNotEmpty(cat: Catalog, how: Reading, tools: seq<Tool>)
    requires FedCycle(cat, how, tools)
    ensures |tools| > 0
  {
  }
}
