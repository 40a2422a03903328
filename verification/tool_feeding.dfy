/** Which tools can be fed at all, read off their declarations: the static side of waiting. */
module ToolFeeding {
  import opened Options
  import opened ToolCatalog

  /** A registered tool whose calls the runtime answers itself. */
  predicate Callable(cat: Catalog, tool: Tool) {
    !tool.privileged && Find(cat.tools, tool.name) == Some(tool)
  }

  predicate NamesCallable(cat: Catalog, name: string) {
    Find(cat.tools, name).Some? && Callable(cat, Find(cat.tools, name).value)
  }

  /** A lookup asks for the id first. Where id and name are the names of two callable tools, which of them
      it reads depends on which has been called. `Among` counts on no other calls than of the tools named. */
  datatype Reading = Possibly | Among(called: set<string>)

  predicate MayCall(cat: Catalog, how: Reading, tool: Tool) {
    Callable(cat, tool) && (how.Among? ==> tool.name in how.called)
  }

  predicate Reads(cat: Catalog, how: Reading, feeder: Tool, d: Dependency) {
    && MayCall(cat, how, feeder)
    && (feeder.name == d.toolId || (feeder.name == d.toolName && (how.Among? ==> d.toolId !in how.called)))
  }

  /** A result of an earlier turn may stand in: the argument is declared conversation-scoped, there is a
      conversation, and the tool does not wait for itself. */
  predicate Retainable(cat: Catalog, tool: Tool, d: Dependency) {
    var declared := DeclarationOf(tool.dependencies, d.argName);
    cat.thread.Some? && declared.Some? && declared.value.conversation && !Feeds(tool.name, d)
  }

  ghost predicate Passes(cat: Catalog, how: Reading, fed: set<Tool>, tool: Tool, d: Dependency) {
    Retainable(cat, tool, d) || exists feeder :: feeder in fed && Reads(cat, how, feeder, d)
  }

  /** The first `n` dependencies can all be met out of `fed`. */
  ghost predicate PassesTo(cat: Catalog, how: Reading, fed: set<Tool>, tool: Tool, n: nat) {
    n <= |tool.dependencies| && forall j :: 0 <= j < n ==> Passes(cat, how, fed, tool, tool.dependencies[j])
  }

  ghost predicate PassesAll(cat: Catalog, how: Reading, fed: set<Tool>, tool: Tool) {
    PassesTo(cat, how, fed, tool, |tool.dependencies|)
  }

  ghost predicate FeedClosed(cat: Catalog, how: Reading, fed: set<Tool>) {
    forall t :: MayCall(cat, how, t) && PassesAll(cat, how, fed, t) ==> t in fed
  }

  /** The tool can return a value: it is in every set that holds whatever its members can feed. */
  ghost predicate Feedable(cat: Catalog, how: Reading, t: Tool) {
    forall fed: set<Tool> :: FeedClosed(cat, how, fed) ==> t in fed
  }

  ghost function AllFed(cat: Catalog, how: Reading): set<Tool> {
    set t | t in cat.tools && Feedable(cat, how, t)
  }

  /** `t` can come to wait for `u`: every dependency ahead of the one that `u` feeds can be met. */
  ghost predicate Leads(cat: Catalog, how: Reading, t: Tool, u: Tool) {
    && MayCall(cat, how, t)
    && exists j: nat ::
         j < |t.dependencies| && Reads(cat, how, u, t.dependencies[j]) && PassesTo(cat, how, AllFed(cat, how), t, j)
  }

  function Following<T>(items: seq<T>, i: nat): T
    requires i < |items|
  {
    if i + 1 < |items| then items[i + 1] else items[0]
  }

  ghost predicate FedCycle(cat: Catalog, how: Reading, tools: seq<Tool>) {
    |tools| > 0 && forall i :: 0 <= i < |tools| ==> Leads(cat, how, tools[i], Following(tools, i))
  }

  // ---------------------------------------------------------------- an order of feeding

  function ToSet<T>(items: seq<T>): set<T> {
    set x | x in items
  }

  /** Each tool can be fed out of those before it. */
  ghost predicate FeedOrder(cat: Catalog, how: Reading, ks: seq<Tool>) {
    |ks| == 0 || (
      var front, last := ks[..|ks| - 1], ks[|ks| - 1];
      FeedOrder(cat, how, front) && last !in front && MayCall(cat, how, last) &&
        PassesAll(cat, how, ToSet(front), last))
  }

  lemma PassesMore(cat: Catalog, how: Reading, fed: set<Tool>, more: set<Tool>, tool: Tool, n: nat)
    requires fed <= more && PassesTo(cat, how, fed, tool, n)
    ensures PassesTo(cat, how, more, tool, n)
  {
    forall j | 0 <= j < n
      ensures Passes(cat, how, more, tool, tool.dependencies[j])
    {
      assert Passes(cat, how, fed, tool, tool.dependencies[j]);
    }
  }

  lemma {:induction false} OrderIsFeedable(cat: Catalog, how: Reading, ks: seq<Tool>, fed: set<Tool>)
    requires FeedOrder(cat, how, ks) && FeedClosed(cat, how, fed)
    ensures ToSet(ks) <= fed
  {
    if |ks| > 0 {
      var front, last := ks[..|ks| - 1], ks[|ks| - 1];
      OrderIsFeedable(cat, how, front, fed);
      PassesMore(cat, how, ToSet(front), fed, last, |last.dependencies|);
      assert forall k :: k in ks ==> k in front || k == last;
    }
  }

  lemma {:induction false} OrderIsCallable(cat: Catalog, how: Reading, ks: seq<Tool>)
    requires FeedOrder(cat, how, ks)
    ensures forall k :: k in ks ==> MayCall(cat, how, k)
    ensures forall i, j :: 0 <= i < j < |ks| ==> ks[i] != ks[j]
  {
    if |ks| > 0 {
      OrderIsCallable(cat, how, ks[..|ks| - 1]);
      assert forall i :: 0 <= i < |ks| - 1 ==> ks[i] == ks[..|ks| - 1][i];
    }
  }

  /** An order is extended until the tools in it are closed. */
  lemma {:induction false} GrowOrder(cat: Catalog, how: Reading, ks: seq<Tool>) returns (all: seq<Tool>)
    requires FeedOrder(cat, how, ks)
    ensures FeedOrder(cat, how, all) && FeedClosed(cat, how, ToSet(all))
    decreases ToSet(cat.tools) - ToSet(ks)
  {
    if FeedClosed(cat, how, ToSet(ks)) {
      all := ks;
    } else {
      var t :| MayCall(cat, how, t) && PassesAll(cat, how, ToSet(ks), t) && t !in ToSet(ks);
      LongerOrder(cat, how, ks, t);
      hide *;
      all := GrowOrder(cat, how, ks + [t]);
    }
  }

  lemma LongerOrder(cat: Catalog, how: Reading, ks: seq<Tool>, t: Tool)
    requires FeedOrder(cat, how, ks) && MayCall(cat, how, t) && PassesAll(cat, how, ToSet(ks), t) && t !in ToSet(ks)
    ensures FeedOrder(cat, how, ks + [t])
    ensures ToSet(cat.tools) - ToSet(ks + [t]) < ToSet(cat.tools) - ToSet(ks)
  {
    var longer := ks + [t];
    assert longer[..|ks|] == ks && longer[|ks|] == t;
    hide Passes, PassesTo, PassesAll;
    assert t in ToSet(cat.tools) - ToSet(ks);
    assert forall k :: k in longer <==> k in ks || k == t;
  }

  /** All the tools that can be fed, in an order in which they can. */
  lemma LeastFeed(cat: Catalog, how: Reading) returns (ks: seq<Tool>)
    ensures FeedOrder(cat, how, ks) && ToSet(ks) == AllFed(cat, how) && FeedClosed(cat, how, AllFed(cat, how))
  {
    ks := GrowOrder(cat, how, []);
    OrderIsCallable(cat, how, ks);
    forall k | k in ks
      ensures Feedable(cat, how, k)
    {
      forall fed | FeedClosed(cat, how, fed)
        ensures k in fed
      {
        OrderIsFeedable(cat, how, ks, fed);
      }
    }
    assert forall k :: k in ks ==> k in cat.tools;
  }

  // ---------------------------------------------------------------- when the two readings agree

  /** No declared id and name are the names of two different callable tools. */
  ghost predicate Unambiguous(cat: Catalog) {
    forall t, d ::
      Callable(cat, t) && d in t.dependencies && NamesCallable(cat, d.toolId) && NamesCallable(cat, d.toolName) ==>
      d.toolId == d.toolName
  }

  /** Counting on calls of every callable tool. */
  function AnyCall(cat: Catalog): Reading {
    Among(set t | t in cat.tools && Callable(cat, t) :: t.name)
  }

  lemma AnyCallable(cat: Catalog, name: string)
    ensures name in AnyCall(cat).called <==> NamesCallable(cat, name)
  {
    if NamesCallable(cat, name) {
      var t := Find(cat.tools, name).value;
      assert t in cat.tools && Callable(cat, t) && t.name == name;
    }
  }

  lemma CallsAgree(cat: Catalog, t: Tool)
    ensures MayCall(cat, AnyCall(cat), t) <==> MayCall(cat, Possibly, t)
  {
    AnyCallable(cat, t.name);
    hide AnyCall;
  }

  lemma ReadsAgree(cat: Catalog, t: Tool, d: Dependency, feeder: Tool)
    requires Unambiguous(cat) && Callable(cat, t) && d in t.dependencies
    ensures Reads(cat, AnyCall(cat), feeder, d) <==> Reads(cat, Possibly, feeder, d)
  {
    CallsAgree(cat, feeder);
    AnyCallable(cat, d.toolId);
    hide AnyCall;
  }

  lemma PassesAgree(cat: Catalog, fed: set<Tool>, t: Tool, n: nat)
    requires Unambiguous(cat) && Callable(cat, t)
    ensures PassesTo(cat, AnyCall(cat), fed, t, n) <==> PassesTo(cat, Possibly, fed, t, n)
  {
    forall j, feeder | 0 <= j < |t.dependencies|
      ensures Reads(cat, AnyCall(cat), feeder, t.dependencies[j]) <==> Reads(cat, Possibly, feeder, t.dependencies[j])
    {
      ReadsAgree(cat, t, t.dependencies[j], feeder);
    }
    hide Reads, Retainable, Unambiguous, Callable, AnyCall;
    forall j | 0 <= j < |t.dependencies|
      ensures Passes(cat, AnyCall(cat), fed, t, t.dependencies[j]) <==> Passes(cat, Possibly, fed, t, t.dependencies[j])
    {
    }
  }

  lemma ClosedAgree(cat: Catalog, fed: set<Tool>)
    requires Unambiguous(cat)
    ensures FeedClosed(cat, AnyCall(cat), fed) <==> FeedClosed(cat, Possibly, fed)
  {
    hide Unambiguous, PassesTo, Callable, AnyCall;
    forall t
      ensures MayCall(cat, AnyCall(cat), t) <==> MayCall(cat, Possibly, t)
    {
      CallsAgree(cat, t);
    }
    forall t | Callable(cat, t)
      ensures PassesAll(cat, AnyCall(cat), fed, t) <==> PassesAll(cat, Possibly, fed, t)
    {
      PassesAgree(cat, fed, t, |t.dependencies|);
    }
  }

  lemma LeadsAgree(cat: Catalog, t: Tool, u: Tool)
    requires Unambiguous(cat)
    ensures Leads(cat, AnyCall(cat), t, u) <==> Leads(cat, Possibly, t, u)
  {
    hide Unambiguous, PassesTo, Callable, FeedClosed, Reads, AnyCall;
    CallsAgree(cat, t);
    forall fed: set<Tool>
      ensures FeedClosed(cat, AnyCall(cat), fed) <==> FeedClosed(cat, Possibly, fed)
    {
      ClosedAgree(cat, fed);
    }
    assert AllFed(cat, AnyCall(cat)) == AllFed(cat, Possibly);
    if Callable(cat, t) {
      forall j: nat | j < |t.dependencies|
        ensures Reads(cat, AnyCall(cat), u, t.dependencies[j]) <==> Reads(cat, Possibly, u, t.dependencies[j])
        ensures PassesTo(cat, AnyCall(cat), AllFed(cat, AnyCall(cat)), t, j) <==>
          PassesTo(cat, Possibly, AllFed(cat, AnyCall(cat)), t, j)
      {
        ReadsAgree(cat, t, t.dependencies[j], u);
        PassesAgree(cat, AllFed(cat, AnyCall(cat)), t, j);
      }
    }
  }

  lemma CyclesAgree(cat: Catalog, tools: seq<Tool>)
    requires Unambiguous(cat)
    ensures FedCycle(cat, AnyCall(cat), tools) <==> FedCycle(cat, Possibly, tools)
  {
    hide Unambiguous, Leads;
    forall i | 0 <= i < |tools|
      ensures Leads(cat, AnyCall(cat), tools[i], Following(tools, i)) <==>
        Leads(cat, Possibly, tools[i], Following(tools, i))
    {
      LeadsAgree(cat, tools[i], Following(tools, i));
    }
  }
}
