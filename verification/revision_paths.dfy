/** Every declared producer-to-root path a dependency revision would have to travel. */
module RevisionPaths {
  import opened Options
  import opened ToolCatalog

  datatype Edge = Edge(consumer: Tool, dependency: Dependency)
  type Path = seq<Edge>

  /** A nonempty walk along declared edges that starts at `current`, never enters a
      name in `visited`, never repeats a consumer, and stops the first time it meets `root`. */
  ghost predicate IsPath(tools: seq<Tool>, current: Tool, visited: set<string>, root: string, path: Path)
    decreases |path|
  {
    && path != []
    && path[0].consumer in tools
    && path[0].consumer.name !in visited
    && path[0].dependency in path[0].consumer.dependencies
    && Feeds(current.name, path[0].dependency)
    && (if path[0].consumer.name == root then path[1..] == []
        else IsPath(tools, path[0].consumer, visited + {path[0].consumer.name}, root, path[1..]))
  }

  /** The paths a revision of `producer` must satisfy for the failed `root`. */
  ghost predicate IsRevisionPath(tools: seq<Tool>, producer: Tool, root: Tool, path: Path) {
    if producer.name == root.name then path == []
    else IsPath(tools, producer, {producer.name}, root.name, path)
  }

  ghost function Names(tools: seq<Tool>): set<string> {
    set t | t in tools :: t.name
  }

  /** The recursive search: exactly the simple paths, also on a cyclic graph. */
  method Search(tools: seq<Tool>, current: Tool, visited: set<string>, root: string) returns (paths: seq<Path>)
    ensures forall p :: p in paths <==> IsPath(tools, current, visited, root, p)
    decreases Names(tools) - visited
  {
    paths := [];
    for i := 0 to |tools|
      invariant forall p: Path ::
        p in paths <==> IsPath(tools, current, visited, root, p) && p[0].consumer in tools[..i]
    {
      var consumer := tools[i];
      assert tools[..i + 1] == tools[..i] + [consumer];
      if consumer.name !in visited {
        assert consumer.name in Names(tools);
        var before := paths;
        for j := 0 to |consumer.dependencies|
          invariant forall p: Path :: p in paths <==>
            p in before
            || (IsPath(tools, current, visited, root, p) && p[0].consumer == consumer
                && p[0].dependency in consumer.dependencies[..j])
        {
          var dependency := consumer.dependencies[j];
          assert consumer.dependencies[..j + 1] == consumer.dependencies[..j] + [dependency];
          if Feeds(current.name, dependency) {
            var edge := Edge(consumer, dependency);
            var extended := [[edge]];
            if consumer.name == root {
              assert forall p: Path :: p != [] && p[0] == edge && p[1..] == [] ==> p == [edge];
            } else {
              var tails := Search(tools, consumer, visited + {consumer.name}, root);
              extended := Prefixed(edge, tails);
            }
            assert forall p: Path :: p in extended <==> IsPath(tools, current, visited, root, p) && p[0] == edge;
            paths := paths + extended;
          }
        }
      }
    }
  }

  method Prefixed(edge: Edge, tails: seq<Path>) returns (paths: seq<Path>)
    ensures forall p :: p in paths <==> p != [] && p[0] == edge && p[1..] in tails
  {
    paths := [];
    for i := 0 to |tails|
      invariant forall p :: p in paths <==> p != [] && p[0] == edge && p[1..] in tails[..i]
    {
      assert tails[..i + 1] == tails[..i] + [tails[i]];
      assert ([edge] + tails[i])[1..] == tails[i];
      assert forall p: Path :: p != [] && p[0] == edge && p[1..] == tails[i] ==> p == [edge] + tails[i];
      paths := paths + [[edge] + tails[i]];
    }
  }

  /** `_revision_paths`: `None` stands for the rejection when no path reaches the root. */
  method Paths(tools: seq<Tool>, producer: Tool, root: Tool) returns (paths: Option<seq<Path>>)
    ensures paths.None? <==> !exists p :: IsRevisionPath(tools, producer, root, p)
    ensures paths.Some? ==> forall p :: p in paths.value <==> IsRevisionPath(tools, producer, root, p)
  {
    if producer.name == root.name {
      assert IsRevisionPath(tools, producer, root, []);
      return Some([[]]);
    }
    var found := Search(tools, producer, {producer.name}, root.name);
    if found == [] {
      return None;
    }
    assert found[0] in found && IsRevisionPath(tools, producer, root, found[0]);
    return Some(found);
  }

  /** The same notion without recursion: declared edges that chain from `current` to a
      final `root`, through consumers that are pairwise distinct and not yet visited. */
  ghost predicate IsSimplePath(tools: seq<Tool>, current: Tool, visited: set<string>, root: string, path: Path) {
    && path != []
    && path[|path| - 1].consumer.name == root
    && (forall i :: 0 <= i < |path| ==>
          && path[i].consumer in tools
          && path[i].dependency in path[i].consumer.dependencies
          && path[i].consumer.name !in visited)
    && Feeds(current.name, path[0].dependency)
    && (forall i, j :: 0 <= i < |path| && j == i + 1 < |path| ==> Feeds(path[i].consumer.name, path[j].dependency))
    && (forall i, j :: 0 <= i < j < |path| ==> path[i].consumer.name != path[j].consumer.name)
  }

  /** What the search enumerates is exactly the simple paths of declared edges. */
  lemma {:induction false} PathsAreSimplePaths(tools: seq<Tool>, current: Tool, visited: set<string>, root: string,
                                               path: Path)
    ensures IsPath(tools, current, visited, root, path) <==> IsSimplePath(tools, current, visited, root, path)
    decreases |path|
  {
    if |path| == 1 {
      assert path[1..] == [];
    } else if |path| > 1 {
      var first, rest := path[0].consumer, path[1..];
      PathsAreSimplePaths(tools, first, visited + {first.name}, root, rest);
      assert forall i :: 1 <= i < |path| ==> path[i] == rest[i - 1];
      assert forall i :: 0 <= i < |rest| ==> rest[i] == path[i + 1];
      assert rest[|rest| - 1] == path[|path| - 1];
      if IsSimplePath(tools, current, visited, root, path) {
        assert first.name != path[|path| - 1].consumer.name;
        assert IsSimplePath(tools, first, visited + {first.name}, root, rest);
      }
    }
  }

  ghost predicate Constructors(path: Path) {
    forall i :: 0 <= i < |path| ==> path[i].consumer.modelConstructor
  }

  ghost predicate OptedIn(path: Path) {
    forall i :: 0 <= i < |path| ==> path[i].dependency.optedIn
  }

  /** Everyone who takes part: the revised tool and each consumer on each path. */
  ghost predicate AllConstructors(tools: seq<Tool>, producer: Tool, root: Tool) {
    producer.modelConstructor && forall p :: IsRevisionPath(tools, producer, root, p) ==> Constructors(p)
  }

  ghost predicate AllOptedIn(tools: seq<Tool>, producer: Tool, root: Tool) {
    forall p :: IsRevisionPath(tools, producer, root, p) ==> OptedIn(p)
  }

  datatype Verdict = NoPath | NotConstructors | NotOptedIn | Allowed

  /** The participant and policy checks of `_revision_context`, over the searched paths. */
  method Judge(tools: seq<Tool>, producer: Tool, root: Tool) returns (verdict: Verdict)
    ensures verdict == JudgeSpec(tools, producer, root)
  {
    var paths := Paths(tools, producer, root);
    if paths.None? {
      return NoPath;
    }
    var constructors, optedIn := producer.modelConstructor, true;
    for i := 0 to |paths.value|
      invariant constructors <==> (producer.modelConstructor && forall n :: 0 <= n < i ==> Constructors(paths.value[n]))
      invariant optedIn <==> forall n :: 0 <= n < i ==> OptedIn(paths.value[n])
    {
      var path := paths.value[i];
      var pathConstructors, pathOptedIn := true, true;
      for j := 0 to |path|
        invariant pathConstructors <==> forall n :: 0 <= n < j ==> path[n].consumer.modelConstructor
        invariant pathOptedIn <==> forall n :: 0 <= n < j ==> path[n].dependency.optedIn
      {
        pathConstructors := pathConstructors && path[j].consumer.modelConstructor;
        pathOptedIn := pathOptedIn && path[j].dependency.optedIn;
      }
      constructors := constructors && pathConstructors;
      optedIn := optedIn && pathOptedIn;
    }
    assert forall n :: 0 <= n < |paths.value| ==> paths.value[n] in paths.value;
    return if !constructors then NotConstructors else if !optedIn then NotOptedIn else Allowed;
  }

  ghost function JudgeSpec(tools: seq<Tool>, producer: Tool, root: Tool): Verdict {
    if !exists p :: IsRevisionPath(tools, producer, root, p) then NoPath
    else if !AllConstructors(tools, producer, root) then NotConstructors
    else if !AllOptedIn(tools, producer, root) then NotOptedIn
    else Allowed
  }
}
