/** The registered tools of one invocation, as `LocalToolRuntime.__init__` keeps them. */
module ToolCatalog {
  import opened Options

  /** A declared edge: the argument `argName` is fed by the tool named `toolId` or `toolName`. Only a
      conversation-scoped one may be given a result of an earlier turn instead. */
  datatype Dependency = Dependency(argName: string, toolId: string, toolName: string, optedIn: bool, conversation: bool)

  /** `inputs` are the arguments a human supplies; `lane` is the owner whose calls run one at a time. */
  datatype Tool = Tool(
    name: string,
    dependencies: seq<Dependency>,
    inputs: seq<string>,
    modelConstructor: bool,
    privileged: bool,
    lane: Option<string>)

  /** `tools` are the values of a dictionary keyed by name; `thread` is the conversation, if there is one. */
  datatype Catalog = Catalog(tools: seq<Tool>, canonicalInterrupts: bool, thread: Option<string>)

  function Find(tools: seq<Tool>, name: string): (found: Option<Tool>)
    ensures found.Some? ==> found.value in tools && found.value.name == name
    ensures found.None? ==> forall t :: t in tools ==> t.name != name
  {
    if tools == [] then None
    else if tools[0].name == name then Some(tools[0])
    else Find(tools[1..], name)
  }

  /** The declaration of an argument: a dictionary of them keeps the last. */
  function DeclarationOf(dependencies: seq<Dependency>, argName: string): (found: Option<Dependency>)
    ensures found.Some? ==> found.value in dependencies && found.value.argName == argName
    ensures found.None? ==> forall d :: d in dependencies ==> d.argName != argName
  {
    if |dependencies| == 0 then None
    else if dependencies[|dependencies| - 1].argName == argName then Some(dependencies[|dependencies| - 1])
    else DeclarationOf(dependencies[..|dependencies| - 1], argName)
  }

  predicate Feeds(key: string, dependency: Dependency) {
    key == dependency.toolId || key == dependency.toolName
  }

  /** Keys some dependency edge reads: only these are reserved by one call at a time. */
  predicate DependencyFed(tools: seq<Tool>, key: string) {
    exists i :: 0 <= i < |tools| && exists j :: 0 <= j < |tools[i].dependencies| && Feeds(key, tools[i].dependencies[j])
  }

  /** The declared dependencies have no cycle: a rank drops along every edge. */
  ghost predicate Acyclic(tools: seq<Tool>, rank: string -> nat) {
    forall t, d ::
      t in tools && d in t.dependencies ==> rank(d.toolId) < rank(t.name) && rank(d.toolName) < rank(t.name)
  }
}
