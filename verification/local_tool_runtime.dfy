/** The runtime object itself: its dictionaries and sets, updated in place by each atomic step. */
module LocalRuntime {
  import opened Options
  import opened ToolCatalog
  import opened RevisionPaths
  import opened RevisionRoot
  import opened ToolRuntime

  class LocalToolRuntime {
    const catalog: Catalog
    var results: map<string, Value>
    var failures: set<string>
    var reservedKeys: set<string>
    var completionEvents: map<string, TaskId>
    var setEvents: set<TaskId>
    var inputResultBatches: map<string, set<(string, string)>>
    var baseBindings: map<(string, string), Binding>
    var revisionBindings: map<Claim, Binding>
    var revisionClaims: set<Claim>
    var calls: map<CallId, Record>
    var serializedLocks: map<string, TaskId>
    /** The suspended frames of `outcome_for_event`, one per accepted call. */
    var frames: map<TaskId, Task>

    function Snapshot(): State
      reads this
    {
      State(
        Ledger(results, failures, reservedKeys, completionEvents, setEvents, inputResultBatches, baseBindings),
        revisionBindings, revisionClaims, calls, serializedLocks, frames)
    }

    constructor (catalog: Catalog)
      ensures this.catalog == catalog && Snapshot() == EMPTY
    {
      this.catalog := catalog;
      results, failures, reservedKeys := map[], {}, {};
      completionEvents, setEvents, inputResultBatches := map[], {}, map[];
      baseBindings, revisionBindings, revisionClaims := map[], map[], {};
      calls, serializedLocks, frames := map[], map[], map[];
    }

    /** A later model decision rewinds a finished answer; a sibling of the same batch does not. */
    method StartInputRound(id: TaskId, tool: Tool, call: Call)
      modifies this`results, this`failures, this`reservedKeys, this`completionEvents, this`inputResultBatches
      ensures Snapshot() == old(Snapshot()).(ledger := BeginInputRound(old(Snapshot()).ledger, id, tool, call))
    {
      if call.message.None? || tool.inputs == [] {
        return;
      }
      hide DependencyFed, Rewind;
      var key, batch := tool.name, (call.invocation, call.message.value);
      var seen := if key in inputResultBatches then inputResultBatches[key] else {};
      if batch in seen {
        return;
      }
      inputResultBatches := inputResultBatches[key := seen + {batch}];
      if key !in completionEvents || completionEvents[key] !in setEvents {
        return;
      }
      RewindKey(id, key);
    }

    method RewindKey(id: TaskId, key: string)
      modifies this`results, this`failures, this`reservedKeys, this`completionEvents
      ensures Snapshot() == old(Snapshot()).(ledger := Rewind(old(Snapshot()).ledger, id, key))
    {
      reservedKeys := reservedKeys - {key};
      results := results - {key};
      failures := failures - {key};
      completionEvents := completionEvents[key := id];
    }

    method ArriveOrdinaryCall(id: TaskId, tool: Tool, call: Call)
      modifies this
      ensures Snapshot() == ArriveOrdinary(catalog, old(Snapshot()), id, tool, call)
    {
      var key := tool.name;
      StartInputRound(id, tool, call);
      if key !in completionEvents {
        completionEvents := completionEvents[key := id];
      }
      var owns := false;
      if !DependencyFed(catalog.tools, key) {
        owns := true;
      } else if key !in reservedKeys {
        reservedKeys := reservedKeys + {key};
        owns := true;
      } else {
        assert reservedKeys + {key} == reservedKeys;
      }
      frames := frames[id := Task(call, tool, Some(completionEvents[key]), None, owns, call.supplied, Asking(0))];
    }

    /** The admission checks in their order; the claim is taken only when all of them pass. */
    method RevisionContext(tool: Tool, call: Call) returns (refusal: Option<Rejection>)
      requires call.revision.Some?
      modifies this
      ensures refusal == Admission(catalog, old(Snapshot()), tool, call)
      ensures refusal.None? ==> call.revision.value.root.Some?
      ensures Snapshot() == old(Snapshot()).(claims :=
        if refusal.Some? then old(revisionClaims)
        else old(revisionClaims) + {Claim(call.invocation, call.revision.value.root.value, tool.name)})
    {
      var lineage := call.revision.value;
      if call.id in calls {
        return Some(Stale);
      }
      if lineage.root.None? || lineage.parent.None? {
        return Some(InvalidLineage);
      }
      if lineage.root.value !in calls || lineage.parent.value !in calls {
        return Some(InvalidLineage);
      }
      var root, parent := calls[lineage.root.value], calls[lineage.parent.value];
      if root.invocation != call.invocation {
        return Some(InvalidLineage);
      }
      if root.fault != Some(ValidationFault) {
        return Some(RootNotFailed);
      }
      if parent.invocation != call.invocation || parent.tool != tool.name {
        return Some(ParentMismatch);
      }
      var rootTool := Find(catalog.tools, root.tool);
      if rootTool.None? {
        return Some(Unsupported);
      }
      var verdict := Judge(catalog.tools, tool, rootTool.value);
      if verdict.NoPath? || verdict.NotConstructors? {
        return Some(Unsupported);
      }
      if verdict.NotOptedIn? {
        return Some(NotAuthorized);
      }
      var claim := Claim(call.invocation, lineage.root.value, tool.name);
      if Visible(Snapshot(), claim, root.tool) != Some(lineage.parent.value) {
        return Some(Stale);
      }
      if claim in revisionClaims {
        return Some(Conflict);
      }
      revisionClaims := revisionClaims + {claim};
      return None;
    }

    method ArriveRevisionCall(id: TaskId, tool: Tool, call: Call)
      requires call.revision.Some?
      modifies this
      ensures Snapshot() ==
        ArriveRevision(old(Snapshot()), id, tool, call, Admission(catalog, old(Snapshot()), tool, call))
    {
      var refusal := RevisionContext(tool, call);
      var branch := if refusal.Some? then None else call.revision.value.root;
      frames := frames[id := Task(call, tool, None, branch, false, call.supplied, Asking(0))];
      if refusal.Some? {
        FailCall(id, Rejected(refusal.value), map[]);
      }
    }

    /** `outcome_for_event` up to its first await. */
    method OutcomeForEvent(id: TaskId, call: Call, fault: Option<Fault>)
      requires id !in frames
      modifies this
      ensures Snapshot() == Step(catalog, old(Snapshot()), Arrive(id, call, fault))
    {
      var tool := Find(catalog.tools, call.toolId);
      if tool.None? || tool.value.privileged || Deferred(catalog, tool.value, call) {
        return;
      }
      if call.revision.Some? {
        ArriveRevisionCall(id, tool.value, call);
      } else {
        ArriveOrdinaryCall(id, tool.value, call);
      }
      if id in frames && frames[id].Unfinished() {
        PrepareCall(id, tool.value, call, fault);
      }
    }

    /** `validated_retained_dependencies`, before anything else is prepared. */
    method ValidatedRetained(tool: Tool, call: Call) returns (accepted: bool)
      ensures accepted == AcceptsRetained(catalog, tool, call)
    {
      var left := call.retained.Keys;
      while left != {}
        invariant left <= call.retained.Keys
        invariant forall argName :: argName in call.retained && argName !in left ==>
          AcceptsBinding(catalog, tool, argName, call.retained[argName])
        decreases |left|
      {
        var argName :| argName in left;
        var declared := DeclarationOf(tool.dependencies, argName);
        var binding := call.retained[argName];
        if declared.None? || !declared.value.conversation || catalog.thread != Some(binding.thread) || !binding.sound
          || (binding.producer != declared.value.toolId && binding.producer != declared.value.toolName) {
          assert !AcceptsBinding(catalog, tool, argName, call.retained[argName]);
          return false;
        }
        left := left - {argName};
      }
      return true;
    }

    /** What is prepared before the first await: foreign bindings and any other fault fail the call. */
    method PrepareCall(id: TaskId, tool: Tool, call: Call, fault: Option<Fault>)
      requires id in frames && frames[id].Unfinished()
      modifies this
      ensures Snapshot() == Prepared(old(Snapshot()), id, ArrivalFault(catalog, tool, call, fault))
    {
      var accepted := ValidatedRetained(tool, call);
      if !accepted {
        FailCall(id, OtherFault, map[]);
        return;
      }
      if fault.Some? {
        FailCall(id, fault.value, map[]);
      }
    }

    /** The `finally` block. */
    method SettleCall(id: TaskId, outcome: Outcome)
      requires id in frames
      modifies this`revisionClaims, this`setEvents, this`serializedLocks, this`frames
      ensures Snapshot() == Settle(old(Snapshot()), id, outcome)
    {
      var task := frames[id];
      if task.branch.Some? {
        revisionClaims := revisionClaims - {task.BranchClaim()};
      }
      if task.event.Some? {
        setEvents := setEvents + {task.event.value};
      }
      serializedLocks := LanesWithout(serializedLocks, id);
      frames := frames[id := task.(phase := Finished(outcome))];
    }

    method RecordCallOf(task: Task, accepted: map<string, Value>, fault: Option<Fault>)
      modifies this
      ensures Snapshot() == RecordCall(old(Snapshot()), task, accepted, fault)
    {
      calls := calls[task.call.id := Record(task.call.invocation, task.tool.name, accepted, fault)];
    }

    /** The `except` block followed by `finally`. */
    method FailCall(id: TaskId, fault: Fault, accepted: map<string, Value>)
      requires id in frames
      modifies this
      ensures Snapshot() == Fail(old(Snapshot()), id, fault, accepted)
    {
      var task := frames[id];
      if task.Ordinary() {
        failures := failures + {task.tool.name};
        if task.owns {
          reservedKeys := reservedKeys - {task.tool.name};
        }
      }
      if task.Ordinary() || task.call.id !in calls {
        RecordCallOf(task, accepted, Some(fault));
      }
      SettleCall(id, Error(fault));
    }

    method PublishCall(id: TaskId, raw: Raw)
      requires id in frames && !raw.Raised?
      modifies this
      ensures Snapshot() == Publish(old(Snapshot()), id, raw)
    {
      var task := frames[id];
      if task.Ordinary() {
        if task.owns {
          var key := task.tool.name;
          if raw.DecisionSkip? {
            failures := failures + {key};
            results := results - {key};
          } else {
            failures := failures - {key};
            results := results[key := raw.value];
            var slot := (task.call.invocation, key);
            if slot !in baseBindings {
              baseBindings := baseBindings[slot := Binding(task.call.id, raw.value)];
            }
          }
        }
      } else if !raw.DecisionSkip? && task.branch.Some? {
        revisionBindings := revisionBindings[task.BranchClaim() := Binding(task.call.id, raw.value)];
      }
      RecordCallOf(task, task.arguments, None);
    }

    /** The frame resumes after its target returned or raised. */
    method TargetReturned(id: TaskId, raw: Raw, late: Option<Fault>)
      requires Enabled(Snapshot(), Return(id, raw, late))
      modifies this
      ensures Snapshot() == Step(catalog, old(Snapshot()), Return(id, raw, late))
    {
      if raw.Raised? {
        FailCall(id, raw.fault, frames[id].arguments);
      } else {
        PublishCall(id, raw);
        if late.Some? {
          FailCall(id, late.value, frames[id].arguments);
        } else {
          SettleCall(id, if raw.DecisionSkip? then Skip else Ok(raw.value));
        }
      }
    }

    // ---------------------------------------------------------------- resolving the arguments

    /** The suspended frame goes on. */
    method GoOn(id: TaskId, task: Task)
      modifies this`frames
      ensures frames == old(frames)[id := task]
    {
      frames := frames[id := task];
    }

    /** `_resolved_arguments`, the next human-supplied argument: one that was supplied is not asked for,
        and an answer that does not come fails the call. */
    method InputAnswered(id: TaskId, value: Option<Value>)
      requires Enabled(Snapshot(), Answer(id, value))
      modifies this
      ensures Snapshot() == Step(catalog, old(Snapshot()), Answer(id, value))
    {
      var task := frames[id];
      var i := task.phase.input;
      if i >= |task.tool.inputs| {
        GoOn(id, task.(phase := Resolving(0, false)));
        return;
      }
      var name := task.tool.inputs[i];
      if name !in task.arguments {
        if value.None? {
          FailCall(id, OtherFault, map[]);
          return;
        }
        task := task.(arguments := task.arguments[name := value.value]);
      }
      GoOn(id, task.(phase := Asking(i + 1)));
    }

    /** `_dependency_result_key`: the tool's id first, then its name. */
    method DependencyResultKey(dependency: Dependency) returns (found: Option<string>)
      ensures found == ResultKey(Snapshot().ledger, dependency)
    {
      var keys := [dependency.toolId, dependency.toolName];
      for k := 0 to 2
        invariant k > 0 ==> !Known(Snapshot().ledger, dependency.toolId)
        invariant k > 1 ==> !Known(Snapshot().ledger, dependency.toolName)
      {
        if keys[k] in results || keys[k] in failures || keys[k] in completionEvents {
          return Some(keys[k]);
        }
      }
      return None;
    }

    /** What a revision reads: both spellings in its own branch, then both in its invocation's base. */
    method RevisionDependencyResult(invocation: string, root: CallId, dependency: Dependency)
      returns (value: Option<Value>)
      ensures value == BranchValue(Snapshot(), invocation, root, dependency)
    {
      var keys := [dependency.toolId, dependency.toolName];
      for k := 0 to 2
        invariant k > 0 ==> Claim(invocation, root, dependency.toolId) !in revisionBindings
        invariant k > 1 ==> Claim(invocation, root, dependency.toolName) !in revisionBindings
      {
        var claim := Claim(invocation, root, keys[k]);
        if claim in revisionBindings {
          return Some(revisionBindings[claim].result);
        }
      }
      for k := 0 to 2
        invariant k > 0 ==> (invocation, dependency.toolId) !in baseBindings
        invariant k > 1 ==> (invocation, dependency.toolName) !in baseBindings
      {
        if (invocation, keys[k]) in baseBindings {
          return Some(baseBindings[(invocation, keys[k])].result);
        }
      }
      return None;
    }

    /** `_require_revised_root_dependency`: the loop over the dependency arguments stops at the first change. */
    method RequireRevisedRootDependency(task: Task) returns (refusal: Option<Rejection>)
      requires task.branch.Some?
      ensures refusal == RootRefusal(Snapshot(), task)
      ensures task.call.id != task.branch.value && task.branch.value in calls ==>
        (refusal.None? <==>
           calls[task.branch.value].tool != task.tool.name
           || exists d :: d in task.tool.dependencies
                && Differ(task.arguments, calls[task.branch.value].accepted, d.argName))
      ensures task.call.id == task.branch.value ==> refusal == Some(ParentMismatch)
      ensures task.call.id != task.branch.value && refusal.Some? ==> refusal == Some(NoDependencyChange)
    {
      if task.call.id == task.branch.value {
        return Some(ParentMismatch);
      }
      if task.branch.value !in calls || calls[task.branch.value].tool != task.tool.name {
        return None;
      }
      var accepted := calls[task.branch.value].accepted;
      for i := 0 to |task.tool.dependencies|
        invariant forall j :: 0 <= j < i ==>
          Lookup(task.arguments, task.tool.dependencies[j].argName) ==
            Lookup(accepted, task.tool.dependencies[j].argName)
      {
        var name := task.tool.dependencies[i].argName;
        if Lookup(task.arguments, name) != Lookup(accepted, name) {
          assert task.tool.dependencies[i] in task.tool.dependencies && Differ(task.arguments, accepted, name);
          return None;
        }
      }
      return Some(NoDependencyChange);
    }

    /** The read behind the completion event: a failure first, then the result. */
    method ReadResult(id: TaskId, i: nat, key: string)
      requires id in frames && i < |frames[id].tool.dependencies|
      modifies this
      ensures Snapshot() == Resume(old(Snapshot()), id, ReadLedger(old(Snapshot()).ledger, old(frames)[id], i, key))
    {
      if key in failures {
        FailCall(id, OtherFault, map[]);
        return;
      }
      if key !in results {
        FailCall(id, OtherFault, map[]);
        return;
      }
      ReceiveDependency(id, i, results[key]);
    }

    method ReceiveDependency(id: TaskId, i: nat, value: Value)
      requires id in frames && i < |frames[id].tool.dependencies|
      modifies this`frames
      ensures Snapshot() == Resume(old(Snapshot()), id, Supply(old(frames)[id], i, value))
    {
      var task := frames[id];
      var name := task.tool.dependencies[i].argName;
      frames := frames[id := task.(arguments := task.arguments[name := value], phase := Resolving(i + 1, false))];
    }

    /** `_tool_dependency_result` of an ordinary call, up to its next await. */
    method ToolDependencyResult(id: TaskId, i: nat)
      requires id in frames && frames[id].phase.Resolving?
      requires frames[id].phase.dependency == i < |frames[id].tool.dependencies|
      modifies this
      ensures Snapshot() == Resume(old(Snapshot()), id, LookOrdinary(old(Snapshot()).ledger, old(frames)[id]))
    {
      var task := frames[id];
      var dependency := task.tool.dependencies[i];
      var key := DependencyResultKey(dependency);
      hide ResultKey, Fail;
      if key.None? {
        if !task.phase.yielded {
          GoOn(id, task.(phase := Resolving(i, true)));
        } else if dependency.argName in task.call.retained {
          ReceiveDependency(id, i, task.call.retained[dependency.argName].result);
        } else {
          FailCall(id, OtherFault, map[]);
        }
        return;
      }
      if key.value in completionEvents {
        GoOn(id, task.(phase := Waiting(i, key.value, completionEvents[key.value])));
        return;
      }
      ReadResult(id, i, key.value);
    }

    /** The same for an admitted revision, which never waits. */
    method LookUpForRevision(id: TaskId)
      requires id in frames && frames[id].phase.Resolving? && frames[id].branch.Some?
      modifies this
      ensures Snapshot() == Resume(old(Snapshot()), id, LookRevision(old(Snapshot()), old(frames)[id]))
    {
      hide BranchValue, RootRefusal, Fail;
      var task := frames[id];
      var i := task.phase.dependency;
      if i >= |task.tool.dependencies| {
        var refusal := RequireRevisedRootDependency(task);
        if refusal.Some? {
          FailCall(id, Rejected(refusal.value), task.arguments);
        } else {
          GoOn(id, task.(phase := Queued));
        }
        return;
      }
      var value := RevisionDependencyResult(task.call.invocation, task.branch.value, task.tool.dependencies[i]);
      if value.None? {
        FailCall(id, OtherFault, map[]);
      } else {
        ReceiveDependency(id, i, value.value);
      }
    }

    /** The loop of `_resolved_arguments` over the dependencies, up to its next await. */
    method LookUpDependency(id: TaskId)
      requires Enabled(Snapshot(), Look(id))
      modifies this
      ensures Snapshot() == Step(catalog, old(Snapshot()), Look(id))
    {
      hide LookRevision, ResultKey, ReadLedger, Supply, Fail;
      var task := frames[id];
      if task.branch.Some? {
        LookUpForRevision(id);
      } else if task.phase.dependency >= |task.tool.dependencies| {
        GoOn(id, task.(phase := Queued));
      } else {
        hide LookOrdinary;
        ToolDependencyResult(id, task.phase.dependency);
      }
    }

    /** The completion event was set. */
    method EventSet(id: TaskId)
      requires Enabled(Snapshot(), Wake(id))
      modifies this
      ensures Snapshot() == Step(catalog, old(Snapshot()), Wake(id))
    {
      hide ReadLedger, Fail;
      ReadResult(id, frames[id].phase.dependency, frames[id].phase.key);
    }

    method EnterTarget(id: TaskId)
      requires Enabled(Snapshot(), Enter(id))
      modifies this
      ensures Snapshot() == Step(catalog, old(Snapshot()), Enter(id))
    {
      var task := frames[id];
      if task.tool.lane.Some? {
        serializedLocks := serializedLocks[task.tool.lane.value := id];
      }
      frames := frames[id := task.(phase := Running)];
    }

    method CancelCall(id: TaskId)
      requires Enabled(Snapshot(), Cancel(id))
      modifies this
      ensures Snapshot() == Step(catalog, old(Snapshot()), Cancel(id))
    {
      SettleCall(id, Cancelled);
    }
  }
}
