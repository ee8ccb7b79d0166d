/**
 * The task engine: at a lifecycle phase, runs the entity's tasks whose own phases contain
 * that phase, in list order, each merged with its global descriptor and executed by the
 * first task plugin supporting the merged type. There is no catch: the first failure,
 * whether in plugin lookup or in a plugin, ends the phase.
 */
module TaskEngine {
  import opened Wrappers
  import opened Domain
  import opened Config
  import opened CoreLib
  import opened Merge
  import opened ConfigurationService
  import Registry

  /** One plugin call: which plugin, with which merged descriptor, on which entity and context. */
  datatype TaskRun = TaskRun(plugin: nat, configuration: Descriptor, entity: DynamicEntity, context: Context)

  /** What a phase produced: the final attributes and context, or the error; and the calls made. */
  datatype TaskOutcome = TaskOutcome(result: Result<TaskEffect, ApiError>, runs: seq<TaskRun>)

  /** A task inherits from the global task of the same name, when the store has one. */
  function MergeConfigurationWithGlobal(root: Option<RootConfiguration>, task: Descriptor): Descriptor
  {
    MergeWithGlobal(task, GetTaskConfiguration(root, task.name))
  }

  /** Without a global task of that name the task is used as is; otherwise it is merged with one. */
  lemma MergeConfigurationWithGlobalFindsGlobal(root: Option<RootConfiguration>, task: Descriptor)
    ensures (root.None? || forall t :: t in root.value.tasks ==> t.name != task.name) ==>
              MergeConfigurationWithGlobal(root, task) == task
    ensures root.Some? && (exists t :: t in root.value.tasks && t.name == task.name) ==>
              exists g :: g in root.value.tasks && g.name == task.name &&
                MergeConfigurationWithGlobal(root, task) == MergeWithGlobal(task, Some(g))
  {
    if root.Some? {
      GetTaskConfigurationFinds(root.value, task.name);
    }
  }

  /** The index of the first registered plugin supporting `kind`. */
  function FindPlugin(registry: seq<TaskPlugin>, kind: string): (r: Option<nat>)
    ensures r.Some? ==> r.value < |registry|
  {
    Registry.FirstMatch(registry, (p: TaskPlugin) => p.supports(kind))
  }

  /** `getPlugin`: the plugin that runs a descriptor, or a 400 naming its type. */
  function GetPlugin(registry: seq<TaskPlugin>, configuration: Descriptor): (r: Result<nat, ApiError>)
    ensures r.Success? ==> r.value < |registry|
  {
    match FindPlugin(registry, configuration.kind)
    case None => Failure(Error(400, "error.plugin.unknown", map["type" := configuration.kind]))
    case Some(i) => Success(i)
  }

  lemma FindPluginFirstMatch(registry: seq<TaskPlugin>, kind: string)
    ensures FindPlugin(registry, kind).Some? ==> registry[FindPlugin(registry, kind).value].supports(kind)
    ensures FindPlugin(registry, kind).Some? ==> forall j :: 0 <= j < FindPlugin(registry, kind).value ==> !registry[j].supports(kind)
    ensures FindPlugin(registry, kind).None? <==> forall j :: 0 <= j < |registry| ==> !registry[j].supports(kind)
  {
    Registry.FirstMatchIsFirst(registry, (p: TaskPlugin) => p.supports(kind));
  }

  /** Lookup picks the first registered plugin supporting the type, or fails with a 400 naming the type. */
  lemma GetPluginFirstMatch(registry: seq<TaskPlugin>, configuration: Descriptor)
    ensures var r := GetPlugin(registry, configuration);
            (r.Success? ==> registry[r.value].supports(configuration.kind)) &&
            (r.Success? ==> forall j :: 0 <= j < r.value ==> !registry[j].supports(configuration.kind)) &&
            (r.Failure? <==> forall j :: 0 <= j < |registry| ==> !registry[j].supports(configuration.kind)) &&
            (r.Failure? ==> r.error == Error(400, "error.plugin.unknown", map["type" := configuration.kind]))
  {
    FindPluginFirstMatch(registry, configuration.kind);
  }

  /** The tasks whose own (pre-merge) phases contain `phase`, in list order. */
  function Selected(tasks: seq<Descriptor>, phase: string): seq<Descriptor>
  {
    if |tasks| == 0 then []
    else (if phase in tasks[0].phases then [tasks[0]] else []) + Selected(tasks[1..], phase)
  }

  /** The selected tasks, each merged with its global descriptor: what the plugins receive. */
  function Pending(root: Option<RootConfiguration>, tasks: seq<Descriptor>, phase: string): seq<Descriptor>
  {
    if |tasks| == 0 then []
    else (if phase in tasks[0].phases then [MergeConfigurationWithGlobal(root, tasks[0])] else [])
         + Pending(root, tasks[1..], phase)
  }

  /** What a recorded call returned. */
  function Effect(registry: seq<TaskPlugin>, run: TaskRun): Result<TaskEffect, ApiError>
    requires run.plugin < |registry|
  {
    registry[run.plugin].execute(run.configuration, run.entity, run.context)
  }

  /** Runs merged descriptors one after the other, threading attributes and context. */
  function RunAll(registry: seq<TaskPlugin>, config: EntityConfiguration, pending: seq<Descriptor>,
                  attributes: map<string, Value>, context: Context): TaskOutcome
    decreases |pending|
  {
    if |pending| == 0 then TaskOutcome(Success(TaskEffect(attributes, context)), [])
    else
      match GetPlugin(registry, pending[0])
      case Failure(e) => TaskOutcome(Failure(e), [])
      case Success(i) =>
        var run := TaskRun(i, pending[0], DynamicEntity(attributes, Some(config)), context);
        match Effect(registry, run)
        case Failure(e) => TaskOutcome(Failure(e), [run])
        case Success(effect) =>
          var rest := RunAll(registry, config, pending[1..], effect.attributes, effect.context);
          TaskOutcome(rest.result, [run] + rest.runs)
  }

  /** `execute(entity, context, phase)`: nothing at all while the entity has no configuration. */
  function ExecuteSpec(root: Option<RootConfiguration>, registry: seq<TaskPlugin>, entity: DynamicEntity,
                       context: Context, phase: string): TaskOutcome
  {
    match entity.configuration
    case None => TaskOutcome(Success(TaskEffect(entity.attributes, context)), [])
    case Some(config) => RunAll(registry, config, Pending(root, config.tasks, phase), entity.attributes, context)
  }

  function Prepend(runs: seq<TaskRun>, outcome: TaskOutcome): TaskOutcome {
    TaskOutcome(outcome.result, runs + outcome.runs)
  }

  /** A task the phase does not select is skipped. */
  lemma SkipTask(root: Option<RootConfiguration>, registry: seq<TaskPlugin>, config: EntityConfiguration,
                 tasks: seq<Descriptor>, phase: string, attributes: map<string, Value>, context: Context)
    requires |tasks| > 0 && phase !in tasks[0].phases
    ensures RunAll(registry, config, Pending(root, tasks, phase), attributes, context)
            == RunAll(registry, config, Pending(root, tasks[1..], phase), attributes, context)
  {
    assert Pending(root, tasks, phase) == Pending(root, tasks[1..], phase);
  }

  lemma PendingCons(root: Option<RootConfiguration>, tasks: seq<Descriptor>, phase: string)
    requires |tasks| > 0 && phase in tasks[0].phases
    ensures Pending(root, tasks, phase) == [MergeConfigurationWithGlobal(root, tasks[0])] + Pending(root, tasks[1..], phase)
  {
  }

  /** A phase is its first task followed, if that succeeded, by the others. */
  lemma RunAllCons(registry: seq<TaskPlugin>, config: EntityConfiguration, merged: Descriptor, later: seq<Descriptor>,
                   attributes: map<string, Value>, context: Context)
    ensures var first := RunAll(registry, config, [merged], attributes, context);
            RunAll(registry, config, [merged] + later, attributes, context)
            == if first.result.Failure? then first
               else Prepend(first.runs, RunAll(registry, config, later, first.result.value.attributes, first.result.value.context))
  {
    var all := [merged] + later;
    assert all[0] == merged && all[1..] == later;
    assert [merged][1..] == [];
    var plugin := GetPlugin(registry, merged);
    if plugin.Success? {
      var run := TaskRun(plugin.value, merged, DynamicEntity(attributes, Some(config)), context);
      var effect := Effect(registry, run);
      if effect.Success? {
        assert RunAll(registry, config, [merged], attributes, context) == TaskOutcome(effect, [run]);
        assert RunAll(registry, config, all, attributes, context)
               == Prepend([run], RunAll(registry, config, later, effect.value.attributes, effect.value.context));
      }
    }
  }

  /** A selected task runs first; the rest of the phase runs only if it succeeded. */
  lemma TakeTask(root: Option<RootConfiguration>, registry: seq<TaskPlugin>, config: EntityConfiguration,
                 tasks: seq<Descriptor>, phase: string, attributes: map<string, Value>, context: Context)
    requires |tasks| > 0 && phase in tasks[0].phases
    ensures var first := RunAll(registry, config, [MergeConfigurationWithGlobal(root, tasks[0])], attributes, context);
            RunAll(registry, config, Pending(root, tasks, phase), attributes, context)
            == if first.result.Failure? then first
               else Prepend(first.runs, RunAll(registry, config, Pending(root, tasks[1..], phase),
                                               first.result.value.attributes, first.result.value.context))
  {
    PendingCons(root, tasks, phase);
    RunAllCons(registry, config, MergeConfigurationWithGlobal(root, tasks[0]), Pending(root, tasks[1..], phase), attributes, context);
  }

  lemma PrependTwice(runs: seq<TaskRun>, more: seq<TaskRun>, outcome: TaskOutcome)
    ensures Prepend(runs, Prepend(more, outcome)) == Prepend(runs + more, outcome)
  {
    assert runs + (more + outcome.runs) == runs + more + outcome.runs;
  }

  /** One task of a phase: merge it, look its plugin up, and call the plugin. */
  method RunTask(root: Option<RootConfiguration>, registry: seq<TaskPlugin>, config: EntityConfiguration,
                 task: Descriptor, attributes: map<string, Value>, context: Context) returns (outcome: TaskOutcome)
    ensures outcome == RunAll(registry, config, [MergeConfigurationWithGlobal(root, task)], attributes, context)
  {
    var merged := MergeConfigurationWithGlobal(root, task);
    var plugin := GetPlugin(registry, merged);
    assert [merged][1..] == [];
    if plugin.Failure? {
      return TaskOutcome(Failure(plugin.error), []);
    }
    var run := TaskRun(plugin.value, merged, DynamicEntity(attributes, Some(config)), context);
    var effect := registry[plugin.value].execute(merged, run.entity, context);
    outcome := TaskOutcome(effect, [run]);
  }

  method Execute(root: Option<RootConfiguration>, registry: seq<TaskPlugin>, entity: DynamicEntity,
                 context: Context, phase: string) returns (outcome: TaskOutcome)
    ensures entity.configuration.None? ==> outcome == TaskOutcome(Success(TaskEffect(entity.attributes, context)), [])
    ensures outcome == ExecuteSpec(root, registry, entity, context, phase)
  {
    if entity.configuration.None? {
      return TaskOutcome(Success(TaskEffect(entity.attributes, context)), []);
    }
    outcome := RunPhase(root, registry, entity.configuration.value, phase, entity.attributes, context);
  }

  /** The loop over the configured tasks, skipping those not selected and stopping at a failure. */
  method RunPhase(root: Option<RootConfiguration>, registry: seq<TaskPlugin>, config: EntityConfiguration,
                  phase: string, attributes0: map<string, Value>, context0: Context) returns (outcome: TaskOutcome)
    ensures outcome == RunAll(registry, config, Pending(root, config.tasks, phase), attributes0, context0)
  {
    ghost var total := RunAll(registry, config, Pending(root, config.tasks, phase), attributes0, context0);
    var remaining := config.tasks;
    var attributes, ctx := attributes0, context0;
    var runs: seq<TaskRun> := [];
    while |remaining| > 0
      invariant Prepend(runs, RunAll(registry, config, Pending(root, remaining, phase), attributes, ctx)) == total
    {
      if phase in remaining[0].phases {
        var step := RunTask(root, registry, config, remaining[0], attributes, ctx);
        TakeTask(root, registry, config, remaining, phase, attributes, ctx);
        if step.result.Failure? {
          return Prepend(runs, step);
        }
        PrependTwice(runs, step.runs, RunAll(registry, config, Pending(root, remaining[1..], phase),
                                             step.result.value.attributes, step.result.value.context));
        runs := runs + step.runs;
        attributes, ctx := step.result.value.attributes, step.result.value.context;
      } else {
        SkipTask(root, registry, config, remaining, phase, attributes, ctx);
      }
      remaining := remaining[1..];
    }
    outcome := TaskOutcome(Success(TaskEffect(attributes, ctx)), runs);
  }

  // ---------------------------------------------------------------- properties

  /** Selection keeps exactly the tasks whose own phases contain the phase. */
  lemma {:induction false} SelectedMembers(tasks: seq<Descriptor>, phase: string)
    ensures forall t :: t in Selected(tasks, phase) <==> t in tasks && phase in t.phases
  {
    if |tasks| > 0 {
      SelectedMembers(tasks[1..], phase);
      assert tasks == [tasks[0]] + tasks[1..];
    }
  }

  /** The pending descriptors are the selected tasks, merged one by one, in order. */
  lemma {:induction false} PendingIsMergedSelection(root: Option<RootConfiguration>, tasks: seq<Descriptor>, phase: string)
    ensures |Pending(root, tasks, phase)| == |Selected(tasks, phase)|
    ensures forall k :: 0 <= k < |Selected(tasks, phase)| ==>
              Pending(root, tasks, phase)[k] == MergeConfigurationWithGlobal(root, Selected(tasks, phase)[k])
  {
    if |tasks| > 0 {
      PendingIsMergedSelection(root, tasks[1..], phase);
      var pending, selected := Pending(root, tasks[1..], phase), Selected(tasks[1..], phase);
      if phase in tasks[0].phases {
        assert Pending(root, tasks, phase) == [MergeConfigurationWithGlobal(root, tasks[0])] + pending;
        assert Selected(tasks, phase) == [tasks[0]] + selected;
      } else {
        assert Pending(root, tasks, phase) == pending;
        assert Selected(tasks, phase) == selected;
      }
    }
  }

  /**
   * The k-th call runs the k-th pending descriptor with the first plugin supporting its
   * type, on an entity carrying the entity's configuration.
   */
  predicate FollowsPending(registry: seq<TaskPlugin>, config: EntityConfiguration, pending: seq<Descriptor>, runs: seq<TaskRun>)
  {
    |runs| <= |pending| &&
    forall k :: 0 <= k < |runs| ==>
      runs[k].configuration == pending[k] &&
      GetPlugin(registry, pending[k]) == Success(runs[k].plugin) &&
      runs[k].entity.configuration == Some(config)
  }

  /**
   * The first call sees the initial attributes and context, and each later call sees
   * exactly what the previous one left behind (so every call but the last succeeded).
   */
  predicate Chained(registry: seq<TaskPlugin>, runs: seq<TaskRun>, attributes: map<string, Value>, context: Context) {
    (|runs| > 0 ==> runs[0].entity.attributes == attributes && runs[0].context == context) &&
    forall k :: 0 <= k < |runs| - 1 ==>
      runs[k].plugin < |registry| &&
      Effect(registry, runs[k]) == Success(TaskEffect(runs[k + 1].entity.attributes, runs[k + 1].context))
  }

  /**
   * Success means every pending task ran and the result is what the last one left.
   * A failure is the error of the last call, or the lookup error of the next task.
   */
  predicate Concluded(registry: seq<TaskPlugin>, pending: seq<Descriptor>,
                      attributes: map<string, Value>, context: Context, outcome: TaskOutcome)
  {
    var runs := outcome.runs;
    var n := |runs|;
    (forall k :: 0 <= k < n ==> runs[k].plugin < |registry|) &&
    (outcome.result.Success? ==>
       n == |pending| &&
       outcome.result == (if n == 0 then Success(TaskEffect(attributes, context)) else Effect(registry, runs[n - 1]))) &&
    (outcome.result.Failure? ==>
       (n > 0 && Effect(registry, runs[n - 1]) == outcome.result) ||
       (n < |pending| && (n == 0 || Effect(registry, runs[n - 1]).Success?) &&
        GetPlugin(registry, pending[n]) == Failure(outcome.result.error)))
  }

  /** The k-th call of a phase, described without quantifiers; the predicates follow from it. */
  lemma {:induction false} RunAllAt(registry: seq<TaskPlugin>, config: EntityConfiguration, pending: seq<Descriptor>,
                                    attributes: map<string, Value>, context: Context, k: nat)
    requires k < |RunAll(registry, config, pending, attributes, context).runs|
    ensures var runs := RunAll(registry, config, pending, attributes, context).runs;
            k < |pending| &&
            runs[k].configuration == pending[k] &&
            GetPlugin(registry, pending[k]) == Success(runs[k].plugin) &&
            runs[k].entity.configuration == Some(config) &&
            (k == 0 ==> runs[0].entity.attributes == attributes && runs[0].context == context) &&
            (k + 1 < |runs| ==>
               (runs[k].plugin < |registry| &&
                Effect(registry, runs[k]) == Success(TaskEffect(runs[k + 1].entity.attributes, runs[k + 1].context))))
    decreases |pending|
  {
    var outcome := RunAll(registry, config, pending, attributes, context);
    var plugin := GetPlugin(registry, pending[0]);
    assert plugin.Success?;
    var run := TaskRun(plugin.value, pending[0], DynamicEntity(attributes, Some(config)), context);
    var effect := Effect(registry, run);
    if effect.Failure? {
      assert outcome.runs == [run];
    } else {
      var rest := RunAll(registry, config, pending[1..], effect.value.attributes, effect.value.context);
      assert outcome.runs == [run] + rest.runs;
      if k > 0 || 0 < |rest.runs| {
        RunAllAt(registry, config, pending[1..], effect.value.attributes, effect.value.context, if k > 0 then k - 1 else 0);
      }
    }
  }

  lemma {:induction false} RunAllLength(registry: seq<TaskPlugin>, config: EntityConfiguration, pending: seq<Descriptor>,
                                        attributes: map<string, Value>, context: Context)
    ensures |RunAll(registry, config, pending, attributes, context).runs| <= |pending|
    decreases |pending|
  {
    if |pending| > 0 {
      var plugin := GetPlugin(registry, pending[0]);
      if plugin.Success? {
        var run := TaskRun(plugin.value, pending[0], DynamicEntity(attributes, Some(config)), context);
        var effect := Effect(registry, run);
        if effect.Success? {
          RunAllLength(registry, config, pending[1..], effect.value.attributes, effect.value.context);
        }
      }
    }
  }

  lemma RunAllFollows(registry: seq<TaskPlugin>, config: EntityConfiguration, pending: seq<Descriptor>,
                      attributes: map<string, Value>, context: Context)
    ensures FollowsPending(registry, config, pending, RunAll(registry, config, pending, attributes, context).runs)
    ensures Chained(registry, RunAll(registry, config, pending, attributes, context).runs, attributes, context)
  {
    RunAllLength(registry, config, pending, attributes, context);
    var runs := RunAll(registry, config, pending, attributes, context).runs;
    forall k | 0 <= k < |runs|
      ensures runs[k].configuration == pending[k]
      ensures GetPlugin(registry, pending[k]) == Success(runs[k].plugin)
      ensures runs[k].entity.configuration == Some(config)
      ensures k + 1 < |runs| ==>
                (runs[k].plugin < |registry| &&
                 Effect(registry, runs[k]) == Success(TaskEffect(runs[k + 1].entity.attributes, runs[k + 1].context)))
    {
      RunAllAt(registry, config, pending, attributes, context, k);
    }
    if |runs| > 0 {
      RunAllAt(registry, config, pending, attributes, context, 0);
    }
  }

  lemma {:induction false} RunAllConcluded(registry: seq<TaskPlugin>, config: EntityConfiguration, pending: seq<Descriptor>,
                                           attributes: map<string, Value>, context: Context)
    ensures Concluded(registry, pending, attributes, context, RunAll(registry, config, pending, attributes, context))
    decreases |pending|
  {
    if |pending| > 0 {
      var outcome := RunAll(registry, config, pending, attributes, context);
      var plugin := GetPlugin(registry, pending[0]);
      if plugin.Failure? {
        assert outcome == TaskOutcome(Failure(plugin.error), []);
      } else {
        var run := TaskRun(plugin.value, pending[0], DynamicEntity(attributes, Some(config)), context);
        var effect := Effect(registry, run);
        if effect.Failure? {
          assert outcome == TaskOutcome(effect, [run]);
        } else {
          var rest := RunAll(registry, config, pending[1..], effect.value.attributes, effect.value.context);
          assert outcome == TaskOutcome(rest.result, [run] + rest.runs);
          RunAllConcluded(registry, config, pending[1..], effect.value.attributes, effect.value.context);
          var runs := [run] + rest.runs;
          var n := |runs|;
          assert forall k :: 1 <= k < n ==> runs[k] == rest.runs[k - 1];
          assert runs[n - 1] == if n == 1 then run else rest.runs[n - 2];
          if rest.result.Failure? && n <= |pending[1..]| {
            assert pending[n] == pending[1..][n - 1];
          }
        }
      }
    }
  }

  /**
   * The properties of one phase: with no configuration nothing runs; otherwise the calls
   * follow the selected, merged tasks in order, are chained, and stop at the first failure.
   */
  lemma ExecuteSpecShape(root: Option<RootConfiguration>, registry: seq<TaskPlugin>, entity: DynamicEntity,
                         context: Context, phase: string)
    ensures entity.configuration.None? ==> ExecuteSpec(root, registry, entity, context, phase).runs == []
    ensures entity.configuration.Some? ==>
      var config := entity.configuration.value;
      var pending := Pending(root, config.tasks, phase);
      var outcome := ExecuteSpec(root, registry, entity, context, phase);
      FollowsPending(registry, config, pending, outcome.runs) &&
      Chained(registry, outcome.runs, entity.attributes, context) &&
      Concluded(registry, pending, entity.attributes, context, outcome)
  {
    if entity.configuration.Some? {
      var config := entity.configuration.value;
      var pending := Pending(root, config.tasks, phase);
      RunAllFollows(registry, config, pending, entity.attributes, context);
      RunAllConcluded(registry, config, pending, entity.attributes, context);
    }
  }

  /**
   * Only tasks whose own phases contain the phase ever run: a task with empty local
   * phases is never run, even when its global descriptor lists the phase.
   */
  lemma RunsOnlySelectedTasks(root: Option<RootConfiguration>, registry: seq<TaskPlugin>, entity: DynamicEntity,
                              context: Context, phase: string, k: nat)
    requires entity.configuration.Some?
    requires k < |ExecuteSpec(root, registry, entity, context, phase).runs|
    ensures exists t :: t in entity.configuration.value.tasks && phase in t.phases &&
              ExecuteSpec(root, registry, entity, context, phase).runs[k].configuration == MergeConfigurationWithGlobal(root, t)
  {
    var config := entity.configuration.value;
    var pending := Pending(root, config.tasks, phase);
    RunAllFollows(registry, config, pending, entity.attributes, context);
    PendingIsMergedSelection(root, config.tasks, phase);
    SelectedMembers(config.tasks, phase);
    var t := Selected(config.tasks, phase)[k];
    assert t in Selected(config.tasks, phase);
  }
}
