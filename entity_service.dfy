/**
 * The lifecycle orchestrator (`DynamicEntityServiceImpl`). Every CRUD operation is one
 * straight-line pipeline of fifteen steps: a task checkpoint, the token check, a task
 * checkpoint; a task checkpoint, the permission check, a task checkpoint; entity
 * configuration, provider and provider configuration lookups; a task checkpoint, the
 * validation engine, a task checkpoint; a task checkpoint, the provider call, a task
 * checkpoint. Nothing catches: the first failure ends the operation.
 *
 * Each step appends one event to a trace, recording the step, the entity and context it
 * was given, the task calls it made and its error, if any.
 */
module EntityService {
  import opened Wrappers
  import opened Domain
  import opened Config
  import opened CoreLib
  import ConfigurationService
  import TaskEngine
  import ValidationEngine
  import Registry

  /** The collaborators of the service: the configuration store and the plugin registries. */
  datatype Services = Services(
    root: Option<RootConfiguration>,
    tasks: seq<TaskPlugin>,
    validations: seq<ValidationPlugin>,
    providers: seq<ProviderPlugin>,
    authorization: AuthorizationPlugin)

  datatype Op = Create | Update | Patch | Delete | FindById | FindAll

  /** The suffix of every phase name of an operation. */
  function OpName(op: Op): string {
    match op
    case Create => "Create"
    case Update => "Update"
    case Patch => "Patch"
    case Delete => "Delete"
    case FindById => "FindById"
    case FindAll => "FindAll"
  }

  /** The action the permission check is asked about. */
  function Action(op: Op): string {
    match op
    case Create => "CREATE"
    case Update => "UPDATE"
    case Patch => "UPDATE"
    case Delete => "DELETE"
    case FindById => "READ"
    case FindAll => "READ"
  }

  /** The request arguments; each operation reads only the ones it has. */
  datatype Input = Input(id: string, body: map<string, Value>, filters: Filters, pageable: Pageable)

  /** What an operation returns: an entity, the provider's delete flag, or a page. */
  datatype Answer = NoAnswer | EntityAnswer(entity: DynamicEntity) | DeletedAnswer(state: bool) | PageAnswer(page: Page)

  datatype Step =
    | TaskStep(phase: string)
    | TokenStep
    | PermissionStep(action: string)
    | ConfigurationStep
    | ProviderStep
    | ProviderConfigurationStep
    | ValidationStep(phase: string)
    | CallStep

  /** One step as it happened: what it was given, the task calls it made, and its error. */
  datatype Event = Event(step: Step, entity: DynamicEntity, context: Context, runs: seq<TaskEngine.TaskRun>, error: Option<ApiError>)

  /** The state of a request as it goes through the pipeline. */
  datatype Flow = Flow(entity: DynamicEntity, context: Context, trace: seq<Event>, failure: Option<ApiError>, answer: Answer)

  /** The fifteen steps of an operation, in order. */
  function Skeleton(op: Op): seq<Step> {
    TokenSteps(op) + PermissionSteps(op) + ResolutionSteps() + ValidationSteps(op) + CallSteps(op)
  }

  /** The token check between two checkpoints. */
  function TokenSteps(op: Op): seq<Step> {
    [TaskStep("beforeTokenValidation" + OpName(op)), TokenStep, TaskStep("afterTokenValidation" + OpName(op))]
  }

  /** The permission check between two checkpoints. */
  function PermissionSteps(op: Op): seq<Step> {
    [TaskStep("beforePermissionValidation" + OpName(op)), PermissionStep(Action(op)),
     TaskStep("afterPermissionValidation" + OpName(op))]
  }

  /** The entity configuration, the provider plugin and the provider configuration. */
  function ResolutionSteps(): seq<Step> {
    [ConfigurationStep, ProviderStep, ProviderConfigurationStep]
  }

  /** Validation between two checkpoints. */
  function ValidationSteps(op: Op): seq<Step> {
    [TaskStep("beforeValidation" + OpName(op)), ValidationStep("before" + OpName(op)),
     TaskStep("afterValidation" + OpName(op))]
  }

  /** The provider call between two checkpoints. */
  function CallSteps(op: Op): seq<Step> {
    [TaskStep("before" + OpName(op)), CallStep, TaskStep("after" + OpName(op))]
  }

  /** The fresh entity: create, update and patch carry the request body as attributes. */
  function InitialEntity(op: Op, input: Input): DynamicEntity {
    if op == Create || op == Update || op == Patch then NewEntity().(attributes := input.body) else NewEntity()
  }

  /** The fresh context: findById holds the id, findAll the filters and the pageable. */
  function InitialContext(op: Op, input: Input): Context {
    match op
    case FindById => map["id" := Text(input.id)]
    case FindAll => map["filters" := FilterValue(input.filters), "pageable" := PageableValue(input.pageable)]
    case _ => map[]
  }

  /** What `isAuthorized` is asked about: nothing for create, the filters for findAll, the id otherwise. */
  function Target(op: Op, input: Input): (t: AuthTarget)
    ensures t == NoTarget <==> op == Create
    ensures t.FilterTarget? <==> op == FindAll
    ensures t.FilterTarget? ==> t.filters == input.filters
    ensures t.IdTarget? ==> t.id == input.id
  {
    match op
    case Create => NoTarget
    case FindAll => FilterTarget(input.filters)
    case _ => IdTarget(input.id)
  }

  function Start(op: Op, input: Input): Flow {
    Flow(InitialEntity(op, input), InitialContext(op, input), [], None, NoAnswer)
  }

  function ErrorOf<T>(r: Result<T, ApiError>): Option<ApiError> {
    if r.Failure? then Some(r.error) else None
  }

  /** A step runs only on a flow that has not failed, and then appends exactly its one event. */
  predicate Appends(f: Flow, g: Flow, step: Step) {
    if f.failure.Some? then g == f
    else |g.trace| == |f.trace| + 1 && g.trace[..|f.trace|] == f.trace &&
         g.trace[|f.trace|].step == step && g.trace[|f.trace|].entity == f.entity &&
         g.trace[|f.trace|].context == f.context && g.failure == g.trace[|f.trace|].error
  }

  function Pass(f: Flow, step: Step): Flow {
    f.(trace := f.trace + [Event(step, f.entity, f.context, [], None)])
  }

  function Fail(f: Flow, step: Step, e: ApiError): Flow {
    f.(trace := f.trace + [Event(step, f.entity, f.context, [], Some(e))], failure := Some(e))
  }

  // ---------------------------------------------------------------- the steps

  /**
   * An entity answer is the very object later checkpoints change in place, so it follows the
   * flow's entity; a delete flag or a page does not.
   */
  function Follow(answer: Answer, entity: DynamicEntity): Answer {
    if answer.EntityAnswer? then EntityAnswer(entity) else answer
  }

  /**
   * `taskEngine.execute(entity, context, phase)`: the phase's outcome is recorded with its plugin
   * calls; on success its attributes and context replace the flow's, and an entity answer follows.
   */
  function Checkpoint(s: Services, phase: string, f: Flow): (g: Flow)
    ensures Appends(f, g, TaskStep(phase))
    ensures f.failure.None? ==>
      var outcome := TaskEngine.ExecuteSpec(s.root, s.tasks, f.entity, f.context, phase);
      g.trace[|f.trace|].runs == outcome.runs && g.failure == ErrorOf(outcome.result) &&
      (outcome.result.Success? ==>
         g.entity == f.entity.(attributes := outcome.result.value.attributes) &&
         g.context == outcome.result.value.context)
    ensures g.entity.configuration == f.entity.configuration
    ensures g.answer.EntityAnswer? == f.answer.EntityAnswer?
    ensures !f.answer.EntityAnswer? ==> g.answer == f.answer
    ensures g.failure.None? && f.answer.EntityAnswer? ==> g.answer == EntityAnswer(g.entity)
    ensures f.entity.configuration.None? ==> Untouched(f, g)
  {
    if f.failure.Some? then f
    else
      var outcome := TaskEngine.ExecuteSpec(s.root, s.tasks, f.entity, f.context, phase);
      var event := Event(TaskStep(phase), f.entity, f.context, outcome.runs, ErrorOf(outcome.result));
      match outcome.result
      case Failure(e) => f.(trace := f.trace + [event], failure := Some(e))
      case Success(effect) =>
        var entity := f.entity.(attributes := effect.attributes);
        f.(entity := entity, context := effect.context, trace := f.trace + [event], answer := Follow(f.answer, entity))
  }

  /** `authorizationPlugin.validateToken(request, context)`: its error, or the context it answers. */
  function Token(s: Services, request: Request, f: Flow): (g: Flow)
    ensures Appends(f, g, TokenStep)
    ensures f.failure.None? ==>
      var verdict := s.authorization.validateToken(request, f.context);
      g.failure == ErrorOf(verdict) && (verdict.Success? ==> g.context == verdict.value)
    ensures g.entity == f.entity && g.answer == f.answer && Untouched(f, g)
  {
    if f.failure.Some? then f
    else match s.authorization.validateToken(request, f.context)
      case Failure(e) => Fail(f, TokenStep, e)
      case Success(context) => Pass(f, TokenStep).(context := context)
  }

  /**
   * `authorizationPlugin.isAuthorized(request, entity, [id | filters,] action, context)` on the
   * flow's entity: its error, or the context it answers.
   */
  function Permission(s: Services, request: Request, op: Op, input: Input, f: Flow): (g: Flow)
    ensures Appends(f, g, PermissionStep(Action(op)))
    ensures f.failure.None? ==>
      var verdict := s.authorization.isAuthorized(request, f.entity, Target(op, input), Action(op), f.context);
      g.failure == ErrorOf(verdict) && (verdict.Success? ==> g.context == verdict.value)
    ensures g.entity == f.entity && g.answer == f.answer && Untouched(f, g)
  {
    if f.failure.Some? then f
    else match s.authorization.isAuthorized(request, f.entity, Target(op, input), Action(op), f.context)
      case Failure(e) => Fail(f, PermissionStep(Action(op)), e)
      case Success(context) => Pass(f, PermissionStep(Action(op))).(context := context)
  }

  /** `updateEntityConfiguration`: the entity's configuration is looked up by its route name. */
  function UpdateEntityConfiguration(root: Option<RootConfiguration>, entity: DynamicEntity, entityName: string)
    : (r: Result<DynamicEntity, ApiError>)
    ensures r.Success? <==> ConfigurationService.GetEntityConfiguration(root, entityName).Some?
    ensures r.Success? ==>
      r.value.attributes == entity.attributes && r.value.configuration.Some? &&
      r.value.configuration == ConfigurationService.GetEntityConfiguration(root, entityName)
  {
    match ConfigurationService.GetEntityConfiguration(root, entityName)
    case None => Failure(Error(404, "error.entity.unknown", map["entity" := entityName]))
    case Some(configuration) => Success(entity.(configuration := Some(configuration)))
  }

  /** The index of the first provider plugin supporting a provider name (`getProviderByName`). */
  function FindProvider(providers: seq<ProviderPlugin>, name: string): (r: Option<nat>)
    ensures r.Some? ==> r.value < |providers| && providers[r.value].supports(name)
    ensures r.Some? ==> forall j :: 0 <= j < r.value ==> !providers[j].supports(name)
    ensures r.None? ==> forall j :: 0 <= j < |providers| ==> !providers[j].supports(name)
  {
    var supports := (p: ProviderPlugin) => p.supports(name);
    Registry.FirstMatchIsFirst(providers, supports);
    Registry.FirstMatch(providers, supports)
  }

  function UnknownProvider(configuration: EntityConfiguration): ApiError {
    Error(500, "error.provider.unknown", map["entity" := configuration.name, "provider" := configuration.provider])
  }

  /** `getProvider`: the plugin for the entity's provider, or a 500. */
  function GetProvider(providers: seq<ProviderPlugin>, configuration: EntityConfiguration): (r: Result<nat, ApiError>)
    ensures r.Success? ==> r.value < |providers| && FindProvider(providers, configuration.provider) == Some(r.value)
    ensures r.Success? ==> providers[r.value].supports(configuration.provider)
    ensures r.Failure? <==> forall j :: 0 <= j < |providers| ==> !providers[j].supports(configuration.provider)
    ensures r.Failure? ==> r.error == UnknownProvider(configuration)
  {
    match FindProvider(providers, configuration.provider)
    case None => Failure(UnknownProvider(configuration))
    case Some(i) => Success(i)
  }

  /** `getProviderConfiguration`: the stored configuration of the entity's provider, or the same 500. */
  function ProviderConfigurationOf(root: Option<RootConfiguration>, configuration: EntityConfiguration)
    : Result<ProviderConfiguration, ApiError>
  {
    match ConfigurationService.GetProviderConfiguration(root, configuration.provider)
    case None => Failure(UnknownProvider(configuration))
    case Some(c) => Success(c)
  }

  /**
   * The configuration lookup fails, with a 404 naming the entity, exactly when no entity
   * configuration has that route; otherwise the entity keeps its attributes and gets the
   * configuration with that route.
   */
  lemma EntityLookup(root: Option<RootConfiguration>, entity: DynamicEntity, entityName: string)
    ensures var r := UpdateEntityConfiguration(root, entity, entityName);
      (r.Failure? <==> root.None? || forall e :: e in root.value.entities ==> e.route != entityName) &&
      (r.Failure? ==> r.error == Error(404, "error.entity.unknown", map["entity" := entityName])) &&
      (r.Success? ==>
         r.value.attributes == entity.attributes && r.value.configuration.Some? &&
         r.value.configuration.value in root.value.entities && r.value.configuration.value.route == entityName)
  {
    if root.Some? {
      ConfigurationService.GetEntityConfigurationFinds(root.value, entityName);
    }
  }

  /**
   * The provider configuration lookup fails, with the same 500 as a missing plugin, exactly
   * when no stored provider configuration has the name the entity configuration gives.
   */
  lemma ProviderConfigurationLookup(root: Option<RootConfiguration>, configuration: EntityConfiguration)
    ensures var r := ProviderConfigurationOf(root, configuration);
      (r.Failure? <==> root.None? || forall p :: p in root.value.providers ==> p.name != configuration.provider) &&
      (r.Failure? ==> r.error == UnknownProvider(configuration)) &&
      (r.Success? ==> r.value in root.value.providers && r.value.name == configuration.provider)
  {
    if root.Some? {
      ConfigurationService.GetProviderConfigurationFinds(root.value, configuration.provider);
    }
  }

  /** `validationEngine.validate(entity, phase)`: the engine's verdict; no task runs and nothing else changes. */
  function Validation(s: Services, phase: string, f: Flow): (g: Flow)
    requires f.failure.None? ==> f.entity.configuration.Some?
    ensures Appends(f, g, ValidationStep(phase))
    ensures f.failure.None? ==> g.failure == ErrorOf(ValidationEngine.ValidateSpec(s.root, s.validations, f.entity, phase))
    ensures g.entity == f.entity && g.context == f.context && g.answer == f.answer && Untouched(f, g)
  {
    if f.failure.Some? then f
    else match ValidationEngine.ValidateSpec(s.root, s.validations, f.entity, phase)
      case Failure(e) => Fail(f, ValidationStep(phase), e)
      case Success(_) => Pass(f, ValidationStep(phase))
  }

  /** The provider method an operation calls, with the arguments it passes. */
  function CallProvider(provider: ProviderPlugin, op: Op, context: Context, configuration: ProviderConfiguration,
                        input: Input, entity: DynamicEntity): (r: Result<Reply<Answer>, ApiError>)
    ensures r.Success? ==> Fits(op, r.value.value)
  {
    match op
    case Create => AsEntity(provider.create(context, configuration, entity))
    case Update => AsEntity(provider.update(context, configuration, input.id, entity))
    case Patch => AsEntity(provider.patch(context, configuration, input.id, entity))
    case FindById => AsEntity(provider.findById(context, configuration, input.id, entity))
    case Delete =>
      (match provider.delete(context, configuration, input.id, entity)
       case Failure(e) => Failure(e)
       case Success(reply) => Success(Reply(DeletedAnswer(reply.value), reply.context)))
    case FindAll =>
      match provider.findAll(context, configuration, input.filters, input.pageable, entity)
      case Failure(e) => Failure(e)
      case Success(reply) => Success(Reply(PageAnswer(reply.value), reply.context))
  }

  function AsEntity(r: Result<Reply<DynamicEntity>, ApiError>): Result<Reply<Answer>, ApiError> {
    match r
    case Failure(e) => Failure(e)
    case Success(reply) => Success(Reply(EntityAnswer(reply.value), reply.context))
  }

  /** The entity handed to the last checkpoint: the returned one, or the placeholder for delete and findAll. */
  function AfterEntity(answer: Answer, entity: DynamicEntity): DynamicEntity {
    if answer.EntityAnswer? then answer.entity else entity
  }

  /**
   * The provider call on the flow's context and entity: its error, or its reply, which becomes
   * the answer and the context; a returned entity becomes the flow's entity.
   */
  function Call(s: Services, op: Op, input: Input, provider: nat, configuration: ProviderConfiguration, f: Flow): (g: Flow)
    requires provider < |s.providers|
    ensures Appends(f, g, CallStep)
    ensures f.failure.None? ==>
      var reply := CallProvider(s.providers[provider], op, f.context, configuration, input, f.entity);
      g.failure == ErrorOf(reply) &&
      (reply.Success? ==>
         g.answer == reply.value.value && g.context == reply.value.context &&
         g.entity == AfterEntity(reply.value.value, f.entity))
    ensures f.failure.None? && g.failure.None? ==> Fits(op, g.answer)
  {
    if f.failure.Some? then f
    else match CallProvider(s.providers[provider], op, f.context, configuration, input, f.entity)
      case Failure(e) => Fail(f, CallStep, e)
      case Success(reply) =>
        Pass(f, CallStep).(entity := AfterEntity(reply.value, f.entity), context := reply.context, answer := reply.value)
  }

  // ---------------------------------------------------------------- the pipeline

  /** Steps 1 to 3: on an entity without configuration they run no task. */
  function TokenStage(s: Services, request: Request, op: Op, f: Flow): (g: Flow)
    ensures Advances(f, g, TokenSteps(op))
    ensures g.entity.configuration == f.entity.configuration
    ensures f.entity.configuration.None? ==> Untouched(f, g)
  {
    var f1 := Checkpoint(s, "beforeTokenValidation" + OpName(op), f);
    var f2 := Token(s, request, f1);
    var g := Checkpoint(s, "afterTokenValidation" + OpName(op), f2);
    Stage(f, f1, f2, g, TokenSteps(op));
    StageUntouched(f, f1, f2, g, TokenSteps(op));
    g
  }

  /** Steps 4 to 6. */
  function PermissionStage(s: Services, request: Request, op: Op, input: Input, f: Flow): (g: Flow)
    ensures Advances(f, g, PermissionSteps(op))
    ensures g.entity.configuration == f.entity.configuration
    ensures f.entity.configuration.None? ==> Untouched(f, g)
  {
    var f4 := Checkpoint(s, "beforePermissionValidation" + OpName(op), f);
    var f5 := Permission(s, request, op, input, f4);
    var g := Checkpoint(s, "afterPermissionValidation" + OpName(op), f5);
    Stage(f, f4, f5, g, PermissionSteps(op));
    StageUntouched(f, f4, f5, g, PermissionSteps(op));
    g
  }

  /** The provider plugin and the provider configuration found for an entity. */
  datatype Binding = Binding(provider: nat, configuration: ProviderConfiguration)

  datatype Resolution = Resolution(flow: Flow, binding: Option<Binding>)

  /**
   * Steps 7 to 9: the entity configuration, then the provider plugin and the provider
   * configuration it names, each recording the outcome of its lookup; a binding exactly
   * when all three succeed.
   */
  function Resolve(s: Services, entityName: string, f: Flow): (r: Resolution)
    ensures Advances(f, r.flow, ResolutionSteps())
    ensures r.binding.Some? ==>
      r.binding.value.provider < |s.providers| && r.flow.failure.None? && r.flow.entity.configuration.Some?
    ensures r.binding.None? ==> r.flow.failure.Some?
    ensures f.failure.None? ==>
      var k := |f.trace|;
      var u := UpdateEntityConfiguration(s.root, f.entity, entityName);
      r.flow.trace[k].error == ErrorOf(u) &&
      (|r.flow.trace| > k + 1 ==>
         u.Success? && r.flow.trace[k + 1].error == ErrorOf(GetProvider(s.providers, u.value.configuration.value))) &&
      (|r.flow.trace| > k + 2 ==>
         u.Success? && r.flow.trace[k + 2].error == ErrorOf(ProviderConfigurationOf(s.root, u.value.configuration.value))) &&
      (r.binding.Some? ==>
         u.Success? && r.flow.entity == u.value &&
         GetProvider(s.providers, u.value.configuration.value) == Success(r.binding.value.provider) &&
         ProviderConfigurationOf(s.root, u.value.configuration.value) == Success(r.binding.value.configuration))
  {
    if f.failure.Some? then Resolution(f, None)
    else
      var u := UpdateEntityConfiguration(s.root, f.entity, entityName);
      if u.Failure? then
        var g := Fail(f, ConfigurationStep, u.error);
        Halt(f, g, ResolutionSteps());
        Resolution(g, None)
      else
        var f7 := Pass(f, ConfigurationStep).(entity := u.value);
        var p := GetProvider(s.providers, u.value.configuration.value);
        if p.Failure? then
          var g := Fail(f7, ProviderStep, p.error);
          Second(f, f7, g, ResolutionSteps());
          Resolution(g, None)
        else
          var f8 := Pass(f7, ProviderStep);
          var c := ProviderConfigurationOf(s.root, u.value.configuration.value);
          var g := if c.Failure? then Fail(f8, ProviderConfigurationStep, c.error) else Pass(f8, ProviderConfigurationStep);
          Stage(f, f7, f8, g, ResolutionSteps());
          Resolution(g, if c.Failure? then None else Some(Binding(p.value, c.value)))
  }

  /** Steps 10 to 12: the validation engine sees the configured entity the first checkpoint left. */
  function ValidationStage(s: Services, op: Op, f: Flow): (g: Flow)
    requires f.failure.None? ==> f.entity.configuration.Some?
    ensures Advances(f, g, ValidationSteps(op))
    ensures g.entity.configuration == f.entity.configuration
    ensures !f.answer.EntityAnswer? ==> g.answer == f.answer
    ensures f.failure.None? && |g.trace| > |f.trace| + 1 ==>
      var e := g.trace[|f.trace| + 1];
      e.entity.configuration == f.entity.configuration &&
      e.error == ErrorOf(ValidationEngine.ValidateSpec(s.root, s.validations, e.entity, "before" + OpName(op)))
  {
    var f10 := Checkpoint(s, "beforeValidation" + OpName(op), f);
    var f11 := Validation(s, "before" + OpName(op), f10);
    var g := Checkpoint(s, "afterValidation" + OpName(op), f11);
    Stage(f, f10, f11, g, ValidationSteps(op));
    assert f.failure.None? && |g.trace| > |f.trace| + 1 ==> g.trace[|f.trace| + 1] == f11.trace[|f.trace| + 1];
    g
  }

  /**
   * Steps 13 to 15: the provider gets the context and the entity the first checkpoint left,
   * and its reply is the answer and feeds the last checkpoint.
   */
  function CallStage(s: Services, op: Op, input: Input, binding: Binding, f: Flow): (g: Flow)
    requires binding.provider < |s.providers|
    ensures Advances(f, g, CallSteps(op))
    ensures f.failure.None? && |g.trace| > |f.trace| + 1 ==>
      var k := |f.trace|;
      var reply := CallProvider(s.providers[binding.provider], op, g.trace[k + 1].context, binding.configuration,
                                input, g.trace[k + 1].entity);
      g.trace[k + 1].error == ErrorOf(reply) &&
      (|g.trace| > k + 2 ==>
         reply.Success? && g.trace[k + 2].entity == AfterEntity(reply.value.value, g.trace[k + 1].entity) &&
         g.trace[k + 2].context == reply.value.context) &&
      (g.failure.None? ==>
         reply.Success? && |g.trace| > k + 2 &&
         var after := TaskEngine.ExecuteSpec(s.root, s.tasks, g.trace[k + 2].entity, g.trace[k + 2].context, "after" + OpName(op));
         after.result.Success? &&
         g.entity == g.trace[k + 2].entity.(attributes := after.result.value.attributes) &&
         g.context == after.result.value.context &&
         g.answer == Follow(reply.value.value, g.entity))
    ensures f.failure.None? && g.failure.None? ==> Fits(op, g.answer)
  {
    var f13 := Checkpoint(s, "before" + OpName(op), f);
    var f14 := Call(s, op, input, binding.provider, binding.configuration, f13);
    var g := Checkpoint(s, "after" + OpName(op), f14);
    Stage(f, f13, f14, g, CallSteps(op));
    assert f.failure.None? && |g.trace| > |f.trace| + 1 ==> g.trace[|f.trace| + 1] == f14.trace[|f.trace| + 1];
    g
  }

  /** Steps 1 to 6: the token check and the permission check. */
  function Authenticate(s: Services, request: Request, op: Op, input: Input, f: Flow): (g: Flow)
    ensures Advances(f, g, TokenSteps(op) + PermissionSteps(op))
    ensures f.entity.configuration.None? ==> Untouched(f, g)
  {
    var t := TokenStage(s, request, op, f);
    var g := PermissionStage(s, request, op, input, t);
    Chain(f, t, g, TokenSteps(op), PermissionSteps(op));
    UntouchedThen(f, t, g, PermissionSteps(op));
    g
  }

  /** Steps 10 to 15: validation, then the provider call. */
  function Perform(s: Services, op: Op, input: Input, binding: Binding, f: Flow): (g: Flow)
    requires binding.provider < |s.providers|
    requires f.failure.None? ==> f.entity.configuration.Some?
    ensures Advances(f, g, ValidationSteps(op) + CallSteps(op))
    ensures f.failure.None? && g.failure.None? ==> Fits(op, g.answer)
  {
    var v := ValidationStage(s, op, f);
    var g := CallStage(s, op, input, binding, v);
    Chain(f, v, g, ValidationSteps(op), CallSteps(op));
    g
  }

  /** In steps 10 to 15 the validation is the second. */
  lemma PerformValidates(s: Services, op: Op, input: Input, binding: Binding, f: Flow)
    requires binding.provider < |s.providers|
    requires f.failure.None? && f.entity.configuration.Some?
    ensures var g := Perform(s, op, input, binding, f);
      |g.trace| > |f.trace| + 1 ==>
        var e := g.trace[|f.trace| + 1];
        e.entity.configuration == f.entity.configuration &&
        e.error == ErrorOf(ValidationEngine.ValidateSpec(s.root, s.validations, e.entity, "before" + OpName(op)))
  {
    Split(ValidationStage(s, op, f), Perform(s, op, input, binding, f), CallSteps(op), |f.trace| + 1);
  }

  /** `PerformCalls` for the flow `h`, the plugin `provider` and the configuration `configuration` of the binding. */
  lemma CallsOn(s: Services, op: Op, input: Input, binding: Binding, f: Flow, h: Flow,
                provider: Result<nat, ApiError>, configuration: Result<ProviderConfiguration, ApiError>)
    requires binding.provider < |s.providers|
    requires f.failure.None? && f.entity.configuration.Some?
    requires h == Perform(s, op, input, binding, f)
    requires provider == Success(binding.provider) && configuration == Success(binding.configuration)
    ensures var k := |f.trace|;
      |h.trace| > k + 4 ==>
        provider.Success? && configuration.Success? && provider.value < |s.providers| &&
        var reply := CallProvider(s.providers[provider.value], op, h.trace[k + 4].context, configuration.value,
                                  input, h.trace[k + 4].entity);
        h.trace[k + 4].error == ErrorOf(reply) &&
        (|h.trace| > k + 5 ==>
           reply.Success? && h.trace[k + 5].entity == AfterEntity(reply.value.value, h.trace[k + 4].entity) &&
           h.trace[k + 5].context == reply.value.context) &&
        (h.failure.None? ==>
           reply.Success? && |h.trace| > k + 5 &&
           var after := TaskEngine.ExecuteSpec(s.root, s.tasks, h.trace[k + 5].entity, h.trace[k + 5].context,
                                               "after" + OpName(op));
           after.result.Success? &&
           h.entity == h.trace[k + 5].entity.(attributes := after.result.value.attributes) &&
           h.context == after.result.value.context &&
           h.answer == Follow(reply.value.value, h.entity))
  {
    PerformCalls(s, op, input, binding, f);
  }

  /** In steps 10 to 15 the provider call is the fifth, on the context and entity the fourth left. */
  lemma PerformCalls(s: Services, op: Op, input: Input, binding: Binding, f: Flow)
    requires binding.provider < |s.providers|
    requires f.failure.None? && f.entity.configuration.Some?
    ensures var g := Perform(s, op, input, binding, f);
      var k := |f.trace|;
      |g.trace| > k + 4 ==>
        var reply := CallProvider(s.providers[binding.provider], op, g.trace[k + 4].context, binding.configuration,
                                  input, g.trace[k + 4].entity);
        g.trace[k + 4].error == ErrorOf(reply) &&
        (|g.trace| > k + 5 ==>
           reply.Success? && g.trace[k + 5].entity == AfterEntity(reply.value.value, g.trace[k + 4].entity) &&
           g.trace[k + 5].context == reply.value.context) &&
        (g.failure.None? ==>
           reply.Success? && |g.trace| > k + 5 &&
           var after := TaskEngine.ExecuteSpec(s.root, s.tasks, g.trace[k + 5].entity, g.trace[k + 5].context,
                                               "after" + OpName(op));
           after.result.Success? &&
           g.entity == g.trace[k + 5].entity.(attributes := after.result.value.attributes) &&
           g.context == after.result.value.context &&
           g.answer == Follow(reply.value.value, g.entity))
  {
    Split(ValidationStage(s, op, f), Perform(s, op, input, binding, f), CallSteps(op), 0);
  }

  /** Steps 7 to 15: the three lookups, then, once they all succeed, the rest on what they found. */
  function Proceed(s: Services, op: Op, entityName: string, input: Input, f: Flow): (g: Flow)
    ensures Advances(f, g, ResolutionSteps() + (ValidationSteps(op) + CallSteps(op)))
    ensures Extends(Resolve(s, entityName, f).flow, g)
    ensures var r := Resolve(s, entityName, f);
      |g.trace| > |r.flow.trace| ==> r.binding.Some? && g == Perform(s, op, input, r.binding.value, r.flow)
    ensures f.failure.None? && g.failure.None? ==> Fits(op, g.answer)
  {
    var r := Resolve(s, entityName, f);
    match r.binding
    case None =>
      Beyond(f, r.flow, ResolutionSteps(), ValidationSteps(op) + CallSteps(op));
      r.flow
    case Some(binding) =>
      var g := Perform(s, op, input, binding, r.flow);
      Chain(f, r.flow, g, ResolutionSteps(), ValidationSteps(op) + CallSteps(op));
      g
  }

  /** One whole operation, from the fresh entity and context. */
  function HandleSpec(s: Services, request: Request, op: Op, entityName: string, input: Input): (h: Flow)
    ensures Advances(Start(op, input), h, Skeleton(op))
    ensures h.failure.None? ==> Fits(op, h.answer)
  {
    var a := Authenticate(s, request, op, input, Start(op, input));
    var h := Proceed(s, op, entityName, input, a);
    Chain(Start(op, input), a, h, TokenSteps(op) + PermissionSteps(op),
          ResolutionSteps() + (ValidationSteps(op) + CallSteps(op)));
    SkeletonParts(op);
    h
  }

  /** What the caller sees: the exception thrown, or the answer. */
  function Outcome(f: Flow): Result<Answer, ApiError> {
    if f.failure.Some? then Failure(f.failure.value) else Success(f.answer)
  }

  // ---------------------------------------------------------------- the service

  /** One `taskEngine.execute` call, recorded. */
  method RunCheckpoint(s: Services, phase: string, f: Flow) returns (g: Flow)
    requires f.failure.None?
    ensures g == Checkpoint(s, phase, f)
  {
    var outcome := TaskEngine.Execute(s.root, s.tasks, f.entity, f.context, phase);
    var event := Event(TaskStep(phase), f.entity, f.context, outcome.runs, ErrorOf(outcome.result));
    if outcome.result.Failure? {
      return f.(trace := f.trace + [event], failure := Some(outcome.result.error));
    }
    var entity := f.entity.(attributes := outcome.result.value.attributes);
    g := f.(entity := entity, context := outcome.result.value.context, trace := f.trace + [event],
            answer := Follow(f.answer, entity));
  }

  /** `authorizationPlugin.validateToken`, recorded. */
  method RunToken(s: Services, request: Request, f: Flow) returns (g: Flow)
    requires f.failure.None?
    ensures g == Token(s, request, f)
  {
    var token := s.authorization.validateToken(request, f.context);
    if token.Failure? {
      return Fail(f, TokenStep, token.error);
    }
    g := Pass(f, TokenStep).(context := token.value);
  }

  /** `authorizationPlugin.isAuthorized`, recorded. */
  method RunPermission(s: Services, request: Request, op: Op, input: Input, f: Flow) returns (g: Flow)
    requires f.failure.None?
    ensures g == Permission(s, request, op, input, f)
  {
    var permission := s.authorization.isAuthorized(request, f.entity, Target(op, input), Action(op), f.context);
    if permission.Failure? {
      return Fail(f, PermissionStep(Action(op)), permission.error);
    }
    g := Pass(f, PermissionStep(Action(op))).(context := permission.value);
  }

  /** `validationEngine.validate`, recorded. */
  method RunValidation(s: Services, phase: string, f: Flow) returns (g: Flow)
    requires f.failure.None? && f.entity.configuration.Some?
    ensures g == Validation(s, phase, f)
  {
    var verdict := ValidationEngine.Validate(s.root, s.validations, f.entity, phase);
    if verdict.Failure? {
      return Fail(f, ValidationStep(phase), verdict.error);
    }
    g := Pass(f, ValidationStep(phase));
  }

  /** The provider call, recorded; its reply becomes the entity, context and answer. */
  method RunCall(s: Services, op: Op, input: Input, provider: nat, configuration: ProviderConfiguration, f: Flow)
    returns (g: Flow)
    requires provider < |s.providers|
    requires f.failure.None?
    ensures g == Call(s, op, input, provider, configuration, f)
  {
    var reply := CallProvider(s.providers[provider], op, f.context, configuration, input, f.entity);
    if reply.Failure? {
      return Fail(f, CallStep, reply.error);
    }
    g := Pass(f, CallStep).(entity := AfterEntity(reply.value.value, f.entity), context := reply.value.context,
                           answer := reply.value.value);
  }

  /** The three lookups; a failed one ends the handler. */
  method RunResolve(s: Services, entityName: string, f: Flow) returns (r: Resolution)
    requires f.failure.None?
    ensures r == Resolve(s, entityName, f)
  {
    var updated := UpdateEntityConfiguration(s.root, f.entity, entityName);
    if updated.Failure? {
      return Resolution(Fail(f, ConfigurationStep, updated.error), None);
    }
    var entity := updated.value;
    var g := Pass(f, ConfigurationStep).(entity := entity);
    var provider := GetProvider(s.providers, entity.configuration.value);
    if provider.Failure? {
      return Resolution(Fail(g, ProviderStep, provider.error), None);
    }
    g := Pass(g, ProviderStep);
    var configuration := ProviderConfigurationOf(s.root, entity.configuration.value);
    if configuration.Failure? {
      return Resolution(Fail(g, ProviderConfigurationStep, configuration.error), None);
    }
    r := Resolution(Pass(g, ProviderConfigurationStep), Some(Binding(provider.value, configuration.value)));
  }

  /** Statements 1 to 3 of a handler. */
  method RunTokenStage(s: Services, request: Request, op: Op, f: Flow) returns (g: Flow)
    requires f.failure.None?
    ensures g == TokenStage(s, request, op, f)
  {
    g := RunCheckpoint(s, "beforeTokenValidation" + OpName(op), f);
    if g.failure.Some? {
      return;
    }
    g := RunToken(s, request, g);
    if g.failure.Some? {
      return;
    }
    g := RunCheckpoint(s, "afterTokenValidation" + OpName(op), g);
  }

  /** Statements 4 to 6 of a handler. */
  method RunPermissionStage(s: Services, request: Request, op: Op, input: Input, f: Flow) returns (g: Flow)
    requires f.failure.None?
    ensures g == PermissionStage(s, request, op, input, f)
  {
    g := RunCheckpoint(s, "beforePermissionValidation" + OpName(op), f);
    if g.failure.Some? {
      return;
    }
    g := RunPermission(s, request, op, input, g);
    if g.failure.Some? {
      return;
    }
    g := RunCheckpoint(s, "afterPermissionValidation" + OpName(op), g);
  }

  /** Statements 10 to 12 of a handler. */
  method RunValidationStage(s: Services, op: Op, f: Flow) returns (g: Flow)
    requires f.failure.None? && f.entity.configuration.Some?
    ensures g == ValidationStage(s, op, f)
  {
    g := RunCheckpoint(s, "beforeValidation" + OpName(op), f);
    if g.failure.Some? {
      return;
    }
    g := RunValidation(s, "before" + OpName(op), g);
    if g.failure.Some? {
      return;
    }
    g := RunCheckpoint(s, "afterValidation" + OpName(op), g);
  }

  /** Statements 13 to 15 of a handler. */
  method RunCallStage(s: Services, op: Op, input: Input, binding: Binding, f: Flow) returns (g: Flow)
    requires binding.provider < |s.providers| && f.failure.None?
    ensures g == CallStage(s, op, input, binding, f)
  {
    g := RunCheckpoint(s, "before" + OpName(op), f);
    if g.failure.Some? {
      return;
    }
    g := RunCall(s, op, input, binding.provider, binding.configuration, g);
    if g.failure.Some? {
      return;
    }
    g := RunCheckpoint(s, "after" + OpName(op), g);
  }

  /** Statements 1 to 6; the first failure ends the handler. */
  method RunAuthenticate(s: Services, request: Request, op: Op, input: Input, f: Flow) returns (g: Flow)
    requires f.failure.None?
    ensures g == Authenticate(s, request, op, input, f)
  {
    g := RunTokenStage(s, request, op, f);
    if g.failure.None? {
      g := RunPermissionStage(s, request, op, input, g);
    }
  }

  /** Statements 10 to 15. */
  method RunPerform(s: Services, op: Op, input: Input, binding: Binding, f: Flow) returns (g: Flow)
    requires binding.provider < |s.providers|
    requires f.failure.None? && f.entity.configuration.Some?
    ensures g == Perform(s, op, input, binding, f)
  {
    g := RunValidationStage(s, op, f);
    if g.failure.None? {
      g := RunCallStage(s, op, input, binding, g);
    }
  }

  /** Statements 7 to 15. */
  method RunProceed(s: Services, op: Op, entityName: string, input: Input, f: Flow) returns (g: Flow)
    requires f.failure.None?
    ensures g == Proceed(s, op, entityName, input, f)
  {
    var r := RunResolve(s, entityName, f);
    if r.binding.None? {
      return r.flow;
    }
    g := RunPerform(s, op, input, r.binding.value, r.flow);
  }

  /**
   * One operation: the stages in turn, the first failure ending it (an exception in the
   * source). It returns the result and the steps it went through.
   */
  method Handle(s: Services, request: Request, op: Op, entityName: string, input: Input)
    returns (result: Result<Answer, ApiError>, trace: seq<Event>)
    ensures result == Outcome(HandleSpec(s, request, op, entityName, input))
    ensures trace == HandleSpec(s, request, op, entityName, input).trace
  {
    var a := RunAuthenticate(s, request, op, input, Start(op, input));
    var f := a;
    if a.failure.None? {
      f := RunProceed(s, op, entityName, input, a);
    }
    assert f == Proceed(s, op, entityName, input, a);
    result, trace := Outcome(f), f.trace;
  }


  // ---------------------------------------------------------------- how the trace grows

  /**
   * `g` went on from `f` through the steps `t`: it recorded one event per step, in order,
   * the first one on the entity and the context `f` held; every event but the last
   * succeeded, the last one's error is the failure of `g`, and `g` went through all of `t`
   * unless it failed. A flow that has already failed is left as it is.
   */
  predicate Advances(f: Flow, g: Flow, t: seq<Step>) {
    if f.failure.Some? then g == f
    else
      var k := |f.trace|;
      k < |g.trace| <= k + |t| && g.trace[..k] == f.trace &&
      g.trace[k].entity == f.entity && g.trace[k].context == f.context &&
      (forall i :: k <= i < |g.trace| ==> g.trace[i].step == t[i - k]) &&
      (forall i :: k <= i < |g.trace| - 1 ==> g.trace[i].error.None?) &&
      g.failure == g.trace[|g.trace| - 1].error &&
      (g.failure.None? ==> |g.trace| == k + |t|)
  }

  /** The trace of `g` starts with the trace of `f`. */
  predicate Extends(f: Flow, g: Flow) {
    |f.trace| <= |g.trace| && g.trace[..|f.trace|] == f.trace
  }

  /** From `f` to `g` no task ran and the entity stayed the one `f` held. */
  predicate Untouched(f: Flow, g: Flow) {
    g.entity == f.entity &&
    forall i :: |f.trace| <= i < |g.trace| ==> g.trace[i].runs == [] && g.trace[i].entity == f.entity
  }

  /** The answer each operation gives: an entity, the delete flag, or a page. */
  predicate Fits(op: Op, answer: Answer) {
    match op
    case Delete => answer.DeletedAnswer?
    case FindAll => answer.PageAnswer?
    case _ => answer.EntityAnswer?
  }

  /** The skeleton is the five stages in turn. */
  lemma SkeletonParts(op: Op)
    ensures TokenSteps(op) + PermissionSteps(op) + (ResolutionSteps() + (ValidationSteps(op) + CallSteps(op)))
            == Skeleton(op)
  {
  }

  /** The checkpoint phases among some steps, in order. */
  function Phases(steps: seq<Step>): seq<string> {
    if |steps| == 0 then []
    else (if steps[0].TaskStep? then [steps[0].phase] else []) + Phases(steps[1..])
  }

  /** The steps that are not checkpoints, in order. */
  function Others(steps: seq<Step>): seq<Step> {
    if |steps| == 0 then []
    else (if steps[0].TaskStep? then [] else [steps[0]]) + Others(steps[1..])
  }

  lemma {:induction false} PhasesAppend(a: seq<Step>, b: seq<Step>)
    ensures Phases(a + b) == Phases(a) + Phases(b)
    ensures Others(a + b) == Others(a) + Others(b)
  {
    if |a| > 0 {
      assert (a + b)[1..] == a[1..] + b;
      PhasesAppend(a[1..], b);
    } else {
      assert a + b == b;
    }
  }

  /**
   * The skeleton runs the task engine at eight checkpoints, in this order, and between them
   * one token check, one permission check for the operation's action, the three lookups,
   * one validation and one provider call.
   */
  lemma SkeletonPhases(op: Op)
    ensures var n := OpName(op);
      Phases(Skeleton(op)) ==
        ["beforeTokenValidation" + n, "afterTokenValidation" + n,
         "beforePermissionValidation" + n, "afterPermissionValidation" + n,
         "beforeValidation" + n, "afterValidation" + n, "before" + n, "after" + n]
    ensures Others(Skeleton(op)) ==
      [TokenStep, PermissionStep(Action(op)), ConfigurationStep, ProviderStep, ProviderConfigurationStep,
       ValidationStep("before" + OpName(op)), CallStep]
  {
    var t, p, r, v, c := TokenSteps(op), PermissionSteps(op), ResolutionSteps(), ValidationSteps(op), CallSteps(op);
    Guarded(t[0], t[1], t[2]);
    Guarded(p[0], p[1], p[2]);
    Guarded(v[0], v[1], v[2]);
    Guarded(c[0], c[1], c[2]);
    assert Phases(r) == [] && Others(r) == r;
    PhasesAppend(t, p);
    PhasesAppend(t + p, r);
    PhasesAppend(t + p + r, v);
    PhasesAppend(t + p + r + v, c);
    assert Phases(Skeleton(op)) == Phases(t) + Phases(p) + [] + Phases(v) + Phases(c);
    assert Others(Skeleton(op)) == Others(t) + Others(p) + r + Others(v) + Others(c);
  }

  /** One stage: a step between two checkpoints. */
  lemma Guarded(before: Step, step: Step, after: Step)
    requires before.TaskStep? && !step.TaskStep? && after.TaskStep?
    ensures Phases([before, step, after]) == [before.phase, after.phase]
    ensures Others([before, step, after]) == [step]
  {
    assert [before, step, after][1..] == [step, after];
    assert [step, after][1..] == [after];
    assert [after][1..] == [];
    assert Phases([after]) == [after.phase] && Others([after]) == [];
    assert Phases([step, after]) == [after.phase] && Others([step, after]) == [step];
  }

  /** The steps of a trace. */
  function StepsOf(trace: seq<Event>): (r: seq<Step>)
    ensures |r| == |trace| && forall i :: 0 <= i < |trace| ==> r[i] == trace[i].step
  {
    seq(|trace|, i requires 0 <= i < |trace| => trace[i].step)
  }

  /** Events a first stage recorded stay in the trace; past the first stage, the flow had not failed. */
  lemma Split(g: Flow, h: Flow, t: seq<Step>, i: nat)
    requires Advances(g, h, t)
    ensures i < |g.trace| && i < |h.trace| ==> h.trace[i] == g.trace[i]
    ensures |h.trace| > |g.trace| ==> g.failure.None?
  {
    if g.failure.None? && i < |g.trace| {
      assert h.trace[i] == h.trace[..|g.trace|][i];
    }
  }

  /** Going through `t` from a fresh flow, as absolute positions. */
  lemma FromStart(f: Flow, g: Flow, t: seq<Step>)
    requires f.trace == [] && f.failure.None? && Advances(f, g, t)
    ensures 0 < |g.trace| <= |t|
    ensures forall i :: 0 <= i < |g.trace| ==> g.trace[i].step == t[i]
    ensures forall i :: 0 <= i < |g.trace| - 1 ==> g.trace[i].error.None?
    ensures g.failure == g.trace[|g.trace| - 1].error
    ensures g.failure.None? <==> |g.trace| == |t| && g.trace[|g.trace| - 1].error.None?
  {
  }

  lemma At(g: Flow, h: Flow, i: nat)
    requires Extends(g, h)
    ensures i < |g.trace| ==> h.trace[i] == g.trace[i]
  {
    if i < |g.trace| {
      assert h.trace[i] == h.trace[..|g.trace|][i];
    }
  }

  /** Events recorded while nothing was touched keep saying so in any extension of the trace. */
  lemma UntouchedPrefix(f: Flow, g: Flow, h: Flow, n: nat)
    requires f.trace == [] && Untouched(f, g) && Extends(g, h)
    requires |h.trace| > n ==> |g.trace| == n
    requires |h.trace| <= n ==> h == g
    ensures forall i :: 0 <= i < |h.trace| && i < n ==> h.trace[i].runs == [] && h.trace[i].entity == f.entity
  {
    forall i | 0 <= i < |h.trace| && i < n ensures h.trace[i].runs == [] && h.trace[i].entity == f.entity {
      assert h.trace[i] == h.trace[..|g.trace|][i];
    }
  }

  lemma One(f: Flow, g: Flow, step: Step)
    requires Appends(f, g, step)
    ensures Advances(f, g, [step])
  {
  }

  /** Going through `t1` and then through `t2` is going through `t1 + t2`. */
  lemma Chain(f: Flow, g: Flow, h: Flow, t1: seq<Step>, t2: seq<Step>)
    requires Advances(f, g, t1) && Advances(g, h, t2)
    ensures Advances(f, h, t1 + t2)
  {
    if f.failure.None? && g.failure.None? {
      var k, m := |f.trace|, |g.trace|;
      assert h.trace[..k] == h.trace[..m][..k];
      assert h.trace[k] == h.trace[..m][k];
      forall i | k <= i < |h.trace|
        ensures h.trace[i].step == (t1 + t2)[i - k]
        ensures i < |h.trace| - 1 ==> h.trace[i].error.None?
      {
        if i < m {
          assert h.trace[i] == h.trace[..m][i];
        }
      }
    }
  }

  /** A step that fails ends the flow, whatever steps were to follow it. */
  lemma Halt(f: Flow, g: Flow, t: seq<Step>)
    requires |t| > 0 && Appends(f, g, t[0]) && g.failure.Some?
    ensures Advances(f, g, t)
  {
  }

  /** A second step that fails ends the flow, whatever steps were to follow it. */
  lemma Second(f: Flow, f1: Flow, g: Flow, t: seq<Step>)
    requires |t| > 1 && Appends(f, f1, t[0]) && Appends(f1, g, t[1]) && g.failure.Some?
    ensures Advances(f, g, t)
  {
    One(f, f1, t[0]);
    Halt(f1, g, t[1..]);
    Chain(f, f1, g, [t[0]], t[1..]);
    assert [t[0]] + t[1..] == t;
  }

  /** A flow that has failed has gone through any continuation of its steps. */
  lemma Beyond(f: Flow, g: Flow, t1: seq<Step>, t2: seq<Step>)
    requires Advances(f, g, t1) && g.failure.Some?
    ensures Advances(f, g, t1 + t2)
  {
  }

  /** Three steps, each appending one event. */
  lemma Stage(f0: Flow, f1: Flow, f2: Flow, f3: Flow, t: seq<Step>)
    requires |t| == 3 && Appends(f0, f1, t[0]) && Appends(f1, f2, t[1]) && Appends(f2, f3, t[2])
    ensures Advances(f0, f3, t)
  {
    One(f0, f1, t[0]);
    One(f1, f2, t[1]);
    One(f2, f3, t[2]);
    Chain(f1, f2, f3, [t[1]], [t[2]]);
    Chain(f0, f1, f3, [t[0]], [t[1]] + [t[2]]);
    assert [t[0]] + ([t[1]] + [t[2]]) == t;
  }

  lemma UntouchedThen(f: Flow, g: Flow, h: Flow, t: seq<Step>)
    requires f.entity.configuration.None? ==> Untouched(f, g)
    requires g.entity.configuration.None? ==> Untouched(g, h)
    requires g.entity.configuration == f.entity.configuration
    requires Advances(g, h, t)
    ensures f.entity.configuration.None? ==> Untouched(f, h)
  {
    if f.entity.configuration.None? && g.failure.None? {
      UntouchedTrans(f, g, h);
    }
  }

  lemma UntouchedTrans(f: Flow, g: Flow, h: Flow)
    requires Untouched(f, g) && Untouched(g, h) && Extends(g, h)
    ensures Untouched(f, h)
  {
    forall i | |f.trace| <= i < |h.trace| && i < |g.trace|
      ensures h.trace[i].runs == [] && h.trace[i].entity == f.entity
    {
      assert h.trace[i] == h.trace[..|g.trace|][i];
    }
  }

  /** Three steps of which none runs a task or changes the entity. */
  lemma StageUntouched(f0: Flow, f1: Flow, f2: Flow, f3: Flow, t: seq<Step>)
    requires |t| == 3 && Appends(f0, f1, t[0]) && Appends(f1, f2, t[1]) && Appends(f2, f3, t[2])
    requires f0.entity.configuration.None? ==> Untouched(f0, f1) && Untouched(f1, f2) && Untouched(f2, f3)
    ensures f0.entity.configuration.None? ==> Untouched(f0, f3)
  {
    if f0.entity.configuration.None? {
      UntouchedTrans(f0, f1, f2);
      UntouchedTrans(f0, f2, f3);
    }
  }

  // ---------------------------------------------------------------- what an operation records

  /**
   * Every operation records the steps of its skeleton in order and stops at the first
   * failure: every event but the last succeeded, the operation fails with the last event's
   * error, and it succeeds exactly when all fifteen steps ran and the last one succeeded.
   */
  lemma HandleFollowsSkeleton(s: Services, request: Request, op: Op, entityName: string, input: Input)
    ensures var h := HandleSpec(s, request, op, entityName, input);
      0 < |h.trace| <= |Skeleton(op)| &&
      (forall i :: 0 <= i < |h.trace| ==> h.trace[i].step == Skeleton(op)[i]) &&
      (forall i :: 0 <= i < |h.trace| - 1 ==> h.trace[i].error.None?) &&
      h.failure == h.trace[|h.trace| - 1].error &&
      (h.failure.None? <==> |h.trace| == |Skeleton(op)| && h.trace[|h.trace| - 1].error.None?)
  {
    FromStart(Start(op, input), HandleSpec(s, request, op, entityName, input), Skeleton(op));
  }

  /**
   * A successful operation went through the whole skeleton, so it called the task engine at
   * exactly the eight checkpoints in order, and made each check exactly once.
   */
  lemma HandleSucceedsThroughSkeleton(s: Services, request: Request, op: Op, entityName: string, input: Input)
    ensures var h := HandleSpec(s, request, op, entityName, input);
      h.failure.None? ==> StepsOf(h.trace) == Skeleton(op)
  {
    HandleFollowsSkeleton(s, request, op, entityName, input);
  }

  /** Steps 1 to 6 succeed, so the trace goes on with the resolution of steps 7 to 9. */
  lemma Authenticated(s: Services, request: Request, op: Op, entityName: string, input: Input)
    ensures var a := Authenticate(s, request, op, input, Start(op, input));
      var h := HandleSpec(s, request, op, entityName, input);
      var r := Resolve(s, entityName, a);
      Extends(a, h) &&
      (|h.trace| > 6 ==> a.failure.None? && |a.trace| == 6 && a.entity == InitialEntity(op, input) &&
                         h == Proceed(s, op, entityName, input, a) && Extends(r.flow, h) && |r.flow.trace| > 6) &&
      (|h.trace| <= 6 ==> h == a)
  {
  }

  /** The first checkpoint sees the initial context. */
  lemma HandleStartsWithInitialContext(s: Services, request: Request, op: Op, entityName: string, input: Input)
    ensures HandleSpec(s, request, op, entityName, input).trace[0].context == InitialContext(op, input)
  {
    Authenticated(s, request, op, entityName, input);
    var a := Authenticate(s, request, op, input, Start(op, input));
    Split(a, HandleSpec(s, request, op, entityName, input), ResolutionSteps() + (ValidationSteps(op) + CallSteps(op)), 0);
  }

  /**
   * No task runs in steps 1 to 6 (the fresh entity has no configuration yet), and those
   * steps and the configuration lookup all see the fresh entity.
   */
  lemma HandleRunsNoTaskBeforeLookup(s: Services, request: Request, op: Op, entityName: string, input: Input)
    ensures var h := HandleSpec(s, request, op, entityName, input);
      (forall i :: 0 <= i < |h.trace| && i < 6 ==> h.trace[i].runs == [] && h.trace[i].entity == InitialEntity(op, input)) &&
      (|h.trace| > 6 ==> h.trace[6].entity == InitialEntity(op, input))
  {
    var a := Authenticate(s, request, op, input, Start(op, input));
    var h := HandleSpec(s, request, op, entityName, input);
    Authenticated(s, request, op, entityName, input);
    UntouchedPrefix(Start(op, input), a, h, 6);
    if |h.trace| > 6 {
      var r := Resolve(s, entityName, a);
      At(r.flow, h, 6);
    }
  }

  /** Step 7 looks the entity up by the route name it was called with. */
  lemma HandleLooksUpEntity(s: Services, request: Request, op: Op, entityName: string, input: Input)
    ensures var h := HandleSpec(s, request, op, entityName, input);
      |h.trace| > 6 ==> h.trace[6].error == ErrorOf(UpdateEntityConfiguration(s.root, InitialEntity(op, input), entityName))
  {
    Authenticated(s, request, op, entityName, input);
    var a := Authenticate(s, request, op, input, Start(op, input));
    var h := HandleSpec(s, request, op, entityName, input);
    if |h.trace| > 6 {
      var r := Resolve(s, entityName, a);
      At(r.flow, h, 6);
    }
  }

  /** Steps 8 and 9 look up the provider the entity configuration names, plugin then configuration. */
  lemma HandleFindsProvider(s: Services, request: Request, op: Op, entityName: string, input: Input)
    ensures var h := HandleSpec(s, request, op, entityName, input);
      var c := ConfigurationService.GetEntityConfiguration(s.root, entityName);
      |h.trace| > 7 ==>
        c.Some? && h.trace[7].error == ErrorOf(GetProvider(s.providers, c.value)) &&
        (|h.trace| > 8 ==> h.trace[8].error == ErrorOf(ProviderConfigurationOf(s.root, c.value)))
  {
    Authenticated(s, request, op, entityName, input);
    var a := Authenticate(s, request, op, input, Start(op, input));
    var h := HandleSpec(s, request, op, entityName, input);
    if |h.trace| > 7 {
      var r := Resolve(s, entityName, a);
      assert |r.flow.trace| == 9 || |r.flow.trace| == |h.trace| by {
        if |h.trace| > |r.flow.trace| {
          assert r.binding.Some? && r.flow.failure.None?;
        }
      }
      At(r.flow, h, 7);
      At(r.flow, h, 8);
    }
  }

  /** Once the lookups succeed, steps 10 to 15 are validation and the call on what they found. */
  lemma Resolved(s: Services, request: Request, op: Op, entityName: string, input: Input)
    ensures var a := Authenticate(s, request, op, input, Start(op, input));
      var h := HandleSpec(s, request, op, entityName, input);
      var r := Resolve(s, entityName, a);
      var c := ConfigurationService.GetEntityConfiguration(s.root, entityName);
      |h.trace| > 9 ==>
        c.Some? && r.binding.Some? && |r.flow.trace| == 9 && r.flow.entity.configuration == c &&
        GetProvider(s.providers, c.value) == Success(r.binding.value.provider) &&
        ProviderConfigurationOf(s.root, c.value) == Success(r.binding.value.configuration) &&
        h == Perform(s, op, input, r.binding.value, r.flow)
  {
    Authenticated(s, request, op, entityName, input);
  }

  /** Step 11 validates the configured entity in the `before` phase of the operation. */
  lemma HandleValidates(s: Services, request: Request, op: Op, entityName: string, input: Input)
    ensures var h := HandleSpec(s, request, op, entityName, input);
      |h.trace| > 10 ==>
        h.trace[10].entity.configuration == ConfigurationService.GetEntityConfiguration(s.root, entityName) &&
        h.trace[10].error ==
          ErrorOf(ValidationEngine.ValidateSpec(s.root, s.validations, h.trace[10].entity, "before" + OpName(op)))
  {
    Resolved(s, request, op, entityName, input);
    var h := HandleSpec(s, request, op, entityName, input);
    if |h.trace| > 10 {
      var r := Resolve(s, entityName, Authenticate(s, request, op, input, Start(op, input)));
      PerformValidates(s, op, input, r.binding.value, r.flow);
    }
  }

  /**
   * Step 14 calls the operation's provider method on the plugin and the configuration the
   * lookups found, with the context and entity the `before` checkpoint left; its reply is
   * the answer of a successful operation and what the `after` checkpoint gets.
   */
  lemma HandleCallsProvider(s: Services, request: Request, op: Op, entityName: string, input: Input)
    ensures var h := HandleSpec(s, request, op, entityName, input);
      var c := ConfigurationService.GetEntityConfiguration(s.root, entityName);
      |h.trace| > 13 ==>
        c.Some? && GetProvider(s.providers, c.value).Success? && ProviderConfigurationOf(s.root, c.value).Success? &&
        var reply := CallProvider(s.providers[GetProvider(s.providers, c.value).value], op, h.trace[13].context,
                                  ProviderConfigurationOf(s.root, c.value).value, input, h.trace[13].entity);
        h.trace[13].error == ErrorOf(reply) &&
        (|h.trace| > 14 ==>
           reply.Success? && h.trace[14].entity == AfterEntity(reply.value.value, h.trace[13].entity) &&
           h.trace[14].context == reply.value.context) &&
        (h.failure.None? ==>
           reply.Success? && |h.trace| > 14 &&
           var after := TaskEngine.ExecuteSpec(s.root, s.tasks, h.trace[14].entity, h.trace[14].context,
                                               "after" + OpName(op));
           after.result.Success? &&
           h.entity == h.trace[14].entity.(attributes := after.result.value.attributes) &&
           h.context == after.result.value.context &&
           h.answer == Follow(reply.value.value, h.entity))
  {
    Resolved(s, request, op, entityName, input);
    var h := HandleSpec(s, request, op, entityName, input);
    if |h.trace| > 13 {
      var r := Resolve(s, entityName, Authenticate(s, request, op, input, Start(op, input)));
      var c := ConfigurationService.GetEntityConfiguration(s.root, entityName).value;
      CallsOn(s, op, input, r.binding.value, r.flow, h, GetProvider(s.providers, c), ProviderConfigurationOf(s.root, c));
    }
  }

  /**
   * Create, update, patch and findById answer the flow's final entity: the one the provider
   * returned, with the attributes the `after<Op>` checkpoint left on it.
   */
  lemma HandleAnswersEntity(s: Services, request: Request, op: Op, entityName: string, input: Input)
    requires op != Delete && op != FindAll
    ensures var h := HandleSpec(s, request, op, entityName, input);
      h.failure.None? ==> h.answer == EntityAnswer(h.entity)
  {
    HandleFollowsSkeleton(s, request, op, entityName, input);
    HandleCallsProvider(s, request, op, entityName, input);
  }

  // ---------------------------------------------------------------- the public operations

  /** The request arguments an operation does not have are left empty. */
  function NoInput(): Input {
    Input("", map[], map[], Pageable(0, 0))
  }

  /** `handleCreate`: the entity the provider created, from the request body. */
  method HandleCreate(s: Services, request: Request, entityName: string, body: map<string, Value>)
    returns (r: Result<DynamicEntity, ApiError>, trace: seq<Event>)
    ensures var h := HandleSpec(s, request, Create, entityName, NoInput().(body := body));
      trace == h.trace && (r.Failure? <==> h.failure.Some?) && (r.Failure? ==> r.error == h.failure.value) &&
      (r.Success? ==> h.answer == EntityAnswer(r.value) && r.value == h.entity)
  {
    var result;
    result, trace := Handle(s, request, Create, entityName, NoInput().(body := body));
    if result.Failure? {
      return Failure(result.error), trace;
    }
    HandleAnswersEntity(s, request, Create, entityName, NoInput().(body := body));
    r := Success(result.value.entity);
  }

  /** `handleUpdate`: the entity the provider updated, from the id and the request body. */
  method HandleUpdate(s: Services, request: Request, entityName: string, id: string, body: map<string, Value>)
    returns (r: Result<DynamicEntity, ApiError>, trace: seq<Event>)
    ensures var h := HandleSpec(s, request, Update, entityName, NoInput().(id := id, body := body));
      trace == h.trace && (r.Failure? <==> h.failure.Some?) && (r.Failure? ==> r.error == h.failure.value) &&
      (r.Success? ==> h.answer == EntityAnswer(r.value) && r.value == h.entity)
  {
    var result;
    result, trace := Handle(s, request, Update, entityName, NoInput().(id := id, body := body));
    if result.Failure? {
      return Failure(result.error), trace;
    }
    HandleAnswersEntity(s, request, Update, entityName, NoInput().(id := id, body := body));
    r := Success(result.value.entity);
  }

  /** `handlePatch`: the entity the provider patched, from the id and the request body. */
  method HandlePatch(s: Services, request: Request, entityName: string, id: string, body: map<string, Value>)
    returns (r: Result<DynamicEntity, ApiError>, trace: seq<Event>)
    ensures var h := HandleSpec(s, request, Patch, entityName, NoInput().(id := id, body := body));
      trace == h.trace && (r.Failure? <==> h.failure.Some?) && (r.Failure? ==> r.error == h.failure.value) &&
      (r.Success? ==> h.answer == EntityAnswer(r.value) && r.value == h.entity)
  {
    var result;
    result, trace := Handle(s, request, Patch, entityName, NoInput().(id := id, body := body));
    if result.Failure? {
      return Failure(result.error), trace;
    }
    HandleAnswersEntity(s, request, Patch, entityName, NoInput().(id := id, body := body));
    r := Success(result.value.entity);
  }

  /** `handleDelete`: the flag the provider returned. */
  method HandleDelete(s: Services, request: Request, entityName: string, id: string)
    returns (r: Result<bool, ApiError>, trace: seq<Event>)
    ensures var h := HandleSpec(s, request, Delete, entityName, NoInput().(id := id));
      trace == h.trace && (r.Failure? <==> h.failure.Some?) && (r.Failure? ==> r.error == h.failure.value) &&
      (r.Success? ==> h.answer == DeletedAnswer(r.value))
  {
    var result;
    result, trace := Handle(s, request, Delete, entityName, NoInput().(id := id));
    if result.Failure? {
      return Failure(result.error), trace;
    }
    r := Success(result.value.state);
  }

  /** `handleFindById`: the entity the provider found, from the id. */
  method HandleFindById(s: Services, request: Request, entityName: string, id: string)
    returns (r: Result<DynamicEntity, ApiError>, trace: seq<Event>)
    ensures var h := HandleSpec(s, request, FindById, entityName, NoInput().(id := id));
      trace == h.trace && (r.Failure? <==> h.failure.Some?) && (r.Failure? ==> r.error == h.failure.value) &&
      (r.Success? ==> h.answer == EntityAnswer(r.value) && r.value == h.entity)
  {
    var result;
    result, trace := Handle(s, request, FindById, entityName, NoInput().(id := id));
    if result.Failure? {
      return Failure(result.error), trace;
    }
    HandleAnswersEntity(s, request, FindById, entityName, NoInput().(id := id));
    r := Success(result.value.entity);
  }

  /** `handleFindAll`: the page the provider returned, from the filters and the pageable. */
  method HandleFindAll(s: Services, request: Request, entityName: string, filters: Filters, pageable: Pageable)
    returns (r: Result<Page, ApiError>, trace: seq<Event>)
    ensures var h := HandleSpec(s, request, FindAll, entityName, NoInput().(filters := filters, pageable := pageable));
      trace == h.trace && (r.Failure? <==> h.failure.Some?) && (r.Failure? ==> r.error == h.failure.value) &&
      (r.Success? ==> h.answer == PageAnswer(r.value))
  {
    var result;
    result, trace := Handle(s, request, FindAll, entityName, NoInput().(filters := filters, pageable := pageable));
    if result.Failure? {
      return Failure(result.error), trace;
    }
    r := Success(result.value.page);
  }

  /**
   * `validateAttribute`: an unknown entity is a 404; otherwise the validation engine checks
   * the value against that attribute's rules, on an entity with no attributes and the
   * entity's configuration.
   */
  function ValidateAttributeSpec(s: Services, entityName: string, attributeName: string, value: Value)
    : (r: Result<Unit, ApiError>)
  {
    match UpdateEntityConfiguration(s.root, NewEntity(), entityName)
    case Failure(e) => Failure(e)
    case Success(entity) => ValidationEngine.ValidateAttributeSpec(s.root, s.validations, entity, attributeName, value)
  }

  method ValidateAttribute(s: Services, entityName: string, attributeName: string, value: Value)
    returns (r: Result<Unit, ApiError>)
    ensures r == ValidateAttributeSpec(s, entityName, attributeName, value)
  {
    var entity := UpdateEntityConfiguration(s.root, NewEntity(), entityName);
    if entity.Failure? {
      return Failure(entity.error);
    }
    r := ValidationEngine.ValidateAttribute(s.root, s.validations, entity.value, attributeName, value);
  }

  /**
   * An attribute of an entity nobody configured is a 404 naming the entity; of a configured
   * one, the engine's verdict on an entity holding no attributes but that configuration.
   */
  lemma ValidateAttributeCases(s: Services, entityName: string, attributeName: string, value: Value)
    ensures var c := ConfigurationService.GetEntityConfiguration(s.root, entityName);
      var r := ValidateAttributeSpec(s, entityName, attributeName, value);
      (c.None? <==> s.root.None? || forall e :: e in s.root.value.entities ==> e.route != entityName) &&
      (c.None? ==> r == Failure(Error(404, "error.entity.unknown", map["entity" := entityName]))) &&
      (c.Some? ==> r == ValidationEngine.ValidateAttributeSpec(s.root, s.validations, DynamicEntity(map[], c), attributeName, value))
  {
    EntityLookup(s.root, NewEntity(), entityName);
  }
}
