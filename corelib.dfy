/**
 * The plugin contracts and request-scoped types of the core library: the engine is
 * polymorphic over these. Plugin bodies are out of scope, so every plugin is given by
 * its (total, uninterpreted) functions.
 */
module CoreLib {
  import opened Wrappers
  import opened Domain
  import opened Config

  /** One runtime record: its attributes and, once resolved, its configuration. */
  datatype DynamicEntity = DynamicEntity(attributes: map<string, Value>, configuration: Option<EntityConfiguration>)

  /** `new DynamicEntity()`: no attributes and no configuration yet. */
  function NewEntity(): DynamicEntity {
    DynamicEntity(map[], None)
  }

  /** A page of results (Spring `Page`); only `totalPages` is interpreted. */
  datatype Page = Page(content: seq<DynamicEntity>, totalPages: nat)

  /** What a task leaves behind: the entity's attributes and the context, as it changed them. */
  datatype TaskEffect = TaskEffect(attributes: map<string, Value>, context: Context)

  datatype TaskPlugin = TaskPlugin(
    supports: string -> bool,
    execute: (Descriptor, DynamicEntity, Context) -> Result<TaskEffect, ApiError>)

  /** A validation plugin answers with no error or with one localized error. */
  datatype ValidationPlugin = ValidationPlugin(
    supports: string -> bool,
    validate: (Descriptor, Value) -> Option<I18nMessage>)

  /** A provider's answer together with the context as the provider left it. */
  datatype Reply<T> = Reply(value: T, context: Context)

  datatype ProviderPlugin = ProviderPlugin(
    supports: string -> bool,
    create: (Context, ProviderConfiguration, DynamicEntity) -> Result<Reply<DynamicEntity>, ApiError>,
    update: (Context, ProviderConfiguration, string, DynamicEntity) -> Result<Reply<DynamicEntity>, ApiError>,
    patch: (Context, ProviderConfiguration, string, DynamicEntity) -> Result<Reply<DynamicEntity>, ApiError>,
    delete: (Context, ProviderConfiguration, string, DynamicEntity) -> Result<Reply<bool>, ApiError>,
    findById: (Context, ProviderConfiguration, string, DynamicEntity) -> Result<Reply<DynamicEntity>, ApiError>,
    findAll: (Context, ProviderConfiguration, Filters, Pageable, DynamicEntity) -> Result<Reply<Page>, ApiError>)

  /** The extra argument of `isAuthorized`: nothing (create), the id, or the filters (findAll). */
  datatype AuthTarget = NoTarget | IdTarget(id: string) | FilterTarget(filters: Filters)

  /** Both checks may change the context and may throw (typically 401 or 403). */
  datatype AuthorizationPlugin = AuthorizationPlugin(
    validateToken: (Request, Context) -> Result<Context, ApiError>,
    isAuthorized: (Request, DynamicEntity, AuthTarget, string, Context) -> Result<Context, ApiError>)

  /** One route as published by the metadata endpoint; `entity` is null for the static routes. */
  datatype RouteDescription = RouteDescription(httpMethod: string, path: string, entity: Option<string>, variables: seq<string>)

  /** A route plugin's `ResponseEntity`, opaque. */
  datatype HttpReply = HttpReply(status: int, body: Value)

  /**
   * A route plugin. Its configuration is a mutable property that the routing service sets
   * before it executes the plugin; everything else is fixed behaviour.
   */
  class RoutePlugin {
    const matches: (string, string) -> bool
    const supports: string -> bool
    const routesFor: seq<EntityConfiguration> -> seq<RouteDescription>
    const handler: (Option<RouteConfiguration>, Request) -> HttpReply
    var configuration: Option<RouteConfiguration>

    constructor (matches: (string, string) -> bool, supports: string -> bool,
                 routesFor: seq<EntityConfiguration> -> seq<RouteDescription>,
                 handler: (Option<RouteConfiguration>, Request) -> HttpReply)
      ensures this.matches == matches && this.supports == supports
      ensures this.routesFor == routesFor && this.handler == handler
      ensures configuration == None
    {
      this.matches := matches;
      this.supports := supports;
      this.routesFor := routesFor;
      this.handler := handler;
      configuration := None;
    }

    method SetConfiguration(c: Option<RouteConfiguration>)
      modifies this
      ensures configuration == c
    {
      configuration := c;
    }

    /** Serves a request with whatever configuration is set at that moment. */
    method Execute(request: Request) returns (reply: HttpReply)
      ensures reply == handler(configuration, request)
    {
      reply := handler(configuration, request);
    }
  }

  /** An i18n source: the types it supports and the language -> key -> template map it loads. */
  datatype I18nSourceLoader = I18nSourceLoader(supports: string -> bool, load: map<string, map<string, string>>)
}
