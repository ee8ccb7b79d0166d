/** The configuration DTOs read from the configuration file. */
module Config {
  import opened Wrappers

  /**
   * A task or validation descriptor (`TaskConfiguration`, `ValidationConfiguration`):
   * `name` finds the global descriptor it inherits from, `kind` (the `type` property) selects the plugin,
   * `phases` says when it applies and `options` parameterise the plugin.
   */
  datatype Descriptor = Descriptor(name: string, kind: string, phases: seq<string>, options: map<string, string>)

  datatype AttributeConfiguration = AttributeConfiguration(
    name: string,
    kind: string,
    required: bool,
    nullIfEmpty: bool,
    input: string,
    inputSettings: map<string, string>,
    validations: seq<Descriptor>)

  datatype EntityConfiguration = EntityConfiguration(
    name: string,
    route: string,
    provider: string,
    attributes: seq<AttributeConfiguration>,
    tasks: seq<Descriptor>,
    disabledRoutes: seq<string>)

  datatype ProviderConfiguration = ProviderConfiguration(name: string, options: map<string, string>)

  datatype RouteConfiguration = RouteConfiguration(name: string, options: map<string, string>)

  datatype AuthorizationConfiguration = AuthorizationConfiguration(kind: string, options: map<string, string>)

  /** The whole configuration file; `authorization` may be absent. */
  datatype RootConfiguration = RootConfiguration(
    entities: seq<EntityConfiguration>,
    providers: seq<ProviderConfiguration>,
    routes: seq<RouteConfiguration>,
    tasks: seq<Descriptor>,
    validations: seq<Descriptor>,
    authorization: Option<AuthorizationConfiguration>)
}
