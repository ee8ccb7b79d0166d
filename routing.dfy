/**
 * `DynamicRoutingServiceImpl`: a request that no entity endpoint serves goes to the first
 * route plugin that matches it, after that plugin was given its route configuration.
 */
module Routing {
  import opened Wrappers
  import opened Domain
  import opened Config
  import opened CoreLib
  import opened Registry
  import ConfigurationService

  /** The index of the first registered plugin whose `match(uri, method)` holds. */
  function MatchingPlugin(plugins: seq<RoutePlugin>, request: Request): (r: Option<nat>)
    ensures r.Some? ==> r.value < |plugins|
  {
    FirstMatch(plugins, (p: RoutePlugin) => p.matches(request.uri, request.httpMethod))
  }

  /** The first route configuration whose name the plugin supports, or none. */
  function ConfigurationFor(plugin: RoutePlugin, routes: seq<RouteConfiguration>): (r: Option<RouteConfiguration>)
  {
    match FirstMatch(routes, (c: RouteConfiguration) => plugin.supports(c.name))
    case None => None
    case Some(i) => Some(routes[i])
  }

  /** The error a request that no plugin matches ends with. */
  function UnknownRoute(uri: string): ApiError {
    Error(404, "error.router.unknown.route", map["route" := uri])
  }

  /** The plugin chosen is the first that matches; none is chosen only if none matches. */
  lemma MatchingPluginIsFirst(plugins: seq<RoutePlugin>, request: Request)
    ensures var r := MatchingPlugin(plugins, request);
      (r.Some? ==> plugins[r.value].matches(request.uri, request.httpMethod)) &&
      (r.Some? ==> forall j :: 0 <= j < r.value ==> !plugins[j].matches(request.uri, request.httpMethod)) &&
      (r.None? <==> forall j :: 0 <= j < |plugins| ==> !plugins[j].matches(request.uri, request.httpMethod))
  {
    FirstMatchIsFirst(plugins, (p: RoutePlugin) => p.matches(request.uri, request.httpMethod));
  }

  /** The configuration chosen is the first the plugin supports; none only if it supports none. */
  lemma ConfigurationForIsFirst(plugin: RoutePlugin, routes: seq<RouteConfiguration>)
    ensures var r := ConfigurationFor(plugin, routes);
      (r.Some? ==> r.value in routes && plugin.supports(r.value.name)) &&
      (r.Some? ==> exists i :: 0 <= i < |routes| && routes[i] == r.value &&
                              forall j :: 0 <= j < i ==> !plugin.supports(routes[j].name)) &&
      (r.None? <==> forall j :: 0 <= j < |routes| ==> !plugin.supports(routes[j].name))
  {
    var p := (c: RouteConfiguration) => plugin.supports(c.name);
    FirstMatchIsFirst(routes, p);
    match FirstMatch(routes, p)
    case None =>
    case Some(i) =>
      assert routes[i] == ConfigurationFor(plugin, routes).value;
  }

  /**
   * `route`: choose the plugin, choose its configuration, set it on the plugin, then answer
   * with whatever the plugin's `execute` answers. Only the chosen plugin changes, and only
   * when there is one; the route configurations are not read otherwise.
   */
  method Route(plugins: seq<RoutePlugin>, root: Option<RootConfiguration>, request: Request)
    returns (r: Result<HttpReply, ApiError>)
    modifies set p | p in plugins
    ensures MatchingPlugin(plugins, request).None? ==>
      r == Failure(UnknownRoute(request.uri)) && forall p :: p in plugins ==> p.configuration == old(p.configuration)
    ensures MatchingPlugin(plugins, request).Some? ==>
      var plugin := plugins[MatchingPlugin(plugins, request).value];
      var configuration := ConfigurationFor(plugin, ConfigurationService.GetRoutesConfiguration(root));
      plugin.configuration == configuration &&
      r == Success(plugin.handler(configuration, request)) &&
      forall p :: p in plugins && p != plugin ==> p.configuration == old(p.configuration)
  {
    var found := MatchingPlugin(plugins, request);
    if found.None? {
      return Failure(UnknownRoute(request.uri));
    }
    var plugin := plugins[found.value];
    var configuration := ConfigurationFor(plugin, ConfigurationService.GetRoutesConfiguration(root));
    plugin.SetConfiguration(configuration);
    var reply := plugin.Execute(request);
    r := Success(reply);
  }
}
