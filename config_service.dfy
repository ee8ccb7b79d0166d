/**
 * The configuration store: optional lookups into the loaded root configuration, the
 * route catalogue published by the metadata endpoint, and entity descriptions.
 * `root` is the loaded configuration, `None` when the file could not be read.
 */
module ConfigurationService {
  import opened Wrappers
  import opened Config
  import opened CoreLib
  import opened Registry
  import opened Strings

  /** A `NullPointerException`: some queries dereference `root` without a guard. */
  datatype Fault = NullReference

  // ---------------------------------------------------------------- lookups

  /** Entities are found by their `route`, not by their display name. */
  function GetEntityConfiguration(root: Option<RootConfiguration>, route: string): (r: Option<EntityConfiguration>)
    ensures root.None? ==> r.None?
    ensures r.Some? ==> r.value.route == route
  {
    if root.None? then None else
      FindAnyFinds(root.value.entities, (e: EntityConfiguration) => e.route == route);
      FindAny(root.value.entities, (e: EntityConfiguration) => e.route == route)
  }

  /** Some configured entity with that route is found, if there is one. */
  lemma GetEntityConfigurationFinds(root: RootConfiguration, route: string)
    ensures GetEntityConfiguration(Some(root), route).Some? ==> GetEntityConfiguration(Some(root), route).value in root.entities
    ensures GetEntityConfiguration(Some(root), route).None? <==> forall e :: e in root.entities ==> e.route != route
  {
    FindAnyFinds(root.entities, (e: EntityConfiguration) => e.route == route);
  }

  function GetProviderConfiguration(root: Option<RootConfiguration>, name: string): (r: Option<ProviderConfiguration>)
    ensures root.None? ==> r.None?
    ensures r.Some? ==> r.value.name == name
  {
    if root.None? then None else
      FindAnyFinds(root.value.providers, (p: ProviderConfiguration) => p.name == name);
      FindAny(root.value.providers, (p: ProviderConfiguration) => p.name == name)
  }

  /** Some configured provider with that name is found, if there is one. */
  lemma GetProviderConfigurationFinds(root: RootConfiguration, name: string)
    ensures GetProviderConfiguration(Some(root), name).Some? ==> GetProviderConfiguration(Some(root), name).value in root.providers
    ensures GetProviderConfiguration(Some(root), name).None? <==> forall p :: p in root.providers ==> p.name != name
  {
    FindAnyFinds(root.providers, (p: ProviderConfiguration) => p.name == name);
  }

  function GetRoutesConfiguration(root: Option<RootConfiguration>): (r: seq<RouteConfiguration>)
    ensures root.None? ==> r == []
    ensures root.Some? ==> r == root.value.routes
  {
    if root.None? then [] else root.value.routes
  }

  function GetTaskConfiguration(root: Option<RootConfiguration>, name: string): (r: Option<Descriptor>)
    ensures root.None? ==> r.None?
    ensures r.Some? ==> r.value.name == name
  {
    if root.None? then None else
      FindAnyFinds(root.value.tasks, (t: Descriptor) => t.name == name);
      FindAny(root.value.tasks, (t: Descriptor) => t.name == name)
  }

  /** Some global task with that name is found, if there is one. */
  lemma GetTaskConfigurationFinds(root: RootConfiguration, name: string)
    ensures GetTaskConfiguration(Some(root), name).Some? ==> GetTaskConfiguration(Some(root), name).value in root.tasks
    ensures GetTaskConfiguration(Some(root), name).None? <==> forall t :: t in root.tasks ==> t.name != name
  {
    FindAnyFinds(root.tasks, (t: Descriptor) => t.name == name);
  }

  function GetValidationConfiguration(root: Option<RootConfiguration>, name: string): (r: Option<Descriptor>)
    ensures root.None? ==> r.None?
    ensures r.Some? ==> r.value.name == name
  {
    if root.None? then None else
      FindAnyFinds(root.value.validations, (v: Descriptor) => v.name == name);
      FindAny(root.value.validations, (v: Descriptor) => v.name == name)
  }

  /** Some global validation with that name is found, if there is one. */
  lemma GetValidationConfigurationFinds(root: RootConfiguration, name: string)
    ensures GetValidationConfiguration(Some(root), name).Some? ==> GetValidationConfiguration(Some(root), name).value in root.validations
    ensures GetValidationConfiguration(Some(root), name).None? <==> forall v :: v in root.validations ==> v.name != name
  {
    FindAnyFinds(root.validations, (v: Descriptor) => v.name == name);
  }

  /** The authorization section may be absent; a missing root is dereferenced. */
  function GetAuthorizationConfiguration(root: Option<RootConfiguration>): (r: Result<Option<AuthorizationConfiguration>, Fault>)
    ensures root.None? <==> r == Failure(NullReference)
    ensures root.Some? ==> r == Success(root.value.authorization)
  {
    if root.None? then Failure(NullReference) else Success(root.value.authorization)
  }

  // ---------------------------------------------------------------- route catalogue

  /** The seven generated CRUD routes, named as in `disabledRoutes`. */
  datatype Operation = Create | FindAll | FindById | Update | Patch | Delete | Validate

  function Key(op: Operation): string {
    match op
    case Create => "create"
    case FindAll => "findAll"
    case FindById => "findById"
    case Update => "update"
    case Patch => "patch"
    case Delete => "delete"
    case Validate => "validate"
  }

  /** The order in which the generated routes of one entity are appended. */
  const Operations: seq<Operation> := [Create, FindAll, FindById, Update, Patch, Delete, Validate]

  /** The five routes every catalogue contains, whatever the configuration. */
  function StaticRoutes(): seq<RouteDescription> {
    [ RouteDescription("GET", "/actuator/health", None, []),
      RouteDescription("GET", "/i18n/languages", None, []),
      RouteDescription("GET", "/i18n/{language}.json", None, ["language"]),
      RouteDescription("GET", "/metadata/routes", None, []),
      RouteDescription("GET", "/metadata/entities", None, []) ]
  }

  /** The metadata route of an entity is built from its name, not its route. */
  function MetadataRoute(e: EntityConfiguration): RouteDescription {
    RouteDescription("GET", "/metadata/entities/" + e.name, Some(e.name), [])
  }

  /** The fixed verb and path pattern of each generated route. */
  function OperationRoute(e: EntityConfiguration, op: Operation): RouteDescription {
    var base := "/api/" + e.route;
    match op
    case Create => RouteDescription("POST", base, Some(e.name), [])
    case FindAll => RouteDescription("GET", base, Some(e.name), [])
    case FindById => RouteDescription("GET", base + "/{id}", Some(e.name), ["id"])
    case Update => RouteDescription("PUT", base + "/{id}", Some(e.name), ["id"])
    case Patch => RouteDescription("PATCH", base + "/{id}", Some(e.name), ["id"])
    case Delete => RouteDescription("DELETE", base + "/{id}", Some(e.name), ["id"])
    case Validate => RouteDescription("POST", base + "/validate/{attributeName}", Some(e.name), ["attributeName"])
  }

  /** The generated routes of `ops` that `e` does not disable, in order. */
  function EnabledRoutes(e: EntityConfiguration, ops: seq<Operation>): seq<RouteDescription>
    decreases |ops|
  {
    if |ops| == 0 then []
    else
      var last := ops[|ops| - 1];
      EnabledRoutes(e, ops[..|ops| - 1]) + (if Key(last) in e.disabledRoutes then [] else [OperationRoute(e, last)])
  }

  /** All routes of one entity: the metadata route, then the enabled CRUD routes. */
  function EntityRoutes(e: EntityConfiguration): seq<RouteDescription> {
    [MetadataRoute(e)] + EnabledRoutes(e, Operations)
  }

  function AllEntityRoutes(entities: seq<EntityConfiguration>): seq<RouteDescription>
    decreases |entities|
  {
    if |entities| == 0 then []
    else AllEntityRoutes(entities[..|entities| - 1]) + EntityRoutes(entities[|entities| - 1])
  }

  function AllPluginRoutes(plugins: seq<RoutePlugin>, entities: seq<EntityConfiguration>): seq<RouteDescription>
    decreases |plugins|
  {
    if |plugins| == 0 then []
    else AllPluginRoutes(plugins[..|plugins| - 1], entities) + plugins[|plugins| - 1].routesFor(entities)
  }

  /** The catalogue before sorting, in the order it is assembled. */
  function Unsorted(root: RootConfiguration, plugins: seq<RoutePlugin>): seq<RouteDescription> {
    StaticRoutes() + AllEntityRoutes(root.entities) + AllPluginRoutes(plugins, root.entities)
  }

  lemma {:induction false} EnabledRoutesMember(e: EntityConfiguration, ops: seq<Operation>, d: RouteDescription)
    ensures d in EnabledRoutes(e, ops) <==> exists op :: op in ops && Key(op) !in e.disabledRoutes && d == OperationRoute(e, op)
    decreases |ops|
  {
    if |ops| > 0 {
      var init := ops[..|ops| - 1];
      EnabledRoutesMember(e, init, d);
      assert ops == init + [ops[|ops| - 1]];
      forall op | op in init
        ensures op in ops
      {
      }
    }
  }

  /** Two generated routes of one entity are equal only if they come from the same operation. */
  lemma OperationRouteInjective(e: EntityConfiguration, op1: Operation, op2: Operation)
    requires OperationRoute(e, op1) == OperationRoute(e, op2)
    ensures op1 == op2
  {
    var base := "/api/" + e.route;
    assert |base + "/{id}"| == |base| + 5;
    assert |base + "/validate/{attributeName}"| == |base| + 25;
  }

  lemma MetadataRouteDistinct(e: EntityConfiguration, op: Operation)
    ensures MetadataRoute(e) != OperationRoute(e, op)
  {
    var p := OperationRoute(e, op).path;
    assert p[1] == 'a';
    assert MetadataRoute(e).path[1] == 'm';
  }

  /**
   * Each generated CRUD route of an entity is in its routes exactly when the operation is
   * absent from `disabledRoutes`, and the metadata route is always there.
   */
  lemma EntityRoutesExactlyEnabled(e: EntityConfiguration, op: Operation)
    ensures MetadataRoute(e) in EntityRoutes(e)
    ensures OperationRoute(e, op) in EntityRoutes(e) <==> Key(op) !in e.disabledRoutes
  {
    var d := OperationRoute(e, op);
    EnabledRoutesMember(e, Operations, d);
    MetadataRouteDistinct(e, op);
    if d in EntityRoutes(e) {
      assert d in EnabledRoutes(e, Operations);
      var op' :| op' in Operations && Key(op') !in e.disabledRoutes && d == OperationRoute(e, op');
      OperationRouteInjective(e, op, op');
    } else {
      assert op in Operations;
    }
  }

  lemma {:induction false} AllEntityRoutesContains(entities: seq<EntityConfiguration>, i: nat)
    requires i < |entities|
    ensures forall d :: d in EntityRoutes(entities[i]) ==> d in AllEntityRoutes(entities)
    decreases |entities|
  {
    if i < |entities| - 1 {
      AllEntityRoutesContains(entities[..|entities| - 1], i);
    }
  }

  // ---------------------------------------------------------------- stable sort by path

  /** Ascending by path, as `Comparator.comparing(RouteDescription::path)` orders them. */
  predicate SortedByPath(s: seq<RouteDescription>) {
    forall i, j :: 0 <= i < j < |s| ==> LexLeq(s[i].path, s[j].path)
  }

  /** The entries with path `p`, in order: a stable sort leaves this unchanged for every `p`. */
  function WithPath(s: seq<RouteDescription>, p: string): seq<RouteDescription> {
    if |s| == 0 then [] else (if s[0].path == p then [s[0]] else []) + WithPath(s[1..], p)
  }

  /** Inserts `d` before the first entry whose path is not smaller than its own. */
  function Insert(d: RouteDescription, s: seq<RouteDescription>): seq<RouteDescription> {
    if |s| == 0 || LexLeq(d.path, s[0].path) then [d] + s else [s[0]] + Insert(d, s[1..])
  }

  /** `List.sort` with a comparator is stable, and a stable sort has exactly one result. */
  function SortByPath(s: seq<RouteDescription>): seq<RouteDescription> {
    if |s| == 0 then [] else Insert(s[0], SortByPath(s[1..]))
  }

  lemma {:induction false} InsertPermutes(d: RouteDescription, s: seq<RouteDescription>)
    ensures multiset(Insert(d, s)) == multiset([d] + s)
    decreases |s|
  {
    if |s| > 0 && !LexLeq(d.path, s[0].path) {
      InsertPermutes(d, s[1..]);
      assert s == [s[0]] + s[1..];
    }
  }

  lemma {:induction false} InsertSorted(d: RouteDescription, s: seq<RouteDescription>)
    requires SortedByPath(s)
    ensures SortedByPath(Insert(d, s))
    decreases |s|
  {
    if |s| == 0 {
    } else if LexLeq(d.path, s[0].path) {
      forall j | 0 < j < |s|
        ensures LexLeq(d.path, s[j].path)
      {
        LexLeqTransitive(d.path, s[0].path, s[j].path);
      }
    } else {
      LexLeqTotal(d.path, s[0].path);
      var rest := Insert(d, s[1..]);
      InsertSorted(d, s[1..]);
      InsertPermutes(d, s[1..]);
      forall j | 0 <= j < |rest|
        ensures LexLeq(s[0].path, rest[j].path)
      {
        assert rest[j] in multiset(rest);
        assert rest[j] in multiset([d] + s[1..]);
        if rest[j] != d {
          var k :| 0 <= k < |s[1..]| && s[1..][k] == rest[j];
          assert s[k + 1] == rest[j];
        }
      }
    }
  }

  lemma {:induction false} InsertStable(d: RouteDescription, s: seq<RouteDescription>, p: string)
    ensures WithPath(Insert(d, s), p) == WithPath([d] + s, p)
    decreases |s|
  {
    if |s| > 0 && !LexLeq(d.path, s[0].path) {
      InsertStable(d, s[1..], p);
      LexLeqReflexive(d.path);
      assert [d] + s[1..] == [d] + s[1..];
      assert ([s[0]] + Insert(d, s[1..]))[1..] == Insert(d, s[1..]);
      assert ([d] + s)[1..] == s;
      assert ([d] + s[1..])[1..] == s[1..];
      assert s == [s[0]] + s[1..];
    }
  }

  lemma {:induction false} SortByPathSorted(s: seq<RouteDescription>)
    ensures SortedByPath(SortByPath(s))
    decreases |s|
  {
    if |s| > 0 {
      SortByPathSorted(s[1..]);
      InsertSorted(s[0], SortByPath(s[1..]));
    }
  }

  lemma {:induction false} SortByPathPermutes(s: seq<RouteDescription>)
    ensures multiset(SortByPath(s)) == multiset(s)
    decreases |s|
  {
    if |s| > 0 {
      SortByPathPermutes(s[1..]);
      InsertPermutes(s[0], SortByPath(s[1..]));
      assert s == [s[0]] + s[1..];
    }
  }

  lemma {:induction false} SortByPathStable(s: seq<RouteDescription>, p: string)
    ensures WithPath(SortByPath(s), p) == WithPath(s, p)
    decreases |s|
  {
    if |s| > 0 {
      SortByPathStable(s[1..], p);
      InsertStable(s[0], SortByPath(s[1..]), p);
      assert ([s[0]] + SortByPath(s[1..]))[1..] == SortByPath(s[1..]);
    }
  }

  // ---------------------------------------------------------------- getRouteDescriptions

  /** Every property a stable sort by path promises, for the result of `SortByPath`. */
  lemma SortByPathCorrect(s: seq<RouteDescription>)
    ensures SortedByPath(SortByPath(s))
    ensures multiset(SortByPath(s)) == multiset(s)
    ensures forall p :: WithPath(SortByPath(s), p) == WithPath(s, p)
  {
    SortByPathSorted(s);
    SortByPathPermutes(s);
    forall p
      ensures WithPath(SortByPath(s), p) == WithPath(s, p)
    {
      SortByPathStable(s, p);
    }
  }

  /** Appends the metadata route of `e`, then each CRUD route it does not disable. */
  method AddEntityRoutes(descriptions: seq<RouteDescription>, e: EntityConfiguration) returns (result: seq<RouteDescription>)
    ensures result == descriptions + EntityRoutes(e)
  {
    result := descriptions + [MetadataRoute(e)];
    var k := 0;
    while k < |Operations|
      invariant 0 <= k <= |Operations|
      invariant result == descriptions + [MetadataRoute(e)] + EnabledRoutes(e, Operations[..k])
    {
      if Key(Operations[k]) !in e.disabledRoutes {
        result := result + [OperationRoute(e, Operations[k])];
      }
      assert Operations[..k + 1][..k] == Operations[..k];
      k := k + 1;
    }
    assert Operations[..k] == Operations;
  }

  /**
   * Assembles the catalogue: the static routes, then each entity's metadata route and
   * enabled CRUD routes, then every route plugin's routes; then sorts it stably by path.
   * The entity list of a missing root is dereferenced.
   */
  method GetRouteDescriptions(root: Option<RootConfiguration>, plugins: seq<RoutePlugin>)
    returns (r: Result<seq<RouteDescription>, Fault>)
    ensures root.None? ==> r == Failure(NullReference)
    ensures root.Some? ==> r == Success(SortByPath(Unsorted(root.value, plugins)))
    ensures root.Some? ==> SortedByPath(r.value)
    ensures root.Some? ==> multiset(r.value) == multiset(Unsorted(root.value, plugins))
    ensures root.Some? ==> forall p :: WithPath(r.value, p) == WithPath(Unsorted(root.value, plugins), p)
  {
    if root.None? {
      return Failure(NullReference);
    }
    var descriptions := AddAllEntityRoutes(StaticRoutes(), root.value.entities);
    descriptions := AddAllPluginRoutes(descriptions, plugins, root.value.entities);
    SortByPathCorrect(descriptions);
    r := Success(SortByPath(descriptions));
  }

  lemma AllEntityRoutesSnoc(entities: seq<EntityConfiguration>, i: nat)
    requires i < |entities|
    ensures AllEntityRoutes(entities[..i + 1]) == AllEntityRoutes(entities[..i]) + EntityRoutes(entities[i])
  {
    assert entities[..i + 1][..i] == entities[..i];
  }

  method AddAllEntityRoutes(descriptions: seq<RouteDescription>, entities: seq<EntityConfiguration>)
    returns (result: seq<RouteDescription>)
    ensures result == descriptions + AllEntityRoutes(entities)
  {
    result := descriptions;
    var i := 0;
    while i < |entities|
      invariant 0 <= i <= |entities|
      invariant result == descriptions + AllEntityRoutes(entities[..i])
    {
      result := AddEntityRoutes(result, entities[i]);
      AllEntityRoutesSnoc(entities, i);
      i := i + 1;
    }
    assert entities[..i] == entities;
  }

  method AddAllPluginRoutes(descriptions: seq<RouteDescription>, plugins: seq<RoutePlugin>, entities: seq<EntityConfiguration>)
    returns (result: seq<RouteDescription>)
    ensures result == descriptions + AllPluginRoutes(plugins, entities)
  {
    result := descriptions;
    var j := 0;
    while j < |plugins|
      invariant 0 <= j <= |plugins|
      invariant result == descriptions + AllPluginRoutes(plugins[..j], entities)
    {
      result := result + plugins[j].routesFor(entities);
      assert plugins[..j + 1][..j] == plugins[..j];
      j := j + 1;
    }
    assert plugins[..j] == plugins;
  }

  /**
   * The catalogue of a loaded configuration contains the five static routes, the metadata
   * route of every entity, and every CRUD route an entity does not disable.
   */
  lemma CatalogueComplete(root: RootConfiguration, plugins: seq<RoutePlugin>, i: nat, op: Operation)
    requires i < |root.entities|
    ensures forall d :: d in StaticRoutes() ==> d in SortByPath(Unsorted(root, plugins))
    ensures MetadataRoute(root.entities[i]) in SortByPath(Unsorted(root, plugins))
    ensures Key(op) !in root.entities[i].disabledRoutes ==>
              OperationRoute(root.entities[i], op) in SortByPath(Unsorted(root, plugins))
  {
    var u := Unsorted(root, plugins);
    SortByPathPermutes(u);
    EntityRoutesExactlyEnabled(root.entities[i], op);
    AllEntityRoutesContains(root.entities, i);
    forall d | d in u
      ensures d in SortByPath(u)
    {
      assert d in multiset(u);
    }
  }

  // ---------------------------------------------------------------- entity descriptions

  datatype AttributeDescription = AttributeDescription(
    name: string, kind: string, required: bool, hasValidations: bool,
    input: string, inputSettings: map<string, string>)

  datatype EntityDescription = EntityDescription(name: string, attributes: seq<AttributeDescription>)

  function DescribeAttributes(attributes: seq<AttributeConfiguration>): (r: seq<AttributeDescription>)
    ensures |r| == |attributes|
    ensures forall i :: 0 <= i < |r| ==>
      r[i].name == attributes[i].name && r[i].kind == attributes[i].kind &&
      r[i].required == attributes[i].required &&
      (r[i].hasValidations <==> |attributes[i].validations| > 0) &&
      r[i].input == attributes[i].input && r[i].inputSettings == attributes[i].inputSettings
  {
    if |attributes| == 0 then []
    else
      var a := attributes[0];
      [AttributeDescription(a.name, a.kind, a.required, |a.validations| > 0, a.input, a.inputSettings)]
        + DescribeAttributes(attributes[1..])
  }

  /** Empty for an unknown route; otherwise the entity's name and its attributes, in order. */
  function GetEntityDescription(root: Option<RootConfiguration>, route: string): (r: Option<EntityDescription>)
    ensures r.None? <==> GetEntityConfiguration(root, route).None?
    ensures r.Some? ==> r.value == EntityDescription(GetEntityConfiguration(root, route).value.name,
                                                     DescribeAttributes(GetEntityConfiguration(root, route).value.attributes))
  {
    match GetEntityConfiguration(root, route)
    case None => None
    case Some(c) => Some(EntityDescription(c.name, DescribeAttributes(c.attributes)))
  }

  /** The descriptions of the entities with the given routes, dropping unknown ones. */
  function DescribeRoutes(root: Option<RootConfiguration>, routes: seq<string>): seq<EntityDescription>
    decreases |routes|
  {
    if |routes| == 0 then []
    else
      var rest := DescribeRoutes(root, routes[1..]);
      match GetEntityDescription(root, routes[0])
      case None => rest
      case Some(d) => [d] + rest
  }

  function Routes(entities: seq<EntityConfiguration>): (r: seq<string>)
    ensures |r| == |entities| && forall i :: 0 <= i < |r| ==> r[i] == entities[i].route
  {
    if |entities| == 0 then [] else [entities[0].route] + Routes(entities[1..])
  }

  /** One description per configured entity, describing an entity with that entity's route. */
  function GetEntityDescriptions(root: Option<RootConfiguration>): (r: Result<seq<EntityDescription>, Fault>)
    ensures root.None? <==> r == Failure(NullReference)
    ensures root.Some? ==> r.Success? && |r.value| == |root.value.entities|
    ensures root.Some? ==> forall i :: 0 <= i < |r.value| ==>
              Some(r.value[i]) == GetEntityDescription(root, root.value.entities[i].route)
  {
    if root.None? then Failure(NullReference)
    else
      var routes := Routes(root.value.entities);
      forall i | 0 <= i < |routes|
        ensures GetEntityConfiguration(root, routes[i]).Some?
      {
        GetEntityConfigurationFinds(root.value, routes[i]);
        assert root.value.entities[i] in root.value.entities;
      }
      DescribeKnownRoutes(root, routes);
      Success(DescribeRoutes(root, routes))
  }

  /** When every route is known, nothing is dropped and the order is kept. */
  lemma {:induction false} DescribeKnownRoutes(root: Option<RootConfiguration>, routes: seq<string>)
    requires root.Some?
    requires forall i :: 0 <= i < |routes| ==> GetEntityConfiguration(root, routes[i]).Some?
    ensures |DescribeRoutes(root, routes)| == |routes|
    ensures forall i :: 0 <= i < |routes| ==> Some(DescribeRoutes(root, routes)[i]) == GetEntityDescription(root, routes[i])
    decreases |routes|
  {
    if |routes| > 0 {
      assert forall i :: 1 <= i < |routes| ==> routes[1..][i - 1] == routes[i];
      DescribeKnownRoutes(root, routes[1..]);
    }
  }
}
