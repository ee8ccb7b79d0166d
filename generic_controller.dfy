/**
 * `GenericController`: the REST endpoints under `/api/{entity}`. Each handler delegates to the
 * entity service, whose outcome it receives here, and turns that outcome into a status and a
 * body; an exception of the service goes through unchanged.
 */
module GenericController {
  import opened Wrappers
  import opened Domain
  import opened CoreLib
  import opened EntityMapper

  /** A `ResponseEntity`: the status and what the body holds. */
  datatype Body =
    | NoBody
    | EntityBody(attributes: map<string, Value>)
    | PageBody(content: seq<map<string, Value>>, totalPages: nat)

  datatype Response = Response(status: int, body: Body)

  /** `getStatus`: 206 (partial content) when there is more than one page, 200 otherwise. */
  function GetStatus(totalPages: nat): (r: int)
    ensures r == 206 <==> totalPages > 1
    ensures r == 200 <==> totalPages <= 1
  {
    if totalPages > 1 then 206 else 200
  }

  /**
   * What escapes an endpoint: the service's exception, or the `NullPointerException` the
   * mapper throws on an entity without a configuration.
   */
  datatype Thrown = Raised(error: ApiError) | NullPointer

  /** The mapper on one entity: it dereferences the configuration, so an unconfigured entity throws. */
  function Mapped(convert: Converter, entity: DynamicEntity): (r: Result<map<string, Value>, Thrown>)
    ensures r.Failure? <==> entity.configuration.None?
    ensures r.Failure? ==> r.error == NullPointer
    ensures r.Success? ==> r.value.Keys == Names(entity.configuration.value.attributes)
    ensures r.Success? ==> r.value == MapEntity(convert, entity)
  {
    if entity.configuration.None? then Failure(NullPointer) else Success(MapEntity(convert, entity))
  }

  /** `Page.map(mapper)`: every entity of the page mapped, in order; one unconfigured entity throws. */
  function MapPage(convert: Converter, page: Page): (r: Result<seq<map<string, Value>>, Thrown>)
    ensures r.Failure? <==> exists i :: 0 <= i < |page.content| && page.content[i].configuration.None?
    ensures r.Failure? ==> r.error == NullPointer
    ensures r.Success? ==> |r.value| == |page.content|
    ensures r.Success? ==> forall i :: 0 <= i < |r.value| ==> r.value[i] == MapEntity(convert, page.content[i])
  {
    if exists i :: 0 <= i < |page.content| && page.content[i].configuration.None? then Failure(NullPointer)
    else Success(seq(|page.content|, i requires 0 <= i < |page.content| => MapEntity(convert, page.content[i])))
  }

  /** An answer with the mapped entity, or what the service or the mapper threw. */
  function EntityResponse(convert: Converter, status: int, outcome: Result<DynamicEntity, ApiError>)
    : (r: Result<Response, Thrown>)
    ensures outcome.Failure? ==> r == Failure(Raised(outcome.error))
    ensures outcome.Success? && outcome.value.configuration.None? ==> r == Failure(NullPointer)
    ensures outcome.Success? && outcome.value.configuration.Some? ==>
      r.Success? && r.value.status == status && r.value.body.EntityBody? &&
      r.value.body.attributes.Keys == Names(outcome.value.configuration.value.attributes) &&
      r.value.body.attributes == MapEntity(convert, outcome.value)
  {
    match outcome
    case Failure(e) => Failure(Raised(e))
    case Success(entity) =>
      match Mapped(convert, entity)
      case Failure(thrown) => Failure(thrown)
      case Success(attributes) => Success(Response(status, EntityBody(attributes)))
  }

  /** `createEntity`: 201 with the created entity. */
  function CreateEntity(convert: Converter, outcome: Result<DynamicEntity, ApiError>): (r: Result<Response, Thrown>)
    ensures outcome.Failure? ==> r == Failure(Raised(outcome.error))
    ensures outcome.Success? && outcome.value.configuration.None? ==> r == Failure(NullPointer)
    ensures outcome.Success? && outcome.value.configuration.Some? ==>
      r.Success? && r.value.status == 201 && r.value.body == EntityBody(MapEntity(convert, outcome.value))
  {
    EntityResponse(convert, 201, outcome)
  }

  /** `getEntityById`, `putEntity` and `patchEntity`: 200 with the entity the service answered. */
  function EntityById(convert: Converter, outcome: Result<DynamicEntity, ApiError>): (r: Result<Response, Thrown>)
    ensures outcome.Failure? ==> r == Failure(Raised(outcome.error))
    ensures outcome.Success? && outcome.value.configuration.None? ==> r == Failure(NullPointer)
    ensures outcome.Success? && outcome.value.configuration.Some? ==>
      r.Success? && r.value.status == 200 && r.value.body == EntityBody(MapEntity(convert, outcome.value))
  {
    EntityResponse(convert, 200, outcome)
  }

  /** `getEntities`: the mapped page, with 206 when it is one of several pages and 200 otherwise. */
  function GetEntities(convert: Converter, outcome: Result<Page, ApiError>): (r: Result<Response, Thrown>)
    ensures outcome.Failure? ==> r == Failure(Raised(outcome.error))
    ensures outcome.Success? ==> (r == Failure(NullPointer) <==> MapPage(convert, outcome.value).Failure?)
    ensures outcome.Success? && MapPage(convert, outcome.value).Success? ==>
      r.Success? && (r.value.status == 206 <==> outcome.value.totalPages > 1) &&
      (r.value.status == 200 <==> outcome.value.totalPages <= 1) &&
      r.value.body == PageBody(MapPage(convert, outcome.value).value, outcome.value.totalPages)
  {
    match outcome
    case Failure(e) => Failure(Raised(e))
    case Success(page) =>
      match MapPage(convert, page)
      case Failure(thrown) => Failure(thrown)
      case Success(content) => Success(Response(GetStatus(page.totalPages), PageBody(content, page.totalPages)))
  }

  /** `deleteEntity`: 204 when the provider deleted the entity, a 404 on the request URI when it did not. */
  function DeleteEntity(outcome: Result<bool, ApiError>, uri: string): (r: Result<Response, Thrown>)
    ensures r.Success? <==> outcome == Success(true)
    ensures r.Success? ==> r.value == Response(204, NoBody)
    ensures outcome.Failure? ==> r == Failure(Raised(outcome.error))
    ensures outcome == Success(false) ==>
      r == Failure(Raised(Error(404, "error.router.unknown.route", map["route" := uri])))
  {
    match outcome
    case Failure(e) => Failure(Raised(e))
    case Success(deleted) =>
      if !deleted then Failure(Raised(Error(404, "error.router.unknown.route", map["route" := uri])))
      else Success(Response(204, NoBody))
  }

  /** `validateAttribute`: 204 when the value passes, the service's error otherwise. */
  function ValidateAttribute(outcome: Result<Unit, ApiError>): (r: Result<Response, Thrown>)
    ensures r.Success? <==> outcome.Success?
    ensures r.Success? ==> r.value == Response(204, NoBody)
    ensures outcome.Failure? ==> r == Failure(Raised(outcome.error))
  {
    match outcome
    case Failure(e) => Failure(Raised(e))
    case Success(_) => Success(Response(204, NoBody))
  }
}
