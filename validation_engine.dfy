/**
 * The validation engine. For `validate`, every attribute's validations whose own (local)
 * phases contain the phase are merged with their global descriptor and run, in order,
 * by the first validation plugin supporting the merged type, on the attribute's value
 * (null when absent). Every reported error is tagged with the entity and the attribute
 * and collected; a non-empty collection becomes one 400. A missing plugin is raised at
 * once and drops whatever was collected. `validateAttribute` does the same for all the
 * validations of one named attribute, on a supplied value.
 */
module ValidationEngine {
  import opened Wrappers
  import opened Domain
  import opened Config
  import opened CoreLib
  import opened Merge
  import opened ConfigurationService
  import Registry

  /** One validation the engine is about to run: for which attribute, which descriptor, on which value. */
  datatype Check = Check(attribute: string, validation: Descriptor, value: Value)

  /** A validation inherits from the global validation of the same name, when the store has one. */
  function MergeConfigurationWithGlobal(root: Option<RootConfiguration>, validation: Descriptor): Descriptor
  {
    MergeWithGlobal(validation, GetValidationConfiguration(root, validation.name))
  }

  /** Without a global validation of that name the descriptor is used as is; otherwise it is merged with one. */
  lemma MergeConfigurationWithGlobalFindsGlobal(root: Option<RootConfiguration>, validation: Descriptor)
    ensures (root.None? || forall v :: v in root.value.validations ==> v.name != validation.name) ==>
              MergeConfigurationWithGlobal(root, validation) == validation
    ensures root.Some? && (exists v :: v in root.value.validations && v.name == validation.name) ==>
              exists g :: g in root.value.validations && g.name == validation.name &&
                MergeConfigurationWithGlobal(root, validation) == MergeWithGlobal(validation, Some(g))
  {
    if root.Some? {
      GetValidationConfigurationFinds(root.value, validation.name);
    }
  }

  /** The index of the first registered validation plugin supporting `kind`. */
  function FindValidationPlugin(registry: seq<ValidationPlugin>, kind: string): (r: Option<nat>)
    ensures r.Some? ==> r.value < |registry|
  {
    Registry.FirstMatch(registry, (p: ValidationPlugin) => p.supports(kind))
  }

  /** `getValidationPlugin`: the plugin that runs a descriptor, or a 400 naming its type. */
  function GetValidationPlugin(registry: seq<ValidationPlugin>, configuration: Descriptor): (r: Result<nat, ApiError>)
    ensures r.Success? ==> r.value < |registry|
  {
    match FindValidationPlugin(registry, configuration.kind)
    case None => Failure(Error(400, "error.plugin.unknown", map["type" := configuration.kind]))
    case Some(i) => Success(i)
  }

  lemma FindValidationPluginFirstMatch(registry: seq<ValidationPlugin>, kind: string)
    ensures FindValidationPlugin(registry, kind).Some? ==>
              registry[FindValidationPlugin(registry, kind).value].supports(kind) &&
              forall j :: 0 <= j < FindValidationPlugin(registry, kind).value ==> !registry[j].supports(kind)
    ensures FindValidationPlugin(registry, kind).None? <==> forall j :: 0 <= j < |registry| ==> !registry[j].supports(kind)
  {
    Registry.FirstMatchIsFirst(registry, (p: ValidationPlugin) => p.supports(kind));
  }

  /**
   * The first registered plugin supporting the descriptor's type is chosen; when none
   * does, the lookup fails with 400 `error.plugin.unknown` and the type as context.
   */
  lemma GetValidationPluginFirstMatch(registry: seq<ValidationPlugin>, configuration: Descriptor)
    ensures GetValidationPlugin(registry, configuration).Success? ==>
              registry[GetValidationPlugin(registry, configuration).value].supports(configuration.kind) &&
              forall j :: 0 <= j < GetValidationPlugin(registry, configuration).value ==>
                !registry[j].supports(configuration.kind)
    ensures GetValidationPlugin(registry, configuration).Failure? <==>
              forall j :: 0 <= j < |registry| ==> !registry[j].supports(configuration.kind)
    ensures GetValidationPlugin(registry, configuration).Failure? ==>
              GetValidationPlugin(registry, configuration).error ==
                Error(400, "error.plugin.unknown", map["type" := configuration.kind])
  {
    FindValidationPluginFirstMatch(registry, configuration.kind);
  }

  /** `attributes.getOrDefault(name, null)`. */
  function ValueOf(attributes: map<string, Value>, name: string): Value {
    if name in attributes then attributes[name] else Null
  }

  /** A reported error after the engine put the entity and the attribute into its context. */
  function Tag(message: I18nMessage, entity: string, attribute: string): I18nMessage {
    I18nMessage(message.key, message.context["entity" := entity]["attribute" := attribute])
  }

  /** Tagging keeps the key and the other context entries and sets exactly the two names. */
  lemma TagContext(message: I18nMessage, entity: string, attribute: string)
    ensures Tag(message, entity, attribute).key == message.key
    ensures Tag(message, entity, attribute).context.Keys == message.context.Keys + {"entity", "attribute"}
    ensures Tag(message, entity, attribute).context["entity"] == entity
    ensures Tag(message, entity, attribute).context["attribute"] == attribute
    ensures forall k :: k in message.context && k != "entity" && k != "attribute" ==>
              Tag(message, entity, attribute).context[k] == message.context[k]
  {
  }

  /** Whether a descriptor passes the phase filter; `None` means no filter (`validateAttribute`). */
  predicate Runs(validation: Descriptor, phase: Option<string>) {
    phase.None? || phase.value in validation.phases
  }

  /** The checks of one attribute, in the order of its validations. */
  function AttributeChecks(attribute: string, validations: seq<Descriptor>, value: Value, phase: Option<string>): seq<Check>
  {
    if |validations| == 0 then []
    else (if Runs(validations[0], phase) then [Check(attribute, validations[0], value)] else [])
         + AttributeChecks(attribute, validations[1..], value, phase)
  }

  /** The checks of `validate`: attribute by attribute, each on the entity's value for it. */
  function Checks(attributes: seq<AttributeConfiguration>, values: map<string, Value>, phase: string): seq<Check>
  {
    if |attributes| == 0 then []
    else AttributeChecks(attributes[0].name, attributes[0].validations, ValueOf(values, attributes[0].name), Some(phase))
         + Checks(attributes[1..], values, phase)
  }

  /**
   * One check: the tagged error it reports (zero or one), or the lookup error that
   * stops everything.
   */
  function Report(root: Option<RootConfiguration>, registry: seq<ValidationPlugin>, entity: string, check: Check)
    : Result<seq<I18nMessage>, ApiError>
  {
    var merged := MergeConfigurationWithGlobal(root, check.validation);
    match GetValidationPlugin(registry, merged)
    case Failure(e) => Failure(e)
    case Success(i) =>
      match registry[i].validate(merged, check.value)
      case None => Success([])
      case Some(message) => Success([Tag(message, entity, check.attribute)])
  }

  /** Errors collected so far followed by what comes next; a failure discards them. */
  function Then(first: Result<seq<I18nMessage>, ApiError>, next: Result<seq<I18nMessage>, ApiError>)
    : Result<seq<I18nMessage>, ApiError>
  {
    match first
    case Failure(e) => Failure(e)
    case Success(errors) =>
      match next
      case Failure(e) => Failure(e)
      case Success(more) => Success(errors + more)
  }

  /** The errors of a sequence of checks, in order, or the first lookup error. */
  function Collect(root: Option<RootConfiguration>, registry: seq<ValidationPlugin>, entity: string, checks: seq<Check>)
    : Result<seq<I18nMessage>, ApiError>
  {
    if |checks| == 0 then Success([])
    else Then(Report(root, registry, entity, checks[0]), Collect(root, registry, entity, checks[1..]))
  }

  /** The one 400 that carries every collected error, or a normal return when there is none. */
  function Conclude(entity: string, collected: Result<seq<I18nMessage>, ApiError>): Result<Unit, ApiError>
  {
    match collected
    case Failure(e) => Failure(e)
    case Success(errors) =>
      if |errors| == 0 then Success(Unit)
      else Failure(ApiError(400, I18nMessage("error.entity.attributes", map["entity" := entity]), map["errors" := errors]))
  }

  /** `validate(entity, phase)`; the entity's configuration is dereferenced. */
  function ValidateSpec(root: Option<RootConfiguration>, registry: seq<ValidationPlugin>, entity: DynamicEntity, phase: string)
    : Result<Unit, ApiError>
    requires entity.configuration.Some?
  {
    var config := entity.configuration.value;
    Conclude(config.name, Collect(root, registry, config.name, Checks(config.attributes, entity.attributes, phase)))
  }

  /** The index of the first attribute with that name. */
  function FindAttribute(attributes: seq<AttributeConfiguration>, name: string): (r: Option<nat>)
    ensures r.Some? ==> r.value < |attributes|
  {
    Registry.FirstMatch(attributes, (a: AttributeConfiguration) => a.name == name)
  }

  /** `validateAttribute(entity, attributeName, value)`; the entity's configuration is dereferenced. */
  function ValidateAttributeSpec(root: Option<RootConfiguration>, registry: seq<ValidationPlugin>, entity: DynamicEntity,
                                 attributeName: string, value: Value): Result<Unit, ApiError>
    requires entity.configuration.Some?
  {
    var config := entity.configuration.value;
    match FindAttribute(config.attributes, attributeName)
    case None =>
      Failure(Error(404, "error.attribute.unknown", map["entity" := config.name, "attribute" := attributeName]))
    case Some(i) =>
      Conclude(config.name, Collect(root, registry, config.name,
                                    AttributeChecks(attributeName, config.attributes[i].validations, value, None)))
  }

  // ---------------------------------------------------------------- the engine

  /**
   * The inner loop over one attribute's validations: filter on the phase, merge, look the
   * plugin up, validate, tag and collect; a failed lookup ends the loop.
   */
  method CheckAttribute(root: Option<RootConfiguration>, registry: seq<ValidationPlugin>, entity: string,
                        attribute: string, validations: seq<Descriptor>, value: Value, phase: Option<string>)
    returns (r: Result<seq<I18nMessage>, ApiError>)
    ensures r == Collect(root, registry, entity, AttributeChecks(attribute, validations, value, phase))
  {
    ghost var total := Collect(root, registry, entity, AttributeChecks(attribute, validations, value, phase));
    ThenUnit(total);
    var remaining := validations;
    var errors: seq<I18nMessage> := [];
    while |remaining| > 0
      invariant Then(Success(errors), Collect(root, registry, entity, AttributeChecks(attribute, remaining, value, phase))) == total
    {
      var validation := remaining[0];
      CheckStep(root, registry, entity, errors, attribute, remaining, value, phase);
      if Runs(validation, phase) {
        var merged := MergeConfigurationWithGlobal(root, validation);
        var plugin := GetValidationPlugin(registry, merged);
        if plugin.Failure? {
          return Failure(plugin.error);
        }
        var found := registry[plugin.value].validate(merged, value);
        if found.Some? {
          errors := errors + [Tag(found.value, entity, attribute)];
        }
      }
      remaining := remaining[1..];
    }
    ThenUnit(Success(errors));
    r := Success(errors);
  }

  /** `validate`: the outer loop over the attributes, then the aggregation. */
  method Validate(root: Option<RootConfiguration>, registry: seq<ValidationPlugin>, entity: DynamicEntity, phase: string)
    returns (r: Result<Unit, ApiError>)
    requires entity.configuration.Some?
    ensures r == ValidateSpec(root, registry, entity, phase)
  {
    var config := entity.configuration.value;
    ghost var total := Collect(root, registry, config.name, Checks(config.attributes, entity.attributes, phase));
    ThenUnit(total);
    var remaining := config.attributes;
    var errors: seq<I18nMessage> := [];
    while |remaining| > 0
      invariant Then(Success(errors), Collect(root, registry, config.name, Checks(remaining, entity.attributes, phase))) == total
    {
      var attribute := remaining[0];
      var value := ValueOf(entity.attributes, attribute.name);
      var found := CheckAttribute(root, registry, config.name, attribute.name, attribute.validations, value, Some(phase));
      CollectAppend(root, registry, config.name, AttributeChecks(attribute.name, attribute.validations, value, Some(phase)),
                    Checks(remaining[1..], entity.attributes, phase));
      ThenAssociative(Success(errors), found, Collect(root, registry, config.name, Checks(remaining[1..], entity.attributes, phase)));
      if found.Failure? {
        return Failure(found.error);
      }
      errors := errors + found.value;
      remaining := remaining[1..];
    }
    ThenUnit(Success(errors));
    r := Conclude(config.name, Success(errors));
  }

  /** `validateAttribute`: the first attribute of that name, all of its validations, the supplied value. */
  method ValidateAttribute(root: Option<RootConfiguration>, registry: seq<ValidationPlugin>, entity: DynamicEntity,
                           attributeName: string, value: Value) returns (r: Result<Unit, ApiError>)
    requires entity.configuration.Some?
    ensures r == ValidateAttributeSpec(root, registry, entity, attributeName, value)
  {
    var config := entity.configuration.value;
    var index := FindAttribute(config.attributes, attributeName);
    if index.None? {
      return Failure(Error(404, "error.attribute.unknown", map["entity" := config.name, "attribute" := attributeName]));
    }
    var found := CheckAttribute(root, registry, config.name, attributeName, config.attributes[index.value].validations, value, None);
    r := Conclude(config.name, found);
  }

  // ---------------------------------------------------------------- loop steps

  lemma ThenAssociative(a: Result<seq<I18nMessage>, ApiError>, b: Result<seq<I18nMessage>, ApiError>,
                        c: Result<seq<I18nMessage>, ApiError>)
    ensures Then(a, Then(b, c)) == Then(Then(a, b), c)
  {
    if a.Success? && b.Success? && c.Success? {
      assert a.value + (b.value + c.value) == (a.value + b.value) + c.value;
    }
  }

  /** Nothing collected before, or nothing after, changes nothing. */
  lemma ThenUnit(r: Result<seq<I18nMessage>, ApiError>)
    ensures Then(Success([]), r) == r
    ensures Then(r, Success([])) == r
  {
    if r.Success? {
      assert [] + r.value == r.value && r.value + [] == r.value;
    }
  }

  /**
   * One turn of the inner loop: an unselected validation is skipped; a selected one stops
   * the loop when its lookup fails and otherwise adds what it reported.
   */
  lemma CheckStep(root: Option<RootConfiguration>, registry: seq<ValidationPlugin>, entity: string,
                  errors: seq<I18nMessage>, attribute: string, remaining: seq<Descriptor>, value: Value, phase: Option<string>)
    requires |remaining| > 0
    ensures var merged := MergeConfigurationWithGlobal(root, remaining[0]);
            var plugin := GetValidationPlugin(registry, merged);
            var now := Then(Success(errors), Collect(root, registry, entity, AttributeChecks(attribute, remaining, value, phase)));
            var next := Collect(root, registry, entity, AttributeChecks(attribute, remaining[1..], value, phase));
            if !Runs(remaining[0], phase) then now == Then(Success(errors), next)
            else if plugin.Failure? then now == Failure(plugin.error)
            else if registry[plugin.value].validate(merged, value).None? then now == Then(Success(errors), next)
            else now == Then(Success(errors + [Tag(registry[plugin.value].validate(merged, value).value, entity, attribute)]), next)
  {
    var later := AttributeChecks(attribute, remaining[1..], value, phase);
    var next := Collect(root, registry, entity, later);
    if Runs(remaining[0], phase) {
      var check := Check(attribute, remaining[0], value);
      assert AttributeChecks(attribute, remaining, value, phase) == [check] + later;
      assert ([check] + later)[0] == check && ([check] + later)[1..] == later;
      var report := Report(root, registry, entity, check);
      assert Collect(root, registry, entity, [check] + later) == Then(report, next);
      ThenAssociative(Success(errors), report, next);
      var merged := MergeConfigurationWithGlobal(root, remaining[0]);
      var plugin := GetValidationPlugin(registry, merged);
      if plugin.Success? {
        var found := registry[plugin.value].validate(merged, value);
        if found.None? {
          assert report == Success([]);
          assert errors + [] == errors;
        } else {
          assert report == Success([Tag(found.value, entity, attribute)]);
        }
      }
    } else {
      assert AttributeChecks(attribute, remaining, value, phase) == later;
    }
  }

  /** Collecting over two runs of checks is collecting over each in turn. */
  lemma {:induction false} CollectAppend(root: Option<RootConfiguration>, registry: seq<ValidationPlugin>, entity: string,
                                         first: seq<Check>, second: seq<Check>)
    ensures Collect(root, registry, entity, first + second)
            == Then(Collect(root, registry, entity, first), Collect(root, registry, entity, second))
    decreases |first|
  {
    if |first| == 0 {
      assert first + second == second;
      var c := Collect(root, registry, entity, second);
      if c.Success? {
        assert [] + c.value == c.value;
      }
    } else {
      assert (first + second)[0] == first[0];
      assert (first + second)[1..] == first[1..] + second;
      CollectAppend(root, registry, entity, first[1..], second);
      ThenAssociative(Report(root, registry, entity, first[0]), Collect(root, registry, entity, first[1..]),
                      Collect(root, registry, entity, second));
    }
  }

  // ---------------------------------------------------------------- properties

  /** Whether the plugin lookup for a check succeeds. */
  predicate Resolves(root: Option<RootConfiguration>, registry: seq<ValidationPlugin>, check: Check) {
    GetValidationPlugin(registry, MergeConfigurationWithGlobal(root, check.validation)).Success?
  }

  /** What the chosen plugin answers for a check, before tagging. */
  function Verdict(root: Option<RootConfiguration>, registry: seq<ValidationPlugin>, check: Check): Option<I18nMessage>
    requires Resolves(root, registry, check)
  {
    var merged := MergeConfigurationWithGlobal(root, check.validation);
    registry[GetValidationPlugin(registry, merged).value].validate(merged, check.value)
  }

  /** The first check decides by its lookup whether the collection fails at once or goes on. */
  lemma CollectHead(root: Option<RootConfiguration>, registry: seq<ValidationPlugin>, entity: string, checks: seq<Check>)
    requires |checks| > 0
    ensures !Resolves(root, registry, checks[0]) ==>
              Collect(root, registry, entity, checks) ==
                Failure(Error(400, "error.plugin.unknown", map["type" := MergeConfigurationWithGlobal(root, checks[0].validation).kind]))
    ensures Resolves(root, registry, checks[0]) ==>
              (Collect(root, registry, entity, checks).Success? <==> Collect(root, registry, entity, checks[1..]).Success?) &&
              (Collect(root, registry, entity, checks).Failure? ==>
                 Collect(root, registry, entity, checks).error == Collect(root, registry, entity, checks[1..]).error)
  {
    var merged := MergeConfigurationWithGlobal(root, checks[0].validation);
    GetValidationPluginFirstMatch(registry, merged);
    var report := Report(root, registry, entity, checks[0]);
    assert Collect(root, registry, entity, checks) == Then(report, Collect(root, registry, entity, checks[1..]));
    if !Resolves(root, registry, checks[0]) {
      assert report == Failure(GetValidationPlugin(registry, merged).error);
    } else {
      assert report.Success?;
    }
  }

  /** The index of the first check whose lookup fails (`|checks|` when every lookup succeeds). */
  function FirstUnknown(root: Option<RootConfiguration>, registry: seq<ValidationPlugin>, checks: seq<Check>): (r: nat)
    ensures r <= |checks|
  {
    if |checks| == 0 then 0
    else if !Resolves(root, registry, checks[0]) then 0
    else 1 + FirstUnknown(root, registry, checks[1..])
  }

  lemma {:induction false} FirstUnknownIsFirst(root: Option<RootConfiguration>, registry: seq<ValidationPlugin>, checks: seq<Check>)
    ensures forall j :: 0 <= j < FirstUnknown(root, registry, checks) ==> Resolves(root, registry, checks[j])
    ensures FirstUnknown(root, registry, checks) < |checks| ==>
              !Resolves(root, registry, checks[FirstUnknown(root, registry, checks)])
    decreases |checks|
  {
    if |checks| > 0 && Resolves(root, registry, checks[0]) {
      FirstUnknownIsFirst(root, registry, checks[1..]);
      assert forall j :: 1 <= j < |checks| ==> checks[j] == checks[1..][j - 1];
    }
  }

  /**
   * Collection fails exactly when some lookup fails, and then with the 400
   * `error.plugin.unknown` of the first such check.
   */
  lemma {:induction false} CollectFailsAtFirstUnknown(root: Option<RootConfiguration>, registry: seq<ValidationPlugin>,
                                                      entity: string, checks: seq<Check>)
    ensures Collect(root, registry, entity, checks).Failure? <==> FirstUnknown(root, registry, checks) < |checks|
    ensures Collect(root, registry, entity, checks).Failure? ==>
              Collect(root, registry, entity, checks).error ==
                Error(400, "error.plugin.unknown",
                      map["type" := MergeConfigurationWithGlobal(root, checks[FirstUnknown(root, registry, checks)].validation).kind])
    decreases |checks|
  {
    if |checks| > 0 {
      CollectHead(root, registry, entity, checks);
      if Resolves(root, registry, checks[0]) {
        CollectFailsAtFirstUnknown(root, registry, entity, checks[1..]);
        var n := FirstUnknown(root, registry, checks[1..]);
        assert FirstUnknown(root, registry, checks) == n + 1;
        if n < |checks[1..]| {
          assert checks[n + 1] == checks[1..][n];
        }
      }
    }
  }

  /** The errors the plugins report for checks whose lookups all succeed, tagged, in check order. */
  function Reported(root: Option<RootConfiguration>, registry: seq<ValidationPlugin>, entity: string, checks: seq<Check>)
    : seq<I18nMessage>
    requires forall j :: 0 <= j < |checks| ==> Resolves(root, registry, checks[j])
  {
    if |checks| == 0 then []
    else (match Verdict(root, registry, checks[0])
          case None => []
          case Some(message) => [Tag(message, entity, checks[0].attribute)])
         + Reported(root, registry, entity, checks[1..])
  }

  /**
   * A successful collection had every lookup succeed, and holds exactly the reported errors,
   * tagged and in the order of the checks.
   */
  lemma {:induction false} CollectInOrder(root: Option<RootConfiguration>, registry: seq<ValidationPlugin>,
                                          entity: string, checks: seq<Check>)
    ensures Collect(root, registry, entity, checks).Success? ==>
              (forall j :: 0 <= j < |checks| ==> Resolves(root, registry, checks[j])) &&
              Collect(root, registry, entity, checks).value == Reported(root, registry, entity, checks)
    decreases |checks|
  {
    if |checks| > 0 && Collect(root, registry, entity, checks).Success? {
      CollectHead(root, registry, entity, checks);
      CollectInOrder(root, registry, entity, checks[1..]);
      assert forall j :: 1 <= j < |checks| ==> checks[j] == checks[1..][j - 1];
      var merged := MergeConfigurationWithGlobal(root, checks[0].validation);
      assert Report(root, registry, entity, checks[0]) ==
             Success(match Verdict(root, registry, checks[0])
                     case None => []
                     case Some(message) => [Tag(message, entity, checks[0].attribute)]);
    }
  }

  /**
   * A successful collection holds every error a plugin reported, tagged with the entity
   * and the check's attribute, and nothing else.
   */
  lemma {:induction false} CollectKeepsEveryError(root: Option<RootConfiguration>, registry: seq<ValidationPlugin>,
                                                  entity: string, checks: seq<Check>)
    ensures Collect(root, registry, entity, checks).Success? ==>
              forall i :: 0 <= i < |checks| && Resolves(root, registry, checks[i]) &&
                          Verdict(root, registry, checks[i]).Some? ==>
                Tag(Verdict(root, registry, checks[i]).value, entity, checks[i].attribute)
                  in Collect(root, registry, entity, checks).value
    ensures Collect(root, registry, entity, checks).Success? ==>
              forall t :: t in Collect(root, registry, entity, checks).value ==>
                exists i :: 0 <= i < |checks| && Resolves(root, registry, checks[i]) &&
                            Verdict(root, registry, checks[i]).Some? &&
                            t == Tag(Verdict(root, registry, checks[i]).value, entity, checks[i].attribute)
    decreases |checks|
  {
    if |checks| > 0 && Collect(root, registry, entity, checks).Success? {
      var head := checks[0];
      var report := Report(root, registry, entity, head);
      var rest := Collect(root, registry, entity, checks[1..]);
      assert report.Success? && rest.Success?;
      var all := Collect(root, registry, entity, checks).value;
      assert all == report.value + rest.value;
      CollectKeepsEveryError(root, registry, entity, checks[1..]);
      assert forall i :: 1 <= i < |checks| ==> checks[i] == checks[1..][i - 1];
      assert report.value == if Verdict(root, registry, head).None? then []
                             else [Tag(Verdict(root, registry, head).value, entity, head.attribute)];
      forall t | t in all
        ensures exists i :: 0 <= i < |checks| && Resolves(root, registry, checks[i]) &&
                            Verdict(root, registry, checks[i]).Some? &&
                            t == Tag(Verdict(root, registry, checks[i]).value, entity, checks[i].attribute)
      {
        if t !in report.value {
          assert t in rest.value;
          var i :| 0 <= i < |checks[1..]| && Resolves(root, registry, checks[1..][i]) &&
                   Verdict(root, registry, checks[1..][i]).Some? &&
                   t == Tag(Verdict(root, registry, checks[1..][i]).value, entity, checks[1..][i].attribute);
          assert checks[i + 1] == checks[1..][i];
        }
      }
    }
  }

  /** A successful collection is empty exactly when no plugin reported. */
  lemma {:induction false} CollectEmptyWhenSilent(root: Option<RootConfiguration>, registry: seq<ValidationPlugin>,
                                                  entity: string, checks: seq<Check>)
    ensures Collect(root, registry, entity, checks).Success? ==>
              (|Collect(root, registry, entity, checks).value| == 0 <==>
               forall i :: 0 <= i < |checks| ==> Resolves(root, registry, checks[i]) && Verdict(root, registry, checks[i]).None?)
    decreases |checks|
  {
    if |checks| > 0 && Collect(root, registry, entity, checks).Success? {
      var head := checks[0];
      var report := Report(root, registry, entity, head);
      var rest := Collect(root, registry, entity, checks[1..]);
      assert report.Success? && rest.Success?;
      assert Collect(root, registry, entity, checks).value == report.value + rest.value;
      assert |report.value| == 0 <==> Verdict(root, registry, head).None?;
      CollectEmptyWhenSilent(root, registry, entity, checks[1..]);
      assert forall i :: 1 <= i < |checks| ==> checks[i] == checks[1..][i - 1];
    }
  }

  /** Every failure of a verdict that got past the attribute lookup is a 400. */
  lemma VerdictStatus(root: Option<RootConfiguration>, registry: seq<ValidationPlugin>, entity: string, checks: seq<Check>)
    ensures Conclude(entity, Collect(root, registry, entity, checks)).Failure? ==>
              Conclude(entity, Collect(root, registry, entity, checks)).error.status == 400
  {
    CollectFailsAtFirstUnknown(root, registry, entity, checks);
  }

  /**
   * The verdict of `validate` and `validateAttribute` over their checks: a normal return
   * exactly when every lookup succeeds and no plugin reports; the first unknown type
   * otherwise raises its own 400 at once; and when every lookup succeeds but some plugin
   * reports, one 400 `error.entity.attributes` for the entity carries the non-empty
   * collection under "errors".
   */
  lemma VerdictOutcome(root: Option<RootConfiguration>, registry: seq<ValidationPlugin>, entity: string, checks: seq<Check>)
    ensures Conclude(entity, Collect(root, registry, entity, checks)).Success? <==>
              forall i :: 0 <= i < |checks| ==>
                Resolves(root, registry, checks[i]) && Verdict(root, registry, checks[i]).None?
    ensures FirstUnknown(root, registry, checks) < |checks| ==>
              Conclude(entity, Collect(root, registry, entity, checks)) ==
                Failure(Error(400, "error.plugin.unknown",
                              map["type" := MergeConfigurationWithGlobal(root, checks[FirstUnknown(root, registry, checks)].validation).kind]))
    ensures FirstUnknown(root, registry, checks) == |checks| &&
            (exists i :: 0 <= i < |checks| && Resolves(root, registry, checks[i]) && Verdict(root, registry, checks[i]).Some?) ==>
              Collect(root, registry, entity, checks).Success? &&
              |Collect(root, registry, entity, checks).value| > 0 &&
              Conclude(entity, Collect(root, registry, entity, checks)) ==
                Failure(ApiError(400, I18nMessage("error.entity.attributes", map["entity" := entity]),
                                 map["errors" := Collect(root, registry, entity, checks).value]))
  {
    CollectFailsAtFirstUnknown(root, registry, entity, checks);
    CollectKeepsEveryError(root, registry, entity, checks);
    CollectEmptyWhenSilent(root, registry, entity, checks);
    FirstUnknownIsFirst(root, registry, checks);
  }

  /** `validate` runs exactly the validations whose own phases contain the phase, each on its attribute's value or null. */
  lemma {:induction false} ChecksMembers(attributes: seq<AttributeConfiguration>, values: map<string, Value>, phase: string)
    ensures forall c :: c in Checks(attributes, values, phase) <==>
              exists a :: a in attributes && c.attribute == a.name && c.value == ValueOf(values, a.name) &&
                          c.validation in a.validations && phase in c.validation.phases
    decreases |attributes|
  {
    if |attributes| > 0 {
      var a := attributes[0];
      ChecksMembers(attributes[1..], values, phase);
      AttributeChecksMembers(a.name, a.validations, ValueOf(values, a.name), Some(phase));
      assert attributes == [a] + attributes[1..];
      forall c | c in Checks(attributes, values, phase)
        ensures exists b :: b in attributes && c.attribute == b.name && c.value == ValueOf(values, b.name) &&
                            c.validation in b.validations && phase in c.validation.phases
      {
        if c in AttributeChecks(a.name, a.validations, ValueOf(values, a.name), Some(phase)) {
          assert a in attributes;
        } else {
          var b :| b in attributes[1..] && c.attribute == b.name && c.value == ValueOf(values, b.name) &&
                   c.validation in b.validations && phase in c.validation.phases;
          assert b in attributes;
        }
      }
    }
  }

  /** One attribute's checks are its validations passing the filter, on the given value. */
  lemma {:induction false} AttributeChecksMembers(attribute: string, validations: seq<Descriptor>, value: Value, phase: Option<string>)
    ensures forall c :: c in AttributeChecks(attribute, validations, value, phase) <==>
              c.attribute == attribute && c.value == value && c.validation in validations && Runs(c.validation, phase)
    decreases |validations|
  {
    if |validations| > 0 {
      AttributeChecksMembers(attribute, validations[1..], value, phase);
      assert validations == [validations[0]] + validations[1..];
    }
  }

  /** Without a phase filter every validation runs, in order. */
  lemma {:induction false} AttributeChecksUnfiltered(attribute: string, validations: seq<Descriptor>, value: Value)
    ensures |AttributeChecks(attribute, validations, value, None)| == |validations|
    ensures forall i :: 0 <= i < |validations| ==>
              AttributeChecks(attribute, validations, value, None)[i] == Check(attribute, validations[i], value)
    decreases |validations|
  {
    if |validations| > 0 {
      AttributeChecksUnfiltered(attribute, validations[1..], value);
      assert forall i :: 1 <= i < |validations| ==> validations[i] == validations[1..][i - 1];
    }
  }

  lemma FindAttributeFirstMatch(attributes: seq<AttributeConfiguration>, name: string)
    ensures FindAttribute(attributes, name).Some? ==>
              attributes[FindAttribute(attributes, name).value].name == name &&
              forall j :: 0 <= j < FindAttribute(attributes, name).value ==> attributes[j].name != name
    ensures FindAttribute(attributes, name).None? <==> forall j :: 0 <= j < |attributes| ==> attributes[j].name != name
  {
    Registry.FirstMatchIsFirst(attributes, (a: AttributeConfiguration) => a.name == name);
  }

  /**
   * `validateAttribute` fails with 404 `error.attribute.unknown` (entity and attribute in
   * the context) exactly when the entity has no attribute of that name; every other
   * failure it raises is a 400. A known attribute is the first one of that name.
   */
  lemma ValidateAttributeUnknown(root: Option<RootConfiguration>, registry: seq<ValidationPlugin>, entity: DynamicEntity,
                                 attributeName: string, value: Value)
    requires entity.configuration.Some?
    ensures var config := entity.configuration.value;
            (forall j :: 0 <= j < |config.attributes| ==> config.attributes[j].name != attributeName) <==>
            ValidateAttributeSpec(root, registry, entity, attributeName, value) ==
              Failure(Error(404, "error.attribute.unknown", map["entity" := config.name, "attribute" := attributeName]))
    ensures FindAttribute(entity.configuration.value.attributes, attributeName).Some? &&
            ValidateAttributeSpec(root, registry, entity, attributeName, value).Failure? ==>
              ValidateAttributeSpec(root, registry, entity, attributeName, value).error.status == 400
  {
    var config := entity.configuration.value;
    FindAttributeFirstMatch(config.attributes, attributeName);
    var index := FindAttribute(config.attributes, attributeName);
    if index.Some? {
      var checks := AttributeChecks(attributeName, config.attributes[index.value].validations, value, None);
      VerdictStatus(root, registry, config.name, checks);
      assert ValidateAttributeSpec(root, registry, entity, attributeName, value)
             == Conclude(config.name, Collect(root, registry, config.name, checks));
    }
  }
}
