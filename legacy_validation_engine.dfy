/**
 * The older validation engine of the `org.linagora.linid.dmapi` packages: the same
 * `validate` algorithm as the current engine, written as one nested loop, and without
 * `validateAttribute`. Its descriptor merge and plugin lookup are the current engine's
 * `MergeConfigurationWithGlobal` and `GetValidationPlugin`, which it repeats word for word.
 */
module LegacyValidationEngine {
  import opened Wrappers
  import opened Domain
  import opened Config
  import opened CoreLib
  import opened ValidationEngine

  /** `validate`: both loops in one method, then the aggregation; it agrees with the current engine. */
  method Validate(root: Option<RootConfiguration>, registry: seq<ValidationPlugin>, entity: DynamicEntity, phase: string)
    returns (r: Result<Unit, ApiError>)
    requires entity.configuration.Some?
    ensures r == ValidateSpec(root, registry, entity, phase)
  {
    var config := entity.configuration.value;
    ghost var total := Collect(root, registry, config.name, Checks(config.attributes, entity.attributes, phase));
    ThenUnit(total);
    var attributes := config.attributes;
    var errors: seq<I18nMessage> := [];
    while |attributes| > 0
      invariant Then(Success(errors), Collect(root, registry, config.name, Checks(attributes, entity.attributes, phase))) == total
    {
      var attribute := attributes[0];
      var value := ValueOf(entity.attributes, attribute.name);
      ghost var later := Collect(root, registry, config.name, Checks(attributes[1..], entity.attributes, phase));
      CollectAppend(root, registry, config.name, AttributeChecks(attribute.name, attribute.validations, value, Some(phase)),
                    Checks(attributes[1..], entity.attributes, phase));
      var validations := attribute.validations;
      ThenAssociative(Success(errors), Collect(root, registry, config.name,
                                               AttributeChecks(attribute.name, validations, value, Some(phase))), later);
      while |validations| > 0
        invariant Then(Then(Success(errors), Collect(root, registry, config.name,
                                                     AttributeChecks(attribute.name, validations, value, Some(phase)))), later)
                  == total
      {
        var validation := validations[0];
        CheckStep(root, registry, config.name, errors, attribute.name, validations, value, Some(phase));
        if phase in validation.phases {
          var merged := MergeConfigurationWithGlobal(root, validation);
          var plugin := GetValidationPlugin(registry, merged);
          if plugin.Failure? {
            return Failure(plugin.error);
          }
          var found := registry[plugin.value].validate(merged, value);
          if found.Some? {
            errors := errors + [Tag(found.value, config.name, attribute.name)];
          }
        }
        validations := validations[1..];
      }
      ThenUnit(Success(errors));
      attributes := attributes[1..];
    }
    ThenUnit(Success(errors));
    r := Conclude(config.name, Success(errors));
  }
}
