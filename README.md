# linid-im-api core, modelled in Dafny

linid-im-api serves configured "dynamic entities" over REST. It answers create, update,
patch, delete, find-by-id and find-all on `/api/{entity}`. Which entities exist, which
provider stores them, which tasks and validations run around each operation, and which
extra routes exist all come from a YAML configuration and from plugins loaded at start-up.

This project models the part of the service that decides what happens on a request. The
plugins themselves are opaque functions. The model covers:

- **`EntityService`**: the lifecycle orchestrator. Every operation runs the same fifteen
  steps: eight task-engine checkpoints, around a token check, a permission check, three
  lookups (entity configuration, provider plugin, provider configuration), one validation
  and one provider call. The first failure ends the operation. `Handle` records each step
  as an event in a trace. `HandleSpec` is the function it is proved against.
- **`TaskEngine`** and **`ValidationEngine`**, and the older **`LegacyValidationEngine`**:
  - phase filtering on the descriptors' own phases;
  - merging with the global descriptor (the rules are in **`Merge`**);
  - first-match plugin lookup;
  - fail-fast task execution;
  - collection of every validation error into a single 400.
- **`ConfigurationService`**:
  - the optional lookups of the configuration store;
  - the route catalogue, with static routes, per-entity routes filtered by `disabledRoutes`,
    and plugin routes, stably sorted by path;
  - the entity descriptions.
- **`EntityMapper`**:
  - case-insensitive type-tag resolution;
  - the rules for null and empty strings;
  - the projection of an entity onto its configured attributes.
- **`Routing`**: the first matching route plugin gets the first route configuration it
  supports, then serves the request.
- **`I18nMergeCollector`** and **`I18nService`**:
  - the deep merge of language → key → template maps, in which later maps win;
  - the merge of the configured sources in order;
  - translations, with the unknown-key fallback and the placeholder variables.
- **`GenericController`**: the status each endpoint answers with, the 404 when a
  delete finds nothing, and the null-pointer failure of the mapper on an entity without
  a configuration.

There are also shared modules:

- `Wrappers` defines `Option` and `Result`.
- `Domain` defines values, messages, errors and requests.
- `Config` defines the configuration records.
- `CoreLib` defines the entities, the plugins and the route-plugin class.
- `Registry` defines first-match search.
- `Strings` defines lexicographic order and Java's `toLowerCase` restricted to ASCII.

Java exceptions are `Failure(ApiError)` values. A `NullPointerException` that the code
raises when no configuration is loaded is `Failure(NullReference)`. The controller's
mapper throws `NullPointer` on an entity without a configuration. Inside the entity
service and its engines, a null dereference of the entity configuration is a `requires`:
they only reach it after the configuration lookup succeeded.

## Model

Source paths are relative to the repository root.

| member | source | states |
|---|---|---|
| Merge.MergeRules | src/main/java/io/github/linagora/linid/im/plugin/validation/ValidationEngineImpl.java:167-189 | Without a global descriptor, the local one is returned unchanged. With one: name and type are the global's; phases are the local ones if non-empty, otherwise the global's; options are the global's overlaid by the local ones (keys are the union, local values win). |
| ValidationEngine.MergeConfigurationWithGlobalFindsGlobal | src/main/java/io/github/linagora/linid/im/plugin/validation/ValidationEngineImpl.java:167-172 | With no stored validation of that name (or no configuration), the descriptor is used as is. Otherwise it is merged with the stored one. |
| ValidationEngine.FindValidationPluginFirstMatch | src/main/java/io/github/linagora/linid/im/plugin/validation/ValidationEngineImpl.java:145-149 | The plugin found is the first registered one that supports the type. None is found exactly when no plugin supports it. |
| ValidationEngine.GetValidationPluginFirstMatch | src/main/java/io/github/linagora/linid/im/plugin/validation/ValidationEngineImpl.java:145-154 | Lookup returns the first supporting plugin. It fails exactly when none supports the type, and then with 400 `error.plugin.unknown` and `{type}`. |
| ValidationEngine.TagContext | src/main/java/io/github/linagora/linid/im/plugin/validation/ValidationEngineImpl.java:83-88 | A reported error keeps its key and its other context entries. It gains exactly `entity` and `attribute`, set to the entity and attribute names. |
| ValidationEngine.CheckAttribute | src/main/java/io/github/linagora/linid/im/plugin/validation/ValidationEngineImpl.java:76-88 | The inner loop over one attribute's validations (filter, merge, look up, validate, tag) yields exactly the collection of that attribute's checks. |
| ValidationEngine.Validate | src/main/java/io/github/linagora/linid/im/plugin/validation/ValidationEngineImpl.java:71-97 | The nested loops plus the final test equal `ValidateSpec`: the outcome over every attribute's phase-filtered checks. |
| ValidationEngine.ValidateAttribute | src/main/java/io/github/linagora/linid/im/plugin/validation/ValidationEngineImpl.java:100-136 | The method equals `ValidateAttributeSpec`: the first attribute of that name, or a 404. Then every one of its validations runs on the supplied value. |
| ValidationEngine.ChecksMembers | src/main/java/io/github/linagora/linid/im/plugin/validation/ValidationEngineImpl.java:74-82 | `validate` checks exactly the validations whose own pre-merge phases contain the phase. Each is checked on its attribute's value, or on null when the entity lacks that attribute. |
| ValidationEngine.AttributeChecksMembers | src/main/java/io/github/linagora/linid/im/plugin/validation/ValidationEngineImpl.java:76-79 | One attribute's checks are exactly its validations that pass the phase filter, on the given value. |
| ValidationEngine.AttributeChecksUnfiltered | src/main/java/io/github/linagora/linid/im/plugin/validation/ValidationEngineImpl.java:116-120 | With no phase filter, every validation of the attribute is checked, in order, on the supplied value. |
| ValidationEngine.CollectAppend | src/main/java/io/github/linagora/linid/im/plugin/validation/ValidationEngineImpl.java:74-88 | Collecting over two runs of checks is collecting over each run in turn. This is how the nested `forEach` loops add to one list. |
| ValidationEngine.CheckStep | src/main/java/io/github/linagora/linid/im/plugin/validation/ValidationEngineImpl.java:78-88 | One loop step. A validation outside the phase adds nothing. Otherwise the merged descriptor's plugin either fails the whole collection or appends its tagged error. |
| ValidationEngine.CollectHead | src/main/java/io/github/linagora/linid/im/plugin/validation/ValidationEngineImpl.java:80-88 | An unknown plugin type in the first check fails the collection at once. Otherwise the first verdict precedes the rest. |
| ValidationEngine.FirstUnknownIsFirst | src/main/java/io/github/linagora/linid/im/plugin/validation/ValidationEngineImpl.java:145-154 | Every check before `FirstUnknown` resolves its plugin, and the check at `FirstUnknown` does not. |
| ValidationEngine.CollectFailsAtFirstUnknown | src/main/java/io/github/linagora/linid/im/plugin/validation/ValidationEngineImpl.java:80-88 | The collection fails exactly when some plugin lookup fails. It then fails with the 400 `error.plugin.unknown` of the first such check, and the errors collected so far are not aggregated. |
| ValidationEngine.CollectKeepsEveryError | src/main/java/io/github/linagora/linid/im/plugin/validation/ValidationEngineImpl.java:83-88 | A successful collection holds every error a plugin reported, tagged with the entity and the check's attribute, and nothing else. |
| ValidationEngine.CollectInOrder | src/main/java/io/github/linagora/linid/im/plugin/validation/ValidationEngineImpl.java:74-88 | A successful collection had every plugin lookup succeed. It is exactly the reported errors, tagged, in the order of the checks. |
| ValidationEngine.CollectEmptyWhenSilent | src/main/java/io/github/linagora/linid/im/plugin/validation/ValidationEngineImpl.java:83-90 | A successful collection is empty exactly when no plugin reported an error. |
| ValidationEngine.VerdictStatus | src/main/java/io/github/linagora/linid/im/plugin/validation/ValidationEngineImpl.java:90-96 | Every failure of the verdict is a 400. |
| ValidationEngine.VerdictOutcome | src/main/java/io/github/linagora/linid/im/plugin/validation/ValidationEngineImpl.java:90-96 | A normal return happens exactly when every lookup succeeds and no plugin reports. The first unknown type raises its own 400. Otherwise exactly one 400 `error.entity.attributes`, with `{entity}`, carries the non-empty error list under `errors`. |
| ValidationEngine.FindAttributeFirstMatch | src/main/java/io/github/linagora/linid/im/plugin/validation/ValidationEngineImpl.java:101-105 | The attribute found is the first with that name. None is found exactly when no attribute has the name. |
| ValidationEngine.ValidateAttributeUnknown | src/main/java/io/github/linagora/linid/im/plugin/validation/ValidationEngineImpl.java:101-112 | The answer is 404 `error.attribute.unknown` with `{entity, attribute}` exactly when no attribute has that name. Every other failure is a 400. |
| ValidationEngine.ThenAssociative | src/main/java/io/github/linagora/linid/im/plugin/validation/ValidationEngineImpl.java:72-88 | Appending to the shared error list is associative, so the nesting of the loops does not matter. |
| ValidationEngine.ThenUnit | src/main/java/io/github/linagora/linid/im/plugin/validation/ValidationEngineImpl.java:72 | The fresh empty list is the unit of appending. |
| LegacyValidationEngine.Validate | src/main/java/org/linagora/linid/dmapi/plugin/validation/ValidationEngineImpl.java:71-99 | The older engine's single nested loop returns exactly what the current engine's `ValidateSpec` does: same filter, merge, lookup, tagging and single 400. |
| TaskEngine.MergeConfigurationWithGlobalFindsGlobal | src/main/java/io/github/linagora/linid/im/plugin/task/TaskEngineImpl.java:107-128 | With no stored task of that name, the task is used as is. Otherwise it is merged with the stored one. |
| TaskEngine.FindPluginFirstMatch | src/main/java/io/github/linagora/linid/im/plugin/task/TaskEngineImpl.java:87-91 | The plugin found is the first in registry order that supports the type. None is found exactly when no plugin supports it. |
| TaskEngine.GetPluginFirstMatch | src/main/java/io/github/linagora/linid/im/plugin/task/TaskEngineImpl.java:87-96 | Lookup returns the first supporting plugin. Otherwise it fails with 400 `error.plugin.unknown` and `{type}`. |
| TaskEngine.Execute | src/main/java/io/github/linagora/linid/im/plugin/task/TaskEngineImpl.java:67-78 | With no entity configuration, nothing runs and the entity and context are returned as they were. Otherwise the result equals `ExecuteSpec`. |
| TaskEngine.RunPhase | src/main/java/io/github/linagora/linid/im/plugin/task/TaskEngineImpl.java:72-77 | The loop over the configured tasks equals running the merged, phase-selected tasks in order, stopping at the first failure. |
| TaskEngine.RunTask | src/main/java/io/github/linagora/linid/im/plugin/task/TaskEngineImpl.java:75-77 | One task is merged, its plugin is looked up by the merged type, and the plugin is called with the merged descriptor. |
| TaskEngine.SkipTask | src/main/java/io/github/linagora/linid/im/plugin/task/TaskEngineImpl.java:74 | A task whose own phases lack the phase is skipped. |
| TaskEngine.TakeTask | src/main/java/io/github/linagora/linid/im/plugin/task/TaskEngineImpl.java:74-77 | A selected task runs first. The rest of the phase runs only if it succeeded. |
| TaskEngine.SelectedMembers | src/main/java/io/github/linagora/linid/im/plugin/task/TaskEngineImpl.java:72-74 | The tasks selected are exactly those whose own pre-merge phases contain the phase. |
| TaskEngine.PendingIsMergedSelection | src/main/java/io/github/linagora/linid/im/plugin/task/TaskEngineImpl.java:72-75 | The descriptors handed to the plugins are the selected tasks, each merged with its global, in list order. |
| TaskEngine.RunAllFollows | src/main/java/io/github/linagora/linid/im/plugin/task/TaskEngineImpl.java:75-77 | The k-th plugin call uses the k-th pending descriptor and the plugin its merged type resolves to. Each call sees the attributes and context the previous one left. |
| TaskEngine.RunAllConcluded | src/main/java/io/github/linagora/linid/im/plugin/task/TaskEngineImpl.java:76-77 | A phase fails exactly when a call fails or a lookup fails, and no call is made after that. A phase that succeeds made one call per pending descriptor. |
| TaskEngine.RunAllLength | src/main/java/io/github/linagora/linid/im/plugin/task/TaskEngineImpl.java:72-77 | A phase makes at most one call per selected task. |
| TaskEngine.ExecuteSpecShape | src/main/java/io/github/linagora/linid/im/plugin/task/TaskEngineImpl.java:67-78 | An entity without configuration runs no task. Otherwise execution is the run of the merged selection. |
| TaskEngine.RunsOnlySelectedTasks | src/main/java/io/github/linagora/linid/im/plugin/task/TaskEngineImpl.java:72-77 | Every call made runs the merge of a configured task whose own phases contain the phase. |
| ConfigurationService.GetEntityConfiguration | src/main/java/io/github/linagora/linid/im/plugin/config/PluginConfigurationServiceImpl.java:142-151 | With no root, nothing is found. A configuration found has the requested `route`, so entities match on route and not on name. |
| ConfigurationService.GetEntityConfigurationFinds | src/main/java/io/github/linagora/linid/im/plugin/config/PluginConfigurationServiceImpl.java:147-150 | What is found is a stored entity configuration. Nothing is found exactly when no stored entity has that route. |
| ConfigurationService.GetProviderConfiguration | src/main/java/io/github/linagora/linid/im/plugin/config/PluginConfigurationServiceImpl.java:154-162 | With no root, nothing is found. A provider configuration found has the requested name. |
| ConfigurationService.GetProviderConfigurationFinds | src/main/java/io/github/linagora/linid/im/plugin/config/PluginConfigurationServiceImpl.java:158-161 | What is found is stored. Nothing is found exactly when no stored provider has that name. |
| ConfigurationService.GetRoutesConfiguration | src/main/java/io/github/linagora/linid/im/plugin/config/PluginConfigurationServiceImpl.java:165-171 | With no root, the list is empty. Otherwise it is the stored route list. |
| ConfigurationService.GetTaskConfiguration | src/main/java/io/github/linagora/linid/im/plugin/config/PluginConfigurationServiceImpl.java:174-182 | With no root, nothing is found. A task found has the requested name. |
| ConfigurationService.GetTaskConfigurationFinds | src/main/java/io/github/linagora/linid/im/plugin/config/PluginConfigurationServiceImpl.java:178-181 | What is found is stored. Nothing is found exactly when no stored task has that name. |
| ConfigurationService.GetValidationConfiguration | src/main/java/io/github/linagora/linid/im/plugin/config/PluginConfigurationServiceImpl.java:185-193 | With no root, nothing is found. A validation found has the requested name. |
| ConfigurationService.GetValidationConfigurationFinds | src/main/java/io/github/linagora/linid/im/plugin/config/PluginConfigurationServiceImpl.java:189-192 | What is found is stored. Nothing is found exactly when no stored validation has that name. |
| ConfigurationService.GetAuthorizationConfiguration | src/main/java/io/github/linagora/linid/im/plugin/config/PluginConfigurationServiceImpl.java:308-310 | The stored authorization configuration, or the null dereference exactly when no configuration is loaded. |
| ConfigurationService.EnabledRoutesMember | src/main/java/io/github/linagora/linid/im/plugin/config/PluginConfigurationServiceImpl.java:214-260 | An operation route is listed exactly when its key is absent from `disabledRoutes`. |
| ConfigurationService.OperationRouteInjective | src/main/java/io/github/linagora/linid/im/plugin/config/PluginConfigurationServiceImpl.java:214-260 | The seven operations give seven different route descriptions. |
| ConfigurationService.MetadataRouteDistinct | src/main/java/io/github/linagora/linid/im/plugin/config/PluginConfigurationServiceImpl.java:209-213 | The metadata route of an entity is none of its operation routes. |
| ConfigurationService.EntityRoutesExactlyEnabled | src/main/java/io/github/linagora/linid/im/plugin/config/PluginConfigurationServiceImpl.java:208-261 | An entity always gets `/metadata/entities/<name>`. Each of create, findAll, findById, update, patch, delete and validate is listed exactly when it is not disabled. |
| ConfigurationService.AllEntityRoutesContains | src/main/java/io/github/linagora/linid/im/plugin/config/PluginConfigurationServiceImpl.java:208-261 | Every route of every entity is in the catalogue. |
| ConfigurationService.InsertPermutes | src/main/java/io/github/linagora/linid/im/plugin/config/PluginConfigurationServiceImpl.java:266 | One insertion step of the sort keeps the same multiset of routes. |
| ConfigurationService.InsertSorted | src/main/java/io/github/linagora/linid/im/plugin/config/PluginConfigurationServiceImpl.java:266 | Inserting into a path-sorted list keeps it path-sorted. |
| ConfigurationService.InsertStable | src/main/java/io/github/linagora/linid/im/plugin/config/PluginConfigurationServiceImpl.java:266 | Insertion keeps the relative order of routes that share a path. |
| ConfigurationService.SortByPathSorted | src/main/java/io/github/linagora/linid/im/plugin/config/PluginConfigurationServiceImpl.java:266 | The sorted catalogue is in path order. |
| ConfigurationService.SortByPathPermutes | src/main/java/io/github/linagora/linid/im/plugin/config/PluginConfigurationServiceImpl.java:266 | Sorting is a permutation. |
| ConfigurationService.SortByPathStable | src/main/java/io/github/linagora/linid/im/plugin/config/PluginConfigurationServiceImpl.java:266 | Sorting is stable: the routes of each path keep their order. |
| ConfigurationService.SortByPathCorrect | src/main/java/io/github/linagora/linid/im/plugin/config/PluginConfigurationServiceImpl.java:266 | Sorted, a permutation, and stable for every path. |
| ConfigurationService.AddEntityRoutes | src/main/java/io/github/linagora/linid/im/plugin/config/PluginConfigurationServiceImpl.java:209-260 | The body of the entity loop appends exactly that entity's routes. |
| ConfigurationService.AddAllEntityRoutes | src/main/java/io/github/linagora/linid/im/plugin/config/PluginConfigurationServiceImpl.java:208-261 | The entity loop appends the routes of every entity, in order. |
| ConfigurationService.AllEntityRoutesSnoc | src/main/java/io/github/linagora/linid/im/plugin/config/PluginConfigurationServiceImpl.java:208-261 | One more entity appends its routes at the end. |
| ConfigurationService.AddAllPluginRoutes | src/main/java/io/github/linagora/linid/im/plugin/config/PluginConfigurationServiceImpl.java:263-264 | Every route plugin's routes are appended, in registry order. |
| ConfigurationService.GetRouteDescriptions | src/main/java/io/github/linagora/linid/im/plugin/config/PluginConfigurationServiceImpl.java:196-269 | With no root, a null dereference. Otherwise the static, entity and plugin routes, sorted by path, as a stable permutation. |
| ConfigurationService.CatalogueComplete | src/main/java/io/github/linagora/linid/im/plugin/config/PluginConfigurationServiceImpl.java:197-266 | The sorted catalogue holds the five static routes, every entity's metadata route, and every operation route not disabled. |
| ConfigurationService.DescribeAttributes | src/main/java/io/github/linagora/linid/im/plugin/config/PluginConfigurationServiceImpl.java:291-304 | Attributes keep their order. `hasValidations` holds exactly when the validations list is non-empty. |
| ConfigurationService.GetEntityDescription | src/main/java/io/github/linagora/linid/im/plugin/config/PluginConfigurationServiceImpl.java:283-305 | Empty exactly for an unknown route. Otherwise the entity's name and its described attributes. |
| ConfigurationService.GetEntityDescriptions | src/main/java/io/github/linagora/linid/im/plugin/config/PluginConfigurationServiceImpl.java:272-280 | With no root, a null dereference. Otherwise one description per entity, in order, each what `getEntityDescription` gives for its route. |
| ConfigurationService.DescribeKnownRoutes | src/main/java/io/github/linagora/linid/im/plugin/config/PluginConfigurationServiceImpl.java:272-280 | Describing known routes answers, route by route, what `getEntityDescription` answers. |
| EntityMapper.ResolveClass | src/main/java/io/github/linagora/linid/im/plugin/entity/DynamicEntityMapperImpl.java:119-130 | boolean, integer, float, double, long, timestamp and date each give their class, in any letter case. The result is `String` exactly when the lower-cased tag is none of the seven. |
| EntityMapper.ResolveClassMixedCase | src/test/java/io/github/linagora/linid/im/plugin/entity/DynamicEntityMapperImplTest.java:58-68 | `"Boolean"` resolves to the boolean class. |
| EntityMapper.ConvertValue | src/main/java/io/github/linagora/linid/im/plugin/entity/DynamicEntityMapperImpl.java:95-108 | Null stays null. An empty string with `nullIfEmpty` becomes null. Anything else goes to the converter with the resolved class. |
| EntityMapper.EmptyIgnoresType | src/main/java/io/github/linagora/linid/im/plugin/entity/DynamicEntityMapperImpl.java:101-103 | With `nullIfEmpty`, `""` converts to null whatever the type and the converter. |
| EntityMapper.EmptyConverted | src/main/java/io/github/linagora/linid/im/plugin/entity/DynamicEntityMapperImpl.java:105-107 | Without `nullIfEmpty`, `""` goes to the converter like any other value. |
| EntityMapper.ProjectKeys | src/main/java/io/github/linagora/linid/im/plugin/entity/DynamicEntityMapperImpl.java:67-80 | The output keys are exactly the configured attribute names, so attributes that are not configured are dropped. |
| EntityMapper.ProjectLastWins | src/main/java/io/github/linagora/linid/im/plugin/entity/DynamicEntityMapperImpl.java:73-77 | The value under a name is the conversion of the last attribute with that name, with its own type and its own flag. |
| EntityMapper.ProjectMissing | src/main/java/io/github/linagora/linid/im/plugin/entity/DynamicEntityMapperImpl.java:73-77 | A configured attribute that the entity lacks maps to null. |
| EntityMapper.MapEntity | src/main/java/io/github/linagora/linid/im/plugin/entity/DynamicEntityMapperImpl.java:67-80 | The mapped entity has exactly the configured names as keys. |
| EntityMapper.Apply | src/main/java/io/github/linagora/linid/im/plugin/entity/DynamicEntityMapperImpl.java:67-80 | The `put` loop over the configured attributes builds exactly `MapEntity`. |
| Strings.ToLower | src/main/java/io/github/linagora/linid/im/plugin/entity/DynamicEntityMapperImpl.java:120 | Lower-casing keeps the length and lowers each character. |
| Routing.MatchingPluginIsFirst | src/main/java/org/linagora/linid/dmapi/plugin/route/DynamicRoutingServiceImpl.java:66-69 | The chosen plugin is the first that matches the URI and method. None is chosen exactly when none matches. |
| Routing.ConfigurationForIsFirst | src/main/java/org/linagora/linid/dmapi/plugin/route/DynamicRoutingServiceImpl.java:75-79 | The configuration is the first route configuration whose name the plugin supports. It is empty exactly when the plugin supports none. |
| Routing.Route | src/main/java/org/linagora/linid/dmapi/plugin/route/DynamicRoutingServiceImpl.java:65-84 | With no match: 404 `error.router.unknown.route` with `{route: uri}`, and no plugin changes. With a match: the chosen plugin's configuration is set first, its reply is returned unchanged, and no other plugin changes. |
| CoreLib.RoutePlugin.SetConfiguration | src/main/java/org/linagora/linid/dmapi/plugin/route/DynamicRoutingServiceImpl.java:81 | The plugin's configuration becomes the one given. |
| CoreLib.RoutePlugin.Execute | src/main/java/org/linagora/linid/dmapi/plugin/route/DynamicRoutingServiceImpl.java:82-83 | The plugin answers with the configuration set at that moment. |
| I18nMergeCollector.DeepMergeLookup | src/main/java/org/linagora/linid/dmapi/i18n/collector/I18nMergeCollector.java:68-75 | After a merge every language of either map is present, and a language only in the accumulator keeps its map. Within a language the keys are joined, and `inputs` wins on a duplicate. |
| I18nMergeCollector.DeepMergeAssociative | src/main/java/org/linagora/linid/dmapi/i18n/collector/I18nMergeCollector.java:52-58 | The merge is associative, so using it as the combiner agrees with using it as the accumulator. |
| I18nMergeCollector.DeepMergeAt | src/main/java/org/linagora/linid/dmapi/i18n/collector/I18nMergeCollector.java:70-72 | A language is present after a merge when either side has it. Its translations are joined. |
| I18nMergeCollector.DeepMergeIntoEmpty | src/main/java/org/linagora/linid/dmapi/i18n/collector/I18nMergeCollector.java:53 | Merging into the fresh empty map yields the input. |
| I18nMergeCollector.CollectLanguages | src/main/java/org/linagora/linid/dmapi/i18n/collector/I18nMergeCollector.java:52-58 | The languages collected are exactly those of all the sources together. |
| I18nMergeCollector.CollectTakesLast | src/main/java/org/linagora/linid/dmapi/i18n/collector/I18nMergeCollector.java:52-58 | Each (language, key) takes the template of the last source that has it. |
| I18nMergeCollector.CollectMissing | src/main/java/org/linagora/linid/dmapi/i18n/collector/I18nMergeCollector.java:52-58 | A key is missing from the result exactly when every source misses it. |
| I18nMergeCollector.Merge | src/main/java/org/linagora/linid/dmapi/i18n/collector/I18nMergeCollector.java:68-75 | The accumulator is changed in place to `DeepMerge` of its old content and the input, and that same accumulator is returned. |
| I18nMergeCollector.ToCollect | src/main/java/org/linagora/linid/dmapi/i18n/collector/I18nMergeCollector.java:52-58 | Collecting a sequence of sources is the fold `Collect`. For no sources it is the empty map. |
| I18nService.LoaderFor | src/main/java/io/github/linagora/linid/im/i18n/service/I18nServiceImpl.java:129-131 | A loader found supports the source type. None is found only when no loader supports it. |
| I18nService.SkipsUnsupported | src/main/java/io/github/linagora/linid/im/i18n/service/I18nServiceImpl.java:129-132 | A source type without a loader adds nothing. |
| I18nService.SourcesSnoc | src/main/java/io/github/linagora/linid/im/i18n/service/I18nServiceImpl.java:127-135 | One more source type adds its loader's map, if it has a loader, at the end. |
| I18nService.LaterSourceWins | src/main/java/io/github/linagora/linid/im/i18n/service/I18nServiceImpl.java:127-135 | A source type listed later wins every key it has. Other keys keep what the earlier types gave them. |
| I18nService.SubstitutePlain | src/main/java/io/github/linagora/linid/im/i18n/service/I18nServiceImpl.java:122 | A template without placeholders is answered as it is. |
| I18nService.SubstituteKnown | src/main/java/io/github/linagora/linid/im/i18n/service/I18nServiceImpl.java:122 | Plain text followed by a known `{name}` is the text, then the name's value, then the rest substituted. |
| I18nService.SubstituteLeading | src/main/java/io/github/linagora/linid/im/i18n/service/I18nServiceImpl.java:122 | A template opening with a known `{name}` starts with that name's value. |
| I18nService.Variables | src/main/java/io/github/linagora/linid/im/i18n/service/I18nServiceImpl.java:117-121 | The variables are the message context plus `I18N_LANGUAGE` and `I18N_KEY`. Those two override same-named context entries, and the rest of the context is kept. |
| I18nService.Service.constructor | src/main/java/io/github/linagora/linid/im/i18n/service/I18nServiceImpl.java:79-84 | The service keeps the source order and the loaders. No language is known before `run`. |
| I18nService.Service.Run | src/main/java/io/github/linagora/linid/im/i18n/service/I18nServiceImpl.java:125-136 | The languages become the merge of the supported sources in the configured order. |
| I18nService.Service.GetTranslations | src/main/java/io/github/linagora/linid/im/i18n/service/I18nServiceImpl.java:91-101 | A known language answers its map. An unknown one fails with 404 `error.router.unknown.route` and `{route: "/i18n/<lang>.json"}`. |
| I18nService.Service.GetLanguages | src/main/java/io/github/linagora/linid/im/i18n/service/I18nServiceImpl.java:86-89 | A language is listed exactly when its translations can be asked for. |
| I18nService.Service.Translate | src/main/java/io/github/linagora/linid/im/i18n/service/I18nServiceImpl.java:108-123 | A key the language lacks, including any key of an unknown language, gives `Unknown key "<key>" for language "<lang>".` Otherwise the template with its placeholders filled from `Variables`. |
| I18nService.Service.TranslateDefault | src/main/java/io/github/linagora/linid/im/i18n/service/I18nServiceImpl.java:103-106 | `translate(message)` answers exactly the English translation. |
| I18nService.Service.PlaceholderFilled | src/main/java/io/github/linagora/linid/im/i18n/service/I18nServiceImpl.java:116-122 | A leading placeholder is filled from the context, except `I18N_LANGUAGE` and `I18N_KEY`, which always take the language and the key. |
| GenericController.GetStatus | src/main/java/io/github/linagora/linid/im/controller/GenericController.java:81-87 | 206 exactly when there is more than one page, 200 exactly when there is at most one. |
| GenericController.Mapped | src/main/java/io/github/linagora/linid/im/plugin/entity/DynamicEntityMapperImpl.java:67-80 | The mapper throws a null-pointer failure exactly when the entity has no configuration. Otherwise it answers `MapEntity`, keyed by the configured names. |
| GenericController.MapPage | src/main/java/io/github/linagora/linid/im/controller/GenericController.java:114-125 | Every entity of the page is mapped, in order. The mapping throws a null-pointer failure exactly when some entity of the page has no configuration. |
| GenericController.EntityResponse | src/main/java/io/github/linagora/linid/im/controller/GenericController.java:96-104 | A service error passes through. An entity without a configuration throws a null-pointer failure. Otherwise the answer has the given status and a body whose keys are the configured attribute names. |
| GenericController.CreateEntity | src/main/java/io/github/linagora/linid/im/controller/GenericController.java:96-104 | 201 with the mapped created entity. A service error passes through. An unconfigured entity throws a null-pointer failure. |
| GenericController.EntityById | src/main/java/io/github/linagora/linid/im/controller/GenericController.java:134-172 | find-by-id, put and patch answer 200 with the mapped entity. A service error passes through. An unconfigured entity throws a null-pointer failure. |
| GenericController.GetEntities | src/main/java/io/github/linagora/linid/im/controller/GenericController.java:114-125 | The mapped page, with 206 exactly when there are several pages and 200 otherwise. It throws a null-pointer failure exactly when the page mapping does. A service error passes through. |
| GenericController.DeleteEntity | src/main/java/io/github/linagora/linid/im/controller/GenericController.java:181-192 | Success exactly when the service deleted, and then 204 with no body. When it did not, 404 `error.router.unknown.route` with `{route: uri}`. A service error passes through. |
| GenericController.ValidateAttribute | src/main/java/io/github/linagora/linid/im/controller/GenericController.java:207-215 | 204 exactly when the value passes. The service error otherwise. |
| EntityService.Checkpoint | src/main/java/io/github/linagora/linid/im/plugin/entity/DynamicEntityServiceImpl.java:113 | A checkpoint appends one task event carrying the task engine's plugin calls and error. On success the engine's attributes and context replace the flow's, and an entity answer follows the changed entity. The configuration is kept, and no task runs on an entity without configuration. |
| EntityService.Token | src/main/java/io/github/linagora/linid/im/plugin/entity/DynamicEntityServiceImpl.java:114 | The token check appends one event whose error is `validateToken`'s. On success that call's context replaces the flow's. It runs no task and keeps the entity. |
| EntityService.Permission | src/main/java/io/github/linagora/linid/im/plugin/entity/DynamicEntityServiceImpl.java:118 | The permission check appends one event for the operation's action. Its error is that of `isAuthorized` on the flow's entity, the operation's target and the action. On success that call's context replaces the flow's. It runs no task and keeps the entity. |
| EntityService.Target | src/main/java/io/github/linagora/linid/im/plugin/entity/DynamicEntityServiceImpl.java:118-276 | `isAuthorized` gets no target for create, the filters for findAll and the id for every other operation. |
| EntityService.UpdateEntityConfiguration | src/main/java/io/github/linagora/linid/im/plugin/entity/DynamicEntityServiceImpl.java:97-103 | The lookup succeeds exactly when the store has a configuration for the route name. The entity then keeps its attributes and gets that configuration. |
| EntityService.EntityLookup | src/main/java/io/github/linagora/linid/im/plugin/entity/DynamicEntityServiceImpl.java:97-103 | The lookup fails with 404 `error.entity.unknown` and `{entity: name}` exactly when no entity has that route. Otherwise the entity gets that configuration. |
| EntityService.FindProvider | src/main/java/io/github/linagora/linid/im/plugin/entity/DynamicEntityServiceImpl.java:301-302 | The provider plugin is the first that supports the provider name. None is found exactly when none supports it. |
| EntityService.GetProvider | src/main/java/io/github/linagora/linid/im/plugin/entity/DynamicEntityServiceImpl.java:301-308 | The lookup fails exactly when no plugin supports the provider name, with 500 `error.provider.unknown` and `{entity, provider}`. Otherwise it answers the first plugin that supports the name. |
| EntityService.ProviderConfigurationLookup | src/main/java/io/github/linagora/linid/im/plugin/entity/DynamicEntityServiceImpl.java:317-324 | A missing provider configuration fails with the same 500, exactly when no stored provider has that name. |
| EntityService.Validation | src/main/java/io/github/linagora/linid/im/plugin/entity/DynamicEntityServiceImpl.java:126 | Validation appends one event whose error is the engine's verdict. It runs no task and keeps the entity, the context and the answer. |
| EntityService.Call | src/main/java/io/github/linagora/linid/im/plugin/entity/DynamicEntityServiceImpl.java:130 | The provider call appends one event whose error is the provider method's. On success the reply becomes the answer and the context, and a returned entity becomes the flow's entity. |
| EntityService.Resolve | src/main/java/io/github/linagora/linid/im/plugin/entity/DynamicEntityServiceImpl.java:121-123 | The three lookups, in order, each recorded. There is a binding exactly when all three succeed. |
| EntityService.HandleSpec | src/main/java/io/github/linagora/linid/im/plugin/entity/DynamicEntityServiceImpl.java:105-292 | An operation goes through the steps of its skeleton from the fresh entity and context, and a successful one answers what its kind returns. |
| EntityService.Handle | src/main/java/io/github/linagora/linid/im/plugin/entity/DynamicEntityServiceImpl.java:105-134 | The straight-line handler returns exactly the outcome and the trace of `HandleSpec`. |
| EntityService.SkeletonPhases | src/main/java/io/github/linagora/linid/im/plugin/entity/DynamicEntityServiceImpl.java:113-131 | The checkpoints of an operation are, in this order, `beforeTokenValidation<Op>`, `afterTokenValidation<Op>`, `beforePermissionValidation<Op>`, `afterPermissionValidation<Op>`, `beforeValidation<Op>`, `afterValidation<Op>`, `before<Op>` and `after<Op>`. Between them come one token check, one permission check for the action (CREATE; UPDATE for update and patch; DELETE; READ for both finds), the three lookups, one validation in phase `before<Op>` and one provider call. |
| EntityService.HandleFollowsSkeleton | src/main/java/io/github/linagora/linid/im/plugin/entity/DynamicEntityServiceImpl.java:106-134 | Every operation records a non-empty prefix of its skeleton, in order. Every event but the last succeeded, and the operation fails with the last event's error. It succeeds exactly when all fifteen steps ran and the last succeeded, so nothing runs after a failure. |
| EntityService.HandleSucceedsThroughSkeleton | src/test/java/io/github/linagora/linid/im/plugin/entity/DynamicEntityServiceImplTest.java:95-113 | A successful operation went through exactly the skeleton: eight checkpoints in order, one token check, one permission check, one validation and one provider call. |
| EntityService.HandleStartsWithInitialContext | src/main/java/io/github/linagora/linid/im/plugin/entity/DynamicEntityServiceImpl.java:228-266 | The first checkpoint sees the initial context: `{id}` for findById, `{filters, pageable}` for findAll, and empty otherwise. |
| EntityService.HandleRunsNoTaskBeforeLookup | src/main/java/io/github/linagora/linid/im/plugin/entity/DynamicEntityServiceImpl.java:106-121 | No task runs in the first six steps, because the fresh entity has no configuration yet. Those steps and the configuration lookup see the fresh entity, which holds the body for create, update and patch. |
| EntityService.HandleLooksUpEntity | src/main/java/io/github/linagora/linid/im/plugin/entity/DynamicEntityServiceImpl.java:121 | Step 7 looks up the entity by the route name given, after both authorization checks. An unknown name ends the operation there, with the 404. |
| EntityService.HandleFindsProvider | src/main/java/io/github/linagora/linid/im/plugin/entity/DynamicEntityServiceImpl.java:122-123 | Step 8 looks up the provider plugin, and only then step 9 looks up the provider configuration, with the provider the entity configuration names. |
| EntityService.Resolved | src/main/java/io/github/linagora/linid/im/plugin/entity/DynamicEntityServiceImpl.java:121-131 | Once all three lookups succeed, the rest runs on the configuration, plugin and provider configuration they found. |
| EntityService.HandleValidates | src/main/java/io/github/linagora/linid/im/plugin/entity/DynamicEntityServiceImpl.java:125-127 | Step 11 validates the configured entity in phase `before<Op>`, and its error is the engine's verdict. |
| EntityService.HandleCallsProvider | src/main/java/io/github/linagora/linid/im/plugin/entity/DynamicEntityServiceImpl.java:129-133 | Step 14 calls the operation's provider method on what the lookups found, with the context and entity the `before<Op>` checkpoint left. The `after<Op>` checkpoint gets the returned entity for create, update, patch and findById, and the placeholder for delete and findAll. A successful operation ends with the attributes and context that checkpoint produced. Its answer is the returned entity with those attributes, or the delete flag or page as replied. |
| EntityService.HandleAnswersEntity | src/main/java/io/github/linagora/linid/im/plugin/entity/DynamicEntityServiceImpl.java:130-133 | Create, update, patch and findById answer the flow's final entity when they succeed. |
| EntityService.HandleCreate | src/main/java/io/github/linagora/linid/im/plugin/entity/DynamicEntityServiceImpl.java:105-134 | Create fails exactly when its run fails, with that error. Otherwise it returns the run's final entity: the one the provider created, as the `afterCreate` checkpoint left it. |
| EntityService.HandleUpdate | src/main/java/io/github/linagora/linid/im/plugin/entity/DynamicEntityServiceImpl.java:136-165 | As create, for update with the id and the body. The entity returned is the one the `afterUpdate` checkpoint left. |
| EntityService.HandlePatch | src/main/java/io/github/linagora/linid/im/plugin/entity/DynamicEntityServiceImpl.java:167-196 | As create, for patch with the id and the body. The entity returned is the one the `afterPatch` checkpoint left. |
| EntityService.HandleDelete | src/main/java/io/github/linagora/linid/im/plugin/entity/DynamicEntityServiceImpl.java:198-226 | Delete returns the provider's flag unchanged, or the run's error. |
| EntityService.HandleFindById | src/main/java/io/github/linagora/linid/im/plugin/entity/DynamicEntityServiceImpl.java:228-258 | findById returns the entity the provider found, as the `afterFindById` checkpoint left it, or the run's error. |
| EntityService.HandleFindAll | src/main/java/io/github/linagora/linid/im/plugin/entity/DynamicEntityServiceImpl.java:260-292 | findAll returns the provider's page, or the run's error. |
| EntityService.ValidateAttribute | src/main/java/io/github/linagora/linid/im/plugin/entity/DynamicEntityServiceImpl.java:326-332 | The method equals `ValidateAttributeSpec`. |
| EntityService.ValidateAttributeCases | src/main/java/io/github/linagora/linid/im/plugin/entity/DynamicEntityServiceImpl.java:326-332 | An unknown entity gives the 404 `error.entity.unknown`. A known one gets the validation engine's `validateAttribute` verdict, on an entity with no attributes and that configuration. |

## Left out

- Loading plugins (JAR scanning, class loaders, Spring child contexts, property files) is I/O and reflection. The registries are fixed ordered lists given as parameters. The order in which the authorization plugins are registered is not modelled: the factory is a given `authorization` plugin.
- The configuration watcher (a daemon thread and a filesystem watch service) is concurrency and I/O.
- `init` and `loadConfiguration` of the configuration store parse YAML. The loaded configuration is a given `Option<RootConfiguration>`, where `None` means nothing loaded.
- The i18n loaders read jars, files and the classpath and parse JSON. Each loader is a `supports` predicate and the map it would load.
- The Jinja template service is a thin wrapper over a template engine.
- The metadata and i18n controllers and the plugin registry configuration are Spring wiring and pass-through endpoints.
- Spring's conversion service is an uninterpreted `Converter` parameter.
- `Page`, `Pageable` and the filter map are opaque values. Only the page content and `totalPages` are used.
- Plugin bodies (provider, authorization, validation, task, route) are uninterpreted functions that may succeed or fail. Side effects a plugin has beyond the values it returns are not modelled.
- The entity and the task context are values threaded through the pipeline:
  - a task plugin returns the attributes and context it leaves;
  - it cannot replace the entity's configuration;
  - aliasing of the shared `DynamicEntity` object is modelled only where a caller sees it: the entity a provider returns is the one the `after<Op>` checkpoint changes and the one the operation answers (`EntityService.Follow`).
- `getProviderByName` belongs to a provider factory that is not part of this model. It is taken as the first provider plugin that supports the name.
- The task descriptors' `type` is a plain field. Some task tests rely on a core-library getter that falls back to the name when no type is set; that getter is not part of this model.
- Where the source uses `findAny` (the entity, provider, task and validation lookups of the configuration store; the i18n loader choice), the model takes the first match. The `*Finds` lemmas and `LoaderFor` state only that some match is returned.
- Ordering routes by path is Java's `String.compareTo` on UTF-16 units. Strings here are sequences of `char`, ordered lexicographically by character code.
- Strings.ToLower: lowers only the ASCII letters `A`–`Z`. Java's `toLowerCase` also lowers other letters by locale, and the model does not capture that. All the type tags are ASCII.
- I18nService.Substitute: replaces each `{name}` whose name is known and keeps unknown placeholders as written. It does not model the escape character, the `:-` default-value syntax (`{x:-y}`), recursive substitution or nested placeholders of Apache's `StringSubstitutor`.
- I18nService.Service.GetLanguages: answers a set. The order of the language list the source returns is not modelled.
- I18nService.Service.constructor: before `run`, the source's language map is null, so any query throws. The model starts with an empty map instead.
- EntityMapper.MapEntity and EntityMapper.Apply require the entity to have a configuration. The source dereferences it and would throw. The controller models that throw itself, in `GenericController.Mapped`.
- ValidationEngine.ValidateSpec and ValidationEngine.ValidateAttributeSpec require a configured entity for the same reason. The entity service only validates after the configuration lookup succeeded.
- GenericController: the `NullPointer` failure stands for the exception the mapper throws; the status Spring turns it into is not modelled.
- GenericController: the service is not called from the controller. Each endpoint receives the service's outcome as a parameter, and so the arguments it passes are not modelled.
- Error contexts: the source adds `entity` and `attribute` to a reported error's context in place. The model builds the tagged copy, so a plugin that kept a reference to its message would see a difference.
- The i18n service's constructor documents its `orders` list as running "from highest to lowest priority". The code lets the source listed later win any duplicate key. The model follows the code (`LaterSourceWins`).
- For an unknown language, `getTranslations` throws the 404 in the code, while one of its tests (I18nServiceImplTest.java:86-94) expects an empty map. The model follows the code.
- Concurrency (request threads, the watcher's background reload) is not modelled.
