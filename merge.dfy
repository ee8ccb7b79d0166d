/**
 * `mergeConfigurationWithGlobal`, which the task engine and both validation engines
 * implement identically: a local descriptor inherits from the global descriptor of the
 * same name, if the configuration store has one.
 */
module Merge {
  import opened Wrappers
  import opened Config

  function MergeWithGlobal(local: Descriptor, global: Option<Descriptor>): Descriptor
  {
    match global
    case None => local
    case Some(g) =>
      Descriptor(g.name, g.kind, if |local.phases| == 0 then g.phases else local.phases, g.options + local.options)
  }

  /**
   * Without a global descriptor the local one is used unchanged. Otherwise the global
   * name and type always win, local phases win only when non-empty, and the options are
   * the global ones overlaid with the local ones.
   */
  lemma MergeRules(local: Descriptor, global: Option<Descriptor>)
    ensures global.None? ==> MergeWithGlobal(local, global) == local
    ensures global.Some? ==> MergeWithGlobal(local, global).name == global.value.name
    ensures global.Some? ==> MergeWithGlobal(local, global).kind == global.value.kind
    ensures global.Some? && |local.phases| > 0 ==> MergeWithGlobal(local, global).phases == local.phases
    ensures global.Some? && |local.phases| == 0 ==> MergeWithGlobal(local, global).phases == global.value.phases
    ensures global.Some? ==> MergeWithGlobal(local, global).options.Keys == global.value.options.Keys + local.options.Keys
    ensures global.Some? ==> forall k :: k in local.options ==> MergeWithGlobal(local, global).options[k] == local.options[k]
    ensures global.Some? ==> forall k :: k in global.value.options && k !in local.options ==>
                               MergeWithGlobal(local, global).options[k] == global.value.options[k]
  {
  }
}
