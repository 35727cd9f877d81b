/**
 * Which configured registry the mapping store talks to: the registry choice
 * made by setRefresh, getMappings, saveMappings and removeMappings.
 *
 * A URI argument that the caller leaves out is "" (falsy in the source).
 */
module Registries {
  import opened Jskos

  /** The capability flags a registry's provider advertises (`provider.has`). */
  datatype Capabilities = Capabilities(
    mappings: bool,
    occurrences: bool,
    canSaveMappings: bool,
    canRemoveMappings: bool)

  datatype Registry = Registry(uri: string, has: Capabilities)

  datatype Capability = Mappings | Occurrences | CanSave | CanRemove

  predicate Has(r: Registry, cap: Capability) {
    match cap
    case Mappings => r.has.mappings
    case Occurrences => r.has.occurrences
    case CanSave => r.has.canSaveMappings
    case CanRemove => r.has.canRemoveMappings
  }

  /** `registries.find(r => jskos.compare(r, { uri }))` */
  function FindByUri(rs: seq<Registry>, uri: string): (r: Option<Registry>)
    ensures r.None? <==> forall i :: 0 <= i < |rs| ==> rs[i].uri != uri
    ensures r.Some? ==> exists i :: 0 <= i < |rs| && rs[i] == r.value && r.value.uri == uri
                                    && forall j :: 0 <= j < i ==> rs[j].uri != uri
  {
    if rs == [] then None
    else if rs[0].uri == uri then Some(rs[0])
    else FindByUri(rs[1..], uri)
  }

  /** `registries.find(r => r.provider.has[cap])` */
  function FindCapable(rs: seq<Registry>, cap: Capability): (r: Option<Registry>)
    ensures r.None? <==> forall i :: 0 <= i < |rs| ==> !Has(rs[i], cap)
    ensures r.Some? ==> exists i :: 0 <= i < |rs| && rs[i] == r.value && Has(r.value, cap)
                                    && forall j :: 0 <= j < i ==> !Has(rs[j], cap)
  {
    if rs == [] then None
    else if Has(rs[0], cap) then Some(rs[0])
    else FindCapable(rs[1..], cap)
  }

  /**
   * The registry matching the store's `mappingRegistry`, else the first one
   * with capability `fallback`. Comparing with an unset `mappingRegistry`
   * matches nothing.
   */
  function HomeRegistry(rs: seq<Registry>, home: Option<Registry>, fallback: Capability): (r: Option<Registry>)
    ensures home.Some? && FindByUri(rs, home.value.uri).Some? ==> r == FindByUri(rs, home.value.uri)
    ensures home.None? || FindByUri(rs, home.value.uri).None? ==> r == FindCapable(rs, fallback)
    ensures r.Some? ==> r.value in rs
  {
    var own := if home.Some? then FindByUri(rs, home.value.uri) else None;
    if own.Some? then own else FindCapable(rs, fallback)
  }

  /**
   * The registry setRefresh records as needing a refresh: with `onlyMain` the
   * home registry (falling back to a saving one), otherwise the registry named
   * by `registry`, or none when no URI is given.
   */
  function RefreshTarget(rs: seq<Registry>, home: Option<Registry>, registry: string, onlyMain: bool): (r: Option<Registry>)
    ensures r.Some? ==> r.value in rs
    ensures !onlyMain && registry == "" ==> r.None?
    ensures !onlyMain && registry != "" ==> (r.Some? <==> exists i :: 0 <= i < |rs| && rs[i].uri == registry)
    ensures !onlyMain && r.Some? ==> r.value.uri == registry
    ensures onlyMain && r.None? ==> forall i :: 0 <= i < |rs| ==> !Has(rs[i], CanSave)
    ensures onlyMain ==> r == HomeRegistry(rs, home, CanSave)
    ensures !onlyMain && registry != "" ==> r == FindByUri(rs, registry)
  {
    if onlyMain then HomeRegistry(rs, home, CanSave)
    else if registry != "" then FindByUri(rs, registry)
    else None
  }

  /** Whether a registry is asked for mappings when no single registry is chosen. */
  predicate ServesMappings(r: Registry, all: bool) {
    r.has.mappings || (all && r.has.occurrences)
  }

  /** `registries.filter(r => r.provider.has.mappings || (all && r.provider.has.occurrences))` */
  function FilterServing(rs: seq<Registry>, all: bool): (r: seq<Registry>)
    ensures |r| <= |rs|
    ensures forall x :: x in r <==> x in rs && ServesMappings(x, all)
  {
    if rs == [] then []
    else if ServesMappings(rs[0], all) then [rs[0]] + FilterServing(rs[1..], all)
    else FilterServing(rs[1..], all)
  }

  /** The registries getMappings queries. */
  function MappingSources(rs: seq<Registry>, home: Option<Registry>, registry: string, onlyFromMain: bool, all: bool)
    : (r: seq<Registry>)
    ensures forall x :: x in r ==> x in rs
    ensures onlyFromMain || registry != "" ==> |r| <= 1
    ensures onlyFromMain ==> (r == [] <==> HomeRegistry(rs, home, CanSave).None?)
    ensures !onlyFromMain && registry != "" ==>
              (r == [] <==> forall i :: 0 <= i < |rs| ==> rs[i].uri != registry)
    ensures !onlyFromMain && registry != "" && r != [] ==> r[0].uri == registry
    ensures !onlyFromMain && registry == "" ==> forall x :: x in r <==> x in rs && ServesMappings(x, all)
    ensures onlyFromMain ==>
              var main := HomeRegistry(rs, home, CanSave);
              r == if main.Some? then [main.value] else []
    ensures !onlyFromMain && registry != "" ==>
              var named := FindByUri(rs, registry);
              r == if named.Some? then [named.value] else []
  {
    if onlyFromMain then
      var home := HomeRegistry(rs, home, CanSave);
      if home.Some? then [home.value] else []
    else if registry != "" then
      var named := FindByUri(rs, registry);
      if named.Some? then [named.value] else []
    else FilterServing(rs, all)
  }

  /**
   * The registry saveMappings writes to: the named one, else the home
   * registry, else the first that can save; none unless it can save.
   */
  function SaveTarget(rs: seq<Registry>, home: Option<Registry>, registry: string): (r: Option<Registry>)
    ensures r.Some? ==> r.value in rs && r.value.has.canSaveMappings
    ensures registry != "" && r.Some? ==> r.value.uri == registry
    ensures registry != "" ==> (r.Some? <==> exists i :: 0 <= i < |rs| && rs[i].uri == registry
                                                          && rs[i].has.canSaveMappings
                                                          && forall j :: 0 <= j < i ==> rs[j].uri != registry)
    ensures registry != "" && r.Some? ==> r == FindByUri(rs, registry)
    ensures registry == "" && home.Some? && FindByUri(rs, home.value.uri).Some? ==>
              var own := FindByUri(rs, home.value.uri);
              r == if own.value.has.canSaveMappings then own else None
    ensures registry == "" && (home.None? || FindByUri(rs, home.value.uri).None?) ==> r == FindCapable(rs, CanSave)
  {
    var found := if registry != "" then FindByUri(rs, registry) else HomeRegistry(rs, home, CanSave);
    if found.Some? && found.value.has.canSaveMappings then found else None
  }

  /**
   * The registry removeMappings deletes from: as SaveTarget but falling back
   * to the first registry that can remove. The final gate is on the ability
   * to SAVE mappings, as the store's action is written.
   */
  function RemoveTarget(rs: seq<Registry>, home: Option<Registry>, registry: string): (r: Option<Registry>)
    ensures r.Some? ==> r.value in rs && r.value.has.canSaveMappings
    ensures registry != "" && r.Some? ==> r.value.uri == registry
    ensures registry != "" ==> (r.Some? <==> exists i :: 0 <= i < |rs| && rs[i].uri == registry
                                                          && rs[i].has.canSaveMappings
                                                          && forall j :: 0 <= j < i ==> rs[j].uri != registry)
    ensures registry != "" && r.Some? ==> r == FindByUri(rs, registry)
    ensures registry == "" && home.Some? && FindByUri(rs, home.value.uri).Some? ==>
              var own := FindByUri(rs, home.value.uri);
              r == if own.value.has.canSaveMappings then own else None
    ensures registry == "" && (home.None? || FindByUri(rs, home.value.uri).None?) ==>
              var capable := FindCapable(rs, CanRemove);
              r == if capable.Some? && capable.value.has.canSaveMappings then capable else None
  {
    var found := if registry != "" then FindByUri(rs, registry) else HomeRegistry(rs, home, CanRemove);
    if found.Some? && found.value.has.canSaveMappings then found else None
  }

  /**
   * The removal target with the gate evidently intended: the registry chosen
   * as in RemoveTarget, kept only when it can remove mappings.
   */
  function RemoveTargetCorrected(rs: seq<Registry>, home: Option<Registry>, registry: string): (r: Option<Registry>)
    ensures r.Some? ==> r.value in rs && r.value.has.canRemoveMappings
    ensures registry != "" ==> (r.Some? <==> exists i :: 0 <= i < |rs| && rs[i].uri == registry
                                                          && rs[i].has.canRemoveMappings
                                                          && forall j :: 0 <= j < i ==> rs[j].uri != registry)
    ensures registry != "" && r.Some? ==> r.value.uri == registry
    ensures registry == "" && home.Some? && FindByUri(rs, home.value.uri).Some? ==>
              var own := FindByUri(rs, home.value.uri);
              r == if own.value.has.canRemoveMappings then own else None
    ensures registry == "" && (home.None? || FindByUri(rs, home.value.uri).None?) ==> r == FindCapable(rs, CanRemove)
  {
    var found := if registry != "" then FindByUri(rs, registry) else HomeRegistry(rs, home, CanRemove);
    if found.Some? && found.value.has.canRemoveMappings then found else None
  }

  /**
   * A single registry that can remove but not save mappings: as written,
   * removeMappings finds it and then refuses it; with the intended gate it
   * is the target.
   */
  lemma RemoveOnlyRegistryRefused(reg: Registry)
    requires reg.has.canRemoveMappings && !reg.has.canSaveMappings
    ensures RemoveTarget([reg], None, "").None?
    ensures RemoveTargetCorrected([reg], None, "") == Some(reg)
  {
    assert FindCapable([reg], CanRemove) == Some(reg);
  }

  /** A registry that may remove but not save mappings is never chosen for removal. */
  lemma RemoveIgnoresRemoveOnlyRegistries(rs: seq<Registry>, home: Option<Registry>, registry: string)
    requires forall i :: 0 <= i < |rs| ==> !rs[i].has.canSaveMappings
    ensures RemoveTarget(rs, home, registry).None?
  {
  }
}
