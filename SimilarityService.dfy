/**
 * The registry of similarity providers of an index: one provider per
 * configured factory, created with that factory's settings group, plus a
 * default "index" and a default "search" provider when none was configured
 * under those names.
 */
module SimilarityService {
  import opened Wrappers

  /** A settings group, as its key/value pairs. */
  type Settings = map<string, string>

  const EmptySettings: Settings := map[]
  const IndexName := "index"
  const SearchName := "search"

  /**
   * A similarity provider: one a configured factory created from a name
   * and a settings group, or the default provider of a name.
   */
  datatype Similarity =
    | Created(factory: string, name: string, settings: Settings)
    | Default(name: string)

  /** The settings group of a name, or empty settings when there is none. */
  function GroupOf(groups: map<string, Settings>, name: string): (s: Settings)
    ensures name in groups ==> s == groups[name]
    ensures name !in groups ==> s == EmptySettings
  {
    if name in groups then groups[name] else EmptySettings
  }

  /** The provider a factory creates for a name. */
  function CreatedBy(factories: map<string, string>, groups: map<string, Settings>, name: string): Similarity
    requires name in factories
  {
    Created(factories[name], name, GroupOf(groups, name))
  }

  /** The configured providers, one per factory name. */
  function Configured(factories: Option<map<string, string>>, groups: map<string, Settings>): map<string, Similarity>
  {
    if factories.None? then map[]
    else map name | name in factories.value :: CreatedBy(factories.value, groups, name)
  }

  /** A default provider for `name`, added only when the name is not taken. */
  function WithDefault(m: map<string, Similarity>, name: string): (r: map<string, Similarity>)
    ensures name in r
    ensures forall n :: n in m ==> n in r && r[n] == m[n]
    ensures r.Keys == m.Keys + {name}
    ensures name !in m ==> r[name] == Default(name)
  {
    if name in m then m else m[name := Default(name)]
  }

  /** The registry built from the factories (None for a null map) and the similarity settings groups. */
  function Registry(factories: Option<map<string, string>>, groups: map<string, Settings>): map<string, Similarity>
  {
    WithDefault(WithDefault(Configured(factories, groups), IndexName), SearchName)
  }

  /** The constructor's registry build: the configured providers, then the defaults. */
  method BuildProviders(factories: Option<map<string, string>>, groups: map<string, Settings>)
    returns (providers: map<string, Similarity>)
    ensures providers == Registry(factories, groups)
  {
    providers := map[];
    if factories.Some? {
      providers := CreateProviders(factories.value, groups);
    }
    if IndexName !in providers {
      providers := providers[IndexName := Default(IndexName)];
    }
    if SearchName !in providers {
      providers := providers[SearchName := Default(SearchName)];
    }
  }

  /** The loop over the factories: each name gets the provider its factory creates with the name's settings. */
  method CreateProviders(fs: map<string, string>, groups: map<string, Settings>)
    returns (providers: map<string, Similarity>)
    ensures providers == Configured(Some(fs), groups)
  {
    providers := map[];
    var remaining := fs.Keys;
    while remaining != {}
      invariant remaining <= fs.Keys
      invariant providers.Keys == fs.Keys - remaining
      invariant forall name :: name in providers ==> providers[name] == CreatedBy(fs, groups, name)
      decreases |remaining|
    {
      var name :| name in remaining;
      var settings := if name in groups then groups[name] else EmptySettings;
      providers := providers[name := Created(fs[name], name, settings)];
      remaining := remaining - {name};
    }
    assert providers.Keys == Configured(Some(fs), groups).Keys;
  }

  class SimilarityService {
    const providers: map<string, Similarity>

    /** The service with the given factories and similarity settings groups. */
    constructor(factories: Option<map<string, string>>, groups: map<string, Settings>)
      ensures providers == Registry(factories, groups)
    {
      var built := BuildProviders(factories, groups);
      providers := built;
    }

    /** The service of an index with empty settings and no factories. */
    constructor WithDefaults()
      ensures providers == Registry(None, map[])
    {
      var built := BuildProviders(None, map[]);
      providers := built;
    }

    /** `similarityProvider(name)`: the provider of the name, None when there is none. */
    function SimilarityProvider(name: string): (r: Option<Similarity>)
      ensures r.Some? <==> name in providers
      ensures r.Some? ==> r.value == providers[name]
    {
      if name in providers then Some(providers[name]) else None
    }

    /** `defaultIndexSimilarity`: the provider of "index". */
    function DefaultIndexSimilarity(): Option<Similarity>
    {
      SimilarityProvider(IndexName)
    }

    /** `defaultSearchSimilarity`: the provider of "search". */
    function DefaultSearchSimilarity(): Option<Similarity>
    {
      SimilarityProvider(SearchName)
    }
  }

  /**
   * Every configured name maps to the provider its factory created with
   * that name's settings group, and the registry holds exactly the
   * configured names and the two default names.
   */
  lemma ConfiguredProvidersKept(factories: map<string, string>, groups: map<string, Settings>)
    ensures Registry(Some(factories), groups).Keys == factories.Keys + {IndexName, SearchName}
    ensures forall name :: name in factories ==>
      Registry(Some(factories), groups)[name] == Created(factories[name], name, GroupOf(groups, name))
  {
    var c := Configured(Some(factories), groups);
    assert c.Keys == factories.Keys;
  }

  /** "index" and "search" are always present; their defaults are used only when not configured. */
  lemma DefaultsPresent(factories: Option<map<string, string>>, groups: map<string, Settings>)
    ensures IndexName in Registry(factories, groups) && SearchName in Registry(factories, groups)
    ensures (factories.None? || IndexName !in factories.value) ==> Registry(factories, groups)[IndexName] == Default(IndexName)
    ensures (factories.None? || SearchName !in factories.value) ==> Registry(factories, groups)[SearchName] == Default(SearchName)
  {
    var c := Configured(factories, groups);
    if factories.Some? {
      assert c.Keys == factories.value.Keys;
    }
  }

  /** With no factories the registry holds exactly the two defaults. */
  lemma NoFactoriesOnlyDefaults(groups: map<string, Settings>)
    ensures Registry(None, groups) == map[IndexName := Default(IndexName), SearchName := Default(SearchName)]
  {
  }

  /** The two default lookups of a service find a provider, the configured one when there is one. */
  lemma DefaultLookups(s: SimilarityService, factories: Option<map<string, string>>, groups: map<string, Settings>)
    requires s.providers == Registry(factories, groups)
    ensures s.DefaultIndexSimilarity().Some? && s.DefaultSearchSimilarity().Some?
    ensures factories.Some? && IndexName in factories.value ==>
      s.DefaultIndexSimilarity().value == Created(factories.value[IndexName], IndexName, GroupOf(groups, IndexName))
    ensures factories.Some? && SearchName in factories.value ==>
      s.DefaultSearchSimilarity().value == Created(factories.value[SearchName], SearchName, GroupOf(groups, SearchName))
  {
    DefaultsPresent(factories, groups);
    if factories.Some? {
      ConfiguredProvidersKept(factories.value, groups);
    }
  }
}
