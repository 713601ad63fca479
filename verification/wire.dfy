/**
  The handle's wire format: the dictionary `to_dict` hands to the metadata
  service, and the steps `from_response_json` takes on a response (convert
  the keys to snake case, drop the `type` discriminator, bind the rest as
  constructor keyword arguments).

  A key is modelled by what it names (`Keyword`) rather than by its
  spelling: the camel-case spelling the service uses (`CamelName`) and the
  snake-case spelling the constructor expects (`SnakeName`) are two names
  for the same key, so the key conversion leaves a `Keyword` map as it is.
*/
module Wire {
  import opened Wrappers
  import opened Values
  import opened Text
  import opened Keys
  import opened StatisticsConfigs
  import opened Construction

  /** A parameter of the feature-group constructor. */
  datatype Param =
    | Name | Version | FeaturestoreId | Description | PartitionKey | PrimaryKey
    | FeaturestoreName | Created | Creator | Id | Features | Location | Jobs
    | DescStatsEnabled | FeatCorrEnabled | FeatHistEnabled | StatisticColumns
    | OnlineEnabled | TimeTravelFormat | HudiEnabled | StatisticsConfigParam

  /** A key of a response: a constructor parameter, the discriminator, or any other name. */
  datatype Keyword = Arg(param: Param) | TypeTag | Other(spelling: string)

  /** The parameter's name in the constructor's signature. */
  function SnakeName(p: Param): string {
    match p
    case Name => "name"
    case Version => "version"
    case FeaturestoreId => "featurestore_id"
    case Description => "description"
    case PartitionKey => "partition_key"
    case PrimaryKey => "primary_key"
    case FeaturestoreName => "featurestore_name"
    case Created => "created"
    case Creator => "creator"
    case Id => "id"
    case Features => "features"
    case Location => "location"
    case Jobs => "jobs"
    case DescStatsEnabled => "desc_stats_enabled"
    case FeatCorrEnabled => "feat_corr_enabled"
    case FeatHistEnabled => "feat_hist_enabled"
    case StatisticColumns => "statistic_columns"
    case OnlineEnabled => "online_enabled"
    case TimeTravelFormat => "time_travel_format"
    case HudiEnabled => "hudi_enabled"
    case StatisticsConfigParam => "statistics_config"
  }

  /** The parameter's name as the metadata service spells it. */
  function CamelName(p: Param): string {
    match p
    case Name => "name"
    case Version => "version"
    case FeaturestoreId => "featurestoreId"
    case Description => "description"
    case PartitionKey => "partitionKey"
    case PrimaryKey => "primaryKey"
    case FeaturestoreName => "featurestoreName"
    case Created => "created"
    case Creator => "creator"
    case Id => "id"
    case Features => "features"
    case Location => "location"
    case Jobs => "jobs"
    case DescStatsEnabled => "descStatsEnabled"
    case FeatCorrEnabled => "featCorrEnabled"
    case FeatHistEnabled => "featHistEnabled"
    case StatisticColumns => "statisticColumns"
    case OnlineEnabled => "onlineEnabled"
    case TimeTravelFormat => "timeTravelFormat"
    case HudiEnabled => "hudiEnabled"
    case StatisticsConfigParam => "statisticsConfig"
  }

  /** The discriminator the metadata service expects for a cached feature group. */
  const DtoType: string := "cachedFeaturegroupDTO"

  /** The keys `to_dict` emits. */
  const WireKeys: set<Keyword> := {
    Arg(Id), Arg(Name), Arg(Version), Arg(Description), Arg(OnlineEnabled), Arg(TimeTravelFormat),
    Arg(Features), Arg(FeaturestoreId), TypeTag, Arg(DescStatsEnabled), Arg(FeatHistEnabled),
    Arg(FeatCorrEnabled), Arg(StatisticColumns)
  }

  /** The wire representation of a handle, keyed by the parameter each entry binds to (spelled `CamelName` on the wire). */
  function ToDict(s: FgState): (d: map<Keyword, Value>)
    ensures d.Keys == WireKeys
    ensures d[Arg(Id)] == s.id && d[Arg(Name)] == s.name && d[Arg(Version)] == s.version
    ensures d[Arg(Description)] == s.description && d[Arg(FeaturestoreId)] == s.featureStoreId
    ensures d[Arg(OnlineEnabled)] == s.onlineEnabled && d[Arg(TimeTravelFormat)] == s.timeTravelFormat
    ensures d[TypeTag] == Str(DtoType)
    ensures d[Arg(Features)] == FeatureObjs(s.features)
    ensures d[Arg(DescStatsEnabled)] == s.statisticsConfig.enabled
    ensures d[Arg(FeatHistEnabled)] == s.statisticsConfig.histograms
    ensures d[Arg(FeatCorrEnabled)] == s.statisticsConfig.correlations
    ensures d[Arg(StatisticColumns)] == s.statisticsConfig.columns
  {
    map[
      Arg(Id) := s.id,
      Arg(Name) := s.name,
      Arg(Version) := s.version,
      Arg(Description) := s.description,
      Arg(OnlineEnabled) := s.onlineEnabled,
      Arg(TimeTravelFormat) := s.timeTravelFormat,
      Arg(Features) := FeatureObjs(s.features),
      Arg(FeaturestoreId) := s.featureStoreId,
      TypeTag := Str(DtoType),
      Arg(DescStatsEnabled) := s.statisticsConfig.enabled,
      Arg(FeatHistEnabled) := s.statisticsConfig.histograms,
      Arg(FeatCorrEnabled) := s.statisticsConfig.correlations,
      Arg(StatisticColumns) := s.statisticsConfig.columns
    ]
  }

  /** Removing the discriminator from a response; a response without one raises `KeyError`. */
  function StripType(payload: map<Keyword, Value>): (r: Result<map<Keyword, Value>, Error>)
    ensures r.Success? <==> TypeTag in payload
    ensures r.Failure? ==> r.error == KeyError("type")
    ensures r.Success? ==> TypeTag !in r.value && r.value.Keys == payload.Keys - {TypeTag}
    ensures r.Success? ==> forall k :: k in r.value ==> r.value[k] == payload[k]
  {
    if TypeTag in payload then Success(payload - {TypeTag}) else Failure(KeyError("type"))
  }

  /** The parameters without a default value. */
  const RequiredKeys: set<Keyword> := {Arg(Name), Arg(Version), Arg(FeaturestoreId)}

  /** The default of each optional parameter; every one of them is falsy. */
  function Default(p: Param): (d: Value)
    ensures !Truthy(d)
  {
    match p
    case Description => Str("")
    case OnlineEnabled => Bool(false)
    case HudiEnabled => Bool(false)
    case _ => Nil
  }

  /** The argument bound to parameter `p`. */
  function Field(args: InitArgs, p: Param): Value {
    match p
    case Name => args.name
    case Version => args.version
    case FeaturestoreId => args.featurestoreId
    case Description => args.description
    case PartitionKey => args.partitionKey
    case PrimaryKey => args.primaryKey
    case FeaturestoreName => args.featurestoreName
    case Created => args.created
    case Creator => args.creator
    case Id => args.id
    case Features => args.features
    case Location => args.location
    case Jobs => args.jobs
    case DescStatsEnabled => args.descStatsEnabled
    case FeatCorrEnabled => args.featCorrEnabled
    case FeatHistEnabled => args.featHistEnabled
    case StatisticColumns => args.statisticColumns
    case OnlineEnabled => args.onlineEnabled
    case TimeTravelFormat => args.timeTravelFormat
    case HudiEnabled => args.hudiEnabled
    case StatisticsConfigParam => args.statisticsConfig
  }

  function ArgOr(kw: map<Keyword, Value>, p: Param): Value {
    if Arg(p) in kw then kw[Arg(p)] else Default(p)
  }

  /** Every key names a constructor parameter. */
  predicate AllParams(kw: map<Keyword, Value>) {
    forall k :: k in kw ==> k.Arg?
  }

  /**
    Calling the constructor with `**kw`: an unknown keyword or a missing
    required parameter raises `TypeError`; every other parameter takes the
    given value or its default.
  */
  function Bind(kw: map<Keyword, Value>): (r: Result<InitArgs, Error>)
    ensures r.Success? <==> AllParams(kw) && RequiredKeys <= kw.Keys
    ensures r.Failure? ==> r.error.TypeError?
  {
    if !AllParams(kw) then Failure(TypeError("unexpected keyword argument"))
    else if !(RequiredKeys <= kw.Keys) then Failure(TypeError("missing required argument"))
    else Success(InitArgs(
      ArgOr(kw, Name), ArgOr(kw, Version), ArgOr(kw, FeaturestoreId),
      ArgOr(kw, Description), ArgOr(kw, PartitionKey), ArgOr(kw, PrimaryKey),
      ArgOr(kw, FeaturestoreName), ArgOr(kw, Created), ArgOr(kw, Creator),
      ArgOr(kw, Id), ArgOr(kw, Features), ArgOr(kw, Location), ArgOr(kw, Jobs),
      ArgOr(kw, DescStatsEnabled), ArgOr(kw, FeatCorrEnabled),
      ArgOr(kw, FeatHistEnabled), ArgOr(kw, StatisticColumns),
      ArgOr(kw, OnlineEnabled), ArgOr(kw, TimeTravelFormat),
      ArgOr(kw, HudiEnabled), ArgOr(kw, StatisticsConfigParam)))
  }

  /** Each parameter of a successful binding holds its keyword argument, or its default when none is given. */
  lemma BindParams(kw: map<Keyword, Value>, p: Param)
    requires AllParams(kw) && RequiredKeys <= kw.Keys
    ensures Field(Bind(kw).value, p) == ArgOr(kw, p)
  {
  }

  /** The constructor arguments a decoded response (already in snake case) binds to. */
  function ResponseArgs(decamelized: map<Keyword, Value>): (r: Result<InitArgs, Error>)
    ensures TypeTag !in decamelized ==> r == Failure(KeyError("type"))
    ensures TypeTag in decamelized ==> r == Bind(decamelized - {TypeTag})
  {
    var kw :- StripType(decamelized);
    Bind(kw)
  }

  /** Rebuilding a handle from its own wire representation. */
  function Reload(s: FgState, decode: FeatureDecoder): (r: Result<FgState, Error>)
    ensures r.Failure? ==> r.error.TypeError? || r.error.AttributeError?
  {
    var args :- ResponseArgs(ToDict(s));
    InitSpec(args, decode)
  }

  /** The keyword arguments a handle's own wire representation turns into. */
  const ReloadKeys: set<Keyword> := {
    Arg(Id), Arg(Name), Arg(Version), Arg(Description), Arg(OnlineEnabled), Arg(TimeTravelFormat),
    Arg(Features), Arg(FeaturestoreId), Arg(DescStatsEnabled), Arg(FeatHistEnabled),
    Arg(FeatCorrEnabled), Arg(StatisticColumns)
  }

  /** Binding the reload keywords: the carried parameters take their values, the other nine their defaults. */
  lemma BindReloadKeywords(kw: map<Keyword, Value>)
    requires kw.Keys == ReloadKeys
    ensures Bind(kw).Success?
    ensures var a := Bind(kw).value;
      && a.name == kw[Arg(Name)] && a.version == kw[Arg(Version)] && a.id == kw[Arg(Id)]
      && a.description == kw[Arg(Description)] && a.featurestoreId == kw[Arg(FeaturestoreId)]
      && a.onlineEnabled == kw[Arg(OnlineEnabled)] && a.timeTravelFormat == kw[Arg(TimeTravelFormat)]
      && a.features == kw[Arg(Features)]
      && a.descStatsEnabled == kw[Arg(DescStatsEnabled)] && a.featCorrEnabled == kw[Arg(FeatCorrEnabled)]
      && a.featHistEnabled == kw[Arg(FeatHistEnabled)] && a.statisticColumns == kw[Arg(StatisticColumns)]
      && a.primaryKey == Nil && a.partitionKey == Nil && a.statisticsConfig == Nil
      && a.featurestoreName == Nil && a.created == Nil && a.creator == Nil
      && a.location == Nil && a.jobs == Nil && a.hudiEnabled == Bool(false)
  {
    ReloadKeysBind(kw);
    ReloadKeysCarried(kw);
    ReloadKeysAbsent(kw);
  }

  lemma ReloadKeysBind(kw: map<Keyword, Value>)
    requires kw.Keys == ReloadKeys
    ensures AllParams(kw) && RequiredKeys <= kw.Keys
  {
  }

  lemma ReloadKeysCarried(kw: map<Keyword, Value>)
    requires kw.Keys == ReloadKeys
    ensures Arg(Id) in kw && Arg(Description) in kw && Arg(OnlineEnabled) in kw && Arg(TimeTravelFormat) in kw
    ensures Arg(Features) in kw && Arg(DescStatsEnabled) in kw && Arg(FeatCorrEnabled) in kw
    ensures Arg(FeatHistEnabled) in kw && Arg(StatisticColumns) in kw
  {
  }

  lemma ReloadKeysAbsent(kw: map<Keyword, Value>)
    requires kw.Keys == ReloadKeys
    ensures Arg(PrimaryKey) !in kw && Arg(PartitionKey) !in kw && Arg(StatisticsConfigParam) !in kw
    ensures Arg(FeaturestoreName) !in kw && Arg(Created) !in kw && Arg(Creator) !in kw
    ensures Arg(Location) !in kw && Arg(Jobs) !in kw && Arg(HudiEnabled) !in kw
  {
  }

  /** The arguments a handle's own wire representation binds to. */
  lemma ReloadArgs(s: FgState)
    ensures ResponseArgs(ToDict(s)).Success?
    ensures var a := ResponseArgs(ToDict(s)).value;
      && a.name == s.name && a.version == s.version && a.id == s.id
      && a.description == s.description && a.featurestoreId == s.featureStoreId
      && a.onlineEnabled == s.onlineEnabled && a.timeTravelFormat == s.timeTravelFormat
      && a.features == FeatureObjs(s.features)
      && a.descStatsEnabled == s.statisticsConfig.enabled
      && a.featCorrEnabled == s.statisticsConfig.correlations
      && a.featHistEnabled == s.statisticsConfig.histograms
      && a.statisticColumns == s.statisticsConfig.columns
      && a.primaryKey == Nil && a.partitionKey == Nil && a.statisticsConfig == Nil
      && a.featurestoreName == Nil && a.created == Nil && a.creator == Nil
      && a.location == Nil && a.jobs == Nil && a.hudiEnabled == Bool(false)
  {
    var kw := ToDict(s) - {TypeTag};
    assert kw.Keys == ReloadKeys;
    BindReloadKeywords(kw);
  }

  /** Every feature written to the wire comes back as the same feature. */
  lemma ReloadFeatures(fs: seq<Feature>, decode: FeatureDecoder)
    ensures DecodeFeatures(FeatureObjs(fs), decode) == Success(fs)
  {
    var r := DecodeFeatures(FeatureObjs(fs), decode);
    assert r.Success?;
    assert r.value == fs;
  }

  /**
    A saved handle (one with an id) survives the trip through its wire
    representation: identity, schema, statistics configuration and flags
    come back, the keys are re-derived from the schema, and the fields the
    wire format does not carry return to their defaults.
  */
  lemma SavedHandleRoundTrip(s: FgState, decode: FeatureDecoder)
    requires !s.id.Nil?
    requires s.timeTravelFormat.Nil? || s.timeTravelFormat.Str?
    ensures Reload(s, decode).Success?
    ensures var t := Reload(s, decode).value;
      && t.name == s.name && t.version == s.version && t.id == s.id
      && t.description == s.description && t.featureStoreId == s.featureStoreId
      && t.onlineEnabled == s.onlineEnabled
      && t.features == s.features
      && t.statisticsConfig == s.statisticsConfig
      && t.timeTravelFormat == UpperFormat(s.timeTravelFormat).value
      && t.primaryKey == Strs(KeyNames(s.features, Primary))
      && t.partitionKey == Strs(KeyNames(s.features, Partition))
      && t.featureStoreName == Nil && t.created == Nil && t.creator == Nil
      && t.location == Nil && t.jobs == Nil && t.hudiEnabled == Bool(false)
  {
    ReloadArgs(s);
    ReloadFeatures(s.features, decode);
    InitSpecSuccess(ResponseArgs(ToDict(s)).value, decode);
  }

  /**
    A handle that was itself built from backend data comes back with the
    same keys and the same time-travel format: reloading changes nothing the
    wire format carries.
  */
  lemma BackendHandleReloadsExactly(args: InitArgs, decode: FeatureDecoder)
    requires !args.id.Nil? && InitSpec(args, decode).Success?
    ensures var s := InitSpec(args, decode).value;
      && Reload(s, decode).Success?
      && Reload(s, decode).value == s.(featureStoreName := Nil, created := Nil, creator := Nil,
                                       location := Nil, jobs := Nil, hudiEnabled := Bool(false))
  {
    var s := InitSpec(args, decode).value;
    StoredFormatIsUpperCase(args, decode);
    BackendPathDerivesKeys(args, decode);
    SavedHandleRoundTrip(s, decode);
  }

  /**
    An unsaved handle (no id) does not survive the trip: the statistics
    configuration falls back to the default and both keys to `None`,
    because the user path reads neither from the flat wire fields.
  */
  lemma UnsavedHandleLosesConfig(s: FgState, decode: FeatureDecoder)
    requires s.id.Nil?
    requires s.timeTravelFormat.Nil? || s.timeTravelFormat.Str?
    ensures Reload(s, decode).Success?
    ensures var t := Reload(s, decode).value;
      && t.statisticsConfig == DefaultStatisticsConfig
      && t.primaryKey == Nil && t.partitionKey == Nil
      && t.features == s.features
  {
    ReloadArgs(s);
    ReloadFeatures(s.features, decode);
  }
}
