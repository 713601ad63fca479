/**
  Normalisation of the `statistics_config` argument: the handle accepts a
  configuration object, a dictionary of its attributes, a boolean, or
  `None`, and rejects everything else with a `TypeError`.
*/
module StatisticsConfigs {
  import opened Wrappers
  import opened Values

  /**
    The configuration `StatisticsConfig()` builds with no arguments. The
    configuration class is not part of this model, so its defaults are left
    unspecified.
  */
  const DefaultStatisticsConfig: StatisticsConfig

  /** The keyword arguments the configuration class accepts. */
  const ConfigKeys: set<string> := {"enabled", "correlations", "histograms", "columns"}

  function EntryOr(entries: map<string, Value>, key: string, default: Value): Value {
    if key in entries then entries[key] else default
  }

  /** `StatisticsConfig(**entries)`: each given attribute overrides its default. */
  function FromKeywords(entries: map<string, Value>): (r: Result<StatisticsConfig, Error>)
    ensures r.Success? <==> entries.Keys <= ConfigKeys
    ensures r.Failure? ==> r.error == TypeError("statistics_config")
    ensures r.Success? ==>
      && r.value.enabled == EntryOr(entries, "enabled", DefaultStatisticsConfig.enabled)
      && r.value.correlations == EntryOr(entries, "correlations", DefaultStatisticsConfig.correlations)
      && r.value.histograms == EntryOr(entries, "histograms", DefaultStatisticsConfig.histograms)
      && r.value.columns == EntryOr(entries, "columns", DefaultStatisticsConfig.columns)
  {
    if !(entries.Keys <= ConfigKeys) then Failure(TypeError("statistics_config"))
    else
      var d := DefaultStatisticsConfig;
      Success(StatisticsConfig(
        EntryOr(entries, "enabled", d.enabled),
        EntryOr(entries, "correlations", d.correlations),
        EntryOr(entries, "histograms", d.histograms),
        EntryOr(entries, "columns", d.columns)))
  }

  /** The value the `statistics_config` setter stores for `v`, or the error it raises. */
  function NormaliseConfig(v: Value): (r: Result<StatisticsConfig, Error>)
    ensures v.ConfigObj? ==> r == Success(v.config)
    ensures v.Dict? ==> r == FromKeywords(v.entries)
    ensures v.Bool? ==> r == Success(DefaultStatisticsConfig.(enabled := v))
    ensures v.Nil? ==> r == Success(DefaultStatisticsConfig)
    ensures (v.Int? || v.Str? || v.List? || v.FeatureObj?) ==> r == Failure(TypeError("statistics_config"))
  {
    match v
    case ConfigObj(c) => Success(c)
    case Dict(entries) => FromKeywords(entries)
    case Bool(_) => Success(DefaultStatisticsConfig.(enabled := v))
    case Nil => Success(DefaultStatisticsConfig)
    case _ => Failure(TypeError("statistics_config"))
  }

  /** Normalising is idempotent: feeding a stored configuration back stores it unchanged. */
  lemma NormaliseStable(v: Value)
    requires NormaliseConfig(v).Success?
    ensures NormaliseConfig(ConfigObj(NormaliseConfig(v).value)) == NormaliseConfig(v)
  {
  }

  /** The boolean shorthand switches statistics on exactly when it is true. */
  lemma BoolShorthandEnables(b: bool)
    ensures NormaliseConfig(Bool(b)).Success?
    ensures Truthy(NormaliseConfig(Bool(b)).value.enabled) == b
  {
  }

  /** A dictionary naming all four attributes fixes the whole configuration. */
  lemma FullDictDeterminesConfig(e: Value, c: Value, h: Value, cols: Value)
    ensures NormaliseConfig(Dict(map["enabled" := e, "correlations" := c, "histograms" := h, "columns" := cols]))
         == Success(StatisticsConfig(e, c, h, cols))
  {
    var entries := map["enabled" := e, "correlations" := c, "histograms" := h, "columns" := cols];
    assert entries.Keys == ConfigKeys;
  }

  /** A dictionary with any key the configuration class does not know is rejected. */
  lemma UnknownDictKeyRejected(entries: map<string, Value>, k: string)
    requires k in entries && k !in ConfigKeys
    ensures NormaliseConfig(Dict(entries)) == Failure(TypeError("statistics_config"))
  {
  }
}
