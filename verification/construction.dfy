/**
  What the feature-group constructor stores, as a pure function of its
  arguments. A handle is built either from backend data (`id` is set: the
  keys are derived from the schema and the statistics configuration from
  the four flat statistics fields) or by a user (`id` is `None`: keys and
  configuration are taken from the arguments).
*/
module Construction {
  import opened Wrappers
  import opened Values
  import opened Text
  import opened Keys
  import opened StatisticsConfigs

  /** The constructor's keyword arguments, one field per parameter. */
  datatype InitArgs = InitArgs(
    name: Value,
    version: Value,
    featurestoreId: Value,
    description: Value,
    partitionKey: Value,
    primaryKey: Value,
    featurestoreName: Value,
    created: Value,
    creator: Value,
    id: Value,
    features: Value,
    location: Value,
    jobs: Value,
    descStatsEnabled: Value,
    featCorrEnabled: Value,
    featHistEnabled: Value,
    statisticColumns: Value,
    onlineEnabled: Value,
    timeTravelFormat: Value,
    hudiEnabled: Value,
    statisticsConfig: Value)

  /** The fields of a handle. */
  datatype FgState = FgState(
    featureStoreId: Value,
    featureStoreName: Value,
    description: Value,
    created: Value,
    creator: Value,
    version: Value,
    name: Value,
    id: Value,
    features: seq<Feature>,
    location: Value,
    jobs: Value,
    onlineEnabled: Value,
    timeTravelFormat: Value,
    hudiEnabled: Value,
    statisticsConfig: StatisticsConfig,
    primaryKey: Value,
    partitionKey: Value)

  /** The feature class's decoder for a feature given as a dictionary; it is not part of this model. */
  type FeatureDecoder = map<string, Value> -> Feature

  /** One schema entry: a feature object as it is, a dictionary decoded. */
  function DecodeItem(item: Value, decode: FeatureDecoder): Option<Feature> {
    match item
    case FeatureObj(f) => Some(f)
    case Dict(d) => Some(decode(d))
    case _ => None
  }

  /** The schema list, entry by entry; every entry must be a feature or a dictionary. */
  function DecodeItems(items: seq<Value>, decode: FeatureDecoder): (r: Result<seq<Feature>, Error>)
    ensures r.Success? <==> forall i :: 0 <= i < |items| ==> DecodeItem(items[i], decode).Some?
    ensures r.Failure? ==> r.error == TypeError("features")
    ensures r.Success? ==> |r.value| == |items|
    ensures r.Success? ==> forall i :: 0 <= i < |items| ==> r.value[i] == DecodeItem(items[i], decode).value
  {
    if items == [] then Success([])
    else
      match DecodeItem(items[0], decode)
      case None => Failure(TypeError("features"))
      case Some(f) =>
        match DecodeItems(items[1..], decode)
        case Failure(e) => Failure(e)
        case Success(rest) =>
          assert forall i :: 1 <= i < |items| ==> items[i] == items[1..][i - 1];
          Success([f] + rest)
  }

  /** The `features` argument; `None` cannot be iterated. */
  function DecodeFeatures(v: Value, decode: FeatureDecoder): (r: Result<seq<Feature>, Error>)
    ensures v.Nil? ==> r == Failure(TypeError("features"))
    ensures r.Success? ==> v.List? && r == DecodeItems(v.items, decode)
  {
    match v
    case List(items) => DecodeItems(items, decode)
    case _ => Failure(TypeError("features"))
  }

  /** The stored time-travel format: upper-cased, `None` kept; other values have no `upper`. */
  function UpperFormat(v: Value): (r: Result<Value, Error>)
    ensures v.Nil? ==> r == Success(Nil)
    ensures v.Str? ==> r == Success(Str(Upper(v.s))) && IsUpperCase(Upper(v.s))
    ensures !(v.Nil? || v.Str?) ==> r == Failure(AttributeError("time_travel_format"))
  {
    match v
    case Nil => Success(Nil)
    case Str(s) => UpperIsUpperCase(s); Success(Str(Upper(s)))
    case _ => Failure(AttributeError("time_travel_format"))
  }

  /** The configuration a backend-built handle gets from the four flat statistics fields. */
  function BackendConfig(args: InitArgs): StatisticsConfig {
    StatisticsConfig(args.descStatsEnabled, args.featCorrEnabled, args.featHistEnabled, args.statisticColumns)
  }

  /**
    The fields the constructor stores, or the error it raises first: the
    schema is read before the time-travel format, and that before the
    statistics configuration. Its properties are the lemmas below.
  */
  function InitSpec(args: InitArgs, decode: FeatureDecoder): (r: Result<FgState, Error>)
    ensures r.Failure? ==> r.error.TypeError? || r.error.AttributeError?
  {
    var features :- DecodeFeatures(args.features, decode);
    var format :- UpperFormat(args.timeTravelFormat);
    var config :- if !args.id.Nil? then NormaliseConfig(ConfigObj(BackendConfig(args)))
                  else NormaliseConfig(args.statisticsConfig);
    var primaryKey := if !args.id.Nil? then Strs(KeyNames(features, Primary)) else args.primaryKey;
    var partitionKey := if !args.id.Nil? then Strs(KeyNames(features, Partition)) else args.partitionKey;
    Success(FgState(
      args.featurestoreId, args.featurestoreName, args.description, args.created, args.creator,
      args.version, args.name, args.id, features, args.location, args.jobs, args.onlineEnabled,
      format, args.hudiEnabled, config, primaryKey, partitionKey))
  }

  /** The constructor fails exactly when one of its three checked steps fails; `None` features fail first. */
  lemma InitErrors(args: InitArgs, decode: FeatureDecoder)
    ensures InitSpec(args, decode).Success? <==>
      && DecodeFeatures(args.features, decode).Success?
      && UpperFormat(args.timeTravelFormat).Success?
      && (args.id.Nil? ==> NormaliseConfig(args.statisticsConfig).Success?)
    ensures args.features.Nil? ==> InitSpec(args, decode) == Failure(TypeError("features"))
  {
  }

  /** The constructor stores its plain arguments as given and the time-travel format upper-cased. */
  lemma InitCopiesArguments(args: InitArgs, decode: FeatureDecoder)
    requires InitSpec(args, decode).Success?
    ensures var s := InitSpec(args, decode).value;
      && s.features == DecodeFeatures(args.features, decode).value
      && s.timeTravelFormat == (if args.timeTravelFormat.Nil? then Nil else Str(Upper(args.timeTravelFormat.s)))
      && s.name == args.name && s.version == args.version && s.id == args.id
      && s.featureStoreId == args.featurestoreId && s.featureStoreName == args.featurestoreName
      && s.description == args.description && s.created == args.created
      && s.creator == args.creator && s.location == args.location && s.jobs == args.jobs
      && s.onlineEnabled == args.onlineEnabled && s.hudiEnabled == args.hudiEnabled
  {
  }

  /**
    Built from backend data, the handle derives both keys from the schema
    and builds its configuration from the four flat statistics fields.
  */
  lemma BackendPathDerivesKeys(args: InitArgs, decode: FeatureDecoder)
    requires !args.id.Nil? && InitSpec(args, decode).Success?
    ensures var s := InitSpec(args, decode).value;
      && s.primaryKey == Strs(KeyNames(s.features, Primary))
      && s.partitionKey == Strs(KeyNames(s.features, Partition))
      && s.statisticsConfig == StatisticsConfig(args.descStatsEnabled, args.featCorrEnabled, args.featHistEnabled, args.statisticColumns)
  {
  }

  /**
    Built by a user, the handle stores both keys verbatim and its
    configuration through the normalising setter.
  */
  lemma UserPathTakesArguments(args: InitArgs, decode: FeatureDecoder)
    requires args.id.Nil? && InitSpec(args, decode).Success?
    ensures var s := InitSpec(args, decode).value;
      && s.primaryKey == args.primaryKey
      && s.partitionKey == args.partitionKey
      && NormaliseConfig(args.statisticsConfig) == Success(s.statisticsConfig)
  {
  }

  /** The steps of `InitSpec`, in the order the constructor takes them. */
  lemma InitSpecSteps(args: InitArgs, decode: FeatureDecoder)
    ensures DecodeFeatures(args.features, decode).Failure? ==>
      InitSpec(args, decode) == Failure(DecodeFeatures(args.features, decode).error)
    ensures DecodeFeatures(args.features, decode).Success? && UpperFormat(args.timeTravelFormat).Failure? ==>
      InitSpec(args, decode) == Failure(UpperFormat(args.timeTravelFormat).error)
    ensures DecodeFeatures(args.features, decode).Success? && UpperFormat(args.timeTravelFormat).Success?
            && args.id.Nil? && NormaliseConfig(args.statisticsConfig).Failure? ==>
      InitSpec(args, decode) == Failure(NormaliseConfig(args.statisticsConfig).error)
  {
  }

  /** The configuration the constructor stores, when it stores one. */
  function ConfigOf(args: InitArgs): Result<StatisticsConfig, Error> {
    if !args.id.Nil? then Success(BackendConfig(args)) else NormaliseConfig(args.statisticsConfig)
  }

  /** The fields the constructor stores when every step succeeds. */
  lemma InitSpecSuccess(args: InitArgs, decode: FeatureDecoder)
    requires DecodeFeatures(args.features, decode).Success?
    requires UpperFormat(args.timeTravelFormat).Success?
    requires ConfigOf(args).Success?
    ensures var features := DecodeFeatures(args.features, decode).value;
      InitSpec(args, decode) == Success(FgState(
        args.featurestoreId, args.featurestoreName, args.description, args.created, args.creator,
        args.version, args.name, args.id, features, args.location, args.jobs, args.onlineEnabled,
        UpperFormat(args.timeTravelFormat).value, args.hudiEnabled, ConfigOf(args).value,
        if !args.id.Nil? then Strs(KeyNames(features, Primary)) else args.primaryKey,
        if !args.id.Nil? then Strs(KeyNames(features, Partition)) else args.partitionKey))
  {
  }

  /** Built from backend data, the handle ignores any key or configuration arguments. */
  lemma BackendIgnoresUserKeys(args: InitArgs, pk: Value, part: Value, config: Value, decode: FeatureDecoder)
    requires !args.id.Nil?
    ensures InitSpec(args.(primaryKey := pk, partitionKey := part, statisticsConfig := config), decode) == InitSpec(args, decode)
  {
  }

  /** Built by a user, the handle ignores the four flat statistics fields. */
  lemma UserIgnoresFlatStatistics(args: InitArgs, e: Value, c: Value, h: Value, cols: Value, decode: FeatureDecoder)
    requires args.id.Nil?
    ensures InitSpec(args.(descStatsEnabled := e, featCorrEnabled := c, featHistEnabled := h, statisticColumns := cols), decode)
         == InitSpec(args, decode)
  {
  }

  /** Built from backend data, every key names a feature of the schema. */
  lemma BackendKeysAreFeatureNames(args: InitArgs, decode: FeatureDecoder)
    requires !args.id.Nil? && InitSpec(args, decode).Success?
    ensures var s := InitSpec(args, decode).value;
            && (forall n :: Str(n) in s.primaryKey.items ==> n in Names(s.features))
            && (forall n :: Str(n) in s.partitionKey.items ==> n in Names(s.features))
  {
    var s := InitSpec(args, decode).value;
    KeyNamesAreFeatureNames(s.features, Primary);
    KeyNamesAreFeatureNames(s.features, Partition);
    forall n | Str(n) in s.primaryKey.items
      ensures n in Names(s.features)
    {
      var i :| 0 <= i < |s.primaryKey.items| && s.primaryKey.items[i] == Str(n);
      assert n == KeyNames(s.features, Primary)[i];
    }
    forall n | Str(n) in s.partitionKey.items
      ensures n in Names(s.features)
    {
      var i :| 0 <= i < |s.partitionKey.items| && s.partitionKey.items[i] == Str(n);
      assert n == KeyNames(s.features, Partition)[i];
    }
  }

  /** The stored time-travel format is upper-case, and storing it again changes nothing. */
  lemma StoredFormatIsUpperCase(args: InitArgs, decode: FeatureDecoder)
    requires InitSpec(args, decode).Success?
    ensures var f := InitSpec(args, decode).value.timeTravelFormat;
            (f.Nil? || (f.Str? && IsUpperCase(f.s))) && UpperFormat(f) == Success(f)
  {
    var f := InitSpec(args, decode).value.timeTravelFormat;
    if f.Str? {
      UpperIdempotent(args.timeTravelFormat.s);
    }
  }
}
