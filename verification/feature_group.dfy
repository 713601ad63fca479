/**
  The feature-group handle. Its fields are updated in place by the
  constructor and the setters; its other operations hand work to three
  collaborators (the feature-group engine, the statistics engine and the
  query builder), which are represented by the trace `calls` of requests
  made to them, in order. Warnings the handle emits are logged in
  `warnings`. A collaborator's reply is opaque: `Reply(k)` is whatever the
  call at position `k` of the trace returned.
*/
module FeatureGroups {
  import opened Wrappers
  import opened Values
  import opened Text
  import opened Keys
  import opened StatisticsConfigs
  import opened Construction
  import opened Wire

  /** The value returned by the collaborator call at position `call` of the trace. */
  datatype Reply = Reply(call: nat)

  /** A dataframe handed to a collaborator. */
  datatype Frame =
    | Converted(input: nat)   // the caller's data `input`, converted to the engine's default dataframe
    | Given(input: nat)       // the caller's data `input`, passed on as it is
    | Returned(reply: Reply)  // a dataframe a collaborator returned

  /** A query built on `select_all()`, with at most one time-travel step. */
  datatype Query =
    | SelectAll
    | AsOf(wallclockTime: Value)
    | PullChanges(start: Value, end: Value)

  /** A request to a collaborator; the handle itself is an implicit argument of each. */
  datatype Call =
    | EngineSave(frame: Frame, writeOptions: Value)
    | EngineInsert(frame: Frame, overwrite: Value, operation: Value, storage: Value, writeOptions: Value)
    | EngineCommitDetails(limit: Value)
    | EngineCommitDelete(frame: Frame, writeOptions: Value)
    | EngineUpdateStatisticsConfig
    | EngineUpdateDescription(description: Value)
    | EngineAppendFeatures(features: seq<Feature>)
    | StatisticsCompute(frame: Frame)
    | StatisticsGetLast
    | StatisticsGet(commitTime: Value)
    | QueryRead(query: Query, online: Value, dataframeType: Value, readOptions: Value)
    | QueryShow(query: Query, n: Value, online: Value)

  /** An advisory warning; each carries the handle's name and version when it was raised. */
  datatype Warning =
    | VersionWarning(name: Value, version: Value)
    | StatisticsDisabledWarning(name: Value, version: Value)

  /** The query `read` runs: time travel only for a truthy wall-clock time. */
  function ReadQuery(wallclockTime: Value): (q: Query)
    ensures q.AsOf? <==> Truthy(wallclockTime)
    ensures q.AsOf? ==> q.wallclockTime == wallclockTime
  {
    if Truthy(wallclockTime) then AsOf(wallclockTime) else SelectAll
  }

  /** The read `compute_statistics` issues: `read()` with all its defaults. */
  function ReadAll(): Call {
    QueryRead(SelectAll, Bool(false), Str("default"), Dict(map[]))
  }

  /**
    The calls `compute_statistics` makes when the trace so far has `start`
    entries: read everything, then compute statistics over what the read
    returned; nothing when statistics are disabled.
  */
  function StatisticsRun(config: StatisticsConfig, start: nat): (cs: seq<Call>)
    ensures Truthy(config.enabled) <==> cs != []
    ensures cs != [] ==> cs == [ReadAll(), StatisticsCompute(Returned(Reply(start)))]
  {
    if Truthy(config.enabled) then [ReadAll(), StatisticsCompute(Returned(Reply(start)))] else []
  }

  /** The `storage` argument as the engine receives it: lower-cased, `None` kept. */
  function StorageArg(storage: Value): (r: Result<Value, Error>)
    ensures storage.Nil? ==> r == Success(Nil)
    ensures storage.Str? ==> r == Success(Str(Lower(storage.s))) && IsLowerCase(Lower(storage.s))
    ensures !(storage.Nil? || storage.Str?) ==> r == Failure(AttributeError("storage"))
  {
    match storage
    case Nil => Success(Nil)
    case Str(s) => LowerIsLowerCase(s); Success(Str(Lower(s)))
    case _ => Failure(AttributeError("storage"))
  }

  predicate AllFeatures(items: seq<Value>) {
    forall i :: 0 <= i < |items| ==> items[i].FeatureObj?
  }

  function Unwrap(items: seq<Value>): (fs: seq<Feature>)
    requires AllFeatures(items)
  {
    seq(|items|, i requires 0 <= i < |items| && AllFeatures(items) => items[i].feature)
  }

  /**
    The features `append_features` passes on for a list argument, checked
    one element at a time; any element that is not a feature rejects the
    whole list.
  */
  method CollectFeatures(items: seq<Value>) returns (r: Result<seq<Feature>, Error>)
    ensures r.Success? <==> AllFeatures(items)
    ensures r.Success? ==> |r.value| == |items| && forall i :: 0 <= i < |items| ==> r.value[i] == items[i].feature
    ensures r.Failure? ==> r.error == TypeError("features")
  {
    var newFeatures: seq<Feature> := [];
    for i := 0 to |items|
      invariant |newFeatures| == i
      invariant forall j :: 0 <= j < i ==> items[j].FeatureObj? && newFeatures[j] == items[j].feature
    {
      if items[i].FeatureObj? {
        newFeatures := newFeatures + [items[i].feature];
      } else {
        return Failure(TypeError("features"));
      }
    }
    return Success(newFeatures);
  }

  /** The features `append_features` passes to the engine for a valid argument. */
  function AppendedFeatures(features: Value): seq<Feature>
    requires features.FeatureObj? || (features.List? && AllFeatures(features.items))
  {
    if features.FeatureObj? then [features.feature] else Unwrap(features.items)
  }

  class FeatureGroup {
    var featureStoreId: Value
    var featureStoreName: Value
    var description: Value
    var created: Value
    var creator: Value
    var version: Value
    var name: Value
    var id: Value
    var features: seq<Feature>
    var location: Value
    var jobs: Value
    var onlineEnabled: Value
    var timeTravelFormat: Value
    var hudiEnabled: Value
    var statisticsConfig: StatisticsConfig
    var primaryKey: Value
    var partitionKey: Value

    /** Requests made to the collaborators, oldest first. */
    var calls: seq<Call>
    /** Warnings raised, oldest first. */
    var warnings: seq<Warning>

    /** The handle's fields as one value. */
    function State(): FgState
      reads this
    {
      FgState(featureStoreId, featureStoreName, description, created, creator, version, name, id,
              features, location, jobs, onlineEnabled, timeTravelFormat, hudiEnabled,
              statisticsConfig, primaryKey, partitionKey)
    }

    /** A handle whose constructor has not run yet: every field unset. */
    constructor Allocate()
      ensures State() == FgState(Nil, Nil, Nil, Nil, Nil, Nil, Nil, Nil, [], Nil, Nil, Nil, Nil, Nil,
                                 DefaultStatisticsConfig, Nil, Nil)
      ensures calls == [] && warnings == []
    {
      featureStoreId, featureStoreName, description, created, creator := Nil, Nil, Nil, Nil, Nil;
      version, name, id, features, location, jobs := Nil, Nil, Nil, [], Nil, Nil;
      onlineEnabled, timeTravelFormat, hudiEnabled := Nil, Nil, Nil;
      statisticsConfig, primaryKey, partitionKey := DefaultStatisticsConfig, Nil, Nil;
      calls, warnings := [], [];
    }

    /**
      The constructor body, run on this handle. The steps that can raise
      run in the constructor's order (schema, time-travel format,
      statistics configuration); the fields are committed once every step
      has succeeded, so a failed run leaves the handle as it was.
    */
    method Init(args: InitArgs, decode: FeatureDecoder) returns (err: Option<Error>)
      modifies this
      ensures InitSpec(args, decode).Success? ==> err == None && State() == InitSpec(args, decode).value
      ensures InitSpec(args, decode).Failure? ==>
        err == Some(InitSpec(args, decode).error) && State() == old(State())
      ensures calls == old(calls) && warnings == old(warnings)
    {
      var decoded := DecodeFeatures(args.features, decode);
      if decoded.Failure? {
        InitSpecSteps(args, decode);
        return Some(decoded.error);
      }
      var format := UpperFormat(args.timeTravelFormat);
      if format.Failure? {
        InitSpecSteps(args, decode);
        return Some(format.error);
      }
      var config := ConfigOf(args);
      if config.Failure? {
        InitSpecSteps(args, decode);
        return Some(config.error);
      }
      var schema := decoded.value;
      // Built from backend data, the keys are derived from the stored schema.
      var primary := if !args.id.Nil? then Strs(KeyNames(schema, Primary)) else args.primaryKey;
      var partition := if !args.id.Nil? then Strs(KeyNames(schema, Partition)) else args.partitionKey;
      var s := FgState(args.featurestoreId, args.featurestoreName, args.description, args.created, args.creator,
                       args.version, args.name, args.id, schema, args.location, args.jobs, args.onlineEnabled,
                       format.value, args.hudiEnabled, config.value, primary, partition);
      Commit(s);
      InitSpecSuccess(args, decode);
      return None;
    }

    /** Stores every field of `s` on this handle, a group of fields at a time. */
    method Commit(s: FgState)
      modifies this
      ensures State() == s
      ensures calls == old(calls) && warnings == old(warnings)
    {
      CommitOwnership(s);
      CommitSchema(s);
    }

    /** Stores the identity and ownership fields of `s`. */
    method CommitOwnership(s: FgState)
      modifies this`featureStoreId, this`featureStoreName, this`description, this`created, this`creator, this`version, this`name, this`id
      ensures featureStoreId == s.featureStoreId && featureStoreName == s.featureStoreName && description == s.description
      ensures created == s.created && creator == s.creator && version == s.version
      ensures name == s.name && id == s.id
    {
      featureStoreId := s.featureStoreId;
      featureStoreName := s.featureStoreName;
      description := s.description;
      created := s.created;
      creator := s.creator;
      version := s.version;
      name := s.name;
      id := s.id;
    }

    /** Stores the schema, storage, statistics and key fields of `s`. */
    method CommitSchema(s: FgState)
      modifies this`features, this`location, this`jobs, this`onlineEnabled, this`timeTravelFormat,
               this`hudiEnabled, this`statisticsConfig, this`primaryKey, this`partitionKey
      ensures features == s.features && location == s.location && jobs == s.jobs
      ensures onlineEnabled == s.onlineEnabled && timeTravelFormat == s.timeTravelFormat && hudiEnabled == s.hudiEnabled
      ensures statisticsConfig == s.statisticsConfig && primaryKey == s.primaryKey && partitionKey == s.partitionKey
    {
      features := s.features;
      location := s.location;
      jobs := s.jobs;
      onlineEnabled := s.onlineEnabled;
      timeTravelFormat := s.timeTravelFormat;
      hudiEnabled := s.hudiEnabled;
      statisticsConfig := s.statisticsConfig;
      primaryKey := s.primaryKey;
      partitionKey := s.partitionKey;
    }

    /** Constructing a handle: a fresh object, or the error the constructor raises. */
    static method New(args: InitArgs, decode: FeatureDecoder) returns (r: Result<FeatureGroup, Error>)
      ensures r.Success? <==> InitSpec(args, decode).Success?
      ensures r.Success? ==> fresh(r.value) && r.value.State() == InitSpec(args, decode).value
      ensures r.Success? ==> r.value.calls == [] && r.value.warnings == []
      ensures r.Failure? ==> r.error == InitSpec(args, decode).error
    {
      var fg := new FeatureGroup.Allocate();
      var err := fg.Init(args, decode);
      if err.Some? {
        return Failure(err.value);
      }
      return Success(fg);
    }

    /** A handle from a backend response whose keys are already in snake case. */
    static method FromResponseJson(decamelized: map<Keyword, Value>, decode: FeatureDecoder)
      returns (r: Result<FeatureGroup, Error>)
      ensures TypeTag !in decamelized ==> r == Failure(KeyError("type"))
      ensures r.Success? <==> ResponseArgs(decamelized).Success? && InitSpec(ResponseArgs(decamelized).value, decode).Success?
      ensures r.Success? ==> fresh(r.value) && r.value.State() == InitSpec(ResponseArgs(decamelized).value, decode).value
      ensures r.Success? ==> r.value.calls == [] && r.value.warnings == []
      ensures r.Failure? ==> r.error == (if ResponseArgs(decamelized).Failure? then ResponseArgs(decamelized).error
                                         else InitSpec(ResponseArgs(decamelized).value, decode).error)
    {
      var args := ResponseArgs(decamelized);
      if args.Failure? {
        return Failure(args.error);
      }
      r := New(args.value, decode);
    }

    /** Re-running the constructor on this handle with a backend response. */
    method UpdateFromResponseJson(decamelized: map<Keyword, Value>, decode: FeatureDecoder)
      returns (r: Result<FeatureGroup, Error>)
      modifies this
      ensures ResponseArgs(decamelized).Failure? ==> r == Failure(ResponseArgs(decamelized).error) && State() == old(State())
      ensures ResponseArgs(decamelized).Success? ==>
        var spec := InitSpec(ResponseArgs(decamelized).value, decode);
        && (spec.Success? ==> r == Success(this) && State() == spec.value)
        && (spec.Failure? ==> r == Failure(spec.error))
      ensures calls == old(calls) && warnings == old(warnings)
    {
      var args := ResponseArgs(decamelized);
      if args.Failure? {
        return Failure(args.error);
      }
      var err := Init(args.value, decode);
      if err.Some? {
        return Failure(err.value);
      }
      return Success(this);
    }

    /** The `statistics_config` setter; on `TypeError` the stored configuration is kept. */
    method SetStatisticsConfig(config: Value) returns (err: Option<Error>)
      modifies this`statisticsConfig
      ensures NormaliseConfig(config).Success? ==>
        err == None && State() == old(State()).(statisticsConfig := NormaliseConfig(config).value)
      ensures NormaliseConfig(config).Failure? ==>
        err == Some(NormaliseConfig(config).error) && State() == old(State())
    {
      var normalised := NormaliseConfig(config);
      if normalised.Failure? {
        return Some(normalised.error);
      }
      statisticsConfig := normalised.value;
      return None;
    }

    method SetVersion(newVersion: Value)
      modifies this`version
      ensures State() == old(State()).(version := newVersion)
    {
      version := newVersion;
    }

    method SetDescription(newDescription: Value)
      modifies this`description
      ensures State() == old(State()).(description := newDescription)
    {
      description := newDescription;
    }

    method SetFeatures(newFeatures: seq<Feature>)
      modifies this`features
      ensures State() == old(State()).(features := newFeatures)
    {
      features := newFeatures;
    }

    /** The setter stores the format as given: unlike the constructor, it does not upper-case. */
    method SetTimeTravelFormat(newFormat: Value)
      modifies this`timeTravelFormat
      ensures State() == old(State()).(timeTravelFormat := newFormat)
    {
      timeTravelFormat := newFormat;
    }

    method SetPrimaryKey(newPrimaryKey: Value)
      modifies this`primaryKey
      ensures State() == old(State()).(primaryKey := newPrimaryKey)
    {
      primaryKey := newPrimaryKey;
    }

    method SetPartitionKey(newPartitionKey: Value)
      modifies this`partitionKey
      ensures State() == old(State()).(partitionKey := newPartitionKey)
    {
      partitionKey := newPartitionKey;
    }

    method SetOnlineEnabled(newOnlineEnabled: Value)
      modifies this`onlineEnabled
      ensures State() == old(State()).(onlineEnabled := newOnlineEnabled)
    {
      onlineEnabled := newOnlineEnabled;
    }

    /** Reading the feature group, as of `wallclockTime` when that is truthy, else the latest state. */
    method Read(wallclockTime: Value, online: Value, dataframeType: Value, readOptions: Value) returns (r: Reply)
      modifies this`calls
      ensures calls == old(calls) + [QueryRead(ReadQuery(wallclockTime), online, dataframeType, readOptions)]
      ensures r == Reply(|old(calls)|)
    {
      if Truthy(wallclockTime) {
        calls := calls + [QueryRead(AsOf(wallclockTime), online, dataframeType, readOptions)];
      } else {
        calls := calls + [QueryRead(SelectAll, online, dataframeType, readOptions)];
      }
      r := Reply(|calls| - 1);
    }

    /** Reading the changes between two commit times, offline, as the default dataframe type. */
    method ReadChanges(startWallclockTime: Value, endWallclockTime: Value, readOptions: Value) returns (r: Reply)
      modifies this`calls
      ensures calls == old(calls) + [QueryRead(PullChanges(startWallclockTime, endWallclockTime), Bool(false), Str("default"), readOptions)]
      ensures r == Reply(|old(calls)|)
    {
      calls := calls + [QueryRead(PullChanges(startWallclockTime, endWallclockTime), Bool(false), Str("default"), readOptions)];
      r := Reply(|calls| - 1);
    }

    method Show(n: Value, online: Value) returns (r: Reply)
      modifies this`calls
      ensures calls == old(calls) + [QueryShow(SelectAll, n, online)]
      ensures r == Reply(|old(calls)|)
    {
      calls := calls + [QueryShow(SelectAll, n, online)];
      r := Reply(|calls| - 1);
    }

    /**
      Persisting the handle and its data. The engine's save writes back the
      handle's id and version (`savedId`, `savedVersion`); statistics are
      computed over the saved data only when enabled; a handle saved without
      a version warns with the version it was given.
    */
    method Save(input: nat, writeOptions: Value, savedId: Value, savedVersion: Value) returns (r: FeatureGroup)
      modifies this`calls, this`warnings, this`id, this`version
      ensures r == this
      ensures calls == old(calls) + [EngineSave(Converted(input), writeOptions)]
                      + (if Truthy(statisticsConfig.enabled) then [StatisticsCompute(Converted(input))] else [])
      ensures warnings == old(warnings) + (if old(version).Nil? then [VersionWarning(name, savedVersion)] else [])
      ensures id == savedId && version == savedVersion
    {
      var frame := Converted(input);
      var userVersion := version;
      calls := calls + [EngineSave(frame, writeOptions)];
      id, version := savedId, savedVersion;
      if Truthy(statisticsConfig.enabled) {
        calls := calls + [StatisticsCompute(frame)];
      }
      if userVersion.Nil? {
        warnings := warnings + [VersionWarning(name, version)];
      }
      r := this;
    }

    /**
      Writing data to the saved feature group, then recomputing statistics.
      A `storage` that is neither `None` nor a string has no `lower` and
      raises before the engine is called.
    */
    method Insert(input: nat, overwrite: Value, operation: Value, storage: Value, writeOptions: Value)
      returns (err: Option<Error>)
      modifies this`calls, this`warnings
      ensures err.None? <==> storage.Nil? || storage.Str?
      ensures err.Some? ==> err.value == AttributeError("storage") && calls == old(calls) && warnings == old(warnings)
      ensures err.None? ==>
        calls == old(calls) + [EngineInsert(Converted(input), overwrite, operation, StorageArg(storage).value, writeOptions)]
                 + StatisticsRun(statisticsConfig, |old(calls)| + 1)
      ensures err.None? ==>
        warnings == old(warnings) + (if Truthy(statisticsConfig.enabled) then [] else [StatisticsDisabledWarning(name, version)])
    {
      var frame := Converted(input);
      var lowered := StorageArg(storage);
      if lowered.Failure? {
        return Some(lowered.error);
      }
      calls := calls + [EngineInsert(frame, overwrite, operation, lowered.value, writeOptions)];
      var statistics := ComputeStatistics();
      return None;
    }

    method CommitDetails(limit: Value) returns (r: Reply)
      modifies this`calls
      ensures calls == old(calls) + [EngineCommitDetails(limit)]
      ensures r == Reply(|old(calls)|)
    {
      calls := calls + [EngineCommitDetails(limit)];
      r := Reply(|calls| - 1);
    }

    method CommitDeleteRecord(deleteInput: nat, writeOptions: Value)
      modifies this`calls
      ensures calls == old(calls) + [EngineCommitDelete(Given(deleteInput), writeOptions)]
    {
      calls := calls + [EngineCommitDelete(Given(deleteInput), writeOptions)];
    }

    method UpdateStatisticsConfig() returns (r: FeatureGroup)
      modifies this`calls
      ensures r == this && calls == old(calls) + [EngineUpdateStatisticsConfig]
    {
      calls := calls + [EngineUpdateStatisticsConfig];
      r := this;
    }

    method UpdateDescription(newDescription: Value) returns (r: FeatureGroup)
      modifies this`calls
      ensures r == this && calls == old(calls) + [EngineUpdateDescription(newDescription)]
    {
      calls := calls + [EngineUpdateDescription(newDescription)];
      r := this;
    }

    /**
      Recomputing statistics over the latest offline data when enabled;
      otherwise a warning and no result.
    */
    method ComputeStatistics() returns (r: Option<Reply>)
      modifies this`calls, this`warnings
      ensures calls == old(calls) + StatisticsRun(statisticsConfig, |old(calls)|)
      ensures Truthy(statisticsConfig.enabled) ==> r == Some(Reply(|old(calls)| + 1)) && warnings == old(warnings)
      ensures !Truthy(statisticsConfig.enabled) ==>
        r == None && warnings == old(warnings) + [StatisticsDisabledWarning(name, version)]
    {
      if Truthy(statisticsConfig.enabled) {
        var data := Read(Nil, Bool(false), Str("default"), Dict(map[]));
        calls := calls + [StatisticsCompute(Returned(data))];
        r := Some(Reply(|calls| - 1));
      } else {
        warnings := warnings + [StatisticsDisabledWarning(name, version)];
        r := None;
      }
    }

    /**
      Appending a feature or a list of features to the schema through the
      engine. Nothing is sent unless every element is a feature.
    */
    method AppendFeatures(newFeatures: Value) returns (r: Result<FeatureGroup, Error>)
      modifies this`calls
      ensures r.Success? <==> newFeatures.FeatureObj? || (newFeatures.List? && AllFeatures(newFeatures.items))
      ensures r.Success? ==> r.value == this && calls == old(calls) + [EngineAppendFeatures(AppendedFeatures(newFeatures))]
      ensures r.Failure? ==> r.error == TypeError("features") && calls == old(calls)
    {
      var collected: seq<Feature>;
      match newFeatures {
        case FeatureObj(f) =>
          collected := [f];
        case List(items) =>
          var checked := CollectFeatures(items);
          if checked.Failure? {
            return Failure(checked.error);
          }
          collected := checked.value;
          assert collected == Unwrap(items);
        case _ =>
          return Failure(TypeError("features"));
      }
      calls := calls + [EngineAppendFeatures(collected)];
      return Success(this);
    }

    /** The `statistics` property: the latest statistics the engine holds. */
    method Statistics() returns (r: Reply)
      modifies this`calls
      ensures calls == old(calls) + [StatisticsGetLast]
      ensures r == Reply(|old(calls)|)
    {
      calls := calls + [StatisticsGetLast];
      r := Reply(|calls| - 1);
    }

    /** Statistics as of `commitTime`, or the latest when it is `None`. */
    method GetStatistics(commitTime: Value) returns (r: Reply)
      modifies this`calls
      ensures calls == old(calls) + [if commitTime.Nil? then StatisticsGetLast else StatisticsGet(commitTime)]
      ensures r == Reply(|old(calls)|)
    {
      if commitTime.Nil? {
        r := Statistics();
      } else {
        calls := calls + [StatisticsGet(commitTime)];
        r := Reply(|calls| - 1);
      }
    }
  }
}
