# Feature group handle of the Hopsworks feature store client

This project models `FeatureGroup`, the client-side handle the Hopsworks
feature store library (`hsfs`) keeps for a cached feature group, and proves
properties of that model in Dafny.

The handle is a mutable object:

- **Construction.** The constructor copies its arguments into fields. It
  decodes schema entries that arrive as dictionaries and upper-cases the
  time-travel format. It then takes one of two paths. For a handle built from
  backend data (one with an `id`), it derives the primary and partition keys
  from the schema flags and builds the statistics configuration from four
  flat fields. For a handle built by a user, it stores the keys as given and
  passes the configuration through the `statistics_config` setter.
- **The setter.** It accepts a configuration object, a dictionary of its
  attributes, a boolean shorthand or `None`. It rejects anything else with
  `TypeError`.
- **Wire format.** `to_dict` is the camel-case dictionary sent to the
  metadata service. `from_response_json` and `update_from_response_json`
  drop the `type` discriminator from a decoded response and bind the rest as
  constructor keyword arguments.
- **Orchestration.** `save`, `insert`, `read`, `read_changes`, `show`,
  `commit_details`, `commit_delete_record`, `update_statistics_config`,
  `update_description`, `compute_statistics`, `append_features`, the
  `statistics` property and `get_statistics` hand work to three
  collaborators: the feature-group engine, the statistics engine and the
  query builder.

## How the model is built

- **Values.** Python values the handle stores or receives are a `Value`
  datatype (`Values.Value`). Python truthiness is the predicate
  `Values.Truthy`.
- **Collaborators.** The class `FeatureGroups.FeatureGroup` has one field per
  attribute. It also has two append-only logs:
  - `calls`, every request made to the feature-group engine, the statistics
    engine or the query builder, in order (the dataframe conversion is not
    recorded);
  - `warnings`, every warning raised.

  A collaborator's reply is opaque: `Reply(k)` stands for whatever call `k`
  of the log returned. The engine's write-back of the id and version during
  `save` is given as arguments to `Save`.
- **The constructor** is specified by the pure function
  `Construction.InitSpec`, which returns the stored fields or the first error
  raised. The method `FeatureGroup.Init` runs the same steps in the same
  order and is proved to store exactly `InitSpec`'s result.
- **Pure parts.** Key derivation (`Keys`), configuration normalisation
  (`StatisticsConfigs`), the wire mapping and keyword binding (`Wire`) are
  functions with lemmas.
- **Dictionary keys of the wire format** are the `Wire.Keyword` datatype:
  a constructor parameter (`Wire.Param`), the `type` discriminator, or any
  other name. The camel-case spelling the metadata service uses
  (`Wire.CamelName`) and the snake-case spelling of the constructor's
  parameters (`Wire.SnakeName`) are two spellings of the same key, so the
  key conversion of a response leaves a `Keyword` map as it is.

## Behaviour worth knowing

- The `time_travel_format` setter (python/hsfs/feature_group.py:571-573)
  stores its argument as given. Only the constructor upper-cases it
  (lines 74-76), see `FeatureGroup.SetTimeTravelFormat`.
- `insert` always calls `compute_statistics` (line 339). That method checks
  the `enabled` flag (lines 413-422): when statistics are disabled, it warns
  and computes nothing. So an insert recomputes statistics only when they
  are enabled (`FeatureGroup.Insert`).
- `storage` is not checked against a set of allowed values (line 335). It
  is only lower-cased, and a non-string other than `None` fails with
  `AttributeError` because it has no `lower` (`FeatureGroups.StorageArg`).
- A handle without an `id` does not survive `to_dict` followed by
  `from_response_json`. On the user path (lines 93-97) the constructor
  ignores the flat statistics fields and receives no keys, so the
  configuration falls back to the default and both keys to `None`
  (`Wire.UnsavedHandleLosesConfig`).

## Model

All source paths are in `python/hsfs/feature_group.py`.

| member | source | states |
|---|---|---|
| Text.Upper | python/hsfs/feature_group.py:74-76 | upper-casing keeps the length and converts each character in its place |
| Text.Lower | python/hsfs/feature_group.py:335 | lower-casing keeps the length and converts each character in its place |
| Text.UpperIdempotent | python/hsfs/feature_group.py:74-76 | upper-casing an already upper-cased format changes nothing |
| Text.LowerIsLowerCase | python/hsfs/feature_group.py:335 | the lower-cased `storage` argument has no upper-case letter |
| Keys.KeyNames | python/hsfs/feature_group.py:87-92 | the derived key list is never longer than the schema |
| Keys.KeyNamesMembership | python/hsfs/feature_group.py:87-92 | a name is a key exactly when some feature has that name and the key flag set |
| Keys.KeyNamesAppend | python/hsfs/feature_group.py:87-92 | keys of a concatenated schema are the keys of each part, in schema order |
| Keys.KeyNamesAreFeatureNames | python/hsfs/feature_group.py:87-92 | every key names a feature of the schema |
| Keys.KeyNamesSingle | python/hsfs/feature_group.py:87-92 | a one-feature schema contributes its name exactly when its key flag is set; with `KeyNamesAppend` this fixes the filter |
| Keys.ExampleSchemaKeys | python/hsfs/feature_group.py:87-92 | a three-feature schema gives its one primary and one partition feature as keys |
| StatisticsConfigs.FromKeywords | python/hsfs/feature_group.py:597-598 | a dictionary is accepted exactly when all its keys are configuration attributes; given attributes override the defaults, and any other key raises `TypeError` |
| StatisticsConfigs.NormaliseConfig | python/hsfs/feature_group.py:593-608 | a configuration object is kept, a dictionary is expanded, a boolean sets only `enabled`, `None` gives the default, and every other kind raises `TypeError` |
| StatisticsConfigs.NormaliseStable | python/hsfs/feature_group.py:595-596 | storing the stored configuration again leaves it unchanged |
| StatisticsConfigs.BoolShorthandEnables | python/hsfs/feature_group.py:599-600 | the boolean shorthand enables statistics exactly when it is true |
| StatisticsConfigs.FullDictDeterminesConfig | python/hsfs/feature_group.py:597-598 | a dictionary naming all four attributes fixes the whole configuration |
| StatisticsConfigs.UnknownDictKeyRejected | python/hsfs/feature_group.py:597-598 | a dictionary with an unknown attribute raises `TypeError` |
| Construction.DecodeItems | python/hsfs/feature_group.py:67-70 | entries decode one for one, in order, each a feature or a decoded dictionary; any other entry fails the schema |
| Construction.DecodeFeatures | python/hsfs/feature_group.py:67-70 | `None` features raise `TypeError`; a list decodes entry by entry |
| Construction.UpperFormat | python/hsfs/feature_group.py:74-76 | `None` is kept, a string is stored upper-cased, and anything else has no `upper` |
| Construction.InitSpec | python/hsfs/feature_group.py:59-97 | the constructor raises only `TypeError` (schema, configuration) or `AttributeError` (format) |
| Construction.InitErrors | python/hsfs/feature_group.py:59-97 | the constructor succeeds exactly when schema, format and (on the user path) configuration succeed; `None` features fail with `TypeError` |
| Construction.InitSpecSteps | python/hsfs/feature_group.py:67-97 | the error raised is the one from the first failing step: schema, then format, then configuration |
| Construction.InitCopiesArguments | python/hsfs/feature_group.py:59-77 | plain arguments are stored as given, the schema decoded and the format upper-cased |
| Construction.BackendPathDerivesKeys | python/hsfs/feature_group.py:79-92 | with an id, keys come from the schema flags and the configuration from the four flat fields |
| Construction.UserPathTakesArguments | python/hsfs/feature_group.py:93-97 | without an id, keys are stored as given and the configuration through the setter |
| Construction.InitSpecSuccess | python/hsfs/feature_group.py:59-97 | the unfolding of `InitSpec` that `Init`'s proof relies on: when every step succeeds, the stored state is the arguments, the decoded schema, the upper-cased format, the configuration and the keys of the chosen path |
| Construction.BackendIgnoresUserKeys | python/hsfs/feature_group.py:79-92 | with an id, the key and configuration arguments have no effect |
| Construction.UserIgnoresFlatStatistics | python/hsfs/feature_group.py:93-97 | without an id, the four flat statistics fields have no effect |
| Construction.BackendKeysAreFeatureNames | python/hsfs/feature_group.py:87-92 | with an id, every stored key names a feature of the stored schema |
| Construction.StoredFormatIsUpperCase | python/hsfs/feature_group.py:74-76 | the stored format is `None` or upper-case, and normalising it again changes nothing |
| Wire.ToDict | python/hsfs/feature_group.py:474-489 | the wire dictionary has exactly the thirteen keys, each holding the handle's field under its name: identity, storage flags, the schema, the cached discriminator and the four statistics attributes |
| Wire.StripType | python/hsfs/feature_group.py:461-462 | a response without `type` raises `KeyError`; otherwise every other entry is kept unchanged |
| Wire.Default | python/hsfs/feature_group.py:33-56 | every declared default is falsy |
| Wire.Bind | python/hsfs/feature_group.py:33-56 | keyword binding succeeds exactly when every keyword is a parameter and no required parameter is missing; otherwise `TypeError` |
| Wire.BindParams | python/hsfs/feature_group.py:33-56 | after binding, each parameter holds its keyword argument or its declared default |
| Wire.ResponseArgs | python/hsfs/feature_group.py:460-463 | a response without `type` raises `KeyError` before binding; otherwise the rest of the response is bound |
| Wire.Reload | python/hsfs/feature_group.py:459-489 | rebuilding a handle from its own wire dictionary can raise only `TypeError` or `AttributeError`, never `KeyError` |
| Wire.BindReloadKeywords | python/hsfs/feature_group.py:33-56 | the twelve keywords of a stripped wire dictionary bind, and the nine parameters they lack take their defaults |
| Wire.ReloadArgs | python/hsfs/feature_group.py:459-489 | the constructor arguments a handle's own wire dictionary binds to, parameter by parameter |
| Wire.ReloadFeatures | python/hsfs/feature_group.py:67-70 | features sent as objects decode back to the same schema |
| Wire.SavedHandleRoundTrip | python/hsfs/feature_group.py:459-489 | a handle with an id is rebuilt with the same identity, schema, configuration and flags, keys re-derived from the schema, and the fields the wire does not carry reset |
| Wire.BackendHandleReloadsExactly | python/hsfs/feature_group.py:33-105 | a handle the backend built reloads to itself, except for the fields the wire does not carry |
| Wire.UnsavedHandleLosesConfig | python/hsfs/feature_group.py:93-97 | a handle without an id reloads with the default configuration and no keys |
| FeatureGroups.ReadQuery | python/hsfs/feature_group.py:162-169 | `read` time-travels exactly when the wall-clock time is truthy |
| FeatureGroups.StatisticsRun | python/hsfs/feature_group.py:413-414 | statistics calls are made exactly when `enabled` is truthy: a full read, then a computation over what it returned |
| FeatureGroups.StorageArg | python/hsfs/feature_group.py:335 | `None` is passed on, a string lower-cased, and anything else raises `AttributeError` |
| FeatureGroups.CollectFeatures | python/hsfs/feature_group.py:440-450 | a list is accepted exactly when every element is a feature, which are returned in order; otherwise `TypeError` |
| FeatureGroups.FeatureGroup.Init | python/hsfs/feature_group.py:57-97 | the handle stores exactly the constructor's result, or reports its first error and changes nothing; logs untouched |
| FeatureGroups.FeatureGroup.New | python/hsfs/feature_group.py:33-105 | a fresh handle holding the constructor's result with empty logs, or the constructor's error |
| FeatureGroups.FeatureGroup.FromResponseJson | python/hsfs/feature_group.py:459-463 | a missing `type` raises `KeyError`; otherwise a fresh handle built from the stripped response, or the binding or constructor error |
| FeatureGroups.FeatureGroup.UpdateFromResponseJson | python/hsfs/feature_group.py:465-469 | the handle is re-initialised from the stripped response and returned, or the error is reported |
| FeatureGroups.FeatureGroup.SetStatisticsConfig | python/hsfs/feature_group.py:593-608 | stores the normalised configuration and changes nothing else; on `TypeError` nothing changes |
| FeatureGroups.FeatureGroup.SetVersion | python/hsfs/feature_group.py:559-561 | only the version changes |
| FeatureGroups.FeatureGroup.SetDescription | python/hsfs/feature_group.py:563-565 | only the description changes |
| FeatureGroups.FeatureGroup.SetFeatures | python/hsfs/feature_group.py:567-569 | only the schema changes |
| FeatureGroups.FeatureGroup.SetTimeTravelFormat | python/hsfs/feature_group.py:571-573 | only the format changes, stored without upper-casing |
| FeatureGroups.FeatureGroup.SetPrimaryKey | python/hsfs/feature_group.py:575-577 | only the primary key changes |
| FeatureGroups.FeatureGroup.SetPartitionKey | python/hsfs/feature_group.py:579-581 | only the partition key changes |
| FeatureGroups.FeatureGroup.SetOnlineEnabled | python/hsfs/feature_group.py:583-585 | only the online flag changes |
| FeatureGroups.FeatureGroup.Read | python/hsfs/feature_group.py:162-169 | one read of `select_all`, time-travelling when the wall-clock time is truthy, with the caller's options |
| FeatureGroups.FeatureGroup.ReadChanges | python/hsfs/feature_group.py:203-207 | one offline read of the changes between the two times, as the default dataframe type |
| FeatureGroups.FeatureGroup.Show | python/hsfs/feature_group.py:223 | one `show` of `select_all` |
| FeatureGroups.FeatureGroup.Save | python/hsfs/feature_group.py:259-272 | the engine saves the converted data, statistics are computed over the same data only when enabled, a version warning is raised exactly when no version was given, and the handle is returned |
| FeatureGroups.FeatureGroup.Insert | python/hsfs/feature_group.py:328-339 | fails exactly for a `storage` that is neither `None` nor a string, before the feature-group engine is called; otherwise the engine inserts with the lower-cased storage, then `compute_statistics` runs |
| FeatureGroups.FeatureGroup.CommitDetails | python/hsfs/feature_group.py:354 | one engine request for the commit timeline with the given limit |
| FeatureGroups.FeatureGroup.CommitDeleteRecord | python/hsfs/feature_group.py:371 | one engine delete-commit of the given dataframe as passed |
| FeatureGroups.FeatureGroup.UpdateStatisticsConfig | python/hsfs/feature_group.py:385-386 | one engine update of the configuration; the handle is returned |
| FeatureGroups.FeatureGroup.UpdateDescription | python/hsfs/feature_group.py:397-398 | one engine update with the new description; the handle is returned |
| FeatureGroups.FeatureGroup.ComputeStatistics | python/hsfs/feature_group.py:413-422 | when enabled: a full read, then statistics over its result, which is returned; otherwise one warning and no result |
| FeatureGroups.FeatureGroup.AppendFeatures | python/hsfs/feature_group.py:437-457 | accepted exactly for a feature or a list of features, and then one engine append of those features in order; otherwise `TypeError` and no call |
| FeatureGroups.FeatureGroup.Statistics | python/hsfs/feature_group.py:613 | one request for the latest statistics |
| FeatureGroups.FeatureGroup.GetStatistics | python/hsfs/feature_group.py:629-632 | the latest statistics for a `None` commit time, otherwise the statistics at that time |

## Left out

- The engines, the query builder and the dataframe conversion are outside
  this model. The requests to the two engines and the query builder are
  recorded in `calls`; their results are opaque, and the effects they have
  on the handle are not modelled, except for the id and version the
  engine's save writes back.
- The call to `convert_to_default_dataframe` (lines 259 and 328) is not
  recorded in `calls`; its result appears only as the `Converted` frame
  handed to the engines. In particular, `insert` converts the data before
  it evaluates `storage`, so a bad `storage` fails after that conversion.
- `set_job_group`, called by `read` and `show`, is left out. It only labels
  the job in the compute engine.
- The base class initialiser (`super().__init__`) is not part of this model.
- The engine objects the constructor creates (lines 99-105) are left out;
  the collaborators are implicit in `calls`.
- `json` (serialising through the library's encoder) is left out. It is an
  encoder call and holds no logic of its own.
- The getter properties are left out. Each returns its field, which the
  model exposes directly.
- `humps.decamelize`, a library call, is not modelled as a string function.
  Keys are the names they denote (`Wire.Keyword`), and `FromResponseJson`
  and `UpdateFromResponseJson` take the response after decamelizing. A
  response key `Other(n)` stands for a name `n` that is neither a parameter
  name nor `type`; the model does not relate the spelling `n` to the
  parameter names.
- `Feature.from_response_json` is a parameter of the model (`decode`),
  because the feature class is not part of this model.
- `StatisticsConfig` is not part of this model. Its defaults are left
  unspecified (`DefaultStatisticsConfig`). The backend path assumes its
  positional parameters are, in order: enabled, correlations, histograms,
  columns. The dictionary path assumes its keyword parameters are exactly
  `enabled`, `correlations`, `histograms` and `columns`, with no `**kwargs`.
- The stored statistics configuration is a value. Python stores the
  caller's `StatisticsConfig` object by reference (line 596), and users
  change that object in place before calling `update_statistics_config`
  (lines 376-377). The model has no aliasing: a change to the configuration
  is a new value stored through `SetStatisticsConfig`.
- The time-travel format and `storage` are case-converted on ASCII letters
  only. Python's full Unicode case mapping is not modelled.
- Construction.DecodeItems: the constructor keeps a schema entry that is
  neither a feature nor a dictionary as it is. The model rejects such an
  entry with `TypeError`, because the schema is typed as a list of features.
- Construction.DecodeFeatures: a non-list `features` argument other than
  `None` is rejected. Python would iterate any iterable.
- FeatureGroups.FeatureGroup.SetFeatures: it takes a typed list of features.
  The Python setter accepts any value.
- FeatureGroups.FeatureGroup.Init: a failed run leaves the handle unchanged.
  Python has by then assigned the fields before the failing step, which
  matters only when `update_from_response_json` re-runs the constructor on
  an existing handle.
- Warnings are recorded with their kind and the handle's name and version.
  Their message text and the Python warnings machinery are left out.
- Exceptions raised by collaborators (such as `RestAPIError`) are not
  modelled.
