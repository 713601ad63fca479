/**
  The dynamically typed values that flow through a feature-group handle.

  The handle's constructor, setters and wire mapping accept whatever Python
  value they are given; `Value` is the closed set of shapes the model
  distinguishes. A `Feature` or a `StatisticsConfig` object passed by the
  caller is a value too (`FeatureObj`, `ConfigObj`).
*/
module Values {

  /** A schema feature; only the attributes the handle reads are kept. */
  datatype Feature = Feature(name: string, featureType: string, primary: bool, partition: bool)

  /**
    A statistics configuration object. The handle reads and writes its four
    attributes; their values are whatever the constructor was given.
  */
  datatype StatisticsConfig = StatisticsConfig(enabled: Value, correlations: Value, histograms: Value, columns: Value)

  /** A Python value as seen by the handle. `Nil` is Python's `None`. */
  datatype Value =
    | Nil
    | Bool(b: bool)
    | Int(i: int)
    | Str(s: string)
    | List(items: seq<Value>)
    | Dict(entries: map<string, Value>)
    | FeatureObj(feature: Feature)
    | ConfigObj(config: StatisticsConfig)

  /** The exceptions the handle's own code raises. `what` names the offending argument or key. */
  datatype Error =
    | TypeError(what: string)
    | AttributeError(what: string)
    | KeyError(what: string)

  /**
    Python truthiness, as used by `if x:`. Objects of the feature and
    statistics-config classes define neither `__bool__` nor `__len__`, so
    they are true.
  */
  predicate Truthy(v: Value) {
    match v
    case Nil => false
    case Bool(b) => b
    case Int(i) => i != 0
    case Str(s) => s != ""
    case List(items) => items != []
    case Dict(entries) => entries != map[]
    case FeatureObj(_) => true
    case ConfigObj(_) => true
  }

  /** The list value holding the given strings, in order. */
  function Strs(names: seq<string>): (v: Value)
    ensures v.List? && |v.items| == |names|
    ensures forall i :: 0 <= i < |names| ==> v.items[i] == Str(names[i])
  {
    List(seq(|names|, i requires 0 <= i < |names| => Str(names[i])))
  }

  /** The list value holding the given features as objects, in order. */
  function FeatureObjs(fs: seq<Feature>): (v: Value)
    ensures v.List? && |v.items| == |fs|
    ensures forall i :: 0 <= i < |fs| ==> v.items[i] == FeatureObj(fs[i])
  {
    List(seq(|fs|, i requires 0 <= i < |fs| => FeatureObj(fs[i])))
  }
}
