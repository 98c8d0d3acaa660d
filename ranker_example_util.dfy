/** The accessors over a ranker example, as the assist-ranker tests
    (components/assist_ranker/ranker_example_util_unittest.cc) pin them down.
    An example maps feature names to features; each accessor succeeds with a
    value or fails, and on failure the caller's out-parameter keeps what it
    held, which is what None stands for here. */
module RankerExampleUtil {
  import opened Base

  /** A 32-bit float, kept abstract: the model never computes with floats. */
  datatype Float32 = Float32(bits: int)

  /** The oneof of a Feature; NoValue is the unset case. */
  datatype Feature =
    | BoolValue(b: bool)
    | Int32Value(i: Int32)
    | FloatValue(f: Float32)
    | StringValue(s: string)
    | NoValue

  type Example = map<string, Feature>

  /** A float result: the float nearest an integer, or a float stored as is. */
  datatype FloatResult = FromInt(n: int) | FromFloat(f: Float32)

  /** SafeGetFeature: the stored feature, for a name of the example. */
  function SafeGetFeature(name: string, example: Example): (r: Option<Feature>)
    ensures r.Some? <==> name in example
    ensures r.Some? ==> r.value == example[name]
  {
    if name in example then Some(example[name]) else None
  }

  /** GetFeatureValueAsFloat: bools as 0 or 1, int32s as their value, floats
      as they are; strings, unset features and missing names fail. */
  function GetFeatureValueAsFloat(name: string, example: Example): (r: Option<FloatResult>)
    ensures r.Some? <==> name in example && (example[name].BoolValue? || example[name].Int32Value? || example[name].FloatValue?)
    ensures r.Some? && example[name].BoolValue? ==> r.value == FromInt(if example[name].b then 1 else 0)
    ensures r.Some? && example[name].Int32Value? ==> r.value == FromInt(example[name].i)
    ensures r.Some? && example[name].FloatValue? ==> r.value == FromFloat(example[name].f)
  {
    match SafeGetFeature(name, example)
    case None => None
    case Some(feature) =>
      match feature
      case BoolValue(b) => Some(FromInt(if b then 1 else 0))
      case Int32Value(i) => Some(FromInt(i))
      case FloatValue(f) => Some(FromFloat(f))
      case StringValue(_) => None
      case NoValue => None
  }

  /** GetOneHotValue: the value of a string feature; anything else fails. */
  function GetOneHotValue(name: string, example: Example): (r: Option<string>)
    ensures r.Some? <==> name in example && example[name].StringValue?
    ensures r.Some? ==> r.value == example[name].s
  {
    match SafeGetFeature(name, example)
    case Some(StringValue(s)) => Some(s)
    case _ => None
  }

  /** FeatureToInt: bools as 1 or 0, int32s as their value; floats, strings
      and unset features are not converted. */
  function FeatureToInt(feature: Feature): (r: Option<Int32>)
    ensures r.Some? <==> feature.BoolValue? || feature.Int32Value?
    ensures feature.BoolValue? ==> r == Some(if feature.b then 1 else 0)
    ensures feature.Int32Value? ==> r == Some(feature.i)
  {
    match feature
    case BoolValue(b) => Some(if b then 1 else 0)
    case Int32Value(i) => Some(i)
    case _ => None
  }

  /** Whether a feature name hash keeps distinct names of the example apart. */
  ghost predicate InjectiveOn(hash: string -> string, names: set<string>) {
    forall x, y :: x in names && y in names && hash(x) == hash(y) ==> x == y
  }

  /** HashExampleFeatureNames: every feature re-keyed under the hash of its
      name, with its value. */
  function HashExampleFeatureNames(example: Example, hash: string -> string): (r: Example)
    requires InjectiveOn(hash, example.Keys)
    ensures r.Keys == set name | name in example.Keys :: hash(name)
    ensures forall name :: name in example ==> hash(name) in r && r[hash(name)] == example[name]
  {
    map name | name in example.Keys :: hash(name) := example[name]
  }

  /** An injective hash keeps the number of names. */
  lemma {:induction false} ImageSize(names: set<string>, hash: string -> string)
    requires InjectiveOn(hash, names)
    ensures |set name | name in names :: hash(name)| == |names|
    decreases |names|
  {
    if names != {} {
      var x :| x in names;
      var rest := names - {x};
      assert InjectiveOn(hash, rest);
      ImageSize(rest, hash);
      var image := set name | name in names :: hash(name);
      var restImage := set name | name in rest :: hash(name);
      assert image == restImage + {hash(x)};
      assert hash(x) !in restImage;
    }
  }

  /** The hashed example has as many features as the original. */
  lemma HashedExampleSize(example: Example, hash: string -> string)
    requires InjectiveOn(hash, example.Keys)
    ensures |HashExampleFeatureNames(example, hash)| == |example|
  {
    ImageSize(example.Keys, hash);
    assert |HashExampleFeatureNames(example, hash).Keys| == |example.Keys|;
  }

  /** Looking a hashed name up in the hashed example gives what the plain
      name gives in the original, for every accessor. */
  lemma HashedLookups(example: Example, hash: string -> string, name: string)
    requires InjectiveOn(hash, example.Keys) && name in example
    ensures var hashed := HashExampleFeatureNames(example, hash);
            && SafeGetFeature(hash(name), hashed) == SafeGetFeature(name, example)
            && GetFeatureValueAsFloat(hash(name), hashed) == GetFeatureValueAsFloat(name, example)
            && GetOneHotValue(hash(name), hashed) == GetOneHotValue(name, example)
  {
  }

  /** A name is found in the hashed example exactly when it is the hash of a
      name of the original, so an original name the hash moves is lost. */
  lemma HashedNames(example: Example, hash: string -> string, name: string)
    requires InjectiveOn(hash, example.Keys)
    requires forall other :: other in example ==> hash(other) != name
    ensures SafeGetFeature(name, HashExampleFeatureNames(example, hash)).None?
  {
  }
}
