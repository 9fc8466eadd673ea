/**
 * Instance configuration (src/substrate/shared/instance/__init__.py).
 *
 * Two instance types are built in, `substrate` and `akab`. An external
 * configuration source, when one is available, may add instance types or
 * replace built-in ones; whatever goes wrong while reading it, the built-in
 * configurations stay in effect. The source is a parameter: what
 * `load_instance_configs` returns, or that asking for it raised.
 */
module InstanceConfig {
  import opened Common

  /** What the external loader yields: nothing available, an exception, or the parsed configurations. */
  datatype External = Unavailable | Raises | Loaded(configs: Obj)

  /** A list of strings as a `Value`. */
  function Strs(xs: seq<string>): (v: Value)
    ensures v.List? && |v.items| == |xs|
    ensures forall i :: 0 <= i < |xs| ==> v.items[i] == Str(xs[i])
  {
    List(seq(|xs|, i requires 0 <= i < |xs| => Str(xs[i])))
  }

  /** A configuration entry: its feature list and its description. */
  function Entry(features: seq<string>, description: string): (v: Value)
    ensures v.Dict? && v.entries.Keys == {"features", "description"}
    ensures v.entries["features"] == Strs(features) && v.entries["description"] == Str(description)
  {
    Dict(map["features" := Strs(features), "description" := Str(description)])
  }

  const SubstrateFeatures: seq<string> := ["documentation", "references", "execution", "workflows"]
  const AkabFeatures: seq<string> := ["documentation", "experiments", "comparison"]

  /** The public configurations that always work. */
  function Defaults(): (d: Obj)
    ensures d.Keys == {"substrate", "akab"}
    ensures d["substrate"] == Entry(SubstrateFeatures, "Cognitive manipulation substrate")
    ensures d["akab"] == Entry(AkabFeatures, "A/B testing and experimentation framework")
  {
    map["substrate" := Entry(SubstrateFeatures, "Cognitive manipulation substrate"),
        "akab" := Entry(AkabFeatures, "A/B testing and experimentation framework")]
  }

  /** The configuration of a type nobody declared. */
  function Fallback(instanceType: string): (v: Value)
    ensures v == Entry(["references"], instanceType + " MCP server")
  {
    Entry(["references"], instanceType + " MCP server")
  }

  /**
   * `get_instance_config`: start from the defaults, let the external
   * configurations overwrite them key by key, then look the type up.
   */
  method GetInstanceConfig(instanceType: string, ext: External) returns (config: Value)
    ensures ext.Loaded? && instanceType in ext.configs ==> config == ext.configs[instanceType]
    ensures !(ext.Loaded? && instanceType in ext.configs) && instanceType in Defaults() ==>
      config == Defaults()[instanceType]
    ensures !(ext.Loaded? && instanceType in ext.configs) && instanceType !in Defaults() ==>
      config == Fallback(instanceType)
  {
    var configs := Defaults();
    if ext.Loaded? {
      configs := configs + ext.configs;
    }
    config := if instanceType in configs then configs[instanceType] else Fallback(instanceType);
  }

  /** Without a usable external source the built-in types keep exactly their built-in features. */
  method BuiltInFeatures(ext: External) returns (substrate: Value, akab: Value)
    requires !ext.Loaded?
    ensures substrate.Dict? && "features" in substrate.entries && substrate.entries["features"] == Strs(SubstrateFeatures)
    ensures akab.Dict? && "features" in akab.entries && akab.entries["features"] == Strs(AkabFeatures)
  {
    substrate := GetInstanceConfig("substrate", ext);
    akab := GetInstanceConfig("akab", ext);
  }

  /** Why `should_load_feature` can fail: the config or its features value has the wrong type. */
  datatype FeatureError = AttributeError | TypeError

  /** `feature in value`, with Python's `TypeError` for a value that supports no `in`. */
  function FeatureIn(value: Value, feature: string): (r: Result<bool, FeatureError>)
    ensures r.Err? <==> Contains(value, feature).None?
    ensures r.Ok? ==> Contains(value, feature) == Some(r.value)
  {
    match Contains(value, feature)
    case Some(b) => Ok(b)
    case None => Err(TypeError)
  }

  /** `should_load_feature`: membership of the feature in the config's `features` (default `[]`). */
  method ShouldLoadFeature(instanceType: string, feature: string, ext: External) returns (r: Result<bool, FeatureError>)
    ensures var config := if ext.Loaded? && instanceType in ext.configs then ext.configs[instanceType]
                          else if instanceType in Defaults() then Defaults()[instanceType]
                          else Fallback(instanceType);
      (config.Dict? ==> r == FeatureIn(Get(config.entries, "features", List([])), feature))
      && (!config.Dict? ==> r == Err(AttributeError))
  {
    var config := GetInstanceConfig(instanceType, ext);
    if !config.Dict? {
      return Err(AttributeError);
    }
    r := FeatureIn(Get(config.entries, "features", List([])), feature);
  }

  /** A type with no configuration anywhere loads exactly the references feature. */
  lemma FallbackFeatures(instanceType: string, feature: string)
    ensures FeatureIn(Get(Fallback(instanceType).entries, "features", List([])), feature) == Ok(feature == "references")
  {
    var items := Strs(["references"]).items;
    assert items == [Str("references")];
  }

  /** The loop of `get_all_known_instances`: append each name not yet listed. */
  method AppendNew(instances: seq<string>, names: set<string>) returns (r: seq<string>)
    requires NoDups(instances)
    ensures NoDups(r) && Elems(r) == Elems(instances) + names
  {
    r := instances;
    var todo := names;
    while todo != {}
      invariant todo <= names
      invariant NoDups(r) && Elems(r) == Elems(instances) + (names - todo)
      decreases |todo|
    {
      var name :| name in todo;
      if name !in r {
        ElemsAppend(r, name);
        r := r + [name];
      }
      todo := todo - {name};
    }
  }

  /** The public names sorted: `akab` first. */
  lemma PublicSorted(r: seq<string>)
    requires |r| == 2 && Elems(r) == {"substrate", "akab"} && LexLe(r[0], r[1])
    ensures r == ["akab", "substrate"]
  {
    assert !LexLe("substrate", "akab");
    assert r[0] in Elems(r) && r[1] in Elems(r);
  }

  /** Sorting the two public names puts `akab` first. */
  lemma PublicListSorted()
    ensures SortStrings(["substrate", "akab"]) == ["akab", "substrate"]
  {
    var s := ["substrate", "akab"];
    var r := SortStrings(s);
    assert |r| == |multiset(s)| == 2;
    assert Elems(r) == {"substrate", "akab"};
    LexLeTotal(r[0], r[1]);
    assert SelfKey(r[0]) == r[0] && SelfKey(r[1]) == r[1];
    PublicSorted(r);
  }

  /**
   * `get_all_known_instances`: the public types, then each external type not
   * already listed, sorted. Dictionary order is irrelevant after the sort.
   */
  method GetAllKnownInstances(ext: External) returns (r: seq<string>)
    ensures SortedBy(r, SelfKey) && NoDups(r)
    ensures "substrate" in r && "akab" in r
    ensures ext.Loaded? ==> Elems(r) == {"substrate", "akab"} + ext.configs.Keys
    ensures !ext.Loaded? ==> r == ["akab", "substrate"]
  {
    var instances := ["substrate", "akab"];
    assert Elems(instances) == {"substrate", "akab"};
    if ext.Loaded? {
      instances := AppendNew(instances, ext.configs.Keys);
    }
    SortStringsNoDups(instances);
    r := SortStrings(instances);
    assert Elems(r) == Elems(instances);
    if !ext.Loaded? {
      PublicListSorted();
    }
  }

}
