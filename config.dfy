/**
 * The composite configuration of a VQ-CLIP model: the backbone's configuration
 * mapping and one optional mapping per quantization adapter.
 */
module Config {
  import opened Wrappers

  /** A value inside a serialised configuration mapping. */
  datatype ConfigValue =
    | NullValue
    | BoolValue(b: bool)
    | IntValue(i: int)
    | RealValue(r: real)
    | StringValue(s: string)
    | ListValue(items: seq<ConfigValue>)
    | DictValue(entries: map<string, ConfigValue>)

  /** A configuration fragment as a plain mapping (what `to_dict()` produces). */
  type ConfigDict = map<string, ConfigValue>

  /**
   * The serialised default configurations of the backbone and of an adapter
   * (`CLIPConfig().to_dict()` and `VQAdapterConfig().to_dict()`); their content
   * belongs to foreign configuration classes.
   */
  datatype ConfigDefaults = ConfigDefaults(clipConfigDict: ConfigDict, adapterConfigDict: ConfigDict)

  /**
   * Every serialised configuration carries at least one entry (its format
   * version), so the default adapter mapping is never empty.
   */
  predicate NonEmptyDefaults(defaults: ConfigDefaults)
  {
    |defaults.adapterConfigDict| > 0
  }

  /** A keyword argument that the caller either leaves out or passes. */
  datatype Arg<T> = Omitted | Given(value: T)

  function ArgOr<T>(arg: Arg<T>, default: T): T
  {
    match arg
    case Omitted => default
    case Given(v) => v
  }

  datatype VqClipConfig = VqClipConfig(
    clipConfigDict: ConfigDict,
    visionVqAdapterConfigDict: Option<ConfigDict>,
    textVqAdapterConfigDict: Option<ConfigDict>)

  /**
   * `VQCLIPConfig(...)`: an omitted backbone mapping is the backbone default, an
   * omitted vision mapping is the adapter default, an omitted text mapping is `None`.
   */
  function NewVqClipConfig(
    defaults: ConfigDefaults,
    clipConfigDict: Arg<ConfigDict>,
    visionVqAdapterConfigDict: Arg<Option<ConfigDict>>,
    textVqAdapterConfigDict: Arg<Option<ConfigDict>>): (c: VqClipConfig)
    ensures c.clipConfigDict == (if clipConfigDict.Given? then clipConfigDict.value else defaults.clipConfigDict)
    ensures visionVqAdapterConfigDict.Omitted? ==> c.visionVqAdapterConfigDict == Some(defaults.adapterConfigDict)
    ensures visionVqAdapterConfigDict.Given? ==> c.visionVqAdapterConfigDict == visionVqAdapterConfigDict.value
    ensures textVqAdapterConfigDict.Omitted? ==> c.textVqAdapterConfigDict == None
    ensures textVqAdapterConfigDict.Given? ==> c.textVqAdapterConfigDict == textVqAdapterConfigDict.value
  {
    VqClipConfig(
      ArgOr(clipConfigDict, defaults.clipConfigDict),
      ArgOr(visionVqAdapterConfigDict, Some(defaults.adapterConfigDict)),
      ArgOr(textVqAdapterConfigDict, None))
  }

  /** The configuration built with every argument left out. */
  function DefaultVqClipConfig(defaults: ConfigDefaults): VqClipConfig
  {
    NewVqClipConfig(defaults, Omitted, Omitted, Omitted)
  }

  /** Python truthiness of an optional mapping: `None` and `{}` are both falsy. */
  predicate IsTruthyFragment(fragment: Option<ConfigDict>)
  {
    fragment.Some? && |fragment.value| > 0
  }
}
