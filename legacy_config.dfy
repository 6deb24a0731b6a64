/**
 * The configuration store of the earlier package layout: namespace lists and
 * the registries to proxy. Unlike the current store, a ConfigMap update is
 * decoded on top of the configuration already in force, and only a deleted
 * ConfigMap brings back the defaults.
 */
module LegacyConfig {
  import opened Wrappers
  import opened KubeTypes

  datatype ConfigModel = ConfigModel(
    excludeNamespaces: seq<string>,
    includeNamespaces: seq<string>,
    includeRegistries: seq<string>)

  /** The keys a YAML document sets, as a decoder writes them. */
  datatype ModelFields = ModelFields(
    excludeNamespaces: Option<seq<string>>,
    includeNamespaces: Option<seq<string>>,
    includeRegistries: Option<seq<string>>)

  /** The outcome of decoding one document; an error may follow keys already written. */
  datatype ModelDecoded = ModelDecoded(fields: ModelFields, failed: bool)

  /** The YAML library, as a function from document to outcome. */
  type ModelDecoder = string -> ModelDecoded

  const NoModelFields: ModelFields := ModelFields(None, None, None)

  /**
   * The defaults: the three system namespaces excluded, every namespace
   * included, and every supported registry proxied. The registries come in
   * the order the supported-registry table is walked, which is not fixed.
   */
  function DefaultModel(supportedRegistries: seq<string>): ConfigModel
  {
    ConfigModel(["kube-system", "kube-public", "kube-node-lease"], ["*"], supportedRegistries)
  }

  /** Decoding into an existing value: keys that are set overwrite, the rest keep `base`. */
  function DecodeInto(base: ConfigModel, f: ModelFields): ConfigModel
  {
    ConfigModel(
      f.excludeNamespaces.GetOr(base.excludeNamespaces),
      f.includeNamespaces.GetOr(base.includeNamespaces),
      f.includeRegistries.GetOr(base.includeRegistries))
  }

  /**
   * The configuration after a reset: the defaults when the ConfigMap is gone,
   * otherwise its entry decoded on top of the current configuration.
   */
  function ResetModel(current: ConfigModel, defaults: ConfigModel, cm: Option<ConfigMap>,
                      configKey: string, decode: ModelDecoder): ConfigModel
  {
    match cm
    case None => defaults
    case Some(m) => DecodeInto(current, decode(m.Entry(configKey)).fields)
  }

  /** Holder of the configuration, with the defaults it was started with. */
  class LegacyConfigStore {
    const defaultConfig: ConfigModel
    var config: ConfigModel

    constructor (supportedRegistries: seq<string>)
      ensures defaultConfig == DefaultModel(supportedRegistries)
      ensures config == defaultConfig
    {
      defaultConfig := DefaultModel(supportedRegistries);
      config := DefaultModel(supportedRegistries);
    }

    function GetExcludeNamespaces(): seq<string>
      reads this
    {
      config.excludeNamespaces
    }

    function GetIncludeNamespaces(): seq<string>
      reads this
    {
      config.includeNamespaces
    }

    function GetIncludeRegistries(): seq<string>
      reads this
    {
      config.includeRegistries
    }

    /**
     * Decodes the ConfigMap's entry into the configuration in place, keeping
     * whatever was written before a decode error; a deleted ConfigMap restores
     * the defaults.
     */
    method TryResetConfigFromConfigMap(cm: Option<ConfigMap>, configKey: string, decode: ModelDecoder)
      modifies this
      ensures config == ResetModel(old(config), defaultConfig, cm, configKey, decode)
    {
      if cm.Some? {
        var outcome := decode(cm.value.Entry(configKey));
        config := DecodeInto(config, outcome.fields);
      } else {
        config := defaultConfig;
      }
    }
  }

  /** A deleted ConfigMap restores the defaults, whatever was in force. */
  lemma DeletedConfigMapRestoresDefaults(current: ConfigModel, defaults: ConfigModel,
                                         configKey: string, decode: ModelDecoder)
    ensures ResetModel(current, defaults, None, configKey, decode) == defaults
  {
  }

  /**
   * An update merges: a key the document omits keeps the value in force, not
   * the default, and a key it sets is taken as decoded.
   */
  lemma UpdateMergesIntoCurrent(current: ConfigModel, defaults: ConfigModel, cm: ConfigMap,
                                configKey: string, decode: ModelDecoder)
    ensures var f := decode(cm.Entry(configKey)).fields;
            var r := ResetModel(current, defaults, Some(cm), configKey, decode);
            && r.excludeNamespaces == f.excludeNamespaces.GetOr(current.excludeNamespaces)
            && r.includeNamespaces == f.includeNamespaces.GetOr(current.includeNamespaces)
            && r.includeRegistries == f.includeRegistries.GetOr(current.includeRegistries)
  {
  }

  /** A ConfigMap whose entry sets nothing (missing, say) leaves the configuration as it was. */
  lemma EmptyDocumentKeepsConfig(current: ConfigModel, defaults: ConfigModel, cm: ConfigMap,
                                 configKey: string, decode: ModelDecoder)
    requires decode(cm.Entry(configKey)).fields == NoModelFields
    ensures ResetModel(current, defaults, Some(cm), configKey, decode) == current
  {
  }

  /** Delivering the same ConfigMap twice has the effect of delivering it once. */
  lemma ResetIdempotent(current: ConfigModel, defaults: ConfigModel, cm: Option<ConfigMap>,
                        configKey: string, decode: ModelDecoder)
    ensures var once := ResetModel(current, defaults, cm, configKey, decode);
            ResetModel(once, defaults, cm, configKey, decode) == once
  {
  }
}
