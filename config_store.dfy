/**
 * The hot-reloadable configuration of the webhook: which registries are
 * proxied and where, which namespaces and pods are affected, and whether the
 * webhook is registered at all. One store holds the current configuration;
 * `Reset` replaces it from the YAML payload of the ConfigMap.
 */
module RegistryConfig {
  import opened Wrappers

  datatype Config = Config(
    enabled: bool,
    /** registry domain -> proxy domain */
    proxies: map<string, string>,
    excludeNamespaces: seq<string>,
    includeNamespaces: seq<string>,
    podSelector: map<string, string>,
    namespaceSelector: map<string, string>)

  const DefaultProxies: map<string, string> := map[
    "docker.io" := "docker.m.daocloud.io",
    "registry.k8s.io" := "k8s.m.daocloud.io",
    "quay.io" := "quay.m.daocloud.io",
    "ghcr.io" := "ghcr.m.daocloud.io",
    "gcr.io" := "gcr.m.daocloud.io",
    "k8s.gcr.io" := "k8s-gcr.m.daocloud.io"
  ]

  const DefaultConfig: Config := Config(
    true,
    DefaultProxies,
    ["kube-system", "kube-public", "kube-node-lease", "registry-proxy"],
    ["*"],
    map[],
    map[])

  /** The zero value a fresh configuration starts from before a payload is decoded into it. */
  const EmptyConfig: Config := Config(false, map[], [], [], map[], map[])

  /**
   * What a YAML decoder writes into a configuration: each key the document
   * sets, and nothing for the keys it omits.
   */
  datatype ConfigFields = ConfigFields(
    enabled: Option<bool>,
    proxies: Option<map<string, string>>,
    excludeNamespaces: Option<seq<string>>,
    includeNamespaces: Option<seq<string>>,
    podSelector: Option<map<string, string>>,
    namespaceSelector: Option<map<string, string>>)

  /**
   * The outcome of decoding one payload. A failing decode may still have
   * written the keys it reached before the error.
   */
  datatype Decoded = Decoded(fields: ConfigFields, failed: bool)

  /** The YAML library, as a function from payload to outcome. */
  type YamlDecoder = string -> Decoded

  /** The fields a full YAML rendering of `c` sets when read back. */
  function AllFields(c: Config): ConfigFields
  {
    ConfigFields(Some(c.enabled), Some(c.proxies), Some(c.excludeNamespaces),
                 Some(c.includeNamespaces), Some(c.podSelector), Some(c.namespaceSelector))
  }

  /** Decoding into an existing value: keys that are set overwrite, the rest keep `base`. */
  function Overlay(base: Config, f: ConfigFields): Config
  {
    Config(
      f.enabled.GetOr(base.enabled),
      f.proxies.GetOr(base.proxies),
      f.excludeNamespaces.GetOr(base.excludeNamespaces),
      f.includeNamespaces.GetOr(base.includeNamespaces),
      f.podSelector.GetOr(base.podSelector),
      f.namespaceSelector.GetOr(base.namespaceSelector))
  }

  /**
   * The configuration `Reset` installs: the defaults for an empty payload,
   * otherwise whatever the decoder wrote into a zero configuration, kept even
   * when the decoder reported an error.
   */
  function ResetResult(payload: string, decode: YamlDecoder): Config
  {
    if |payload| > 0 then Overlay(EmptyConfig, decode(payload).fields) else DefaultConfig
  }

  /** Holder of the configuration every handler reads. */
  class ConfigStore {
    var current: Config

    constructor ()
      ensures current == DefaultConfig
    {
      current := DefaultConfig;
    }

    function Get(): Config
      reads this
    {
      current
    }

    function GetProxies(): map<string, string>
      reads this
    {
      current.proxies
    }

    function GetExcludeNamespaces(): seq<string>
      reads this
    {
      current.excludeNamespaces
    }

    function GetIncludeNamespaces(): seq<string>
      reads this
    {
      current.includeNamespaces
    }

    function Enabled(): bool
      reads this
    {
      current.enabled
    }

    function PodSelector(): map<string, string>
      reads this
    {
      current.podSelector
    }

    function NamespaceSelector(): map<string, string>
      reads this
    {
      current.namespaceSelector
    }

    /**
     * Replaces the configuration from a payload. The previous configuration
     * plays no part, and a decode error is only reported, never rolled back.
     */
    method Reset(payload: string, decode: YamlDecoder)
      modifies this
      ensures current == ResetResult(payload, decode)
    {
      if |payload| > 0 {
        var outcome := decode(payload);
        current := Overlay(EmptyConfig, outcome.fields);
      } else {
        current := DefaultConfig;
      }
    }
  }

  /** An empty payload always restores the defaults, whatever the decoder would say. */
  lemma ResetEmptyRestoresDefaults(decode: YamlDecoder)
    ensures ResetResult("", decode) == DefaultConfig
  {
  }

  /**
   * A non-empty payload starts from zero: a key the document omits is off or
   * empty afterwards, not its default value.
   */
  lemma ResetOmittedKeysAreZero(payload: string, decode: YamlDecoder)
    requires |payload| > 0
    ensures decode(payload).fields.enabled.None? ==> !ResetResult(payload, decode).enabled
    ensures decode(payload).fields.proxies.None? ==> ResetResult(payload, decode).proxies == map[]
    ensures decode(payload).fields.excludeNamespaces.None? ==> ResetResult(payload, decode).excludeNamespaces == []
    ensures decode(payload).fields.includeNamespaces.None? ==> ResetResult(payload, decode).includeNamespaces == []
    ensures decode(payload).fields.podSelector.None? ==> ResetResult(payload, decode).podSelector == map[]
    ensures decode(payload).fields.namespaceSelector.None? ==> ResetResult(payload, decode).namespaceSelector == map[]
  {
  }

  /** A key the document sets is taken as decoded, error or not. */
  lemma ResetSetKeysAreTaken(payload: string, decode: YamlDecoder)
    requires |payload| > 0
    ensures decode(payload).fields.enabled.Some? ==>
              ResetResult(payload, decode).enabled == decode(payload).fields.enabled.value
    ensures decode(payload).fields.proxies.Some? ==>
              ResetResult(payload, decode).proxies == decode(payload).fields.proxies.value
    ensures decode(payload).fields.excludeNamespaces.Some? ==>
              ResetResult(payload, decode).excludeNamespaces == decode(payload).fields.excludeNamespaces.value
    ensures decode(payload).fields.includeNamespaces.Some? ==>
              ResetResult(payload, decode).includeNamespaces == decode(payload).fields.includeNamespaces.value
    ensures decode(payload).fields.podSelector.Some? ==>
              ResetResult(payload, decode).podSelector == decode(payload).fields.podSelector.value
    ensures decode(payload).fields.namespaceSelector.Some? ==>
              ResetResult(payload, decode).namespaceSelector == decode(payload).fields.namespaceSelector.value
  {
  }

  /** Reading back a full rendering of a configuration reproduces it, from any starting value. */
  lemma OverlayAllFields(base: Config, c: Config)
    ensures Overlay(base, AllFields(c)) == c
  {
  }

  /**
   * The ConfigMap created at start-up holds the rendering of the current
   * configuration, so resetting from it keeps that configuration.
   */
  lemma ResetFromRenderingKeepsConfig(payload: string, decode: YamlDecoder, c: Config)
    requires |payload| > 0
    requires decode(payload).fields == AllFields(c)
    ensures ResetResult(payload, decode) == c
  {
    OverlayAllFields(EmptyConfig, c);
  }
}
