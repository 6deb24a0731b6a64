/**
 * Keeping the webhook registration in step with the configuration: ConfigMap
 * events reset the configuration, and every reset deletes the
 * MutatingWebhookConfiguration when the proxy is disabled or installs it with
 * a namespace selector compiled from the namespace lists and the namespace
 * label set.
 */
module WebhookSetup {
  import opened Wrappers
  import opened KubeTypes
  import opened RegistryConfig

  /** The label the API server puts on every namespace, holding its name. */
  const NamespaceNameLabel: string := "kubernetes.io/metadata.name"

  const Wildcard: string := "*"

  datatype Operator = In | NotIn | Exists | DoesNotExist

  /** One match expression of a label selector. */
  datatype Requirement = Requirement(key: string, operator: Operator, values: seq<string>)

  /** How the API server evaluates one match expression against an object's labels. */
  predicate RequirementMatches(r: Requirement, labels: map<string, string>)
  {
    match r.operator
    case In => r.key in labels && labels[r.key] in r.values
    case NotIn => r.key !in labels || labels[r.key] !in r.values
    case Exists => r.key in labels
    case DoesNotExist => r.key !in labels
  }

  /** A selector matches when all of its expressions do. */
  predicate SelectorMatches(reqs: seq<Requirement>, labels: map<string, string>)
  {
    forall i :: 0 <= i < |reqs| ==> RequirementMatches(reqs[i], labels)
  }

  /**
   * The expressions the namespace lists compile to: a non-empty exclude list
   * rules out every namespace when it holds "*" and the listed names
   * otherwise; a non-empty include list admits every namespace when it holds
   * "*" and only the listed names otherwise.
   */
  function PolicyRequirements(excludeNamespaces: seq<string>, includeNamespaces: seq<string>): seq<Requirement>
  {
    (if |excludeNamespaces| == 0 then []
     else if Wildcard in excludeNamespaces then [Requirement(NamespaceNameLabel, DoesNotExist, [])]
     else [Requirement(NamespaceNameLabel, NotIn, excludeNamespaces)])
    +
    (if |includeNamespaces| == 0 then []
     else if Wildcard in includeNamespaces then [Requirement(NamespaceNameLabel, Exists, [])]
     else [Requirement(NamespaceNameLabel, In, includeNamespaces)])
  }

  /**
   * `entries` holds one `In` expression per label of `labelSet`, requiring
   * that label's value, in some order and without repeats.
   */
  ghost predicate LabelSetEntries(entries: seq<Requirement>, labelSet: map<string, string>)
  {
    && |entries| == |labelSet|
    && (forall i :: 0 <= i < |entries| ==>
          entries[i].key in labelSet && entries[i] == Requirement(entries[i].key, In, [labelSet[entries[i].key]]))
    && (forall i, j :: 0 <= i < j < |entries| ==> entries[i].key != entries[j].key)
    && (forall k :: k in labelSet ==> exists i :: 0 <= i < |entries| && entries[i].key == k)
  }

  /**
   * `reqs` is a namespace selector built from `cfg`: the namespace-list
   * expressions, then the label-set expressions in whatever order the map
   * was walked.
   */
  ghost predicate CompiledFrom(reqs: seq<Requirement>, cfg: Config)
  {
    var policy := PolicyRequirements(cfg.excludeNamespaces, cfg.includeNamespaces);
    && |policy| <= |reqs|
    && reqs[..|policy|] == policy
    && LabelSetEntries(reqs[|policy|..], cfg.namespaceSelector)
  }

  /** Builds the namespace selector of the webhook from the configuration. */
  method ConstructNamespaceSelector(cfg: Config) returns (reqs: seq<Requirement>)
    ensures CompiledFrom(reqs, cfg)
  {
    reqs := [];
    if |cfg.excludeNamespaces| > 0 {
      if Wildcard in cfg.excludeNamespaces {
        reqs := reqs + [Requirement(NamespaceNameLabel, DoesNotExist, [])];
      } else {
        reqs := reqs + [Requirement(NamespaceNameLabel, NotIn, cfg.excludeNamespaces)];
      }
    }
    if |cfg.includeNamespaces| > 0 {
      if Wildcard in cfg.includeNamespaces {
        reqs := reqs + [Requirement(NamespaceNameLabel, Exists, [])];
      } else {
        reqs := reqs + [Requirement(NamespaceNameLabel, In, cfg.includeNamespaces)];
      }
    }
    ghost var policy := reqs;
    assert policy == PolicyRequirements(cfg.excludeNamespaces, cfg.includeNamespaces);
    var labelSet := cfg.namespaceSelector;
    var remaining := labelSet.Keys;
    ghost var entries: seq<Requirement> := [];
    WalkStart(labelSet);
    while remaining != {}
      invariant reqs == policy + entries
      invariant WalkProgress(entries, remaining, labelSet)
      decreases |remaining|
    {
      var k :| k in remaining;
      WalkStep(entries, remaining, labelSet, k);
      reqs := reqs + [Requirement(k, In, [labelSet[k]])];
      entries := entries + [Requirement(k, In, [labelSet[k]])];
      remaining := remaining - {k};
    }
    WalkDone(entries, labelSet);
    assert reqs[..|policy|] == policy && reqs[|policy|..] == entries;
  }

  /**
   * Part way through the walk over the label set: `entries` has one
   * expression for each label already visited, and `remaining` holds the rest.
   */
  ghost predicate WalkProgress(entries: seq<Requirement>, remaining: set<string>, labelSet: map<string, string>)
  {
    && remaining <= labelSet.Keys
    && |entries| + |remaining| == |labelSet|
    && (forall i :: 0 <= i < |entries| ==>
          entries[i].key in labelSet && entries[i].key !in remaining
          && entries[i] == Requirement(entries[i].key, In, [labelSet[entries[i].key]]))
    && (forall i, j :: 0 <= i < j < |entries| ==> entries[i].key != entries[j].key)
    && (forall k :: k in labelSet && k !in remaining ==>
          exists i :: 0 <= i < |entries| && entries[i].key == k)
  }

  /** Before the walk nothing is visited. */
  lemma WalkStart(labelSet: map<string, string>)
    ensures WalkProgress([], labelSet.Keys, labelSet)
  {
    assert |labelSet.Keys| == |labelSet|;
  }

  /** A finished walk has built one expression per label. */
  lemma WalkDone(entries: seq<Requirement>, labelSet: map<string, string>)
    requires WalkProgress(entries, {}, labelSet)
    ensures LabelSetEntries(entries, labelSet)
  {
  }

  /** Visiting one more label keeps the walk on track. */
  lemma WalkStep(entries: seq<Requirement>, remaining: set<string>, labelSet: map<string, string>, k: string)
    requires WalkProgress(entries, remaining, labelSet)
    requires k in remaining
    ensures WalkProgress(entries + [Requirement(k, In, [labelSet[k]])], remaining - {k}, labelSet)
  {
    var next := entries + [Requirement(k, In, [labelSet[k]])];
    forall covered | covered in labelSet && covered !in remaining - {k}
      ensures exists i :: 0 <= i < |next| && next[i].key == covered
    {
      if covered == k {
        assert next[|entries|].key == covered;
      } else {
        var i :| 0 <= i < |entries| && entries[i].key == covered;
        assert next[i].key == covered;
      }
    }
  }

  /**
   * Which namespaces the lists admit, stated directly: a namespace is out
   * when the exclude list holds "*" or its name, and otherwise in when the
   * include list is empty, holds "*" or holds its name.
   */
  predicate NamespaceAdmitted(excludeNamespaces: seq<string>, includeNamespaces: seq<string>, namespace: string)
  {
    && Wildcard !in excludeNamespaces
    && namespace !in excludeNamespaces
    && (|includeNamespaces| == 0 || Wildcard in includeNamespaces || namespace in includeNamespaces)
  }

  /** The namespace-list expressions decide exactly what `NamespaceAdmitted` says. */
  lemma PolicyDecides(excludeNamespaces: seq<string>, includeNamespaces: seq<string>, labels: map<string, string>)
    requires NamespaceNameLabel in labels
    ensures SelectorMatches(PolicyRequirements(excludeNamespaces, includeNamespaces), labels)
        <==> NamespaceAdmitted(excludeNamespaces, includeNamespaces, labels[NamespaceNameLabel])
  {
    var policy := PolicyRequirements(excludeNamespaces, includeNamespaces);
    var namespace := labels[NamespaceNameLabel];
    if |excludeNamespaces| > 0 {
      assert RequirementMatches(policy[0], labels) <==> Wildcard !in excludeNamespaces && namespace !in excludeNamespaces;
    }
    if |includeNamespaces| > 0 {
      var last := policy[|policy| - 1];
      assert RequirementMatches(last, labels) <==> Wildcard in includeNamespaces || namespace in includeNamespaces;
    }
  }

  /** The label-set expressions match exactly the objects carrying every label of the set. */
  lemma EntriesDecide(entries: seq<Requirement>, labelSet: map<string, string>, labels: map<string, string>)
    requires LabelSetEntries(entries, labelSet)
    ensures SelectorMatches(entries, labels) <==> SetMatches(labelSet, labels)
  {
    if SelectorMatches(entries, labels) {
      forall k | k in labelSet
        ensures k in labels && labels[k] == labelSet[k]
      {
        var i :| 0 <= i < |entries| && entries[i].key == k;
        assert RequirementMatches(entries[i], labels);
      }
    }
    if SetMatches(labelSet, labels) {
      forall i | 0 <= i < |entries|
        ensures RequirementMatches(entries[i], labels)
      {
        var k := entries[i].key;
        assert k in labels && labels[k] == labelSet[k];
      }
    }
  }

  /** A selector matches when both of its parts do. */
  lemma SelectorMatchesSplit(reqs: seq<Requirement>, n: nat, labels: map<string, string>)
    requires n <= |reqs|
    ensures SelectorMatches(reqs, labels)
        <==> SelectorMatches(reqs[..n], labels) && SelectorMatches(reqs[n..], labels)
  {
    if SelectorMatches(reqs[..n], labels) && SelectorMatches(reqs[n..], labels) {
      forall i | 0 <= i < |reqs|
        ensures RequirementMatches(reqs[i], labels)
      {
        if i < n {
          assert reqs[..n][i] == reqs[i];
        } else {
          assert reqs[n..][i - n] == reqs[i];
        }
      }
    }
  }

  /**
   * For every namespace (which always carries its name label), a compiled
   * selector matches exactly when the namespace lists admit the namespace and
   * the namespace carries every label of the configured label set.
   */
  lemma CompiledSelectorDecides(reqs: seq<Requirement>, cfg: Config, labels: map<string, string>)
    requires CompiledFrom(reqs, cfg)
    requires NamespaceNameLabel in labels
    ensures SelectorMatches(reqs, labels)
        <==> NamespaceAdmitted(cfg.excludeNamespaces, cfg.includeNamespaces, labels[NamespaceNameLabel])
             && SetMatches(cfg.namespaceSelector, labels)
  {
    var policy := PolicyRequirements(cfg.excludeNamespaces, cfg.includeNamespaces);
    SelectorMatchesSplit(reqs, |policy|, labels);
    PolicyDecides(cfg.excludeNamespaces, cfg.includeNamespaces, labels);
    EntriesDecide(reqs[|policy|..], cfg.namespaceSelector, labels);
  }

  /** Each non-empty namespace list adds one expression, and each label of the set one more. */
  lemma CompiledSelectorLength(reqs: seq<Requirement>, cfg: Config)
    requires CompiledFrom(reqs, cfg)
    ensures |reqs| == (if |cfg.excludeNamespaces| > 0 then 1 else 0)
                    + (if |cfg.includeNamespaces| > 0 then 1 else 0)
                    + |cfg.namespaceSelector|
  {
  }

  /** Exclusion wins: a listed namespace is never selected, whatever the include list says. */
  lemma ExcludedNamespaceNeverSelected(reqs: seq<Requirement>, cfg: Config, labels: map<string, string>)
    requires CompiledFrom(reqs, cfg)
    requires NamespaceNameLabel in labels
    requires labels[NamespaceNameLabel] in cfg.excludeNamespaces || Wildcard in cfg.excludeNamespaces
    ensures !SelectorMatches(reqs, labels)
  {
    CompiledSelectorDecides(reqs, cfg, labels);
  }

  /**
   * Under the default configuration a namespace is selected exactly when it
   * is not one of the four system namespaces.
   */
  lemma DefaultConfigSelectsNonSystemNamespaces(reqs: seq<Requirement>, labels: map<string, string>)
    requires CompiledFrom(reqs, DefaultConfig)
    requires NamespaceNameLabel in labels
    ensures SelectorMatches(reqs, labels)
        <==> labels[NamespaceNameLabel] !in ["kube-system", "kube-public", "kube-node-lease", "registry-proxy"]
  {
    CompiledSelectorDecides(reqs, DefaultConfig, labels);
    assert Wildcard !in DefaultConfig.excludeNamespaces;
    assert Wildcard in DefaultConfig.includeNamespaces;
  }

  /** An object the informer hands to the handlers: a ConfigMap, or anything else (a tombstone, say). */
  datatype InformerObject = ConfigMapObject(cm: ConfigMap) | OtherObject

  datatype ConfigMapEvent =
    | Added(obj: InformerObject)
    | Updated(oldObj: InformerObject, newObj: InformerObject)
    | Deleted(obj: InformerObject)

  /**
   * Whether an event resets the configuration, and from which ConfigMap:
   * `None` when it is ignored, `Some(None)` for a reset without a ConfigMap.
   */
  function ResetSource(e: ConfigMapEvent): (r: Option<Option<ConfigMap>>)
    ensures r.Some? <==>
              || (e.Added? && e.obj.ConfigMapObject?)
              || (e.Updated? && e.oldObj.ConfigMapObject? && e.newObj.ConfigMapObject?
                  && e.oldObj.cm.resourceVersion != e.newObj.cm.resourceVersion)
              || (e.Deleted? && e.obj.ConfigMapObject?)
    ensures r == Some(None) <==> e.Deleted? && e.obj.ConfigMapObject?
    ensures r.Some? && e.Added? ==> r.value == Some(e.obj.cm)
    ensures r.Some? && e.Updated? ==> r.value == Some(e.newObj.cm)
  {
    match e
    case Added(obj) =>
      if obj.ConfigMapObject? then Some(Some(obj.cm)) else None
    case Updated(oldObj, newObj) =>
      if oldObj.ConfigMapObject? && newObj.ConfigMapObject?
         && oldObj.cm.resourceVersion != newObj.cm.resourceVersion
      then Some(Some(newObj.cm))
      else None
    case Deleted(obj) =>
      if obj.ConfigMapObject? then Some(None) else None
  }

  /**
   * The YAML payload of a ConfigMap: the entry under `configKey` (the key the
   * deployment names), or nothing when there is no ConfigMap or no entry.
   */
  function ConfigPayload(cm: Option<ConfigMap>, configKey: string): (payload: string)
    ensures cm.Some? && configKey in cm.value.data ==> payload == cm.value.data[configKey]
    ensures cm.None? || configKey !in cm.value.data ==> payload == ""
  {
    if cm.Some? then cm.value.Entry(configKey) else ""
  }

  /** The registration state of the webhook in the cluster: absent, or present with a namespace selector. */
  class Cluster {
    var webhook: Option<seq<Requirement>>

    constructor ()
      ensures webhook.None?
    {
      webhook := None;
    }
  }

  /** The registration a configuration calls for: none when disabled, a compiled selector otherwise. */
  ghost predicate WebhookReflects(webhook: Option<seq<Requirement>>, cfg: Config)
  {
    && (webhook.None? <==> !cfg.enabled)
    && (webhook.Some? ==> CompiledFrom(webhook.value, cfg))
  }

  /**
   * Deletes the webhook registration when the configuration is disabled, and
   * otherwise creates it or updates it to the freshly constructed selector.
   */
  method ApplyWebhook(cfg: Config, cluster: Cluster)
    modifies cluster
    ensures WebhookReflects(cluster.webhook, cfg)
  {
    if !cfg.enabled {
      cluster.webhook := None;
      return;
    }
    var reqs := ConstructNamespaceSelector(cfg);
    cluster.webhook := Some(reqs);
  }

  /** Resets the configuration from a ConfigMap, or from nothing, and re-applies the webhook. */
  method TryResetConfigFromConfigMap(store: ConfigStore, cluster: Cluster, cm: Option<ConfigMap>, configKey: string, decode: YamlDecoder)
    modifies store, cluster
    ensures store.current == ResetResult(ConfigPayload(cm, configKey), decode)
    ensures WebhookReflects(cluster.webhook, store.current)
  {
    var data := "";
    if cm.Some? {
      data := cm.value.Entry(configKey);
    }
    store.Reset(data, decode);
    ApplyWebhook(store.current, cluster);
  }

  /** Dispatches one ConfigMap event; ignored events change nothing. */
  method HandleEvent(store: ConfigStore, cluster: Cluster, e: ConfigMapEvent, configKey: string, decode: YamlDecoder)
    modifies store, cluster
    ensures ResetSource(e).None? ==>
              store.current == old(store.current) && cluster.webhook == old(cluster.webhook)
    ensures ResetSource(e).Some? ==>
              && store.current == ResetResult(ConfigPayload(ResetSource(e).value, configKey), decode)
              && WebhookReflects(cluster.webhook, store.current)
  {
    match e
    case Added(obj) =>
      if obj.ConfigMapObject? {
        TryResetConfigFromConfigMap(store, cluster, Some(obj.cm), configKey, decode);
      }
    case Updated(oldObj, newObj) =>
      if oldObj.ConfigMapObject? && newObj.ConfigMapObject?
         && oldObj.cm.resourceVersion != newObj.cm.resourceVersion {
        TryResetConfigFromConfigMap(store, cluster, Some(newObj.cm), configKey, decode);
      }
    case Deleted(obj) =>
      if obj.ConfigMapObject? {
        TryResetConfigFromConfigMap(store, cluster, None, configKey, decode);
      }
  }

  /** Deleting the ConfigMap, or emptying its entry, brings back the default configuration. */
  lemma MissingPayloadRestoresDefaults(cm: Option<ConfigMap>, configKey: string, decode: YamlDecoder)
    requires cm.None? || configKey !in cm.value.data || cm.value.data[configKey] == ""
    ensures ResetResult(ConfigPayload(cm, configKey), decode) == DefaultConfig
  {
  }

  /** A resync that delivers the same resource version again leaves everything as it was. */
  lemma SameVersionUpdateIgnored(oldCm: ConfigMap, newCm: ConfigMap)
    requires oldCm.resourceVersion == newCm.resourceVersion
    ensures ResetSource(Updated(ConfigMapObject(oldCm), ConfigMapObject(newCm))).None?
  {
  }
}
