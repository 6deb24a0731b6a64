/**
 * The earlier admission handler: a pod opts in with an annotation, every
 * image goes through a fixed table of proxies, and the response always names
 * the JSON patch type, even when it carries no patch.
 */
module LegacyWebhook {
  import opened Wrappers
  import opened ImageRef
  import opened KubeTypes
  import ProxyRewrite
  import RegistryConfig

  /** The annotation a pod must carry, with the value "true", to be rewritten. */
  const MatchAnnotationKey: string := "registry-proxy/enabled"

  /** registry domain -> proxy domain */
  const Registries: map<string, string> := map[
    "docker.io" := "dockerproxy.com",
    "ghcr.io" := "ghcr.dockerproxy.com",
    "gcr.io" := "gcr.dockerproxy.com",
    "k8s.gcr.io" := "k8s.dockerproxy.com",
    "registry.k8s.io" := "k8s.dockerproxy.com",
    "quay.io" := "quay.dockerproxy.com",
    "mcr.microsoft.com" := "mcr.dockerproxy.com"
  ]

  /** The table's proxy for a registry, or the registry itself when it has none. */
  function GetProxyRegistry(registry: string): (r: string)
    ensures registry in Registries ==> r == Registries[registry]
    ensures registry !in Registries ==> r == registry
  {
    var proxy := if registry in Registries then Registries[registry] else "";
    if proxy == "" then registry else proxy
  }

  /** The image a container is switched to, or the image itself when it does not parse. */
  function GetProxyImage(raw: string): string
  {
    match Parse(raw)
    case ParseError => raw
    case Parsed(registry, name) => ProxyRewrite.JoinPath(GetProxyRegistry(registry), name)
  }

  /** The fixed table behaves as the configurable rewrite given the same table. */
  lemma GetProxyImageAgrees(raw: string)
    ensures GetProxyImage(raw) == ProxyRewrite.GetProxyImage(Registries, raw)
  {
    match Parse(raw)
    case ParseError =>
    case Parsed(registry, name) =>
      assert GetProxyRegistry(registry) == ProxyRewrite.GetProxyRegistry(Registries, registry);
  }

  /** `nginx:latest` goes through the Docker Hub proxy of the table. */
  lemma OfficialImageVector(raw: string)
    requires raw == "nginx:latest"
    ensures GetProxyImage(raw) == "dockerproxy.com" + "/" + "docker.io/library/nginx:latest"
  {
    ParseVectorOfficialImage(raw);
  }

  /** Rewrites the images of the init, regular and ephemeral containers of `pod` through the table. */
  method ReplaceImage(pod: Pod)
    requires pod.Valid()
    modifies pod.initContainers, pod.containers, pod.ephemeralContainers
    ensures pod.Spec() == ProxyRewrite.RewriteSpec(Registries, old(pod.Spec()))
  {
    ProxyRewrite.RewriteInPlace(Registries, pod.initContainers);
    ProxyRewrite.RewriteInPlace(Registries, pod.containers);
    ProxyRewrite.RewriteInPlace(Registries, pod.ephemeralContainers);
  }

  /** Whether the pod opted in: the annotation must be present and exactly "true". */
  predicate Matched(annotations: map<string, string>)
  {
    MatchAnnotationKey in annotations && annotations[MatchAnnotationKey] == "true"
  }

  function MatchedMessage(namespace: string, name: string): string
  {
    "pod " + namespace + "/" + name + " is matched"
  }

  /** The response the handler gives for a pod. */
  function LegacyAdmit(review: AdmissionReview, namespace: string, name: string,
                       annotations: map<string, string>, spec: PodSpec): (r: AdmissionResponse)
    ensures r.allowed && r.typeMeta == review.typeMeta && r.uid == review.uid
    ensures r.patchType == Some(JSONPatch)
    ensures r.patch.Some? <==> Matched(annotations)
    ensures r.result.Some? <==> Matched(annotations)
    ensures Matched(annotations) ==> r.result == Some(MatchedMessage(namespace, name))
    ensures r.patch.Some? ==>
              ApplyPatch(spec, r.patch.value)
                == Some(ProxyRewrite.RewriteSpec(Registries, spec).(ephemeralContainers := spec.ephemeralContainers))
  {
    var base := AdmissionResponse(review.typeMeta, review.uid, true, None, None, Some(JSONPatch));
    if Matched(annotations) then
      var rewritten := ProxyRewrite.RewriteSpec(Registries, spec);
      ProxyRewrite.PatchDocumentApplies(spec, rewritten.initContainers, rewritten.containers);
      base.(result := Some(MatchedMessage(namespace, name)),
            patch := Some(ProxyRewrite.PatchDocument(rewritten.initContainers, rewritten.containers)))
    else
      base
  }

  /** Handles one admission request for `pod`; only an opted-in pod is rewritten. */
  method MutatePod(review: AdmissionReview, pod: Pod) returns (response: AdmissionResponse)
    requires pod.Valid()
    modifies pod.initContainers, pod.containers, pod.ephemeralContainers
    ensures response == LegacyAdmit(review, pod.namespace, pod.name, pod.annotations, old(pod.Spec()))
    ensures Matched(pod.annotations) ==> pod.Spec() == ProxyRewrite.RewriteSpec(Registries, old(pod.Spec()))
    ensures !Matched(pod.annotations) ==> pod.Spec() == old(pod.Spec())
  {
    response := AdmissionResponse(review.typeMeta, review.uid, true, None, None, Some(JSONPatch));
    if Matched(pod.annotations) {
      response := response.(result := Some(MatchedMessage(pod.namespace, pod.name)));
      ReplaceImage(pod);
      var patch := ProxyRewrite.PatchDocument(pod.initContainers[..], pod.containers[..]);
      response := response.(patch := Some(patch));
    }
  }

  /**
   * For an opted-in pod, the earlier handler sends the same patch as the
   * current one does under a configuration with the same table and a pod
   * selector the pod passes.
   */
  lemma SamePatchAsCurrentHandler(cfg: RegistryConfig.Config, review: AdmissionReview, namespace: string,
                                  name: string, annotations: map<string, string>,
                                  labels: map<string, string>, spec: PodSpec)
    requires Matched(annotations)
    requires cfg.proxies == Registries
    requires ProxyRewrite.PodSelected(cfg.podSelector, labels)
    ensures LegacyAdmit(review, namespace, name, annotations, spec).patch
              == ProxyRewrite.Admit(cfg, review, labels, spec).patch
  {
  }
}
