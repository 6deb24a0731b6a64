/**
 * The admission handler of the webhook: for a pod the pod selector lets
 * through, every image is rewritten to go through the proxy configured for its
 * registry, and the response carries a JSON patch that replaces the pod's
 * init and regular container lists with the rewritten ones.
 */
module ProxyRewrite {
  import opened Wrappers
  import opened ImageRef
  import opened KubeTypes
  import opened RegistryConfig

  /**
   * Go's `path.Join` of two elements: empty elements are dropped and the rest
   * are separated by one slash. The lexical clean-up `path.Join` also does is
   * not modelled.
   */
  function JoinPath(dir: string, elem: string): string
  {
    if dir == "" then elem
    else if elem == "" then dir
    else dir + "/" + elem
  }

  /**
   * The registry an image is pulled through: the configured proxy of
   * `registry`, or `registry` itself when there is no proxy table, no entry,
   * or an empty entry.
   */
  function GetProxyRegistry(proxies: map<string, string>, registry: string): (r: string)
    ensures registry in proxies && proxies[registry] != "" ==> r == proxies[registry]
    ensures r == registry || (registry in proxies && r == proxies[registry] && r != "")
  {
    if registry in proxies && proxies[registry] != "" then proxies[registry] else registry
  }

  /**
   * The image a container is switched to: the proxy registry of the image's
   * registry joined with the image's fully qualified name, or the image itself
   * when it does not parse.
   */
  function GetProxyImage(proxies: map<string, string>, raw: string): string
  {
    match Parse(raw)
    case ParseError => raw
    case Parsed(domain, name) => JoinPath(GetProxyRegistry(proxies, domain), name)
  }

  /**
   * An image that does not parse is kept; any other image changes, to the
   * proxy registry followed by its fully qualified name, which still ends with
   * the image as written.
   */
  lemma GetProxyImageSpec(proxies: map<string, string>, raw: string)
    ensures Parse(raw).ParseError? ==> GetProxyImage(proxies, raw) == raw
    ensures Parse(raw).Parsed? ==>
              GetProxyImage(proxies, raw) == GetProxyRegistry(proxies, Parse(raw).domain) + "/" + Parse(raw).name
    ensures GetProxyImage(proxies, raw) == raw <==> Parse(raw).ParseError?
    ensures HasSuffix(GetProxyImage(proxies, raw), raw)
  {
    var p := Parse(raw);
    if p.Parsed? {
      var registry := GetProxyRegistry(proxies, p.domain);
      assert GetProxyImage(proxies, raw) == registry + "/" + p.name;
      PrefixedKeepsSuffix(registry, p.name, raw);
    }
  }

  /** Putting a registry and '/' in front of a name keeps its suffixes and lengthens it. */
  lemma PrefixedKeepsSuffix(registry: string, name: string, raw: string)
    requires HasSuffix(name, raw)
    ensures HasSuffix(registry + "/" + name, raw)
    ensures registry + "/" + name != raw
  {
    var r := registry + "/" + name;
    assert |r| > |name| >= |raw|;
    assert r[|r| - |raw|..] == name[|name| - |raw|..];
  }

  /** A container switched to its proxy image. */
  function ProxyContainer(proxies: map<string, string>, c: Container): Container
  {
    c.(image := GetProxyImage(proxies, c.image))
  }

  /** The container list with every image replaced by its proxy image, in place and in order. */
  function RewriteContainers(proxies: map<string, string>, cs: seq<Container>): seq<Container>
  {
    seq(|cs|, i requires 0 <= i < |cs| => ProxyContainer(proxies, cs[i]))
  }

  /** All three container lists rewritten. */
  function RewriteSpec(proxies: map<string, string>, spec: PodSpec): PodSpec
  {
    PodSpec(
      RewriteContainers(proxies, spec.initContainers),
      RewriteContainers(proxies, spec.containers),
      RewriteContainers(proxies, spec.ephemeralContainers))
  }

  /** The two replace operations sent back: init containers first, then containers. */
  function PatchDocument(initContainers: seq<Container>, containers: seq<Container>): seq<PatchOperation>
  {
    [ PatchOperation(ReplaceOp, InitContainersPath, initContainers),
      PatchOperation(ReplaceOp, ContainersPath, containers) ]
  }

  /** Overwrites each image of `a` with its proxy image. */
  method RewriteInPlace(proxies: map<string, string>, a: array<Container>)
    modifies a
    ensures a[..] == RewriteContainers(proxies, old(a[..]))
  {
    ghost var original := a[..];
    var i := 0;
    while i < a.Length
      invariant 0 <= i <= a.Length
      invariant a[..i] == RewriteContainers(proxies, original[..i])
      invariant a[i..] == original[i..]
    {
      a[i] := ProxyContainer(proxies, a[i]);
      i := i + 1;
    }
    assert a[..] == a[..a.Length] && original == original[..a.Length];
  }

  /** Rewrites the images of the init, regular and ephemeral containers of `pod`. */
  method ReplaceImage(proxies: map<string, string>, pod: Pod)
    requires pod.Valid()
    modifies pod.initContainers, pod.containers, pod.ephemeralContainers
    ensures pod.Spec() == RewriteSpec(proxies, old(pod.Spec()))
  {
    RewriteInPlace(proxies, pod.initContainers);
    RewriteInPlace(proxies, pod.containers);
    RewriteInPlace(proxies, pod.ephemeralContainers);
  }

  /**
   * Rewrites the pod and returns the patch carrying its new init and regular
   * container lists; the rewritten ephemeral containers stay out of the patch.
   */
  method PatchPod(proxies: map<string, string>, pod: Pod) returns (patch: seq<PatchOperation>)
    requires pod.Valid()
    modifies pod.initContainers, pod.containers, pod.ephemeralContainers
    ensures pod.Spec() == RewriteSpec(proxies, old(pod.Spec()))
    ensures patch == PatchDocument(pod.initContainers[..], pod.containers[..])
  {
    ReplaceImage(proxies, pod);
    patch := PatchDocument(pod.initContainers[..], pod.containers[..]);
  }

  /**
   * The review sent back: it echoes the request's type and UID, always allows
   * the pod, and names a JSON patch exactly when one is attached.
   */
  function Response(review: AdmissionReview, patch: Option<seq<PatchOperation>>): (r: AdmissionResponse)
    ensures r.allowed && r.result.None?
    ensures r.typeMeta == review.typeMeta && r.uid == review.uid
    ensures r.patch == patch
    ensures r.patchType.Some? <==> patch.Some?
    ensures r.patchType.Some? ==> r.patchType.value == JSONPatch
  {
    AdmissionResponse(review.typeMeta, review.uid, true, None, patch,
                      if patch.Some? then Some(JSONPatch) else None)
  }

  /**
   * Whether the pod selector lets a pod through: an empty selector always
   * does; otherwise every selector label must be on the pod with that value.
   */
  function PodSelected(selector: map<string, string>, labels: map<string, string>): (r: bool)
    ensures r <==> SetMatches(selector, labels)
  {
    |selector| == 0 || forall k | k in selector :: k in labels && labels[k] == selector[k]
  }

  /** The response the handler gives for a pod, as a function of the configuration and the pod. */
  function Admit(cfg: Config, review: AdmissionReview, labels: map<string, string>, spec: PodSpec): (r: AdmissionResponse)
    ensures r.allowed && r.result.None?
    ensures r.typeMeta == review.typeMeta && r.uid == review.uid
    ensures r.patch.Some? <==> PodSelected(cfg.podSelector, labels)
    ensures r.patch.Some? ==> r.patchType == Some(JSONPatch)
    ensures r.patch.Some? ==>
              ApplyPatch(spec, r.patch.value)
                == Some(RewriteSpec(cfg.proxies, spec).(ephemeralContainers := spec.ephemeralContainers))
  {
    if PodSelected(cfg.podSelector, labels) then
      var rewritten := RewriteSpec(cfg.proxies, spec);
      PatchDocumentApplies(spec, rewritten.initContainers, rewritten.containers);
      Response(review, Some(PatchDocument(rewritten.initContainers, rewritten.containers)))
    else
      Response(review, None)
  }

  /**
   * Handles one admission request for `pod` under the store's current
   * configuration. The pod's images are rewritten only when it is selected.
   */
  method MutatePod(store: ConfigStore, review: AdmissionReview, pod: Pod) returns (response: AdmissionResponse)
    requires pod.Valid()
    modifies pod.initContainers, pod.containers, pod.ephemeralContainers
    ensures response == Admit(old(store.current), review, pod.labels, old(pod.Spec()))
    ensures PodSelected(old(store.current).podSelector, pod.labels) ==>
              pod.Spec() == RewriteSpec(old(store.current).proxies, old(pod.Spec()))
    ensures !PodSelected(old(store.current).podSelector, pod.labels) ==>
              pod.Spec() == old(pod.Spec())
  {
    if !PodSelected(store.PodSelector(), pod.labels) {
      response := Response(review, None);
      return;
    }
    var patch := PatchPod(store.GetProxies(), pod);
    response := Response(review, Some(patch));
  }

  /** Applying the patch replaces exactly the init and regular container lists. */
  lemma PatchDocumentApplies(spec: PodSpec, initContainers: seq<Container>, containers: seq<Container>)
    ensures ApplyPatch(spec, PatchDocument(initContainers, containers))
              == Some(spec.(initContainers := initContainers, containers := containers))
  {
    var ops := PatchDocument(initContainers, containers);
    var afterFirst := spec.(initContainers := initContainers);
    var afterSecond := afterFirst.(containers := containers);
    assert ContainersPath != InitContainersPath by { assert ContainersPath[6] != InitContainersPath[6]; }
    assert ApplyOperation(spec, ops[0]) == Some(afterFirst);
    assert ApplyOperation(afterFirst, ops[1]) == Some(afterSecond);
    assert ops[1..] == [ops[1]];
    assert ApplyPatch(afterSecond, []) == Some(afterSecond);
    assert [ops[1]][1..] == [];
    assert ApplyPatch(afterFirst, [ops[1]]) == Some(afterSecond);
  }

  /** Rewriting changes images only: the list keeps its length and every other field of each container. */
  lemma RewriteKeepsContainers(proxies: map<string, string>, cs: seq<Container>)
    ensures |RewriteContainers(proxies, cs)| == |cs|
    ensures forall i :: 0 <= i < |cs| ==> RewriteContainers(proxies, cs)[i].name == cs[i].name
    ensures forall i :: 0 <= i < |cs| ==> HasSuffix(RewriteContainers(proxies, cs)[i].image, cs[i].image)
  {
    forall i | 0 <= i < |cs|
      ensures HasSuffix(RewriteContainers(proxies, cs)[i].image, cs[i].image)
    {
      GetProxyImageSpec(proxies, cs[i].image);
    }
  }

  /** A container list comes back unchanged exactly when none of its images parses. */
  lemma RewriteUnchangedIff(proxies: map<string, string>, cs: seq<Container>)
    ensures (RewriteContainers(proxies, cs) == cs)
              <==> (forall i :: 0 <= i < |cs| ==> Parse(cs[i].image).ParseError?)
  {
    var r := RewriteContainers(proxies, cs);
    if forall i :: 0 <= i < |cs| ==> Parse(cs[i].image).ParseError? {
      assert forall i :: 0 <= i < |cs| ==> r[i] == cs[i];
    }
    if r == cs {
      forall i | 0 <= i < |cs|
        ensures Parse(cs[i].image).ParseError?
      {
        assert r[i].image == cs[i].image;
        GetProxyImageSpec(proxies, cs[i].image);
      }
    }
  }

  /** An image whose registry has a proxy is pulled through it, with the original name kept behind it. */
  lemma ExplicitHostRewrite(proxies: map<string, string>, host: string, path: string)
    requires '/' !in host && IsHostLike(host)
    requires ValidReference(host + "/" + path)
    ensures host in proxies && proxies[host] != "" ==>
              GetProxyImage(proxies, host + "/" + path) == proxies[host] + "/" + (host + "/" + path)
    ensures !(host in proxies && proxies[host] != "") ==>
              GetProxyImage(proxies, host + "/" + path) == host + "/" + (host + "/" + path)
  {
    ParseExplicitHost(host, path);
    GetProxyImageSpec(proxies, host + "/" + path);
  }

  /**
   * `nginx:latest` with a proxy for docker.io: the proxy goes in front of the
   * fully qualified name, so "docker.io/library/" stays in the result.
   */
  lemma OfficialImageKeepsDomain(proxies: map<string, string>, raw: string)
    requires raw == "nginx:latest"
    requires "docker.io" in proxies && proxies["docker.io"] != ""
    ensures GetProxyImage(proxies, raw) == proxies["docker.io"] + "/" + "docker.io/library/nginx:latest"
  {
    ParseVectorOfficialImage(raw);
    GetProxyImageSpec(proxies, raw);
  }

  /** Under the default table, `nginx:latest` goes through the Docker Hub mirror. */
  lemma DefaultProxiesOfficialImage(raw: string)
    requires raw == "nginx:latest"
    ensures GetProxyImage(DefaultProxies, raw) == "docker.m.daocloud.io" + "/" + "docker.io/library/nginx:latest"
  {
    OfficialImageKeepsDomain(DefaultProxies, raw);
  }

  /** Under the default table, `ghcr.io/...` images go through the GitHub registry mirror. */
  lemma DefaultProxiesGhcrImage(raw: string)
    requires raw == "ghcr.io" + "/" + "nginxinc" + "/" + "nginx-kubernetes-gateway:edge"
    ensures GetProxyImage(DefaultProxies, raw) == "ghcr.m.daocloud.io" + "/" + raw
  {
    ParseVectorGhcrTwoLevel(raw);
    GetProxyImageSpec(DefaultProxies, raw);
  }

  /** An image whose registry has no proxy still changes: its registry is written twice. */
  lemma UnmappedImageGetsDomainPrefix(raw: string)
    requires raw == "ghcr.io" + "/" + "org" + "/" + "app:v1"
    ensures GetProxyImage(map[], raw) == "ghcr.io" + "/" + raw
  {
    GhcrHost();
    OrgAppSegments();
    JoinValid("org", "app:v1");
    SlashAssoc("ghcr.io", "org", "app:v1");
    ExplicitHostRewrite(map[], "ghcr.io", "org" + "/" + "app:v1");
  }

  /** Both path segments of `ghcr.io/org/app:v1` are valid. */
  lemma OrgAppSegments()
    ensures ValidReference("org") && '@' !in "org" && ValidReference("app:v1")
  {
  }

  /**
   * Rewriting is not idempotent: when the proxy registry is itself a
   * well-formed host, the rewritten image parses again, and a second pass
   * (an update of an already admitted pod, say) puts the proxy in front once more.
   */
  lemma RewriteNotIdempotent(proxies: map<string, string>, raw: string)
    requires Parse(raw).Parsed?
    requires ValidReference(GetProxyRegistry(proxies, Parse(raw).domain))
    requires '@' !in GetProxyRegistry(proxies, Parse(raw).domain)
    ensures GetProxyImage(proxies, GetProxyImage(proxies, raw)) != GetProxyImage(proxies, raw)
  {
    GetProxyImageSpec(proxies, raw);
    JoinValid(GetProxyRegistry(proxies, Parse(raw).domain), Parse(raw).name);
    GetProxyImageSpec(proxies, GetProxyImage(proxies, raw));
  }

  /** A selector of one label: a pod without labels is left alone, a pod with that label and more is selected. */
  lemma PodSelectorScenario(noLabels: map<string, string>)
    requires noLabels == map[]
    ensures !PodSelected(map["team" := "x"], noLabels)
    ensures PodSelected(map["team" := "x"], map["team" := "x", "env" := "prod"])
  {
    assert "team" !in noLabels;
  }

  /** The handler looks only at the proxy table and the pod selector of the configuration. */
  lemma AdmitDependsOnProxiesAndSelector(cfg1: Config, cfg2: Config, review: AdmissionReview,
                                         labels: map<string, string>, spec: PodSpec)
    requires cfg1.proxies == cfg2.proxies && cfg1.podSelector == cfg2.podSelector
    ensures Admit(cfg1, review, labels, spec) == Admit(cfg2, review, labels, spec)
  {
  }

  /**
   * A selected pod gets a patch even when nothing in it changes: its patch
   * then replaces the container lists with themselves.
   */
  lemma AdmitPatchesUnchangedPod(cfg: Config, review: AdmissionReview, labels: map<string, string>, spec: PodSpec)
    requires PodSelected(cfg.podSelector, labels)
    requires forall i :: 0 <= i < |spec.initContainers| ==> Parse(spec.initContainers[i].image).ParseError?
    requires forall i :: 0 <= i < |spec.containers| ==> Parse(spec.containers[i].image).ParseError?
    ensures Admit(cfg, review, labels, spec).patch == Some(PatchDocument(spec.initContainers, spec.containers))
  {
    RewriteUnchangedIff(cfg.proxies, spec.initContainers);
    RewriteUnchangedIff(cfg.proxies, spec.containers);
  }

  /** An empty pod selector lets every pod through, so every pod gets a patch. */
  lemma EmptySelectorPatchesEveryPod(cfg: Config, review: AdmissionReview, labels: map<string, string>, spec: PodSpec)
    requires cfg.podSelector == map[]
    ensures Admit(cfg, review, labels, spec).patch.Some?
  {
  }
}
