# registry-proxy in Dafny

A model of the core of registry-proxy. registry-proxy is a Kubernetes mutating admission webhook. For each new or updated pod it rewrites the container images so they are pulled through a mirror ("proxy") registry. The model covers these parts:

- **Image references** (`image_ref.dfy`, module `ImageRef`). `Parse` splits a reference into its registry domain and fully qualified name. The parser's own source is not part of this model. It is modelled on the Docker normalisation rule that the repository's six test vectors follow:
  - a first segment that contains `.` or `:`, or is `localhost`, is the registry host;
  - otherwise the domain is `docker.io` and `docker.io/` is put in front of the reference;
  - a reference with no `/` also gets `library/`.
  
  A reference fails to parse when it breaks `ValidReference`. That predicate checks the character set, requires non-empty segments that start with a letter or digit, and allows at most one `@`. The vectors are proved one by one, and the rule's general consequences are proved for all inputs: the name is fully qualified, it ends with the input, and normalising twice gives the same result.
- **The admission handler** (`proxy_rewrite.dfy`, module `ProxyRewrite`, from `internal/cmd/run.go`). This covers the proxy lookup with pass-through and the per-image rewrite with fallback on a parse failure. The pod is a class whose three container lists are arrays, and they are rewritten in place by index loops. It also covers the pod-selector gate, the two-operation JSON patch and the response. `KubeTypes.ApplyPatch` gives the meaning of a "replace" operation (section 4.3 of RFC 6902) on the pod's container lists. `Admit` is then proved to produce a patch that installs the rewritten init and regular containers and leaves ephemeral containers as they were.
- **The configuration store** (`config_store.dfy`, module `RegistryConfig`, from `internal/config/config.go`). This includes the defaults and a class holding the current configuration, with getters and `Reset`. The YAML library is a function parameter (`YamlDecoder`). It maps a payload to the keys it sets plus an error flag.
- **Webhook registration** (`webhook_setup.dfy`, module `WebhookSetup`, from `internal/cmd/init.go`).
  - Dispatch of ConfigMap events.
  - Resetting the configuration from a ConfigMap.
  - Compiling the namespace lists and namespace label set into label-selector expressions. This is a loop over the label map in arbitrary order.
  - The registration decision: delete the webhook when disabled, otherwise create or update it.
  
  An evaluator for the four selector operators lets the model prove which namespaces a compiled selector matches. A namespace matches exactly when the lists admit it and it carries the label set.
- **The earlier variants** (`legacy_webhook.dfy` from `main.go`, `legacy_config.dfy` from `pkg/conf/config.go`). The earlier handler is gated by an annotation, uses a fixed registry table and always names the patch type. The earlier store decodes an update on top of the configuration in force.

`wrappers.dfy` holds `Option`, which stands for Go's nil pointers and for keys a decoder leaves unset. Go's nil maps and slices are modelled as empty ones; reads of the two behave the same. The getters of both stores are modelled as functions that read the current configuration. Their contracts would only restate their bodies, so they have no rows below.

### Behaviour worth knowing

- **The domain stays in the name.** The proxy goes in front of the fully qualified name, so `nginx:latest` under a docker.io proxy becomes `<proxy>/docker.io/library/nginx:latest`, not `<proxy>/library/nginx:latest`.
- **Unmapped images still change.** An image whose registry has no proxy gets its registry written twice (`ghcr.io/org/app:v1` becomes `ghcr.io/ghcr.io/org/app:v1`).
- **Rewriting is not idempotent.** A second pass puts the proxy in front again (`RewriteNotIdempotent`), and the webhook is registered for pod updates too.
- **A decode error is not rolled back.** `Reset` installs whatever the decoder wrote into a zero configuration.
- **The handler reads neither `enabled` nor the namespace lists.** A disabled proxy deletes the webhook registration instead, and the API server applies the namespace lists through the compiled selector.
- **An empty include list restricts nothing.** No expression is added for it.
- **A selected pod always gets a patch**, even when no image changes.

## Model

| member | source | states |
|---|---|---|
| ImageRef.Parse | pkg/image/image_parser_test.go:59-69 | a reference parses iff it is well formed; the domain is non-empty and has no `/`; the name starts with domain + `/`, ends with the input (tag and digest kept verbatim) and is itself well formed |
| ImageRef.ParseIdempotent | pkg/image/image_parser_test.go:64-69 | the returned name is fully qualified: parsing it again gives the same domain and name |
| ImageRef.ParseExplicitHost | pkg/image/image_parser_test.go:37-56 | a host-like first segment is the domain and the name is the input verbatim, however many path segments follow |
| ImageRef.ParseDockerHubPath | pkg/image/image_parser_test.go:27-31 | a multi-segment reference without a host gets domain docker.io and no `library/` |
| ImageRef.ParseOfficialImage | pkg/image/image_parser_test.go:32-36 | a single-segment reference gets domain docker.io and `library/` |
| ImageRef.ParseVectorUserRepository | pkg/image/image_parser_test.go:27-31 | `stilleshan/frpc:latest` parses to docker.io, `docker.io/stilleshan/frpc:latest` |
| ImageRef.ParseVectorOfficialImage | pkg/image/image_parser_test.go:32-36 | `nginx:latest` parses to docker.io, `docker.io/library/nginx:latest` |
| ImageRef.ParseVectorGhcrTwoLevel | pkg/image/image_parser_test.go:37-41 | the two-level ghcr.io reference parses to ghcr.io and itself |
| ImageRef.ParseVectorGhcrThreeLevel | pkg/image/image_parser_test.go:42-46 | the three-level ghcr.io reference parses to ghcr.io and itself |
| ImageRef.ParseVectorK8sOneLevel | pkg/image/image_parser_test.go:47-51 | `registry.k8s.io/kube-apiserver:v1.28.0` parses to registry.k8s.io and itself |
| ImageRef.ParseVectorK8sTwoLevel | pkg/image/image_parser_test.go:52-56 | the two-level registry.k8s.io reference parses to registry.k8s.io and itself |
| ProxyRewrite.GetProxyRegistry | internal/cmd/run.go:186-196 | exact-key lookup: the mapped proxy when there is a non-empty entry, the registry itself otherwise (an absent table is the empty map) |
| ProxyRewrite.GetProxyImageSpec | internal/cmd/run.go:170-183 | an unparsable image is kept; a parsable one becomes proxy registry + `/` + fully qualified name; the image changes iff it parses; the result always ends with the original image |
| ProxyRewrite.RewriteInPlace | internal/cmd/run.go:156-158 | after the index loop the array holds every container with its image replaced by its proxy image, in the same order |
| ProxyRewrite.ReplaceImage | internal/cmd/run.go:155-167 | all three container lists of the pod are rewritten in place |
| ProxyRewrite.RewriteKeepsContainers | internal/cmd/run.go:155-167 | rewriting keeps each list's length and every container's other fields, and each new image ends with the old one |
| ProxyRewrite.RewriteUnchangedIff | internal/cmd/run.go:155-176 | a container list comes back unchanged iff none of its images parses |
| ProxyRewrite.PatchPod | internal/cmd/run.go:100-122 | the pod is rewritten and the patch is the two replace operations carrying its new init and regular containers |
| ProxyRewrite.PatchDocumentApplies | internal/cmd/run.go:108-119 | applying the patch replaces exactly the init and regular container lists, in that order |
| ProxyRewrite.Response | internal/cmd/run.go:125-144 | the response echoes type and UID, always allows, and carries the patch and the JSONPatch type iff a patch is given |
| ProxyRewrite.PodSelected | internal/cmd/run.go:60-65 | an empty selector never blocks; otherwise a pod passes iff it carries every selector label with its value |
| ProxyRewrite.Admit | internal/cmd/run.go:50-75 | the response always allows; a patch is attached iff the pod selector passes, and applying it yields the rewritten init and regular containers with the ephemeral ones untouched |
| ProxyRewrite.MutatePod | internal/cmd/run.go:50-75 | the handler answers as `Admit` under the store's configuration, and rewrites the pod only when it is selected |
| ProxyRewrite.ExplicitHostRewrite | internal/cmd/run.go:178 | an image with an explicit host becomes proxy + `/` + the image, or host + `/` + the image when the host has no proxy |
| ProxyRewrite.OfficialImageKeepsDomain | internal/cmd/run.go:178 | `nginx:latest` with a docker.io proxy becomes proxy + `/docker.io/library/nginx:latest` |
| ProxyRewrite.DefaultProxiesOfficialImage | internal/config/config.go:43 | under the default table `nginx:latest` goes through docker.m.daocloud.io |
| ProxyRewrite.DefaultProxiesGhcrImage | internal/config/config.go:46 | under the default table ghcr.io images go through ghcr.m.daocloud.io |
| ProxyRewrite.UnmappedImageGetsDomainPrefix | internal/cmd/run.go:178-182 | with no proxies, `ghcr.io/org/app:v1` becomes `ghcr.io/ghcr.io/org/app:v1` |
| ProxyRewrite.RewriteNotIdempotent | internal/cmd/run.go:170-183 | when the proxy registry is a well-formed host, rewriting an already rewritten image changes it again |
| ProxyRewrite.PodSelectorScenario | internal/cmd/run.go:60-65 | selector `team=x` leaves a pod without labels alone and selects a pod labelled `team=x, env=prod` |
| ProxyRewrite.AdmitDependsOnProxiesAndSelector | internal/cmd/run.go:50-75 | the handler reads only the proxy table and the pod selector; `enabled` and the namespace lists do not affect it |
| ProxyRewrite.AdmitPatchesUnchangedPod | internal/cmd/run.go:67-74 | a selected pod whose images all fail to parse still gets a patch, which replaces its lists with themselves |
| ProxyRewrite.EmptySelectorPatchesEveryPod | internal/cmd/run.go:60 | with an empty pod selector every pod gets a patch |
| RegistryConfig.ConfigStore.constructor | internal/config/config.go:51-68 | the store starts with the default configuration: enabled, the six default proxies, four excluded namespaces, include `*`, empty selectors |
| RegistryConfig.ConfigStore.Reset | internal/config/config.go:107-119 | the new configuration is a function of the payload alone: the defaults for an empty payload, else the decoded keys over a zero configuration |
| RegistryConfig.ResetEmptyRestoresDefaults | internal/config/config.go:114-117 | an empty payload installs the defaults whatever the decoder would say, so repeating it changes nothing |
| RegistryConfig.ResetOmittedKeysAreZero | internal/config/config.go:108-110 | a non-empty payload starts from zero: every key it omits is off or empty, not its default |
| RegistryConfig.ResetSetKeysAreTaken | internal/config/config.go:108-113 | every key the decoder wrote is installed as decoded, even when the decoder reported an error |
| RegistryConfig.OverlayAllFields | internal/config/config.go:109-110 | decoding a document that sets every key gives that configuration, whatever it was decoded into |
| RegistryConfig.ResetFromRenderingKeepsConfig | internal/cmd/init.go:96-110 | given a decoder that reads every rendered key back, resetting from the ConfigMap created from the current configuration gives that configuration back; the YAML round trip itself is assumed, not proved |
| WebhookSetup.ConstructNamespaceSelector | internal/cmd/init.go:182-227 | the expressions are the namespace-list expressions, then one `In` expression per label of the label set, each label once, in the map's order |
| WebhookSetup.PolicyDecides | internal/cmd/init.go:182-216 | for a namespace carrying its name label, the namespace-list expressions match iff neither `*` nor the name is excluded and the include list is empty, holds `*` or holds the name |
| WebhookSetup.EntriesDecide | internal/cmd/init.go:219-227 | the label-set expressions match iff the object carries every label of the set |
| WebhookSetup.CompiledSelectorDecides | internal/cmd/init.go:182-227 | a compiled selector matches a namespace iff the lists admit it and it carries the label set |
| WebhookSetup.CompiledSelectorLength | internal/cmd/init.go:182-227 | the selector has one expression per non-empty list plus one per label |
| WebhookSetup.ExcludedNamespaceNeverSelected | internal/cmd/init.go:182-215 | an excluded namespace, or any namespace under exclude `*`, is never selected, whatever the include list holds |
| WebhookSetup.DefaultConfigSelectsNonSystemNamespaces | internal/config/config.go:54-62 | under the defaults a namespace is selected iff it is not kube-system, kube-public, kube-node-lease or registry-proxy |
| WebhookSetup.ResetSource | internal/cmd/init.go:66-89 | add resets from the ConfigMap; update resets from the new ConfigMap iff both are ConfigMaps with different resource versions; delete resets with no ConfigMap; other objects are ignored |
| WebhookSetup.SameVersionUpdateIgnored | internal/cmd/init.go:77 | an update that keeps the resource version triggers nothing |
| WebhookSetup.ConfigPayload | internal/cmd/init.go:132-135 | the payload is the ConfigMap's configuration entry, or empty when there is no ConfigMap or no entry |
| WebhookSetup.MissingPayloadRestoresDefaults | internal/cmd/init.go:131-138 | a deleted ConfigMap, or one without an entry, restores the default configuration |
| WebhookSetup.ApplyWebhook | internal/cmd/init.go:284-318 | disabled: the registration is deleted and none is built; enabled: it is created or updated with a selector compiled from the configuration |
| WebhookSetup.TryResetConfigFromConfigMap | internal/cmd/init.go:131-142 | the store is reset from the ConfigMap's payload and the registration then matches the new configuration |
| WebhookSetup.HandleEvent | internal/cmd/init.go:66-89 | an ignored event changes neither the store nor the registration; any other resets from its ConfigMap and re-applies the registration |
| LegacyConfig.LegacyConfigStore.constructor | pkg/conf/config.go:103-115 | the store starts with the defaults: three system namespaces excluded, include `*`, the supported registries |
| LegacyConfig.LegacyConfigStore.TryResetConfigFromConfigMap | pkg/conf/config.go:138-149 | a present ConfigMap is decoded on top of the configuration in force; a deleted one restores the defaults |
| LegacyConfig.DeletedConfigMapRestoresDefaults | pkg/conf/config.go:144-147 | a deleted ConfigMap restores the defaults whatever was in force |
| LegacyConfig.UpdateMergesIntoCurrent | pkg/conf/config.go:139-143 | keys the document omits keep the value in force; keys it sets are taken, even when the decoder reported an error |
| LegacyConfig.EmptyDocumentKeepsConfig | pkg/conf/config.go:139-140 | a ConfigMap whose entry sets nothing leaves the configuration unchanged |
| LegacyConfig.ResetIdempotent | pkg/conf/config.go:138-149 | delivering the same ConfigMap, or the same deletion, twice has the effect of delivering it once |
| LegacyWebhook.GetProxyRegistry | main.go:153-170 | the table's proxy for the seven listed registries, the registry itself for any other |
| LegacyWebhook.GetProxyImageAgrees | main.go:143-151 | the fixed-table rewrite equals the configurable rewrite given the same table |
| LegacyWebhook.OfficialImageVector | main.go:143-151 | `nginx:latest` becomes `dockerproxy.com/docker.io/library/nginx:latest` |
| LegacyWebhook.ReplaceImage | main.go:129-141 | all three container lists are rewritten in place through the table |
| LegacyWebhook.LegacyAdmit | main.go:80-120 | always allowed with the request's UID and the JSONPatch type; a patch and the "is matched" message are attached iff the annotation is exactly "true"; the patch installs the rewritten init and regular containers |
| LegacyWebhook.MutatePod | main.go:59-127 | the handler answers as `LegacyAdmit` and rewrites the pod only when it opted in |
| LegacyWebhook.SamePatchAsCurrentHandler | main.go:99-110 | for an opted-in pod, the earlier handler sends the same patch as the current one under the same table |

## Left out

- ProxyRewrite.JoinPath: Go's `path.Join` also cleans the joined path; the model only drops empty elements and inserts one `/`. The name side is always clean, because a parsed name has no empty, `.` or `..` segment and no leading or trailing `/`. The proxy value is not checked, and cleaning changes the result when it is `.`, `/`, or any value that `path.Clean` rewrites (a trailing or doubled `/`, a `.` segment, or a `..` segment after another segment, as in `mirror.io/`, `a//b`, `a/./b` or `a/..`). For such values Go returns, for example, `ghcr.io/org/app` for the proxy `.` where the model returns `./ghcr.io/org/app`. The statements of `ProxyRewrite.GetProxyImageSpec`, `ProxyRewrite.RewriteUnchangedIff`, `ProxyRewrite.ExplicitHostRewrite`, `ProxyRewrite.RewriteNotIdempotent`, `ProxyRewrite.Admit`, `ProxyRewrite.MutatePod` and `LegacyWebhook.SamePatchAsCurrentHandler` hold for the Go code only when every proxy value in the table is none of these. The default tables satisfy that.
- ImageRef.Parse: the parser's source is not part of this model. Its error cases are approximated by `ValidReference`. Docker's extra rules are not modelled, such as the `index.docker.io` alias, lower-case-only repository names and length limits.
- The module holding the shared constants of the deployment is not part of this model. The ConfigMap key is therefore a `configKey` parameter, and the table of supported registries in `pkg/conf/config.go` is a constructor parameter whose order is the map's iteration order.
- KubeTypes.ApplyPatch: the rule of RFC 6902 that a replaced value must already exist is not modelled, so replacing an absent container list succeeds.
- Decoding the AdmissionReview and the pod, encoding the response, and the HTTP status codes for malformed requests and marshal failures (400 and 500). These are JSON and HTTP input/output. A marshal failure cannot happen for these values.
- The YAML library and the rendering of the configuration to the log. The decoder is a function parameter.
- The Kubernetes API calls behind `applyWebhook`: Get, Create, Update with retry on conflict, and Delete with "not found" ignored. They are modelled as one assignment to the registration state in `WebhookSetup.Cluster`. Fatal errors of these calls are left out.
- Creation of the initial ConfigMap, informer wiring and goroutines, TLS certificate generation and files, the owner reference, and the constant fields of the webhook configuration. These are cluster and file input/output or constants.
- The configuration is read and swapped by concurrent goroutines without synchronisation. The model is sequential.
- The generate-name fallback and the logging in the handlers.
