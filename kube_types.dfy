/**
 * The Kubernetes API values the webhook reads and writes: containers, the pod
 * whose container lists are rewritten in place, ConfigMaps, admission reviews
 * and JSON patches. Only the fields the webhook touches are kept.
 */
module KubeTypes {
  import opened Wrappers

  /** A container of a pod. `name` stands for every field other than the image. */
  datatype Container = Container(name: string, image: string)

  /** The three container lists of a pod's spec, as values. */
  datatype PodSpec = PodSpec(
    initContainers: seq<Container>,
    containers: seq<Container>,
    ephemeralContainers: seq<Container>)

  /**
   * A decoded pod. Its container lists are arrays because the handlers
   * overwrite `Spec.*Containers[i].Image` in place.
   */
  class Pod {
    const namespace: string
    const name: string
    const labels: map<string, string>
    const annotations: map<string, string>
    const initContainers: array<Container>
    const containers: array<Container>
    const ephemeralContainers: array<Container>

    /** The three lists are distinct slices, so writing one leaves the others alone. */
    ghost predicate Valid()
      reads this
    {
      && initContainers != containers
      && initContainers != ephemeralContainers
      && containers != ephemeralContainers
    }

    function Spec(): PodSpec
      reads this, initContainers, containers, ephemeralContainers
    {
      PodSpec(initContainers[..], containers[..], ephemeralContainers[..])
    }

    constructor (namespace: string, name: string, labels: map<string, string>,
                 annotations: map<string, string>, spec: PodSpec)
      ensures Valid() && Spec() == spec
      ensures this.namespace == namespace && this.name == name
      ensures this.labels == labels && this.annotations == annotations
      ensures fresh(initContainers) && fresh(containers) && fresh(ephemeralContainers)
    {
      this.namespace := namespace;
      this.name := name;
      this.labels := labels;
      this.annotations := annotations;
      var init := spec.initContainers;
      var regular := spec.containers;
      var ephemeral := spec.ephemeralContainers;
      initContainers := new Container[|init|](i requires 0 <= i < |init| => init[i]);
      containers := new Container[|regular|](i requires 0 <= i < |regular| => regular[i]);
      ephemeralContainers := new Container[|ephemeral|](i requires 0 <= i < |ephemeral| => ephemeral[i]);
    }
  }

  /**
   * Whether a set of labels, read as a selector, matches an object's labels:
   * every label of the set is on the object with the same value.
   */
  predicate SetMatches(selector: map<string, string>, labels: map<string, string>)
  {
    forall k :: k in selector ==> k in labels && labels[k] == selector[k]
  }

  datatype ConfigMap = ConfigMap(
    namespace: string,
    name: string,
    resourceVersion: string,
    data: map<string, string>)
  {
    /** The data entry under `key`; a missing entry reads as empty, as a Go map lookup does. */
    function Entry(key: string): string
    {
      if key in data then data[key] else ""
    }
  }

  /**
   * One operation of a JSON Patch (RFC 6902). The handlers only emit "replace"
   * operations whose path is an RFC 6901 JSON Pointer to a container list.
   */
  datatype PatchOperation = PatchOperation(op: string, path: string, value: seq<Container>)

  const ReplaceOp: string := "replace"
  const InitContainersPath: string := "/spec/initContainers"
  const ContainersPath: string := "/spec/containers"
  const EphemeralContainersPath: string := "/spec/ephemeralContainers"

  /**
   * How the API server applies one operation to a pod spec: a "replace"
   * (section 4.3 of RFC 6902) swaps the whole value at one of the three
   * container-list pointers; any other operation or pointer fails here.
   */
  function ApplyOperation(spec: PodSpec, op: PatchOperation): Option<PodSpec>
  {
    if op.op != ReplaceOp then None
    else if op.path == InitContainersPath then Some(spec.(initContainers := op.value))
    else if op.path == ContainersPath then Some(spec.(containers := op.value))
    else if op.path == EphemeralContainersPath then Some(spec.(ephemeralContainers := op.value))
    else None
  }

  /** Operations apply in order, and the patch fails as a whole when one fails (section 5 of RFC 6902). */
  function ApplyPatch(spec: PodSpec, ops: seq<PatchOperation>): Option<PodSpec>
    decreases |ops|
  {
    if ops == [] then Some(spec)
    else match ApplyOperation(spec, ops[0])
      case None => None
      case Some(next) => ApplyPatch(next, ops[1..])
  }

  datatype PatchType = JSONPatch

  /** The part of an incoming AdmissionReview the handlers use. */
  datatype AdmissionReview = AdmissionReview(typeMeta: string, uid: string)

  /** The AdmissionReview sent back; `patch` holds the decoded content of the patch bytes. */
  datatype AdmissionResponse = AdmissionResponse(
    typeMeta: string,
    uid: string,
    allowed: bool,
    result: Option<string>,
    patch: Option<seq<PatchOperation>>,
    patchType: Option<PatchType>)
}
