/**
 * The admission handler for pods (`applyPodPatch`, `mutatePods`): check the
 * requested resource, decode the pod, ask the predicate whether to patch it,
 * and build the response. Decoding and JSON encoding are library calls, so
 * they are parameters here: `decode` maps the raw object to a pod or an
 * error message, `marshal` maps a patch list to bytes or an error message.
 */
module Adapter {
  import opened Wrappers
  import opened KubeTypes
  import opened Config
  import opened Policy
  import opened PatchBuilder

  datatype PatchType = JSONPatch

  datatype Status = Status(message: string)

  datatype AdmissionResponse = AdmissionResponse(
    allowed: bool,
    result: Option<Status>,
    patch: Option<seq<uint8>>,
    patchType: Option<PatchType>)

  /** The part of an admission review's request the handler reads. */
  datatype AdmissionRequest = AdmissionRequest(resource: GroupVersionResource, raw: seq<uint8>)

  const PodResource: GroupVersionResource := GroupVersionResource("", "v1", "pods")

  /** The response for a decoding error (`toV1AdmissionResponse`, defined
      outside the modelled files): not allowed, carrying the message. */
  function ErrorResponse(message: string): (response: AdmissionResponse)
    ensures !response.allowed && response.result == Some(Status(message))
    ensures response.patch.None? && response.patchType.None?
  {
    AdmissionResponse(false, Some(Status(message)), None, None)
  }

  /** `applyPodPatch`: `None` is Go's nil response. */
  function ApplyPodPatch(
    request: AdmissionRequest,
    decode: seq<uint8> -> Result<Pod, string>,
    shouldPatchPod: Pod -> bool,
    patch: Pod -> Result<seq<uint8>, string>): (response: Option<AdmissionResponse>)
    // only pod requests are answered
    ensures response.None? <==> request.resource != PodResource
    ensures response.Some? ==>
      var r := response.value;
      var decoded := decode(request.raw);
      // a decoding error is refused with its message
      && (decoded.Failure? ==> !r.allowed && r.result == Some(Status(decoded.error)) && r.patch.None?)
      && (decoded.Success? ==>
            var pod := decoded.value;
            // refused exactly when the predicate asks for a patch and building it fails
            && (r.allowed <==> !(shouldPatchPod(pod) && patch(pod).Failure?))
            && (!r.allowed ==> r.result == Some(Status(patch(pod).error)))
            // a patch is attached exactly when the predicate holds and the pod is allowed
            && (r.patch.Some? <==> r.allowed && shouldPatchPod(pod))
            && (r.patch.Some? ==> r.patch == Some(patch(pod).value)))
      // an allowed response carries no status; a refused one carries no patch
      && (r.allowed <==> r.result.None?)
      && (r.patch.Some? ==> r.allowed)
      // the patch type is set exactly when there is a patch, and is JSON Patch
      && (r.patchType.Some? <==> r.patch.Some?)
      && (r.patchType.Some? ==> r.patchType == Some(JSONPatch))
  {
    if request.resource != PodResource then None
    else
      var decoded := decode(request.raw);
      if decoded.Failure? then Some(ErrorResponse(decoded.error))
      else
        var pod := decoded.value;
        var reviewResponse := AdmissionResponse(true, None, None, None);
        if shouldPatchPod(pod) then
          var patchData := patch(pod);
          if patchData.Failure? then
            Some(AdmissionResponse(false, Some(Status(patchData.error)), None, None))
          else
            Some(reviewResponse.(patch := Some(patchData.value), patchType := Some(JSONPatch)))
        else
          Some(reviewResponse)
  }

  /** The predicate `mutatePods` passes in: it evaluates the policy only to
      log its outcome, and asks for a patch for every pod. */
  function ShouldPatchPod(pod: Pod): (patchIt: bool)
    ensures patchIt
  {
    var required := MutationRequired(IgnoredNamespaces, pod.meta);
    true
  }

  /** `mutatePods`: `applyPodPatch` with that predicate and the LXCFS patch. */
  function MutatePods(
    request: AdmissionRequest,
    decode: seq<uint8> -> Result<Pod, string>,
    marshal: seq<PatchOperation> -> Result<seq<uint8>, string>): (response: Option<AdmissionResponse>)
    ensures response.None? <==> request.resource != PodResource
    ensures response.Some? && decode(request.raw).Success? ==>
      var encoded := marshal(LxcfsPatches(decode(request.raw).value));
      && (encoded.Success? ==>
            response == Some(AdmissionResponse(true, None, Some(encoded.value), Some(JSONPatch))))
      && (encoded.Failure? ==>
            response == Some(AdmissionResponse(false, Some(Status(encoded.error)), None, None)))
  {
    ApplyPodPatch(request, decode, ShouldPatchPod, pod => marshal(LxcfsPatches(pod)))
  }

  /** A pod already marked as mutated is not exempted either: the policy
      says no mutation is required, yet the pod is patched again, and the
      patch opens with the " replace" operation on its status annotation. */
  lemma MarkedPodPatchedAgain(
    request: AdmissionRequest,
    decode: seq<uint8> -> Result<Pod, string>,
    marshal: seq<PatchOperation> -> Result<seq<uint8>, string>)
    requires request.resource == PodResource && decode(request.raw).Success?
    requires Lookup(decode(request.raw).value.meta.annotations, AnnotationStatusKey) == "mutated"
    requires marshal(LxcfsPatches(decode(request.raw).value)).Success?
    ensures !MutationRequired(IgnoredNamespaces, decode(request.raw).value.meta)
    ensures var pod := decode(request.raw).value;
      var response := MutatePods(request, decode, marshal);
      && response.Some? && response.value.allowed
      && response.value.patch == Some(marshal(LxcfsPatches(pod)).value)
      && LxcfsPatches(pod)[0].op == " replace"
  {
    var pod := decode(request.raw).value;
    assert MarkedMutated("mutated");
    PatchLayout(pod);
  }

  /** A pod that the policy exempts, because it lives in the system
      namespace, still receives the LXCFS patch. */
  lemma SystemPodStillPatched(
    request: AdmissionRequest,
    decode: seq<uint8> -> Result<Pod, string>,
    marshal: seq<PatchOperation> -> Result<seq<uint8>, string>)
    requires request.resource == PodResource && decode(request.raw).Success?
    requires decode(request.raw).value.meta.namespace == NamespaceSystem
    requires marshal(LxcfsPatches(decode(request.raw).value)).Success?
    ensures !MutationRequired(IgnoredNamespaces, decode(request.raw).value.meta)
    ensures var response := MutatePods(request, decode, marshal);
      response.Some? && response.value.allowed && response.value.patch.Some?
  {
    IgnoredNamespacesAreSystemAndPublic(NamespaceSystem);
  }
}
