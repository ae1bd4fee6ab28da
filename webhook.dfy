/**
  The admission webhook's `/mutate` handler: it checks the request, decodes
  the admission review, and for pods in a configured namespace answers
  with a one-operation JSON Patch (RFC 6902) that requests one unit of the
  plugin's resource. Decoding is the environment's: the request carries
  what each decode produced. The namespace configuration is a parameter.
*/
module Webhook {
  import opened Common
  import JsonPointer
  import Plugin

  newtype byte = x: int | 0 <= x < 256

  const ApplicationJson: string := "application/json"
  const StatusOK: int := 200
  const StatusBadRequest: int := 400
  const StatusUnsupportedMediaType: int := 415
  const StatusReasonInternalError: string := "InternalError"

  /** The namespace policy: namespace to a list the handler never reads. */
  type Namespaces = map<string, seq<string>>

  datatype Pod = Pod(namespace: string)

  /** What decoding the request's raw object as a pod produced. */
  datatype PodDecode = PodDecoded(pod: Pod) | PodDecodeError(message: string)

  datatype AdmissionRequest = AdmissionRequest(uid: string, podObject: PodDecode)

  /**
    What decoding the body as an admission review produced. A failed decode
    may still have filled in the request before it stopped.
  */
  datatype ReviewDecode =
    | ReviewDecoded(request: Option<AdmissionRequest>)
    | ReviewDecodeError(message: string, partial: Option<AdmissionRequest>)

  /** A nil body, or the bytes read from it together with the read error, if any. */
  datatype Body = NilBody | BodyRead(data: seq<byte>, readError: Option<Error>)

  datatype HttpRequest = HttpRequest(contentType: string, body: Body, review: ReviewDecode)

  datatype Status = Status(code: int, reason: string, message: string)

  datatype PatchType = JSONPatch

  /** One RFC 6902 operation. */
  datatype PatchOperation = PatchOperation(op: string, path: string, value: string)

  datatype AdmissionResponse = AdmissionResponse(
    uid: string,
    allowed: bool,
    result: Option<Status>,
    patch: Option<seq<PatchOperation>>,
    patchType: Option<PatchType>)

  /**
    What the handler writes: an HTTP error, an admission review answered
    under the given status, or a panic that aborts the handler.
  */
  datatype Reply = HttpError(status: int) | ReviewReply(status: int, response: AdmissionResponse) | HandlerPanic

  /** The reference tokens the patch path designates. */
  const ResourceRequestTokens: seq<string> := ["spec", "containers[0]", "resources", "requests", "power-dev-plugin/dev"]

  /** The patch path, one literal in the source, written here segment by segment. */
  const ResourceRequestPath: string := "/spec" + ("/containers[0]" + ("/resources" + ("/requests" + "/power-dev-plugin~1dev")))

  /**
    The patch for every admitted pod: add "1" at the resource-request path,
    whose pointer escapes the resource name's "/" as "~1".
  */
  function CreatePatchForPod(pod: Pod): (ops: seq<PatchOperation>)
    ensures |ops| == 1 && ops[0].op == "add" && ops[0].value == "1"
    ensures JsonPointer.Parse(ops[0].path) == Some(ResourceRequestTokens)
  {
    PatchPathDesignates();
    [PatchOperation("add", ResourceRequestPath, "1")]
  }

  /**
    A pointer of four plain segments followed by a segment that escapes one
    "/" designates those five tokens, the last with its "/" restored.
  */
  lemma PointerOfFive(a: string, b: string, c: string, d: string, x: string, y: string, e: string, p: string)
    requires JsonPointer.Plain(a) && JsonPointer.Plain(b) && JsonPointer.Plain(c) && JsonPointer.Plain(d)
    requires JsonPointer.Plain(x) && JsonPointer.Plain(y) && e == x + "/" + y
    requires p == "/" + a + ("/" + b + ("/" + c + ("/" + d + ("/" + x + "~1" + y))))
    ensures JsonPointer.Parse(p) == Some([a, b, c, d, e])
  {
    var last := "/" + x + "~1" + y;
    assert JsonPointer.Format([e]) == last by {
      assert [e][1..] == [];
      JsonPointer.EscapeSlashJoin(x, y);
    }
    JsonPointer.FormatPlainCons(d, [e]);
    assert [d] + [e] == [d, e];
    JsonPointer.FormatPlainCons(c, [d, e]);
    assert [c] + [d, e] == [c, d, e];
    JsonPointer.FormatPlainCons(b, [c, d, e]);
    assert [b] + [c, d, e] == [b, c, d, e];
    JsonPointer.FormatPlainCons(a, [b, c, d, e]);
    assert [a] + [b, c, d, e] == [a, b, c, d, e];
    JsonPointer.ParseFormat([a, b, c, d, e]);
  }

  /** The path's segments: four plain tokens, then the resource name with its "/" escaped. */
  lemma PatchPathSegments()
    ensures ResourceRequestPath ==
      "/" + "spec" + ("/" + "containers[0]" + ("/" + "resources" + ("/" + "requests" + ("/" + "power-dev-plugin" + "~1" + "dev"))))
    ensures "power-dev-plugin/dev" == "power-dev-plugin" + "/" + "dev"
  {
    assert "/" + "power-dev-plugin" + "~1" + "dev" == "/power-dev-plugin~1dev";
    assert "/" + "requests" == "/requests";
    assert "/" + "resources" == "/resources";
    assert "/" + "containers[0]" == "/containers[0]";
    assert "/" + "spec" == "/spec";
  }

  lemma PatchSegmentsPlain()
    ensures JsonPointer.Plain("spec") && JsonPointer.Plain("containers[0]")
    ensures JsonPointer.Plain("resources") && JsonPointer.Plain("requests")
    ensures JsonPointer.Plain("power-dev-plugin") && JsonPointer.Plain("dev")
  {
  }

  /** The patch path is the pointer that designates the resource-request tokens. */
  lemma PatchPathDesignates()
    ensures JsonPointer.Parse(ResourceRequestPath) == Some(ResourceRequestTokens)
  {
    PatchPathSegments();
    PatchSegmentsPlain();
    PointerOfFive("spec", "containers[0]", "resources", "requests", "power-dev-plugin", "dev", "power-dev-plugin/dev", ResourceRequestPath);
  }

  /** The patch asks for the resource the device plugin registers, and is the same for every pod. */
  lemma PatchRequestsPluginResource(p: Pod, q: Pod)
    ensures CreatePatchForPod(p) == CreatePatchForPod(q)
    ensures JsonPointer.Parse(CreatePatchForPod(p)[0].path) == Some(["spec", "containers[0]", "resources", "requests", Plugin.Resource])
  {
  }

  /**
    The namespace policy: a pod that fails to decode is refused with 400;
    a pod outside the configured namespaces is allowed unchanged; a pod in
    one, whatever its list, is allowed with the patch.
  */
  function Mutate(req: AdmissionRequest, namespaces: Namespaces): (r: AdmissionResponse)
    ensures r.uid == ""
    ensures r.allowed <==> req.podObject.PodDecoded?
    ensures req.podObject.PodDecodeError? ==>
      r.result == Some(Status(StatusBadRequest, StatusReasonInternalError, req.podObject.message))
    ensures r.allowed ==> r.result.None?
    ensures r.patch.Some? <==> req.podObject.PodDecoded? && req.podObject.pod.namespace in namespaces
    ensures r.patch.Some? ==> r.patch.value == CreatePatchForPod(req.podObject.pod)
    ensures r.patchType.Some? <==> r.patch.Some?
    ensures r.patchType.Some? ==> r.patchType.value == JSONPatch
  {
    match req.podObject
    case PodDecodeError(message) =>
      AdmissionResponse("", false, Some(Status(StatusBadRequest, StatusReasonInternalError, message)), None, None)
    case PodDecoded(pod) =>
      if pod.namespace !in namespaces then AdmissionResponse("", true, None, None, None)
      else AdmissionResponse("", true, None, Some(CreatePatchForPod(pod)), Some(JSONPatch))
  }

  /** The request the decoded review carries, if any. */
  function ReviewRequest(review: ReviewDecode): Option<AdmissionRequest>
  {
    match review
    case ReviewDecoded(request) => request
    case ReviewDecodeError(_, partial) => partial
  }

  /** Whether the handler gives up with an HTTP error before decoding. */
  predicate Rejected(r: HttpRequest)
  {
    r.contentType != ApplicationJson || r.body.NilBody? || |r.body.data| == 0
  }

  /**
    The handler. A read error writes 400 but does not return: the rest of
    the handler still runs and its review goes out under that status.
  */
  function MutateHandler(r: HttpRequest, namespaces: Namespaces): (reply: Reply)
    ensures r.contentType != ApplicationJson ==> reply == HttpError(StatusUnsupportedMediaType)
    ensures r.contentType == ApplicationJson && Rejected(r) ==> reply == HttpError(StatusBadRequest)
    ensures reply.HttpError? <==> Rejected(r)
    ensures reply.HandlerPanic? <==> !Rejected(r) && r.review == ReviewDecoded(None)
    ensures reply.ReviewReply? ==>
      reply.status == (if r.body.readError.Some? then StatusBadRequest else StatusOK)
    ensures reply.ReviewReply? && r.review.ReviewDecodeError? ==>
      !reply.response.allowed && reply.response.patch.None?
      && reply.response.result == Some(Status(StatusBadRequest, StatusReasonInternalError, r.review.message))
    ensures reply.ReviewReply? && r.review.ReviewDecoded? ==>
      reply.response == Mutate(r.review.request.value, namespaces).(uid := r.review.request.value.uid)
    ensures reply.ReviewReply? ==>
      reply.response.uid == (if ReviewRequest(r.review).Some? then ReviewRequest(r.review).value.uid else "")
  {
    if r.contentType != ApplicationJson then HttpError(StatusUnsupportedMediaType)
    else if r.body.NilBody? then HttpError(StatusBadRequest)
    else if |r.body.data| == 0 then HttpError(StatusBadRequest)
    else
      var status := if r.body.readError.Some? then StatusBadRequest else StatusOK;
      match r.review
      case ReviewDecodeError(message, partial) =>
        var response := AdmissionResponse("", false, Some(Status(StatusBadRequest, StatusReasonInternalError, message)), None, None);
        ReviewReply(status, if partial.Some? then response.(uid := partial.value.uid) else response)
      case ReviewDecoded(request) =>
        if request.None? then HandlerPanic
        else ReviewReply(status, Mutate(request.value, namespaces).(uid := request.value.uid))
  }
}
