/** How the Kubernetes calls of k8s/main.py treat API errors: the light
    client's create calls tolerate an object that already exists, its delete
    tolerates one that is gone, and `PrivateNetwork.create_namespace`
    tolerates nothing (k8s/main.py:39-108, 128-138). The API itself is a
    parameter: what one call answers. */
module Cluster {

  import opened Outcome

  /** A JSON value of an error body, as far as the handlers look at it. */
  datatype JsonValue = JInt(i: int) | JStr(s: string) | JOther

  /** What one API call answers: success, or an `ApiException` with its HTTP
      status and its body, `None` when the body is not JSON. */
  datatype Answer = Success | ApiException(status: int, body: Option<map<string, JsonValue>>)

  /** How a call ends for its caller. */
  datatype Effect =
    | Done                      // the object was created or deleted
    | Tolerated                 // the error was swallowed: `return`
    | Reraised(err: Answer)     // `raise`: the ApiException propagates
    | DecodeError               // `json.loads(e.body)` fails
    | MissingKey                // `error['code']` or `error['reason']` is absent

  const AlreadyExists: string := "AlreadyExists"

  /** `error['code'] == 409 and error['reason'] == 'AlreadyExists'`, with
      Python's short-circuit: the reason is read only after a 409. */
  function AlreadyExistsTest(error: map<string, JsonValue>): (r: Option<bool>)
    ensures r == None <==> "code" !in error || (error["code"] == JInt(409) && "reason" !in error)
    ensures r == Some(true) <==>
      "code" in error && error["code"] == JInt(409) && "reason" in error && error["reason"] == JStr(AlreadyExists)
  {
    if "code" !in error then None
    else if error["code"] != JInt(409) then Some(false)
    else if "reason" !in error then None
    else Some(error["reason"] == JStr(AlreadyExists))
  }

  /** `GethLightClient.create_namespace`, `create_service` and
      `create_deployment`: the error body decides, not the HTTP status. */
  function TolerantCreate(a: Answer): (e: Effect)
    ensures e == Tolerated <==>
      a.ApiException? && a.body.Some? && "code" in a.body.value && a.body.value["code"] == JInt(409)
      && "reason" in a.body.value && a.body.value["reason"] == JStr(AlreadyExists)
    ensures e == Done <==> a == Success
    ensures e == DecodeError <==> a.ApiException? && a.body.None?
    ensures e == MissingKey <==>
      a.ApiException? && a.body.Some? &&
      ("code" !in a.body.value || (a.body.value["code"] == JInt(409) && "reason" !in a.body.value))
    ensures e.Reraised? <==>
      a.ApiException? && a.body.Some? && "code" in a.body.value &&
      (a.body.value["code"] != JInt(409) ||
       ("reason" in a.body.value && a.body.value["reason"] != JStr(AlreadyExists)))
    ensures e.Reraised? ==> e.err == a
  {
    match a
    case Success => Done
    case ApiException(_, None) => DecodeError
    case ApiException(_, Some(error)) =>
      match AlreadyExistsTest(error)
      case None => MissingKey
      case Some(true) => Tolerated
      case Some(false) => Reraised(a)
  }

  /** `GethLightClient.delete_namespace`: a 404 status is swallowed; the body
      is not read. */
  function TolerantDelete(a: Answer): (e: Effect)
    ensures e == Tolerated <==> a.ApiException? && a.status == 404
    ensures e == Done <==> a == Success
    ensures e.Reraised? ==> e.err == a
    ensures !e.DecodeError? && !e.MissingKey?
  {
    match a
    case Success => Done
    case ApiException(status, _) => if status == 404 then Tolerated else Reraised(a)
  }

  /** `PrivateNetwork.create_namespace`: no handler, every error propagates. */
  function StrictCreate(a: Answer): (e: Effect)
    ensures e == Done <==> a == Success
    ensures e != Done ==> e == Reraised(a)
  {
    match a
    case Success => Done
    case ApiException(_, _) => Reraised(a)
  }

  /** The answer of an existing object, as the API server reports it. */
  function Conflict(): Answer {
    ApiException(409, Some(map["code" := JInt(409), "reason" := JStr(AlreadyExists)]))
  }

  /** Re-creating an existing namespace is harmless for the light client and
      fatal for the private network. */
  lemma OnlyLightClientToleratesExisting()
    ensures TolerantCreate(Conflict()) == Tolerated
    ensures StrictCreate(Conflict()) == Reraised(Conflict())
  {
  }

  /** The two handlers look at different parts of the error: a 409 status
      with a body that says 404 is re-raised by a create, and a 404 status is
      swallowed by a delete whatever its body says. */
  lemma CreateReadsBodyDeleteReadsStatus(body: Option<map<string, JsonValue>>)
    ensures TolerantDelete(ApiException(404, body)) == Tolerated
    ensures var a := ApiException(409, Some(map["code" := JInt(404), "reason" := JStr(AlreadyExists)]));
      TolerantCreate(a) == Reraised(a)
  {
  }

  /** `GethLightClient.create`: namespace, service and deployment in order;
      the first call that does not end in `Done` or `Tolerated` ends it. The
      result is the effects of the calls made. */
  function CreateAll(ns: Answer, svc: Answer, dep: Answer): (es: seq<Effect>)
    ensures 1 <= |es| <= 3 && es[0] == TolerantCreate(ns)
    ensures forall k :: 0 <= k < |es| - 1 ==> Goes(es[k])
    ensures |es| < 3 ==> !Goes(es[|es| - 1])
    ensures |es| >= 2 ==> es[1] == TolerantCreate(svc)
    ensures |es| == 3 ==> es[2] == TolerantCreate(dep)
  {
    var e1 := TolerantCreate(ns);
    if !Goes(e1) then [e1]
    else
      var e2 := TolerantCreate(svc);
      if !Goes(e2) then [e1, e2] else [e1, e2, TolerantCreate(dep)]
  }

  /** The call returned normally. */
  predicate Goes(e: Effect) {
    e == Done || e == Tolerated
  }

  /** Creating the light client twice makes the second run a no-op that
      succeeds: every call answers that its object exists, and all are
      tolerated. */
  lemma CreateTwiceSucceeds()
    ensures CreateAll(Conflict(), Conflict(), Conflict()) == [Tolerated, Tolerated, Tolerated]
  {
  }
}
