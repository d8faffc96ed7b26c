/** How an endpoint wrapper turns what the transport produced into what its
    promise settles with. The transport either resolves with a response (or,
    for a cancelled request, with nothing) or rejects with an HTTP error that
    may carry the server's response; a wrapper's `.then` handler classifies a
    resolution, and the profile wrappers' `.catch` handler reclassifies a
    rejection. */
module Responses {
  import opened Values

  /** An HTTP response: its status, its decoded body (`res.data`) and the
      underlying request's raw response (`res.request.response`). */
  datatype HttpResponse = HttpResponse(status: int, data: Value, raw: Value)

  /** What a request promise resolves with: a response, or nothing at all
      (`undefined`) when the request was cancelled before it completed. */
  datatype Response = Absent | Got(r: HttpResponse)

  /** What a request promise rejects with: an HTTP error, whose `response`
      is undefined when no response arrived, and whose string form
      (`String(err)`, the transport's `name: message`) is `text`. */
  datatype HttpError = HttpError(response: Option<HttpResponse>, text: string)

  /** How the transport settled. */
  datatype Settled = Resolved(res: Response) | Rejected(err: HttpError)

  /** `RequestFailedError`: an Error whose own properties are its `message`
      and its `code`; it keeps no reference to the response it was built from. */
  datatype RequestFailedError = RequestFailedError(message: string, code: int)

  /** `UnauthorizedError`: an Error whose own properties are its `message` and
      its `name`; it keeps no reference to the error it replaces. */
  datatype UnauthorizedError = UnauthorizedError(message: string, name: string)

  /** `String(res)` of a response: the response is a plain object, so its
      string form is that of any object (`ToStr(Obj(_))`). */
  const ResponseText: string := "[object Object]"


  /** What a wrapper's promise settles with. */
  datatype Outcome =
    | Data(value: Value)                  // resolves with a payload of the response
    | NullResult                          // resolves with `null`
    | EmptyObj                            // resolves with `{}`
    | Passthrough                         // resolves with the falsy response itself
    | Failed(failure: RequestFailedError) // rejects with a RequestFailedError
    | Unauthorized(denied: UnauthorizedError) // rejects with an UnauthorizedError
    | Rethrown(err: HttpError)            // rejects with the transport's own error
    | TypeFault                           // rejects with the TypeError of reading a property of `undefined`

  /** `new RequestFailedError(res)`: `super(response)` makes the message the
      response's string form, and `code` is its status. */
  function NewRequestFailedError(res: HttpResponse): (e: RequestFailedError)
    ensures e.code == res.status
    ensures e.message == ToStr(Obj(Props([], map[])))
  {
    RequestFailedError(ResponseText, res.status)
  }

  /** `new UnauthorizedError(err)`: `super(message)` makes the message the
      replaced error's string form, and the name is set afterwards. */
  function NewUnauthorizedError(err: HttpError): (e: UnauthorizedError)
    ensures e.name == "UnauthorizedError" && e.message == err.text
  {
    UnauthorizedError(err.text, "UnauthorizedError")
  }

  /** A RequestFailedError retains nothing of its response but the status:
      two responses give the same error exactly when their statuses agree. */
  lemma RequestFailedKeepsOnlyTheStatus(r1: HttpResponse, r2: HttpResponse)
    ensures NewRequestFailedError(r1) == NewRequestFailedError(r2) <==> r1.status == r2.status
  {
  }

  /** An UnauthorizedError retains nothing of the error it replaces but its
      string form: not its response, and so not the status. */
  lemma UnauthorizedKeepsOnlyTheText(e1: HttpError, e2: HttpError)
    ensures NewUnauthorizedError(e1) == NewUnauthorizedError(e2) <==> e1.text == e2.text
  {
  }

  /** `returnResponseData`, and every `.then` handler written like it: the
      body for status 200, a RequestFailedError carrying any other status,
      and a TypeError for a missing response (whose `status` cannot be read). */
  function ReturnResponseData(res: Response): (o: Outcome)
    ensures o.Data? <==> res.Got? && res.r.status == 200
    ensures o.Data? ==> o.value == res.r.data
    ensures o.Failed? <==> res.Got? && res.r.status != 200
    ensures o.Failed? ==> o.failure.code == res.r.status && o.failure.message == ResponseText
    ensures o.TypeFault? <==> res.Absent?
  {
    match res
    case Absent => TypeFault
    case Got(r) => if r.status != 200 then Failed(NewRequestFailedError(r)) else Data(r.data)
  }

  /** The guarded handler: `if (!res) return res;`, then as returnResponseData. */
  function ThenGuarded(res: Response): (o: Outcome)
    ensures res.Absent? ==> o == Passthrough
    ensures res.Got? ==> o == ReturnResponseData(res)
  {
    if res.Absent? then Passthrough else ReturnResponseData(res)
  }

  /** getAccountInfo, getAccountTokenBalances: a missing response becomes `null`. */
  function ThenGuardedNull(res: Response): (o: Outcome)
    ensures res.Absent? ==> o == NullResult
    ensures res.Got? ==> o == ReturnResponseData(res)
  {
    if res.Absent? then NullResult else ReturnResponseData(res)
  }

  /** getAccountMetadata: a missing response and a 204 both become `null`. */
  function ThenMetadata(res: Response): (o: Outcome)
    ensures o == NullResult <==> res.Absent? || res.r.status == 204
    ensures res.Got? && res.r.status != 204 ==> o == ReturnResponseData(res)
  {
    if res.Absent? || res.r.status == 204 then NullResult else ReturnResponseData(res)
  }

  /** resolveDomain: a 204 becomes `{}`; there is no guard against a missing
      response, so its `status` is read and the read fails. */
  function ThenDomain(res: Response): (o: Outcome)
    ensures res.Absent? ==> o == TypeFault
    ensures o == EmptyObj <==> res.Got? && res.r.status == 204
    ensures res.Got? && res.r.status != 204 ==> o == ReturnResponseData(res)
  {
    match res
    case Absent => TypeFault
    case Got(r) => if r.status == 204 then EmptyObj else ReturnResponseData(res)
  }

  /** getContractEntrypointData: guarded, and on success the raw response
      rather than the decoded body. */
  function ThenRaw(res: Response): (o: Outcome)
    ensures res.Absent? ==> o == Passthrough
    ensures o.Data? <==> res.Got? && res.r.status == 200
    ensures o.Data? ==> o.value == res.r.raw
    ensures o.Failed? <==> res.Got? && res.r.status != 200
    ensures o.Failed? ==> o.failure.code == res.r.status
  {
    match res
    case Absent => Passthrough
    case Got(r) => if r.status != 200 then Failed(NewRequestFailedError(r)) else Data(r.raw)
  }

  /** The profile wrappers' `.then((res) => res.data)`: no status check at all. */
  function ThenData(res: Response): (o: Outcome)
    ensures res.Got? ==> o == Data(res.r.data)
    ensures res.Absent? ==> o == TypeFault
  {
    match res
    case Absent => TypeFault
    case Got(r) => Data(r.data)
  }

  /** The `.then` handlers the file uses. */
  datatype Handler = Guarded | GuardedNull | Metadata | Domain | Raw | Strict | DataOnly

  function Apply(h: Handler, res: Response): Outcome {
    match h
    case Guarded => ThenGuarded(res)
    case GuardedNull => ThenGuardedNull(res)
    case Metadata => ThenMetadata(res)
    case Domain => ThenDomain(res)
    case Raw => ThenRaw(res)
    case Strict => ReturnResponseData(res)
    case DataOnly => ThenData(res)
  }

  /** `promise.then(handler)`: a resolution goes through the handler, a
      rejection passes it by unchanged. */
  function Chain(h: Handler, s: Settled): (o: Outcome)
    ensures s.Rejected? ==> o == Rethrown(s.err)
    ensures s.Resolved? ==> o == Apply(h, s.res)
  {
    match s
    case Resolved(res) => Apply(h, res)
    case Rejected(err) => Rethrown(err)
  }

  /** The profile wrappers' `.catch`: an error whose response is defined with
      status 401 is replaced by an UnauthorizedError; any other error is
      thrown again unchanged (a RequestFailedError, an UnauthorizedError and a
      TypeError have no `response`), and a resolution is left alone. */
  function Catch401(o: Outcome): (c: Outcome)
    ensures o.Rethrown? ==>
      (c.Unauthorized? <==> o.err.response.Some? && o.err.response.value.status == 401)
    ensures o.Rethrown? && c.Unauthorized? ==> c.denied == NewUnauthorizedError(o.err)
    ensures !(o.Rethrown? && c.Unauthorized?) ==> c == o
  {
    match o
    case Rethrown(err) =>
      if err.response.Some? && err.response.value.status == 401 then Unauthorized(NewUnauthorizedError(err)) else o
    case _ => o
  }

  /** Whether an outcome resolves the wrapper's promise. */
  predicate Succeeds(o: Outcome) {
    o.Data? || o.NullResult? || o.EmptyObj? || o.Passthrough?
  }

  /** Every wrapper that checks the status agrees with returnResponseData on
      every response it is given; they differ only on the missing response
      and, for getAccountMetadata and resolveDomain, on status 204. */
  lemma HandlersAgreeOnResponses(h: Handler, r: HttpResponse)
    requires h != Raw && h != DataOnly
    requires !((h == Metadata || h == Domain) && r.status == 204)
    ensures Apply(h, Got(r)) == ReturnResponseData(Got(r))
  {
  }

  /** A status-checking wrapper never invents a status: every RequestFailedError
      it produces carries the status of the response it was given, which is not
      200; and it never reports success for a status other than 200 or 204. */
  lemma FailuresCarryTheStatus(h: Handler, res: Response)
    requires h != DataOnly
    ensures Apply(h, res).Failed? ==> res.Got? && Apply(h, res).failure.code == res.r.status != 200
    ensures res.Got? && res.r.status != 200 && res.r.status != 204 ==> Apply(h, res).Failed?
    ensures res.Got? && res.r.status == 200 ==> Apply(h, res).Data?
  {
  }

  /** Catching 401 only ever changes a rejection, and changes it to an
      UnauthorizedError built from that very rejection. */
  lemma Catch401OnlyRetargetsRejections(o: Outcome)
    ensures Succeeds(o) ==> Catch401(o) == o
    ensures Catch401(o) != o ==> o.Rethrown? && Catch401(o) == Unauthorized(NewUnauthorizedError(o.err))
    ensures Catch401(Catch401(o)) == Catch401(o)
  {
  }
}
