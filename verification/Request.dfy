/**
 * Requests: linear objects whose headers and body move to the Python heap when a getter first asks for them,
 * and whose content leaves them when they are sent.
 */
module Request {
  import opened Wrappers
  import opened Chunks
  import opened Headers
  import opened Middleware
  import opened RequestWorld
  import HeaderMap

  datatype RequestError = AlreadySent | BodyConsumed | HeadersConsumed | NoEventLoop | AsyncInBlocking | CannotClone

  /** A body handle; it is empty once the body is on its way. */
  class RequestBody {
    var inner: Option<InnerBody>

    constructor (inner: Option<InnerBody>)
      ensures this.inner == inner
    {
      this.inner := inner;
    }

    method TakeInner() returns (r: Result<RequestBody, RequestError>)
      modifies this
      ensures inner.None? && (r.Err? <==> old(inner).None?)
      ensures r.Ok? ==> fresh(r.value) && r.value.inner == old(inner)
      ensures r.Err? ==> r.error == BodyConsumed
    {
      if inner.None? {
        return Err(BodyConsumed);
      }
      var body := new RequestBody(inner);
      inner := None;
      r := Ok(body);
    }

    /** An independent copy; the copy of a stream looks up its event loop anew. */
    method TryClone() returns (r: Result<RequestBody, RequestError>)
      ensures r.Err? <==> inner.None?
      ensures r.Err? ==> r.error == BodyConsumed
      ensures r.Ok? ==> fresh(r.value) && r.value.inner.Some? && r.value.inner.value == Payload(inner.value)
      ensures r.Ok? ==>
                match inner.value
                case BytesBody(bytes) => r.value.inner == Some(BytesBody(bytes))
                case StreamBody(items, isAsync, _) => r.value.inner == Some(StreamBody(items, isAsync, false))
    {
      if inner.None? {
        return Err(BodyConsumed);
      }
      var body := new RequestBody(Some(Payload(inner.value)));
      r := Ok(body);
    }

    method SetTaskLocal(hasLoop: bool) returns (r: Option<RequestError>)
      modifies this
      ensures inner == Remember(old(inner), hasLoop) && PayloadOpt(inner) == old(PayloadOpt(inner))
      ensures r.None? <==> HasBody(old(inner), hasLoop)
      ensures r == if old(inner).None? then Some(BodyConsumed)
                   else if NeedsLoop(old(inner).value) && !hasLoop then Some(NoEventLoop) else None
      // Only an async stream needs a loop, once; everything else of the body stays
      ensures r == Some(NoEventLoop) <==>
              old(inner).Some? && old(inner).value.StreamBody? && old(inner).value.isAsync && !old(inner).value.taskLocal && !hasLoop
      ensures inner == if r.None? && inner.value.StreamBody? && inner.value.isAsync
                       then Some(old(inner).value.(taskLocal := true)) else old(inner)
    {
      if inner.None? {
        return Some(BodyConsumed);
      }
      if NeedsLoop(inner.value) {
        if !hasLoop {
          return Some(NoEventLoop);
        }
        inner := Some(inner.value.(taskLocal := true));
      }
      r := None;
    }

    /** The body goes on the wire; an async stream cannot be sent by a blocking call. */
    method IntoReqwest(isBlocking: bool) returns (r: Result<InnerBody, RequestError>)
      modifies this
      ensures inner.None?
      ensures r == if old(inner).None? then Err(BodyConsumed)
                   else if isBlocking && IsAsync(old(inner).value) then Err(AsyncInBlocking)
                   else Ok(old(inner).value)
      ensures r == Err(AsyncInBlocking) <==>
              isBlocking && old(inner).Some? && old(inner).value.StreamBody? && old(inner).value.isAsync
    {
      var taken := inner;
      inner := None;
      if taken.None? {
        return Err(BodyConsumed);
      }
      if isBlocking && IsAsync(taken.value) {
        return Err(AsyncInBlocking);
      }
      r := Ok(taken.value);
    }
  }

  datatype ReqHeaders = OwnHeaders(handle: HeaderMap.HeaderMap) | PyHeaders(handle: HeaderMap.HeaderMap)

  datatype ReqBody = OwnBody(handle: RequestBody) | PyBody(handle: RequestBody)

  datatype Inner = Inner(base: Base, body: Option<ReqBody>, headers: Option<ReqHeaders>, next: Option<NextInner>)

  class Request {
    var inner: Option<Inner>

    ghost function HeaderHandle(): HeaderMap.HeaderMap?
      reads this
    {
      if inner.Some? && inner.value.headers.Some? then inner.value.headers.value.handle else null
    }

    ghost function BodyHandle(): RequestBody?
      reads this
    {
      if inner.Some? && inner.value.body.Some? then inner.value.body.value.handle else null
    }

    /** What the body handle holds. */
    ghost function BodyCell(): Option<InnerBody>
      reads this, BodyHandle()
    {
      if inner.Some? && inner.value.body.Some? then inner.value.body.value.handle.inner else None
    }

    /** The headers that the request stands for, wherever they are kept; none if someone took them. */
    ghost function AbsHeaders(): Option<Entries>
      requires inner.Some?
      reads this, HeaderHandle()
    {
      match inner.value.headers
      case None => Some(inner.value.base.headers)
      case Some(h) => h.handle.inner
    }

    /** The body that the request stands for. */
    ghost function AbsBody(): Option<InnerBody>
      requires inner.Some?
      reads this, BodyHandle()
    {
      PayloadOpt(if inner.value.body.Some? then BodyCell() else inner.value.base.body)
    }

    /** What would go on the wire. */
    ghost function AbsWire(): Wire
      requires inner.Some? && AbsHeaders().Some?
      reads this, HeaderHandle(), BodyHandle()
    {
      var b := inner.value.base;
      Wire(b.verb, b.url, AbsHeaders().value, AbsBody())
    }

    constructor (base: Base, body: Option<RequestBody>, next: Option<NextInner>)
      ensures inner == Some(Inner(base, if body.Some? then Some(OwnBody(body.value)) else None, None, next))
    {
      inner := Some(Inner(base, if body.Some? then Some(OwnBody(body.value)) else None, None, next));
    }

    constructor FromInner(data: Inner)
      ensures inner == Some(data)
    {
      inner := Some(data);
    }

    /** The live headers handle; the first call moves the headers there. */
    method GetHeaders() returns (r: Result<HeaderMap.HeaderMap, RequestError>)
      modifies this`inner, HeaderHandle()
      ensures r.Err? <==>
              old(inner).None?
              || old(inner.value.headers.Some? && inner.value.headers.value.OwnHeaders? && AbsHeaders().None?)
      ensures r.Err? ==> r.error == if old(inner).None? then AlreadySent else HeadersConsumed
      ensures old(inner).None? <==> inner.None?
      ensures inner.Some? ==> inner == Some(old(inner).value.(headers := inner.value.headers))
      ensures inner.Some? ==> AbsHeaders() == old(AbsHeaders())
      ensures r.Ok? ==> inner.value.headers == Some(PyHeaders(r.value))
      ensures r.Err? ==> inner == old(inner)
      ensures r.Ok? ==> r.value == old(HeaderHandle()) || fresh(r.value)
      // The handle holds the headers that were kept elsewhere, and Python gets the same handle every time
      ensures r.Ok? ==>
                match old(inner).value.headers
                case None => fresh(r.value) && r.value.inner == Some(old(inner).value.base.headers)
                case Some(OwnHeaders(h)) => fresh(r.value) && r.value.inner == old(h.inner) && h.inner.None?
                case Some(PyHeaders(h)) => r.value == h && h.inner == old(h.inner)
    {
      if inner.None? {
        return Err(AlreadySent);
      }
      var data := inner.value;
      if data.headers.None? {
        var h := new HeaderMap.HeaderMap(data.base.headers);
        inner := Some(data.(headers := Some(PyHeaders(h))));
        return Ok(h);
      }
      if data.headers.value.OwnHeaders? {
        var taken := data.headers.value.handle.TryTakeInner();
        if taken.Err? {
          return Err(HeadersConsumed);
        }
        var h := new HeaderMap.HeaderMap(taken.value);
        inner := Some(data.(headers := Some(PyHeaders(h))));
        return Ok(h);
      }
      r := Ok(data.headers.value.handle);
    }

    /** Replaces the headers; the caller's map is copied, so the new handle is the request's own. */
    method SetHeaders(entries: Entries) returns (ok: bool)
      modifies this`inner
      ensures ok <==> old(inner).Some?
      ensures !ok ==> inner.None?
      ensures ok ==> inner.Some? && inner == Some(old(inner).value.(headers := inner.value.headers))
      ensures ok ==> AbsHeaders() == Some(entries) && fresh(HeaderHandle())
      ensures ok ==> inner.value.headers == Some(PyHeaders(HeaderHandle())) && HeaderHandle().inner == Some(entries)
    {
      if inner.None? {
        return false;
      }
      var h := new HeaderMap.HeaderMap(entries);
      inner := Some(inner.value.(headers := Some(PyHeaders(h))));
      ok := true;
    }

    /** The live body handle, if there is a body of the request's own; the first call moves the body there. */
    method GetBody() returns (r: Result<Option<RequestBody>, RequestError>)
      modifies this`inner, BodyHandle()
      ensures r.Err? <==>
              old(inner).None? || old(inner.value.body.Some? && inner.value.body.value.OwnBody? && BodyCell().None?)
      ensures r.Err? ==> r.error == if old(inner).None? then AlreadySent else BodyConsumed
      ensures old(inner).None? <==> inner.None?
      ensures inner.Some? ==> inner == Some(old(inner).value.(body := inner.value.body))
      ensures inner.Some? ==> BodyCell() == old(BodyCell()) && AbsBody() == old(AbsBody())
      ensures r.Ok? ==> inner.value.body == if r.value.Some? then Some(PyBody(r.value.value)) else None
      ensures r.Ok? ==> (r.value.None? <==> old(inner).value.body.None?)
      ensures r.Err? ==> inner == old(inner)
      ensures r.Ok? && r.value.Some? ==> r.value.value.inner == old(inner.value.body.value.handle.inner)
      // A handle that Python has already seen is the same for ever
      ensures old(inner.Some? && inner.value.body.Some? && inner.value.body.value.PyBody?) ==> inner == old(inner)
      ensures old(inner.Some? && inner.value.body.Some? && inner.value.body.value.OwnBody?) && r.Ok? ==>
                fresh(BodyHandle())
    {
      if inner.None? {
        return Err(AlreadySent);
      }
      var data := inner.value;
      if data.body.None? {
        return Ok(None);
      }
      if data.body.value.OwnBody? {
        var taken := data.body.value.handle.TakeInner();
        if taken.Err? {
          return Err(BodyConsumed);
        }
        inner := Some(data.(body := Some(PyBody(taken.value))));
        return Ok(Some(taken.value));
      }
      r := Ok(Some(data.body.value.handle));
    }

    /** Sets a body handle, which other requests may refer to as well. */
    method SetBody(body: Option<RequestBody>) returns (ok: bool)
      modifies this`inner
      ensures ok <==> old(inner).Some?
      ensures !ok ==> inner.None?
      ensures ok ==> inner == Some(old(inner).value.(body := if body.Some? then Some(PyBody(body.value)) else None))
    {
      if inner.None? {
        return false;
      }
      inner := Some(inner.value.(body := if body.Some? then Some(PyBody(body.value)) else None));
      ok := true;
    }

    /** The body can be sent from where the call is made. */
    ghost predicate BodySendable(isBlocking: bool, hasLoop: bool)
      requires inner.Some?
      reads this, BodyHandle()
    {
      inner.value.body.Some? ==> HasBody(BodyCell(), hasLoop) && !(isBlocking && IsAsync(BodyCell().value))
    }

    /**
     * The first part of a send: the body remembers the event loop, and the chain leaves the request. A chain
     * that runs on an event loop needs one.
     */
    method BeginSend(isBlocking: bool, hasLoop: bool) returns (r: Result<Option<NextInner>, RequestError>)
      modifies this`inner, BodyHandle()
      ensures var begun := old(inner.Some? && (inner.value.body.Some? ==> HasBody(BodyCell(), hasLoop)));
              && (r.Ok? <==> begun && (old(inner).value.next.Some? ==> isBlocking || hasLoop))
              && (r.Ok? ==> r.value == old(inner).value.next)
              && inner == (if begun then Some(old(inner).value.(next := None)) else old(inner))
              && BodyCell() == (if begun then Remember(old(BodyCell()), hasLoop) else old(BodyCell()))
      ensures r.Err? ==>
                r.error == if old(inner).None? then AlreadySent
                           else if old(inner).value.body.Some? && old(BodyCell()).None? then BodyConsumed
                           else NoEventLoop
    {
      if inner.None? {
        return Err(AlreadySent);
      }
      var data := inner.value;
      if data.body.Some? {
        var error := data.body.value.handle.SetTaskLocal(hasLoop);
        if error.Some? {
          return Err(error.value);
        }
      }
      inner := Some(data.(next := None));
      if data.next.Some? && !isBlocking && !hasLoop {
        return Err(NoEventLoop);
      }
      r := Ok(data.next);
    }

    /** Takes the request apart for sending. Whatever happens, this object can not be sent again. */
    method PrepareSpawnRequest(isBlocking: bool, hasLoop: bool) returns (r: Result<Wire, RequestError>)
      modifies this`inner, HeaderHandle(), BodyHandle()
      ensures inner.None?
      ensures r.Ok? <==> old(inner).Some? && old(BodySendable(isBlocking, hasLoop)) && old(AbsHeaders()).Some?
      ensures r.Err? ==>
                r.error == if old(inner).None? then AlreadySent
                           else if old(inner).value.body.None? then HeadersConsumed
                           else if old(BodyCell()).None? then BodyConsumed
                           else if NeedsLoop(old(BodyCell()).value) && !hasLoop then NoEventLoop
                           else if isBlocking && IsAsync(old(BodyCell()).value) then AsyncInBlocking
                           else HeadersConsumed
      // The wire carries what the request stood for, wherever getters had moved it
      ensures r.Ok? ==> r.value == old(AbsWire())
      ensures r.Ok? ==>
                var data := old(inner).value;
                && r.value.verb == data.base.verb && r.value.url == data.base.url
                && (match data.headers
                    case None => r.value.headers == data.base.headers
                    case Some(h) => Some(r.value.headers) == old(h.handle.inner))
                // The bytes of the body, or a stream of the same items
                && (match (if data.body.Some? then old(data.body.value.handle.inner) else data.base.body)
                    case None => r.value.body.None?
                    case Some(BytesBody(bytes)) => r.value.body == Some(BytesBody(bytes))
                    case Some(StreamBody(items, isAsync, _)) => r.value.body == Some(StreamBody(items, isAsync, false)))
      // ... and nothing of it stays behind in the handles
      ensures r.Ok? && old(inner).value.body.Some? ==> old(inner).value.body.value.handle.inner.None?
      ensures r.Ok? && old(inner).value.headers.Some? ==> old(inner).value.headers.value.handle.inner.None?
      // A body that found its event loop is used up even if the request then fails
      ensures old(inner).Some? && old(inner).value.body.Some? ==>
                old(inner).value.body.value.handle.inner == AfterSend(old(BodyCell()), hasLoop)
    {
      if inner.None? {
        return Err(AlreadySent);
      }
      var data := inner.value;
      inner := None;
      var body := PayloadOpt(data.base.body);
      if data.body.Some? {
        var handle := data.body.value.handle;
        var error := handle.SetTaskLocal(hasLoop);
        if error.Some? {
          return Err(error.value);
        }
        var sent := handle.IntoReqwest(isBlocking);
        if sent.Err? {
          return Err(sent.error);
        }
        body := Some(Payload(sent.value));
      }
      var headers := data.base.headers;
      if data.headers.Some? {
        var taken := data.headers.value.handle.TryTakeInner();
        if taken.Err? {
          return Err(HeadersConsumed);
        }
        headers := taken.value;
      }
      r := Ok(Wire(data.base.verb, data.base.url, headers, body));
    }

    /** The request has all it needs for a copy. */
    ghost predicate Copyable(withBody: bool)
      requires inner.Some?
      reads this, HeaderHandle(), BodyHandle()
    {
      && AbsHeaders().Some?
      && (withBody || (inner.value.body.Some? ==> BodyCell().Some?))
      && (inner.value.base.body.Some? ==> inner.value.base.body.value.BytesBody?)
    }

    method CopyBody() returns (r: Result<Option<ReqBody>, RequestError>)
      requires inner.Some?
      ensures r.Err? <==> inner.value.body.Some? && BodyCell().None?
      ensures r.Err? ==> r.error == BodyConsumed
      ensures r.Ok? ==> (r.value.Some? <==> inner.value.body.Some?)
      ensures r.Ok? && r.value.Some? ==>
                && r.value.value.OwnBody? && fresh(r.value.value.handle)
                && r.value.value.handle.inner == PayloadOpt(BodyCell())
    {
      if inner.value.body.None? {
        return Ok(None);
      }
      var b := inner.value.body.value.handle.TryClone();
      if b.Err? {
        return Err(b.error);
      }
      r := Ok(Some(OwnBody(b.value)));
    }

    method CopyHeaders() returns (r: Result<Option<ReqHeaders>, RequestError>)
      requires inner.Some?
      ensures r.Err? <==> AbsHeaders().None?
      ensures r.Err? ==> r.error == HeadersConsumed
      ensures r.Ok? ==> (r.value.Some? <==> inner.value.headers.Some?)
      ensures r.Ok? && r.value.Some? ==>
                r.value.value.OwnHeaders? && fresh(r.value.value.handle) && r.value.value.handle.inner == AbsHeaders()
    {
      if inner.value.headers.None? {
        return Ok(None);
      }
      var entries := inner.value.headers.value.handle.inner;
      if entries.None? {
        return Err(HeadersConsumed);
      }
      var h := new HeaderMap.HeaderMap(entries.value);
      r := Ok(Some(OwnHeaders(h)));
    }

    /** A request of its own that stands for the same headers and body, or for the given body. */
    method Copy(body: Option<RequestBody>) returns (r: Result<Request, RequestError>)
      ensures r.Ok? <==> inner.Some? && Copyable(body.Some?)
      // Sent requests, streamed forms, and bodies and headers that someone took cannot be copied
      ensures r.Ok? <==>
              && inner.Some?
              && (inner.value.base.body.Some? ==> inner.value.base.body.value.BytesBody?)
              && (body.None? && inner.value.body.Some? ==> inner.value.body.value.handle.inner.Some?)
              && (inner.value.headers.Some? ==> inner.value.headers.value.handle.inner.Some?)
      ensures r.Err? ==>
                r.error == if inner.None? then AlreadySent
                           else if inner.value.base.body.Some? && inner.value.base.body.value.StreamBody? then CannotClone
                           else if body.None? && inner.value.body.Some? && BodyCell().None? then BodyConsumed
                           else HeadersConsumed
      ensures r.Ok? ==>
                && fresh(r.value) && r.value.inner.Some? && r.value.inner.value.base == inner.value.base
                && r.value.AbsHeaders() == AbsHeaders() && (r.value.HeaderHandle() == null || fresh(r.value.HeaderHandle()))
      ensures r.Ok? && body.None? ==>
                && r.value.AbsBody() == AbsBody() && (r.value.BodyHandle() == null || fresh(r.value.BodyHandle()))
                && (r.value.inner.value.body.Some? <==> inner.value.body.Some?)
                && (inner.value.body.Some? ==>
                      r.value.inner.value.body.value.OwnBody? && r.value.BodyCell() == PayloadOpt(BodyCell()))
      ensures r.Ok? && body.Some? ==> r.value.inner.value.body == Some(PyBody(body.value))
      ensures r.Ok? ==>
                && (r.value.inner.value.headers.Some? <==> inner.value.headers.Some?)
                && (inner.value.headers.Some? ==> r.value.HeaderHandle().inner == inner.value.headers.value.handle.inner)
      ensures r.Ok? && body.None? && inner.value.body.Some? ==>
                match inner.value.body.value.handle.inner
                case None => false
                case Some(BytesBody(bytes)) => r.value.BodyHandle().inner == Some(BytesBody(bytes))
                case Some(StreamBody(items, isAsync, _)) =>
                  r.value.BodyHandle().inner == Some(StreamBody(items, isAsync, false))
      // The copy has a middleware chain of its own as well
      ensures r.Ok? ==> (r.value.inner.value.next.Some? <==> inner.value.next.Some?)
      ensures r.Ok? && inner.value.next.Some? ==>
                && fresh(r.value.inner.value.next.value)
                && r.value.inner.value.next.value.Chain() == inner.value.next.value.Chain()
                && r.value.inner.value.next.value.current == inner.value.next.value.current
                && r.value.inner.value.next.value.middlewares == inner.value.next.value.middlewares
                && (inner.value.next.value.Valid() ==> r.value.inner.value.next.value.Valid())
    {
      if inner.None? {
        return Err(AlreadySent);
      }
      var data := inner.value;
      if data.base.body.Some? && data.base.body.value.StreamBody? {
        return Err(CannotClone);
      }
      var next: Option<NextInner> := None;
      if data.next.Some? {
        var n := data.next.value.CloneRef();
        next := Some(n);
      }
      var newBody: Option<ReqBody>;
      if body.Some? {
        newBody := Some(PyBody(body.value));
      } else {
        var b := CopyBody();
        if b.Err? {
          return Err(b.error);
        }
        newBody := b.value;
      }
      var headers := CopyHeaders();
      if headers.Err? {
        return Err(headers.error);
      }
      var copy := new Request.FromInner(Inner(data.base, newBody, headers.value, next));
      r := Ok(copy);
    }
  }
}
