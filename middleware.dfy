/** The middleware: binding the configuration to a handler, marking a
    response not cacheable, and turning a thrown value into a JSON error
    response. */
module Middleware {
  import opened Api

  const GenericMessage := "Something went wrong on our end"
  const UnknownError := "An unknown error occurred"

  /** `withConfig`: the request handler that passes `cfg` to `handler`. */
  function WithConfig<C, Q(!new), R>(cfg: C, handler: (C, Q) -> R): (bound: Q -> R)
    ensures forall req :: bound(req) == handler(cfg, req)
  {
    req => handler(cfg, req)
  }

  lemma LowerCacheControl()
    ensures Lower("Cache-Control") == CacheControl
  {
  }

  /** `noCacheMiddleware` applied to `next` and a request: the inner
      response with `Cache-Control` set to "no-store", replacing any value it
      had; status, status text, body and every other header are kept. */
  method NoCache<Q>(next: Q -> Response, req: Q) returns (res: Response)
    requires LowerNames(next(req).headers)
    ensures LowerNames(res.headers)
    ensures var inner := next(req);
      && res.status == inner.status
      && res.statusText == inner.statusText
      && res.body == inner.body
      && res.headers.Keys == inner.headers.Keys + {CacheControl}
      && res.headers[CacheControl] == "no-store"
      && forall name :: name in inner.headers && name != CacheControl ==> res.headers[name] == inner.headers[name]
  {
    var inner := next(req);
    var headers := new Headers(inner.headers);
    LowerCacheControl();
    headers.Set("Cache-Control", "no-store");
    res := Response(inner.status, inner.statusText, headers.entries, inner.body);
  }

  /** The four API error classes, which map to 4xx statuses. */
  predicate IsClientError(err: Thrown)
  {
    err.BadRequestError? || err.UserNotAuthenticatedError? || err.UserForbiddenError? || err.NotFoundError?
  }

  /** `errStringFromError`: a thrown string as it is, an `Error`'s message,
      or a fixed text for anything else. */
  function ErrString(err: Thrown): (errStr: string)
    ensures err.ThrownString? ==> errStr == err.text
    ensures err.ThrownValue? ==> errStr == UnknownError
    ensures IsClientError(err) || err.OtherError? ==> errStr == err.message
  {
    match err
    case ThrownString(text) => text
    case ThrownValue => UnknownError
    case _ => err.message
  }

  /** `errorHandlingMiddleware`: a JSON body `{error: message}` under a
      status chosen by the error's class. A 4xx shows the error's own
      message; a 500 shows a fixed text, except on the "dev" platform, where
      it shows the error's description. */
  method ErrorHandling(cfg: ApiConfig, err: Thrown) returns (res: Response)
    ensures res.body.ErrorJson? && res == RespondWithJson(res.status, ErrorJson(res.body.error))
    ensures err.BadRequestError? ==> res.status == 400 && res.body.error == err.message
    ensures err.UserNotAuthenticatedError? ==> res.status == 401 && res.body.error == err.message
    ensures err.UserForbiddenError? ==> res.status == 403 && res.body.error == err.message
    ensures err.NotFoundError? ==> res.status == 404 && res.body.error == err.message
    ensures res.status == 500 <==> !IsClientError(err)
    ensures res.status == 500 && cfg.platform != "dev" ==> res.body.error == GenericMessage
    ensures res.status == 500 && cfg.platform == "dev" && err.ThrownString? ==> res.body.error == err.text
    ensures res.status == 500 && cfg.platform == "dev" && err.OtherError? ==> res.body.error == err.message
    ensures res.status == 500 && cfg.platform == "dev" && err.ThrownValue? ==> res.body.error == UnknownError
  {
    var statusCode := 500;
    var message := GenericMessage;
    if err.BadRequestError? {
      statusCode := 400;
      message := err.message;
    } else if err.UserNotAuthenticatedError? {
      statusCode := 401;
      message := err.message;
    } else if err.UserForbiddenError? {
      statusCode := 403;
      message := err.message;
    } else if err.NotFoundError? {
      statusCode := 404;
      message := err.message;
    }
    if statusCode >= 500 {
      var errStr := ErrString(err);
      if cfg.platform == "dev" {
        message := errStr;
      }
    }
    res := RespondWithJson(statusCode, ErrorJson(message));
  }
}
