/** Route descriptors and the redirect-or-next handler every scheme with a route uses. */
module Routes {
  import opened Js
  import opened Passport

  datatype Handler =
    | RedirectOrNext(redirectPath: Value)  // `if (redirectPath) res.redirect(redirectPath) else next()`
    | Delegate(fn: MiddlewareFn)           // a Passport middleware used as the handler
    | HostHandler(ref: nat)

  datatype Route = Route(path: Value, httpMethod: Value, middlewares: seq<MiddlewareFn>, handler: Handler)

  /** What running a handler does to the response. */
  datatype Effect = Redirect(to: Value) | Next | Delegated(fn: MiddlewareFn) | HostHandled(ref: nat)

  function Run(h: Handler): (e: Effect)
    ensures h.RedirectOrNext? ==> (e.Redirect? || e.Next?)
    ensures h.RedirectOrNext? ==> (e.Redirect? <==> Truthy(h.redirectPath))
    ensures e.Redirect? ==> h.RedirectOrNext? && e.to == h.redirectPath
    ensures h.Delegate? ==> e == Delegated(h.fn)
  {
    match h
    case RedirectOrNext(redirectPath) => if Truthy(redirectPath) then Redirect(redirectPath) else Next
    case Delegate(fn) => Delegated(fn)
    case HostHandler(ref) => HostHandled(ref)
  }
}
