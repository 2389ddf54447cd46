/**
 * Middleware descriptors, and the `AuthenticatedOnly` middleware bound to a
 * strategy name.
 */
module Middlewares {
  import opened Js
  import opened Passport

  /** Stand-in value of the `AuthenticatedOnly` member of the middleware type enumeration (not a falsy string). */
  const AUTHENTICATED_ONLY: string := "AuthenticatedOnly"

  /** A stored middleware descriptor: the one this layer makes, or one a host strategy stores. */
  datatype Middleware =
    | AuthenticatedOnly(strategy: string)
    | HostMiddleware(name: string, isDynamic: Value, ref: nat)

  /** The middleware's `name`. */
  function Name(m: Middleware): (n: string)
    ensures m.AuthenticatedOnly? ==> n == AUTHENTICATED_ONLY
    ensures m.HostMiddleware? ==> n == m.name
  {
    match m
    case AuthenticatedOnly(_) => AUTHENTICATED_ONLY
    case HostMiddleware(name, _, _) => name
  }

  /** The middleware's `isDynamic` flag. */
  function IsDynamic(m: Middleware): (d: Value)
    ensures m.AuthenticatedOnly? ==> d == Bool(true) && Truthy(d)
    ensures m.HostMiddleware? ==> d == m.isDynamic
  {
    match m
    case AuthenticatedOnly(_) => Bool(true)
    case HostMiddleware(_, isDynamic, _) => isDynamic
  }

  /** `middleware.use(options)`; `Undefined` stands for a call without options. */
  function Use(m: Middleware, options: Value): (fn: MiddlewareFn)
    ensures fn.options == options
    ensures m.AuthenticatedOnly? <==> fn.Authenticated?
    ensures m.AuthenticatedOnly? ==> fn.strategy == m.strategy
  {
    match m
    case AuthenticatedOnly(strategy) => Authenticate(strategy, options)
    case HostMiddleware(_, _, ref) => HostFn(ref, options)
  }

  /** `AuthenticatedOnly` always carries its type as name and is always dynamic. */
  lemma AuthenticatedOnlyConstants(strategy: string)
    ensures Name(AuthenticatedOnly(strategy)) == AUTHENTICATED_ONLY
    ensures IsDynamic(AuthenticatedOnly(strategy)) == Bool(true)
  {
  }

  /**
   * `use` authenticates against the strategy bound at construction, with the
   * options unchanged; every call targets the same strategy.
   */
  lemma UseTargetsBoundStrategy(strategy: string, options: Value, other: Value)
    ensures Use(AuthenticatedOnly(strategy), options) == Authenticated(strategy, options)
    ensures Use(AuthenticatedOnly(strategy), options).strategy == Use(AuthenticatedOnly(strategy), other).strategy
    ensures Use(AuthenticatedOnly(strategy), Undefined).options == Undefined
  {
  }
}
