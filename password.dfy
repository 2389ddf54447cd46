/**
 * The two username/password schemes, local (request body) and HTTP basic
 * (Authorization header). Both destructure the same fields and build the
 * same `auth` route; they differ in the strategy name, the missing-validator
 * message and basic's `options || { session: false }`.
 */
module Password {
  import opened Js
  import opened Outcome
  import opened Passport
  import opened Routes

  const LOCAL: string := "local"
  const BASIC: string := "basic"
  const MISSING_LOCAL_VALIDATOR: string := "Missing Local validator"
  const MISSING_BASIC_VALIDATOR: string := "Missing Basic validator"
  const DEFAULT_METHOD: Value := Str("post")
  /** The fields `init` destructures; everything else is passed to `authenticate`. */
  const DESTRUCTURED: set<string> := {"validate", "authPath", "authHttpMethod", "failurePath", "redirectPath"}
  /** Basic's fallback options, `{ session: false }`. */
  const SESSIONLESS: Value := Obj(map["session" := Bool(false)])

  /** The rest object handed to `authenticate`. */
  function Rest(config: Record): (rest: Record)
    ensures forall k :: k in rest <==> k in config && k !in DESTRUCTURED
    ensures forall k :: k in rest ==> rest[k] == config[k]
  {
    Omit(config, DESTRUCTURED)
  }

  function LocalRoute(config: Record): (route: Route)
    ensures route.path == Get(config, "authPath")
    ensures route.httpMethod == (if Truthy(Get(config, "authHttpMethod")) then config["authHttpMethod"] else DEFAULT_METHOD)
    ensures route.middlewares == [Authenticated(LOCAL, Obj(Rest(config)))]
    ensures route.handler == RedirectOrNext(Get(config, "redirectPath"))
  {
    Route(Get(config, "authPath"), Or(Get(config, "authHttpMethod"), DEFAULT_METHOD),
          [Authenticate(LOCAL, Obj(Rest(config)))], RedirectOrNext(Get(config, "redirectPath")))
  }

  function BasicRoute(config: Record): (route: Route)
    ensures route.path == Get(config, "authPath")
    ensures route.httpMethod == (if Truthy(Get(config, "authHttpMethod")) then config["authHttpMethod"] else DEFAULT_METHOD)
    ensures route.middlewares == [Authenticated(BASIC, Obj(Rest(config)))]
    ensures route.handler == RedirectOrNext(Get(config, "redirectPath"))
  {
    Route(Get(config, "authPath"), Or(Get(config, "authHttpMethod"), DEFAULT_METHOD),
          [Authenticate(BASIC, Or(Obj(Rest(config)), SESSIONLESS))], RedirectOrNext(Get(config, "redirectPath")))
  }

  /** None of the destructured fields, `failurePath` included, reaches `authenticate`. */
  lemma DestructuredNeverForwarded(config: Record)
    ensures forall k :: k in DESTRUCTURED ==> k !in Rest(config)
    ensures "failurePath" !in Rest(config) && "validate" !in Rest(config)
    ensures forall k :: k in config && k !in DESTRUCTURED ==> k in Rest(config) && Rest(config)[k] == config[k]
  {
  }

  /**
   * The `{ session: false }` fallback of basic is never taken: basic's route
   * is local's with the strategy name changed.
   */
  lemma BasicIsLocalRenamed(config: Record)
    ensures BasicRoute(config) == LocalRoute(config).(middlewares := [Authenticated(BASIC, Obj(Rest(config)))])
  {
  }

  /** The `auth` handler redirects exactly when `redirectPath` is truthy and calls `next` otherwise. */
  lemma RouteHandlerRedirectsOrNext(config: Record)
    ensures Run(LocalRoute(config).handler) == (if Truthy(Get(config, "redirectPath")) then Redirect(config["redirectPath"]) else Next)
    ensures Run(BasicRoute(config).handler) == Run(LocalRoute(config).handler)
  {
  }

  function LocalProvider(config: Record): (p: ProviderStrategy)
    ensures p.LocalStrategy? && p.validate == Get(config, "validate")
  {
    LocalStrategy(Get(config, "validate"))
  }

  function BasicProvider(config: Record): (p: ProviderStrategy)
    ensures p.BasicStrategy? && p.validate == Get(config, "validate")
  {
    BasicStrategy(Get(config, "validate"))
  }

  /** Local's verify callback: `validate({ username, password })`, three-way. */
  function LocalVerify(p: ProviderStrategy, host: Host, username: string, password: string): (a: Attempt)
    requires p.LocalStrategy? && Callable(p.validate)
    ensures Truthy(p.validate) ==> a.validateCalls == [ValidateCall(p.validate.ref, Credentials(username, password))]
    ensures !Truthy(p.validate) ==> a == Attempt([], DoneFailed(CoreError(MISSING_LOCAL_VALIDATOR)))
    ensures a.done.DoneSuccess? || a.done.DoneFailed?
  {
    Settle(p.validate, host, Credentials(username, password), MISSING_LOCAL_VALIDATOR)
  }

  /** Basic's verify callback: the same, with its own missing-validator message. */
  function BasicVerify(p: ProviderStrategy, host: Host, username: string, password: string): (a: Attempt)
    requires p.BasicStrategy? && Callable(p.validate)
    ensures Truthy(p.validate) ==> a.validateCalls == [ValidateCall(p.validate.ref, Credentials(username, password))]
    ensures !Truthy(p.validate) ==> a == Attempt([], DoneFailed(CoreError(MISSING_BASIC_VALIDATOR)))
    ensures a.done.DoneSuccess? || a.done.DoneFailed?
  {
    Settle(p.validate, host, Credentials(username, password), MISSING_BASIC_VALIDATOR)
  }
}
