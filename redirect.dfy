/**
 * The two-leg redirect flow shared by the Facebook, Google and Twitter
 * schemes: leg `auth` starts the provider redirect, leg `auth_callback`
 * receives the provider's answer.
 */
module Redirect {
  import opened Js
  import opened Outcome
  import opened Passport
  import opened Routes

  datatype IdentityProvider = Facebook | Google | Twitter

  function Name(p: IdentityProvider): string {
    match p
    case Facebook => "facebook"
    case Google => "google"
    case Twitter => "twitter"
  }

  function MissingValidator(p: IdentityProvider): string {
    match p
    case Facebook => "Missing Facebook validator"
    case Google => "Missing Google validator"
    case Twitter => "Missing Twitter validator"
  }

  const AUTH_DEFAULT_METHOD: Value := Str("get")
  const CALLBACK_METHOD: Value := Str("get")

  /** The nine fields every provider destructures. */
  const COMMON_DESTRUCTURED: set<string> :=
    {"validate", "authPath", "callbackPath", "failurePath", "redirectPath", "authHttpMethod",
     "clientID", "clientSecret", "callbackURL"}

  /** Facebook leaves `scope` in the rest; Google and Twitter destructure it too. */
  function Destructured(p: IdentityProvider): set<string> {
    if p == Facebook then COMMON_DESTRUCTURED else COMMON_DESTRUCTURED + {"scope"}
  }

  /** The options of leg `auth`'s `authenticate`. */
  function Rest(p: IdentityProvider, config: Record): (rest: Record)
    ensures forall k :: k in rest <==> k in config && k !in Destructured(p)
    ensures forall k :: k in rest ==> rest[k] == config[k]
  {
    Omit(config, Destructured(p))
  }

  /** The client credentials given to the provider strategy; Twitter names them consumer key and secret. */
  function ClientOptions(p: IdentityProvider, config: Record): (options: Record)
    ensures p != Twitter ==> options.Keys == {"clientID", "clientSecret", "callbackURL"}
    ensures p != Twitter ==> options["clientID"] == Get(config, "clientID") && options["clientSecret"] == Get(config, "clientSecret")
    ensures p == Twitter ==> options.Keys == {"consumerKey", "consumerSecret", "callbackURL"}
    ensures p == Twitter ==> options["consumerKey"] == Get(config, "clientID") && options["consumerSecret"] == Get(config, "clientSecret")
    ensures options["callbackURL"] == Get(config, "callbackURL")
  {
    if p == Twitter then
      map["consumerKey" := Get(config, "clientID"), "consumerSecret" := Get(config, "clientSecret"),
          "callbackURL" := Get(config, "callbackURL")]
    else
      map["clientID" := Get(config, "clientID"), "clientSecret" := Get(config, "clientSecret"),
          "callbackURL" := Get(config, "callbackURL")]
  }

  /** The provider strategy handed to `passport.use`: the client options and the configured validator. */
  function Provider(p: IdentityProvider, config: Record): (prov: ProviderStrategy)
    ensures prov.FacebookStrategy? <==> p == Facebook
    ensures prov.GoogleStrategy? <==> p == Google
    ensures prov.TwitterStrategy? <==> p == Twitter
    ensures (prov.FacebookStrategy? || prov.GoogleStrategy? || prov.TwitterStrategy?) &&
      prov.options == ClientOptions(p, config) && prov.validate == Get(config, "validate")
  {
    match p
    case Facebook => FacebookStrategy(ClientOptions(p, config), Get(config, "validate"))
    case Google => GoogleStrategy(ClientOptions(p, config), Get(config, "validate"))
    case Twitter => TwitterStrategy(ClientOptions(p, config), Get(config, "validate"))
  }

  /** `failurePath ? { failureRedirect: failurePath, failureMessage: true } : {}`. */
  function FailureOptions(failurePath: Value): (options: Value)
    ensures options.Obj?
    ensures Truthy(failurePath) <==> "failureRedirect" in options.props
    ensures Truthy(failurePath) ==> options.props == map["failureRedirect" := failurePath, "failureMessage" := Bool(true)]
    ensures !Truthy(failurePath) ==> options.props == map[]
  {
    if Truthy(failurePath) then Obj(map["failureRedirect" := failurePath, "failureMessage" := Bool(true)])
    else Obj(map[])
  }

  /** Leg `auth`: no middlewares; the handler is `authenticate(provider, rest)`. */
  function AuthRoute(p: IdentityProvider, config: Record): (route: Route)
    ensures route.path == Get(config, "authPath")
    ensures route.httpMethod == (if Truthy(Get(config, "authHttpMethod")) then config["authHttpMethod"] else AUTH_DEFAULT_METHOD)
    ensures route.middlewares == []
    ensures route.handler == Delegate(Authenticated(Name(p), Obj(Rest(p, config))))
  {
    Route(Get(config, "authPath"), Or(Get(config, "authHttpMethod"), AUTH_DEFAULT_METHOD), [],
          Delegate(Authenticate(Name(p), Obj(Rest(p, config)))))
  }

  /** Leg `auth_callback`: always GET, authenticated with the failure options, then redirect or next. */
  function CallbackRoute(p: IdentityProvider, config: Record): (route: Route)
    ensures route.path == Get(config, "callbackPath")
    ensures route.httpMethod == CALLBACK_METHOD
    ensures route.middlewares == [Authenticated(Name(p), FailureOptions(Get(config, "failurePath")))]
    ensures route.handler == RedirectOrNext(Get(config, "redirectPath"))
  {
    Route(Get(config, "callbackPath"), CALLBACK_METHOD,
          [Authenticate(Name(p), FailureOptions(Get(config, "failurePath")))],
          RedirectOrNext(Get(config, "redirectPath")))
  }

  /** Facebook forwards a configured `scope` to leg `auth`; Google and Twitter never do. */
  lemma ScopeHandling(p: IdentityProvider, config: Record)
    ensures p == Facebook && "scope" in config ==> Rest(p, config)["scope"] == config["scope"]
    ensures p != Facebook ==> "scope" !in Rest(p, config)
  {
  }

  /** No destructured field reaches leg `auth`, every other field does, unchanged. */
  lemma RestIsConfigWithoutDestructured(p: IdentityProvider, config: Record)
    ensures forall k :: k in Rest(p, config) <==> k in config && k !in Destructured(p)
    ensures forall k :: k in Rest(p, config) ==> Rest(p, config)[k] == config[k]
    ensures "clientSecret" !in Rest(p, config) && "validate" !in Rest(p, config)
  {
  }

  /**
   * The callback leg redirects to `failurePath` on failure exactly when it
   * is set, and its handler redirects to `redirectPath` or calls `next`.
   */
  lemma CallbackLegBehaviour(p: IdentityProvider, config: Record)
    ensures var opts := CallbackRoute(p, config).middlewares[0].options;
      Truthy(Get(config, "failurePath")) <==> (opts.Obj? && "failureRedirect" in opts.props)
    ensures Run(CallbackRoute(p, config).handler) ==
      (if Truthy(Get(config, "redirectPath")) then Redirect(config["redirectPath"]) else Next)
  {
  }

  /** The verify callback: the provider's two tokens and profile go to `validate` unchanged, in order. */
  function Verify(prov: ProviderStrategy, host: Host, token: Value, tokenSecret: Value, profile: Value): (a: Attempt)
    requires prov.FacebookStrategy? || prov.GoogleStrategy? || prov.TwitterStrategy?
    requires Callable(prov.validate)
    ensures Truthy(prov.validate) ==> a.validateCalls == [ValidateCall(prov.validate.ref, ProviderTokens(token, tokenSecret, profile))]
    ensures !Truthy(prov.validate) ==> a.validateCalls == [] && a.done == DoneFailed(CoreError(MissingValidator(ProviderOf(prov))))
    ensures a.done.DoneSuccess? || a.done.DoneFailed?
  {
    Settle(prov.validate, host, ProviderTokens(token, tokenSecret, profile), MissingValidator(ProviderOf(prov)))
  }

  /** Which provider a registered strategy object belongs to. */
  function ProviderOf(prov: ProviderStrategy): (p: IdentityProvider)
    requires prov.FacebookStrategy? || prov.GoogleStrategy? || prov.TwitterStrategy?
  {
    if prov.FacebookStrategy? then Facebook else if prov.GoogleStrategy? then Google else Twitter
  }

  lemma ProviderOfProvider(p: IdentityProvider, config: Record)
    ensures ProviderOf(Provider(p, config)) == p
    ensures Provider(p, config).validate == Get(config, "validate")
  {
  }
}
