/** The JWT scheme: the options given to the provider strategy and the verify callback. */
module Jwt {
  import opened Js
  import opened Outcome
  import opened Passport

  /** The name the registered provider strategy answers to. */
  const STRATEGY_NAME: string := "jwt"
  const MISSING_VALIDATOR: string := "Missing JWT validator"
  /** `ExtractJwt.fromAuthHeaderAsBearerToken()`: the bearer token of the Authorization header. */
  const BEARER_EXTRACTOR: Value := Foreign("ExtractJwt.fromAuthHeaderAsBearerToken")

  /**
   * The options of the provider strategy: the configuration without
   * `validate`, with the bearer-token extractor when no extractor is set.
   */
  function Options(config: Record): (options: Record)
    ensures "validate" !in options
    ensures "jwtFromRequest" in options
    ensures Truthy(Get(config, "jwtFromRequest")) ==> options["jwtFromRequest"] == config["jwtFromRequest"]
    ensures !Truthy(Get(config, "jwtFromRequest")) ==> options["jwtFromRequest"] == BEARER_EXTRACTOR
    ensures forall k :: k != "validate" && k != "jwtFromRequest" ==> (k in options <==> k in config)
    ensures forall k :: k in options && k != "jwtFromRequest" ==> options[k] == config[k]
  {
    var rest := Omit(config, {"validate"});
    if !Truthy(Get(rest, "jwtFromRequest")) then rest["jwtFromRequest" := BEARER_EXTRACTOR] else rest
  }

  /** The strategy object `init` hands to `passport.use`. */
  function Provider(config: Record): (p: ProviderStrategy)
    ensures p.JwtStrategy? && p.validate == Get(config, "validate")
    ensures p.options == Options(config) && "validate" !in p.options
  {
    JwtStrategy(Options(config), Get(config, "validate"))
  }

  /** The verify callback on a decoded token payload. */
  function Verify(p: ProviderStrategy, host: Host, payload: Value): (a: Attempt)
    requires p.JwtStrategy? && Callable(p.validate)
    ensures Truthy(p.validate) ==> a.validateCalls == [ValidateCall(p.validate.ref, JwtPayload(payload))]
    ensures !Truthy(p.validate) ==> a == Attempt([], DoneFailed(CoreError(MISSING_VALIDATOR)))
    ensures a.done.DoneSuccess? || a.done.DoneFailed?
  {
    Settle(p.validate, host, JwtPayload(payload), MISSING_VALIDATOR)
  }
}
