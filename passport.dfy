/**
 * The boundary to the Passport library and its provider packages. Nothing
 * of their behaviour is modelled: provider strategies are tags carrying the
 * values the layer hands them, `authenticate` builds a middleware
 * descriptor, and the calls that change Passport's global state are
 * recorded, in order, by an injected `Adapter`.
 */
module Passport {
  import opened Wrappers
  import opened Js

  /** A middleware function: `passport.authenticate(strategy, options)`, or one from the host. */
  datatype MiddlewareFn =
    | Authenticated(strategy: string, options: Value)
    | HostFn(ref: nat, options: Value)

  /** `passport.authenticate(strategy, options)`: builds the middleware and changes nothing. */
  function Authenticate(strategy: string, options: Value): MiddlewareFn {
    Authenticated(strategy, options)
  }

  /** An application-level component returned by `passport.session()` or `passport.initialize(options)`. */
  datatype Component = SessionComponent | InitializeComponent(options: Value)

  /**
   * A provider strategy object handed to `passport.use`, with the values
   * its verify callback closes over.
   */
  datatype ProviderStrategy =
    | CustomStrategy(apiKeyHeader: Value, apiKeyQueryParam: Value, validate: Value)  // passport-custom
    | JwtStrategy(options: Record, validate: Value)                                  // passport-jwt
    | LocalStrategy(validate: Value)                                                 // passport-local
    | BasicStrategy(validate: Value)                                                 // passport-http
    | FacebookStrategy(options: Record, validate: Value)                             // passport-facebook
    | GoogleStrategy(options: Record, validate: Value)                               // passport-google-oauth20
    | TwitterStrategy(options: Record, validate: Value)                              // passport-twitter

  /** One recorded call into Passport. */
  datatype Call =
    | UseCall(name: Option<string>, strategy: ProviderStrategy)
    | SessionCall
    | InitializeCall(options: Value)
    | SerializeUserCall(fn: Value)
    | DeserializeUserCall(fn: Value)

  /** The Passport instance, injected; it remembers every call made to it. */
  class Adapter {
    var log: seq<Call>

    constructor ()
      ensures log == []
    {
      log := [];
    }

    /** `passport.use([name,] strategy)`. */
    method Use(name: Option<string>, strategy: ProviderStrategy)
      modifies this
      ensures log == old(log) + [UseCall(name, strategy)]
    {
      log := log + [UseCall(name, strategy)];
    }

    /** `passport.session()`. */
    method Session() returns (c: Component)
      modifies this
      ensures c == SessionComponent
      ensures log == old(log) + [SessionCall]
    {
      log := log + [SessionCall];
      c := SessionComponent;
    }

    /** `passport.initialize(options)`. */
    method Initialize(options: Value) returns (c: Component)
      modifies this
      ensures c == InitializeComponent(options)
      ensures log == old(log) + [InitializeCall(options)]
    {
      log := log + [InitializeCall(options)];
      c := InitializeComponent(options);
    }

    /** `passport.serializeUser(fn)`. */
    method SerializeUser(fn: Value)
      modifies this
      ensures log == old(log) + [SerializeUserCall(fn)]
    {
      log := log + [SerializeUserCall(fn)];
    }

    /** `passport.deserializeUser(fn)`. */
    method DeserializeUser(fn: Value)
      modifies this
      ensures log == old(log) + [DeserializeUserCall(fn)]
    {
      log := log + [DeserializeUserCall(fn)];
    }
  }
}
