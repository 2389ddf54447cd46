# soap-passport, modelled in Dafny

soap-passport connects the SoapJS authentication module to Passport.js. This
project models its own logic, which is decision rules and descriptor
construction:

- the `AuthStrategy` store: two insertion-ordered maps, `middlewares` and
  `routes`, and the `getMiddlewares` / `getRoutes` queries over them;
- the `AuthenticatedOnly` middleware: its constant `name` and `isDynamic`,
  and `use`, which is a `passport.authenticate` descriptor;
- the seven built-in strategies: api-key, jwt, local, basic, facebook,
  google and twitter. For each, the model covers what `init` registers with
  Passport, which middleware and routes it stores, how the api-key scheme
  finds its key, and how each verify callback turns the host's `validate`
  result into a call of Passport's `done`;
- the `SoapPassport` orchestrator. Its constructor registers one strategy per
  configured key, in a fixed order. Its `init` builds the component list,
  installs the session hooks and runs every registered strategy's `init`.

Passport is replaced by an injected `Passport.Adapter` that logs, in order,
the calls that change Passport's state: `use`, `session`, `initialize`,
`serializeUser` and `deserializeUser`. Provider strategies are tags that carry the values handed to
them. `passport.authenticate` builds a descriptor. The host's `validate`
functions are a parameter `Host` that maps a function reference and its
arguments to an identity or an `Error`.

Module layout, one file each:

- `js.dfy`: JavaScript values, truthiness, `||`, property reads and the rest
  object of a destructuring.
- `ordered_maps.dfy`: JavaScript `Map`.
- `passport.dfy`: the Passport boundary.
- `outcome.dfy`: the outcome protocol shared by the verify callbacks.
- `middlewares.dfy`: `AuthenticatedOnlyMiddleware`.
- `routes.dfy`: route descriptors and the redirect-or-next handler.
- `api_key.dfy`, `jwt.dfy`, `password.dfy` (local and basic) and
  `redirect.dfy` (facebook, google, twitter): one module per scheme family.
- `auth_strategy.dfy`: the `AuthStrategy` class with every scheme's `init`.
- `soap_passport.dfy`: the orchestrator class.

Every strategy is one `AuthStrategy` object whose constant `scheme` says
which subclass it stands for. `Init` dispatches on the scheme to the body of
that subclass's `init`. `CustomScheme` stands for a host strategy added
through `addStrategy`.

The state a strategy's `init` acts on is its `Snapshot()`: how often `init`
ran, and the two maps. The function `AfterInits` gives that state after `n`
further runs. Running `init` again leaves the maps equal by value, because it
only repeats the same `set` calls with equal descriptors. The source builds a
new middleware object, route object and handler closure on every run, so
the stored objects are equal but not identical. So the orchestrator's `init` is
specified even when one object is registered under two names: every object
ends in `AfterInits(scheme, start, k)`, where `k` counts the names it is
stored under. Its run count has then grown by `k`, and its maps are those of
one `init` applied to its starting maps. When no object is stored twice,
every strategy's `init` runs exactly once.

In the basic strategy the expression `options || { session: false }` never
takes its fallback, because a rest object is always truthy.
`Password.BasicIsLocalRenamed` states this: the basic route is the local
route with only the strategy name changed.

## Model

| member | source | states |
|---|---|---|
| Js.Omit | src/strategies/passport-jwt.strategy.ts:29 | the rest object of a destructuring has exactly the properties not destructured, each with its original value |
| OrderedMaps.Empty | src/strategies/auth-strategy.ts:13 | a new `Map` is valid, has no keys and lists no key twice |
| OrderedMaps.Get | src/strategies/auth-strategy.ts:41 | `map.get(key)` answers a value exactly when the key is present, and that value is the stored one |
| OrderedMaps.Set | src/strategies/passport-local.strategy.ts:56 | `map.set` stores the value; a new key goes at the end of the key order, a present key keeps its position |
| OrderedMaps.SetKeepsKeysDistinct | src/strategies/passport-local.strategy.ts:56 | `set` never lists a key twice |
| OrderedMaps.ValuesOf | src/strategies/auth-strategy.ts:37 | `Array.from(map.values())` has one value per key, in key order, each the value stored under its key |
| OrderedMaps.Values | src/strategies/auth-strategy.ts:37 | `Array.from(map.values())` lists one value per key, in insertion order of the keys |
| OrderedMaps.ValuesAfterSetNew | src/strategies/passport-facebook.strategy.ts:72-79 | setting a new key appends its value to the values |
| OrderedMaps.ValuesAfterSetExisting | src/strategies/passport-facebook.strategy.ts:72-79 | setting a present key replaces its value where it stands |
| OrderedMaps.SetOnEmpty | src/strategies/passport-jwt.strategy.ts:48-51 | a `Map` filled with one entry holds just that entry |
| OrderedMaps.SetTwiceOnEmpty | src/strategies/passport-facebook.strategy.ts:72-100 | a `Map` filled under two different keys holds both values in insertion order |
| OrderedMaps.ValueSetAfterSetNew | src/soap-passport.ts:29 | setting a new key adds its value to the stored values and removes none |
| OrderedMaps.SetIdempotent | src/strategies/passport-jwt.strategy.ts:48-51 | setting the same key to the same value twice equals setting it once |
| OrderedMaps.SetUnchanged | src/strategies/passport-facebook.strategy.ts:79-100 | setting a key to the value it already holds changes nothing |
| Outcome.Settle | src/strategies/passport-local.strategy.ts:40-47 | three-way outcome: no validator gives `done(Error(missing), false)` without calling anything; an `Error` result gives `done(thatError, false)`; otherwise `done(null, result)`; `validate` is called exactly once when present, with the scheme's arguments |
| Outcome.SettleNeverErrorAlone | src/strategies/passport-local.strategy.ts:40-47 | the three-way schemes never call `done` with the error alone, and call `validate` at most once |
| Middlewares.Name | src/middlewares/authenticated-only.middleware.ts:14 | the `AuthenticatedOnly` middleware's name is its type; a host middleware keeps its own name |
| Middlewares.IsDynamic | src/middlewares/authenticated-only.middleware.ts:20 | the `AuthenticatedOnly` middleware's `isDynamic` is `true`; a host middleware keeps its own flag |
| Middlewares.Use | src/middlewares/authenticated-only.middleware.ts:35-37 | `use(options)` passes the options on unchanged; for `AuthenticatedOnly` it is a `passport.authenticate` descriptor for the bound strategy |
| Middlewares.AuthenticatedOnlyConstants | src/middlewares/authenticated-only.middleware.ts:14-20 | the middleware's name is always the `AuthenticatedOnly` type and `isDynamic` is always true |
| Middlewares.UseTargetsBoundStrategy | src/middlewares/authenticated-only.middleware.ts:27-37 | `use(options)` is `authenticate(strategy, options)` with the constructor's strategy and the options unchanged; every call targets the same strategy; `use()` passes undefined options |
| Routes.Run | src/strategies/passport-local.strategy.ts:60-66 | the redirect-or-next handler redirects to `redirectPath` exactly when it is truthy and otherwise calls `next`, never both |
| ApiKey.Extract | src/strategies/passport-api-key.strategy.ts:33-40 | the key is taken from the configured header, then `x-api-key`, then the configured query parameter; a source counts only when its name is set and its value is non-empty; no key exactly when no source counts |
| ApiKey.ExtractIsFirstTruthy | src/strategies/passport-api-key.strategy.ts:34-40 | extraction equals the independent reading "first truthy of the three candidate values in order" |
| ApiKey.ConfiguredHeaderWins | src/strategies/passport-api-key.strategy.ts:34-37 | with both headers sent, the configured header's value is used |
| ApiKey.EmptyHeaderFallsThrough | src/strategies/passport-api-key.strategy.ts:34-37 | an empty configured header value falls through to `x-api-key` |
| ApiKey.QueryParameterLast | src/strategies/passport-api-key.strategy.ts:38-40 | with no headers, the configured query parameter supplies the key |
| ApiKey.Provider | src/strategies/passport-api-key.strategy.ts:29-32 | the custom strategy closes over the configured `validate`, `apiKeyHeader` and `apiKeyQueryParam` |
| ApiKey.Verify | src/strategies/passport-api-key.strategy.ts:32-53 | no key gives `done(Error("API Key not provided"))` without calling `validate`; a key gives exactly one `validate(key)`; an `Error` result is passed to `done` alone; otherwise `done(null, result)` |
| ApiKey.VerifyNeverPassesFalse | src/strategies/passport-api-key.strategy.ts:42-52 | the api-key scheme never calls `done(err, false)` |
| Jwt.Options | src/strategies/passport-jwt.strategy.ts:29-33 | the provider options are the configuration without `validate`; a truthy `jwtFromRequest` is kept, otherwise the bearer-token extractor is set; every other field passes through unchanged |
| Jwt.Provider | src/strategies/passport-jwt.strategy.ts:29-36 | the JWT strategy gets `Jwt.Options`, which never holds `validate`, and closes over the configured validator |
| Jwt.Verify | src/strategies/passport-jwt.strategy.ts:36-45 | `validate(payload)` is called once when present; a missing validator gives `done(Error("Missing JWT validator"), false)`; the outcome is success or a failure with `false` |
| Password.LocalRoute | src/strategies/passport-local.strategy.ts:56-67 | the `auth` route has path `authPath`, method `authHttpMethod` or `"post"`, the single middleware `authenticate("local", rest)` and the redirect-or-next handler |
| Password.BasicRoute | src/strategies/passport-basic.strategy.ts:55-68 | the same route with `authenticate("basic", rest)` |
| Password.DestructuredNeverForwarded | src/strategies/passport-local.strategy.ts:30-37 | none of the five destructured fields, `failurePath` included, reaches `authenticate`; every other field does, unchanged |
| Password.BasicIsLocalRenamed | src/strategies/passport-basic.strategy.ts:58-60 | the `{ session: false }` fallback is never taken: the basic route is the local route with only the strategy name changed |
| Password.RouteHandlerRedirectsOrNext | src/strategies/passport-basic.strategy.ts:61-67 | both `auth` handlers redirect exactly when `redirectPath` is truthy and call `next` otherwise |
| Password.Rest | src/strategies/passport-local.strategy.ts:30-37 | the rest object holds exactly the fields other than the five destructured ones, unchanged |
| Password.LocalProvider | src/strategies/passport-local.strategy.ts:38-39 | the local strategy closes over the configured validator |
| Password.BasicProvider | src/strategies/passport-basic.strategy.ts:37-38 | the basic strategy closes over the configured validator |
| Password.LocalVerify | src/strategies/passport-local.strategy.ts:39-48 | `validate({username, password})` is called once when present; a missing validator gives `done(Error("Missing Local validator"), false)` |
| Password.BasicVerify | src/strategies/passport-basic.strategy.ts:38-47 | the same, with `"Missing Basic validator"` |
| Redirect.Rest | src/strategies/passport-google.strategy.ts:30-42 | leg `auth`'s options hold exactly the fields the provider does not destructure, unchanged |
| Redirect.Provider | src/strategies/passport-facebook.strategy.ts:43-65 | each provider gets its own strategy class, with `ClientOptions` and the configured validator |
| Redirect.ClientOptions | src/strategies/passport-twitter.strategy.ts:46-50 | the provider receives only the client id, client secret and callback URL; Twitter renames the first two `consumerKey` and `consumerSecret` |
| Redirect.FailureOptions | src/strategies/passport-facebook.strategy.ts:85-90 | `{ failureRedirect: failurePath, failureMessage: true }` exactly when `failurePath` is truthy, `{}` otherwise |
| Redirect.AuthRoute | src/strategies/passport-facebook.strategy.ts:72-77 | leg `auth` has path `authPath`, method `authHttpMethod` or `"get"`, no middlewares, and the handler `authenticate(provider, rest)` |
| Redirect.CallbackRoute | src/strategies/passport-facebook.strategy.ts:79-100 | leg `auth_callback` has path `callbackPath`, method always `"get"`, the one middleware `authenticate(provider, failure options)` and the redirect-or-next handler |
| Redirect.ScopeHandling | src/strategies/passport-google.strategy.ts:30-42 | Facebook forwards a configured `scope` to leg `auth`; Google and Twitter never do |
| Redirect.RestIsConfigWithoutDestructured | src/strategies/passport-facebook.strategy.ts:30-41 | leg `auth`'s options are exactly the configuration fields not destructured, unchanged; the client secret and the validator never reach them |
| Redirect.CallbackLegBehaviour | src/strategies/passport-facebook.strategy.ts:83-99 | the callback leg redirects on failure exactly when `failurePath` is set, and its handler redirects or calls `next` by `redirectPath` |
| Redirect.Verify | src/strategies/passport-twitter.strategy.ts:51-59 | the two tokens and the profile go to `validate` unchanged and in order; a missing validator gives the provider's own "Missing … validator" error with `false` |
| Redirect.ProviderOfProvider | src/strategies/passport-facebook.strategy.ts:43-65 | the strategy handed to `passport.use` belongs to the configured provider and carries the configured validator |
| Strategy.Filter | src/strategies/auth-strategy.ts:45-47 | `Array.prototype.filter` never lengthens the list and keeps only elements that pass the test |
| Strategy.FilterMembers | src/strategies/auth-strategy.ts:44-54 | `filter` keeps exactly the elements that pass the test |
| Strategy.FilterAppend | src/strategies/auth-strategy.ts:44-54 | `filter` keeps relative order: it distributes over concatenation |
| Strategy.FilterPartition | src/strategies/auth-strategy.ts:44-54 | two tests that disagree on every element split a list into two parts whose multisets add up to the list's |
| Strategy.SelectorsPartition | src/strategies/auth-strategy.ts:44-54 | with boolean `isDynamic` flags, the `onlyGlobal` and `onlyDynamic` results together are a permutation of all middlewares |
| Strategy.SelectorsDisjoint | src/strategies/auth-strategy.ts:44-54 | no middleware is in both the `onlyGlobal` and the `onlyDynamic` result |
| Strategy.AuthenticatedOnlyIsDynamicOnly | src/strategies/auth-strategy.ts:44-54 | a stored `AuthenticatedOnly` never appears under `onlyGlobal` and always appears under `onlyDynamic` |
| Strategy.InitMiddlewaresIdempotent | src/strategies/passport-jwt.strategy.ts:48-51 | a second `init` leaves the middlewares as the first left them |
| Strategy.InitRoutesIdempotent | src/strategies/passport-facebook.strategy.ts:72-100 | a second `init` leaves the routes as the first left them |
| Strategy.AfterInits | src/strategies/auth-strategy.ts:25 | after `n` further runs of `init` the run count has grown by `n` |
| Strategy.AfterInitsStep | src/strategies/passport-facebook.strategy.ts:67-100 | one more `init` after `n` of them is the state after `n + 1`: repeated runs only repeat the map writes |
| Strategy.InitFreshMiddlewares | src/strategies/passport-api-key.strategy.ts:56-59 | on a fresh built-in strategy `init` stores exactly one middleware, `AuthenticatedOnly` bound to the scheme's name |
| Strategy.InitFreshRoutesNone | src/strategies/passport-jwt.strategy.ts:28-52 | jwt and api-key store no routes |
| Strategy.InitFreshRoutesLocal | src/strategies/passport-local.strategy.ts:56-67 | a fresh local strategy gets exactly the route `auth` |
| Strategy.InitFreshRoutesBasic | src/strategies/passport-basic.strategy.ts:55-68 | a fresh basic strategy gets exactly the route `auth` |
| Strategy.InitFreshRoutesRedirect | src/strategies/passport-google.strategy.ts:73-101 | a fresh redirect-flow strategy gets exactly `auth` then `auth_callback` |
| Strategy.AuthStrategy.constructor | src/strategies/auth-strategy.ts:13-19 | a new strategy has empty middleware and route maps |
| Strategy.AuthStrategy.SetMiddleware | src/strategies/passport-api-key.strategy.ts:56-59 | `this.middlewares.set` changes only the middlewares |
| Strategy.AuthStrategy.SetRoute | src/strategies/passport-local.strategy.ts:56-67 | `this.routes.set` changes only the routes |
| Strategy.AuthStrategy.GetMiddlewares | src/strategies/auth-strategy.ts:33-55 | no filter or an empty name gives every middleware in insertion order; a name gives its entry or undefined; `onlyGlobal` (tested first) gives exactly the `isDynamic === false` entries in order; otherwise `onlyDynamic` gives exactly the truthy ones; a selector with neither flag gives undefined |
| Strategy.AuthStrategy.GetRoutes | src/strategies/auth-strategy.ts:63-71 | no filter or an empty name gives every route in insertion order; a name gives its route or undefined |
| Strategy.AuthStrategy.Init | src/strategies/auth-strategy.ts:25 | `init` makes the scheme's Passport calls and leaves the state `AfterInits(scheme, before, 1)` |
| Strategy.AuthStrategy.InitApiKey | src/strategies/passport-api-key.strategy.ts:28-60 | registers the custom strategy under the name `"api-key"` and stores `AuthenticatedOnly("api-key")`; routes unchanged |
| Strategy.AuthStrategy.InitJwt | src/strategies/passport-jwt.strategy.ts:28-52 | registers the JWT strategy with `Jwt.Options` and stores `AuthenticatedOnly("jwt")`; routes unchanged |
| Strategy.AuthStrategy.InitLocal | src/strategies/passport-local.strategy.ts:29-68 | registers the local strategy, stores `AuthenticatedOnly("local")` and the route `Password.LocalRoute` |
| Strategy.AuthStrategy.InitBasic | src/strategies/passport-basic.strategy.ts:28-69 | registers the basic strategy, stores `AuthenticatedOnly("basic")` and the route `Password.BasicRoute` |
| Strategy.AuthStrategy.InitRedirect | src/strategies/passport-facebook.strategy.ts:29-101 | registers the provider strategy, stores `AuthenticatedOnly(provider)` and the two legs `auth` and `auth_callback` |
| SoapPassport.PlanUpTo | src/soap-passport.ts:27-54 | the slots before `n` register at most `n` strategies, each from one of those slots |
| SoapPassport.PlanOrdered | src/soap-passport.ts:27-54 | registrations come in slot order: jwt, apiKey, facebook, google, twitter, local, basic |
| SoapPassport.PlanSlots | src/soap-passport.ts:27-54 | each registration is for a truthy key and carries its slot's name and the strategy built from that key's section |
| SoapPassport.PlanMembership | src/soap-passport.ts:27-54 | a slot is registered exactly when its configuration key is truthy |
| SoapPassport.Plan | src/soap-passport.ts:27-54 | all registrations: at most seven, in slot order, each for a truthy key with its slot's name and scheme |
| SoapPassport.EmptyConfigRegistersNothing | src/soap-passport.ts:27-54 | `{}` registers nothing |
| SoapPassport.FullConfigRegistersAll | src/soap-passport.ts:27-54 | with every key configured, all seven strategy names are registered, in order |
| SoapPassport.StrategyTypesDistinct | src/soap-passport.ts:29-53 | the seven registry names are pairwise different |
| SoapPassport.NextNameIsNew | src/soap-passport.ts:27-54 | a slot's name is not yet taken when its `if` runs |
| SoapPassport.RegisterStep | src/soap-passport.ts:27-30 | one taken `if` appends its name to the registry's keys and stores a strategy of the planned scheme |
| SoapPassport.SkipStep | src/soap-passport.ts:27-30 | a falsy key registers nothing |
| SoapPassport.InjectiveAfterSetNew | src/soap-passport.ts:28-29 | a new object stored under a new name keeps names and objects one-to-one |
| SoapPassport.RegisterPlanned | src/soap-passport.ts:27-30 | registering a fresh strategy for a truthy slot extends the registry to that slot |
| SoapPassport.AddUnused | src/soap-passport.ts:28-29 | adding a just-constructed strategy keeps every registered strategy as its constructor left it |
| SoapPassport.SoapPassport.constructor | src/soap-passport.ts:25-55 | the registry's names are the planned names in slot order; each holds a newly allocated, never initialised strategy of its slot's scheme; no object is stored twice |
| SoapPassport.SoapPassport.RegisterConfigured | src/soap-passport.ts:27-54 | going through the seven slots in order registers exactly the planned strategies |
| SoapPassport.SoapPassport.RegisterSlot | src/soap-passport.ts:27-30 | one `if (this.config.<key>)` extends the registry by that slot |
| SoapPassport.SoapPassport.RegisterNew | src/soap-passport.ts:28-29 | the body of one taken `if` extends the registry by that slot |
| SoapPassport.SoapPassport.AddStrategy | src/soap-passport.ts:29 | the strategy is stored under its name and retrievable by it |
| SoapPassport.Components | src/soap-passport.ts:64-77 | the components end with `initialize(options)` and hold the session component exactly with session options |
| SoapPassport.HookCalls | src/soap-passport.ts:65-77 | the hook calls end with `initialize(options)`, number at most four, and are just that call without session options |
| SoapPassport.ComponentsShape | src/soap-passport.ts:64-83 | with session options the session component comes first and the list has two entries; without them one; `initialize(options)` is always last |
| SoapPassport.HookCallsShape | src/soap-passport.ts:65-77 | `session` is called exactly with session options; `serializeUser` / `deserializeUser` exactly when session options with a truthy `serialize` / `deserialize` exist; without session options only `initialize`; `initialize` last |
| SoapPassport.SoapPassport.GetStrategy | src/__tests__/soap-passport.test.ts:148-153 | a strategy is found by name exactly when the registry holds that name, and it is the stored one |
| SoapPassport.SoapPassport.Install | src/soap-passport.ts:64-77 | returns the component list and makes the hook calls, in order |
| SoapPassport.SoapPassport.Init | src/soap-passport.ts:63-84 | returns the components; the Passport log is the hook calls, then every strategy's `init` calls in registry order; every registered object is initialised once per name it is stored under, and exactly once when no object is stored twice |
| SoapPassport.SoapPassport.InitStrategies | src/soap-passport.ts:79-81 | the `forEach` appends every registered strategy's calls in registration order; each registered object has run `init` once per name it is registered under, with its middleware and route maps those of `init` applied to its earlier maps; exactly one more `init` without aliasing |
| SoapPassport.ConstructAndInit | src/__tests__/soap-passport.test.ts:140-146 | constructing and then calling `init` returns the components, logs the hook calls then every registered strategy's calls in registration order, and leaves each registered strategy initialised exactly once from empty maps |
| SoapPassport.InitUnused | src/soap-passport.ts:63-84 | `init` on strategies stored once each and never initialised runs each exactly once from its empty maps |
| SoapPassport.InitEach | src/soap-passport.ts:79-81 | the loop over the registry's keys logs each strategy's calls in order and keeps the per-object count of runs |
| SoapPassport.InitAt | src/soap-passport.ts:80 | one turn of the loop appends that strategy's calls and counts one more run for its object only |
| SoapPassport.InitialisedStep | src/soap-passport.ts:80 | one turn counts one more `init` for the turn's object and none for the others |
| SoapPassport.InitialisedAll | src/soap-passport.ts:79-81 | after the loop every object has run once per name it is registered under, with its maps those of `init` applied to its starting maps, and exactly once without aliasing |
| SoapPassport.OccurrencesAtLeastOne | src/soap-passport.ts:79-81 | an object stored under one of the keys is visited at least once |
| SoapPassport.OccurrencesOneWhenInjective | src/soap-passport.ts:79-81 | without aliasing each stored object is visited exactly once |
| SoapPassport.EveryObjectOccurs | src/soap-passport.ts:79-81 | every registered object is visited at least once |
| SoapPassport.EveryObjectOnce | src/soap-passport.ts:79-81 | without aliasing every registered object is visited exactly once |
| SoapPassport.StrategyCallsStep | src/soap-passport.ts:79-81 | visiting one more key appends its strategy's calls |
| SoapPassport.OccurrencesStep | src/soap-passport.ts:79-81 | visiting one more key counts its object once more |

## Left out

- Passport.js and the provider packages (passport-jwt, passport-custom, passport-local, passport-http, passport-facebook, passport-google-oauth20, passport-twitter) are foreign code. The model has no token checks, no OAuth redirects and no header parsing. Provider strategies are tags, `authenticate` builds a descriptor, and the calls that change Passport's state are logged by `Passport.Adapter`.
- `Soap.ApiAuthModule` is not part of this model, and neither is its `StrategyType` enumeration. The registry is modelled as an insertion-ordered name-to-strategy store: `addStrategy` is `Map.set` and iteration runs in key order. `STRATEGY_TYPES` are stand-in values, pairwise distinct and non-empty. The order of the `init` log is only as certain as that assumed registry order.
- Asynchrony: `await validate(...)` is one call of the `Host` function. Promises that reject, and errors thrown inside a verify callback, are not modelled.
- ApiKey.Verify: requires a validator only when a key was found. With no key the callback answers `done(Error("API Key not provided"))` before it reaches `validate`, and that path is modelled. With a key and no validator, the call at src/strategies/passport-api-key.strategy.ts:46 throws inside the async callback; that crash is not modelled.
- Strategy.AuthStrategy.Init: a host strategy (`CustomScheme`, added through `addStrategy`) has an `init` whose behaviour is host code. The model takes it as a no-op: it makes no Passport calls and writes neither map. So the Passport log in the contracts of `SoapPassport.SoapPassport.Init`, `InitStrategies` and `ConstructAndInit` covers the built-in strategies' calls only. What a host strategy's own `init` does is not modelled.
- Object identity of stored descriptors: every run of a strategy's `init` stores a newly built middleware object, route object and handler closure. The model keeps descriptors as values, so a repeated `init` leaves maps that are equal by value. That the stored objects are new ones is not captured.
- HTTP objects: a request is reduced to maps of string header and query values, with no header case-folding and no array-valued headers. `res.redirect` and `next` become the `Routes.Effect` datatype.
- JavaScript values are reduced to `Js.Value`. The property order of plain objects is not modelled, because the code never observes it.
- The `validate` fields of the configuration are assumed to be functions or falsy (`Js.Callable`). Header and parameter names are assumed to be strings or falsy (`Js.IsName`). This follows the configuration types.
- The constructor's seven `if` blocks are written as one loop over seven slots, with the key, name and strategy class of each slot taken from constant tables. The order and the effects are the same.
- Both queries are `reads`-only functions, so they cannot change either map. No separate lemma states this.
- The callback leg's `failureMessage` and the handlers' effects stop at the descriptor; what Passport does with them is foreign code.
