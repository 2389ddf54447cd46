/**
 * The authentication strategy: a scheme, the middlewares and routes it
 * stores by name in insertion order, the queries over them, and its `init`.
 */
module Strategy {
  import opened Wrappers
  import opened Js
  import OM = OrderedMaps
  import opened Passport
  import opened Middlewares
  import opened Routes
  import ApiKey
  import Jwt
  import Password
  import Redirect

  /** Which strategy an object is, with the configuration it was constructed with. */
  datatype Scheme =
    | JwtScheme(config: Record)
    | ApiKeyScheme(config: Record)
    | LocalScheme(config: Record)
    | BasicScheme(config: Record)
    | RedirectScheme(provider: Redirect.IdentityProvider, config: Record)
    | CustomScheme(ref: nat)  // a strategy supplied by the host through `addStrategy`

  /** The filter argument of `getMiddlewares`: absent, a name, or `{ onlyGlobal, onlyDynamic }`. */
  datatype MiddlewareFilter = NoFilter | ByName(name: string) | Selector(onlyGlobal: Value, onlyDynamic: Value)

  /** What a query answers: `undefined`, one descriptor, or an array of them. */
  datatype Query<T> = Absent | One(item: T) | Many(items: seq<T>)

  /** `!filter` is false: an absent filter and the empty string count as no filter. */
  predicate FilterGiven(filter: MiddlewareFilter) {
    match filter
    case NoFilter => false
    case ByName(name) => name != ""
    case Selector(_, _) => true
  }

  /** The `onlyGlobal` test, `middleware.isDynamic === false`. */
  predicate IsGlobal(m: Middleware) {
    IsDynamic(m) == Bool(false)
  }

  /** The `onlyDynamic` test, `middleware.isDynamic` taken as a condition. */
  predicate IsDynamicFlag(m: Middleware) {
    Truthy(IsDynamic(m))
  }

  /** `Array.prototype.filter`. */
  function Filter<T>(xs: seq<T>, keep: T -> bool): (r: seq<T>)
    ensures |r| <= |xs|
    ensures forall i :: 0 <= i < |r| ==> keep(r[i])
  {
    if xs == [] then []
    else (if keep(xs[0]) then [xs[0]] else []) + Filter(xs[1..], keep)
  }

  /** `Filter` keeps exactly the elements that pass the test. */
  lemma {:induction false} FilterMembers<T>(xs: seq<T>, keep: T -> bool)
    ensures forall x :: x in Filter(xs, keep) <==> x in xs && keep(x)
  {
    if xs != [] {
      FilterMembers(xs[1..], keep);
      assert xs == [xs[0]] + xs[1..];
    }
  }

  /** `Filter` keeps the relative order: it distributes over concatenation. */
  lemma {:induction false} FilterAppend<T>(a: seq<T>, b: seq<T>, keep: T -> bool)
    ensures Filter(a + b, keep) == Filter(a, keep) + Filter(b, keep)
  {
    if a == [] {
      assert a + b == b;
    } else {
      var head := if keep(a[0]) then [a[0]] else [];
      assert (a + b)[0] == a[0];
      assert (a + b)[1..] == a[1..] + b;
      calc {
        Filter(a + b, keep);
        head + Filter(a[1..] + b, keep);
        { FilterAppend(a[1..], b, keep); }
        head + (Filter(a[1..], keep) + Filter(b, keep));
        (head + Filter(a[1..], keep)) + Filter(b, keep);
      }
    }
  }

  /** Two tests that disagree on every element split a list between them, each element into exactly one side. */
  lemma {:induction false} FilterPartition<T>(xs: seq<T>, p: T -> bool, q: T -> bool)
    requires forall i :: 0 <= i < |xs| ==> p(xs[i]) != q(xs[i])
    ensures multiset(Filter(xs, p)) + multiset(Filter(xs, q)) == multiset(xs)
  {
    FilterCounts(xs, p, q);
    SumByCounts(multiset(Filter(xs, p)), multiset(Filter(xs, q)), multiset(xs));
  }

  /** Multisets that agree element by element are equal. */
  lemma SumByCounts<T>(a: multiset<T>, b: multiset<T>, c: multiset<T>)
    requires forall y :: a[y] + b[y] == c[y]
    ensures a + b == c
  {
  }

  /** Element by element: each occurrence lands on exactly one side. */
  lemma {:induction false} FilterCounts<T>(xs: seq<T>, p: T -> bool, q: T -> bool)
    requires forall i :: 0 <= i < |xs| ==> p(xs[i]) != q(xs[i])
    ensures forall y :: multiset(Filter(xs, p))[y] + multiset(Filter(xs, q))[y] == multiset(xs)[y]
  {
    if xs != [] {
      var x, tail := xs[0], xs[1..];
      assert p(x) != q(x);
      assert forall i :: 0 <= i < |tail| ==> tail[i] == xs[i + 1];
      FilterCounts(tail, p, q);
      assert xs == [x] + tail;
    }
  }

  /**
   * With boolean `isDynamic` flags every middleware is global or dynamic and
   * not both: the two selections together are a permutation of the list.
   */
  lemma SelectorsPartition(ms: seq<Middleware>)
    requires forall i :: 0 <= i < |ms| ==> IsDynamic(ms[i]).Bool?
    ensures multiset(Filter(ms, IsGlobal)) + multiset(Filter(ms, IsDynamicFlag)) == multiset(ms)
  {
    forall i | 0 <= i < |ms| ensures IsGlobal(ms[i]) != IsDynamicFlag(ms[i]) {
      assert IsDynamic(ms[i]).Bool?;
    }
    FilterPartition(ms, IsGlobal, IsDynamicFlag);
  }

  /** No middleware is both global and dynamic. */
  lemma SelectorsDisjoint(ms: seq<Middleware>)
    ensures forall m :: m in Filter(ms, IsGlobal) ==> m !in Filter(ms, IsDynamicFlag)
  {
    FilterMembers(ms, IsGlobal);
    FilterMembers(ms, IsDynamicFlag);
  }

  /** `AuthenticatedOnly` is never global and always dynamic. */
  lemma AuthenticatedOnlyIsDynamicOnly(ms: seq<Middleware>, strategy: string)
    requires AuthenticatedOnly(strategy) in ms
    ensures AuthenticatedOnly(strategy) !in Filter(ms, IsGlobal)
    ensures AuthenticatedOnly(strategy) in Filter(ms, IsDynamicFlag)
  {
    FilterMembers(ms, IsGlobal);
    FilterMembers(ms, IsDynamicFlag);
  }

  /** The strategy name a built-in scheme binds its `AuthenticatedOnly` middleware to. */
  function BoundName(s: Scheme): string
    requires !s.CustomScheme?
  {
    match s
    case JwtScheme(_) => Jwt.STRATEGY_NAME
    case ApiKeyScheme(_) => ApiKey.STRATEGY_NAME
    case LocalScheme(_) => Password.LOCAL
    case BasicScheme(_) => Password.BASIC
    case RedirectScheme(p, _) => Redirect.Name(p)
  }

  /** The calls a strategy's `init` makes on Passport: one `use` for a built-in scheme. */
  function InitCalls(s: Scheme): seq<Call> {
    match s
    case JwtScheme(config) => [UseCall(None, Jwt.Provider(config))]
    case ApiKeyScheme(config) => [UseCall(Some(ApiKey.STRATEGY_NAME), ApiKey.Provider(config))]
    case LocalScheme(config) => [UseCall(None, Password.LocalProvider(config))]
    case BasicScheme(config) => [UseCall(None, Password.BasicProvider(config))]
    case RedirectScheme(p, config) => [UseCall(None, Redirect.Provider(p, config))]
    case CustomScheme(_) => []
  }

  /** The middlewares after `init`: a built-in scheme sets `AuthenticatedOnly` bound to its name. */
  function InitMiddlewares(s: Scheme, m: OM.ValidMap<Middleware>): OM.ValidMap<Middleware>
  {
    if s.CustomScheme? then m else OM.Set(m, AUTHENTICATED_ONLY, AuthenticatedOnly(BoundName(s)))
  }

  /** The routes after `init`: none, `auth`, or `auth` then `auth_callback`. */
  function InitRoutes(s: Scheme, r: OM.ValidMap<Route>): OM.ValidMap<Route>
  {
    match s
    case LocalScheme(config) => OM.Set(r, "auth", Password.LocalRoute(config))
    case BasicScheme(config) => OM.Set(r, "auth", Password.BasicRoute(config))
    case RedirectScheme(p, config) =>
      OM.Set(OM.Set(r, "auth", Redirect.AuthRoute(p, config)), "auth_callback", Redirect.CallbackRoute(p, config))
    case _ => r
  }

  /** Running `init` again leaves the middlewares as the first run left them. */
  lemma InitMiddlewaresIdempotent(s: Scheme, m: OM.ValidMap<Middleware>)
    ensures InitMiddlewares(s, InitMiddlewares(s, m)) == InitMiddlewares(s, m)
  {
    if !s.CustomScheme? {
      OM.SetIdempotent(m, AUTHENTICATED_ONLY, AuthenticatedOnly(BoundName(s)));
    }
  }

  /** Running `init` again leaves the routes as the first run left them (only the Passport calls repeat). */
  lemma InitRoutesIdempotent(s: Scheme, r: OM.ValidMap<Route>)
    ensures InitRoutes(s, InitRoutes(s, r)) == InitRoutes(s, r)
  {
    match s
    case LocalScheme(config) =>
      var a := Password.LocalRoute(config);
      OM.SetIdempotent(r, "auth", a);
    case BasicScheme(config) =>
      var a := Password.BasicRoute(config);
      OM.SetIdempotent(r, "auth", a);
    case RedirectScheme(p, config) =>
      var a, c := Redirect.AuthRoute(p, config), Redirect.CallbackRoute(p, config);
      var once := OM.Set(OM.Set(r, "auth", a), "auth_callback", c);
      assert InitRoutes(s, r) == once;
      OM.SetUnchanged(once, "auth", a);
      OM.SetUnchanged(once, "auth_callback", c);
      assert InitRoutes(s, once) == OM.Set(OM.Set(once, "auth", a), "auth_callback", c);
    case _ =>
  }

  /** What `init` has done to a strategy so far: how often it ran, and the maps it left. */
  datatype State = State(inits: nat, middlewares: OM.ValidMap<Middleware>, routes: OM.ValidMap<Route>)

  /** The state after `init` has run `n` more times on a strategy of scheme `s`. */
  function AfterInits(s: Scheme, st: State, n: nat): (r: State)
    ensures r.inits == st.inits + n
  {
    if n == 0 then st else State(st.inits + n, InitMiddlewares(s, st.middlewares), InitRoutes(s, st.routes))
  }

  /** One more `init` after `n` of them is `n + 1` of them: repeated runs only repeat the map writes. */
  lemma AfterInitsStep(s: Scheme, st: State, n: nat)
    ensures AfterInits(s, st, n + 1) == AfterInits(s, AfterInits(s, st, n), 1)
  {
    if n > 0 {
      InitMiddlewaresIdempotent(s, st.middlewares);
      InitRoutesIdempotent(s, st.routes);
    }
  }

  /** On a fresh strategy `init` stores exactly one middleware, `AuthenticatedOnly` bound to the scheme's name. */
  lemma InitFreshMiddlewares(s: Scheme)
    requires !s.CustomScheme?
    ensures InitMiddlewares(s, OM.Empty()).keys == [AUTHENTICATED_ONLY]
    ensures OM.Values(InitMiddlewares(s, OM.Empty())) == [AuthenticatedOnly(BoundName(s))]
  {
    OM.SetOnEmpty(AUTHENTICATED_ONLY, AuthenticatedOnly(BoundName(s)));
  }

  /** JWT and API key add no routes. */
  lemma InitFreshRoutesNone(s: Scheme)
    requires s.JwtScheme? || s.ApiKeyScheme? || s.CustomScheme?
    ensures InitRoutes(s, OM.Empty()).keys == [] && OM.Values(InitRoutes(s, OM.Empty())) == []
  {
  }

  /** On a fresh local strategy `init` adds the one route `auth`. */
  lemma InitFreshRoutesLocal(config: Record)
    ensures InitRoutes(LocalScheme(config), OM.Empty()).keys == ["auth"]
    ensures OM.Values(InitRoutes(LocalScheme(config), OM.Empty())) == [Password.LocalRoute(config)]
  {
    var route := Password.LocalRoute(config);
    assert InitRoutes(LocalScheme(config), OM.Empty()) == OM.Set(OM.Empty(), "auth", route);
    OM.SetOnEmpty("auth", route);
  }

  /** On a fresh basic strategy `init` adds the one route `auth`. */
  lemma InitFreshRoutesBasic(config: Record)
    ensures InitRoutes(BasicScheme(config), OM.Empty()).keys == ["auth"]
    ensures OM.Values(InitRoutes(BasicScheme(config), OM.Empty())) == [Password.BasicRoute(config)]
  {
    var route := Password.BasicRoute(config);
    assert InitRoutes(BasicScheme(config), OM.Empty()) == OM.Set(OM.Empty(), "auth", route);
    OM.SetOnEmpty("auth", route);
  }

  /** On a fresh redirect-flow strategy `init` adds `auth`, then `auth_callback`. */
  lemma InitFreshRoutesRedirect(p: Redirect.IdentityProvider, config: Record)
    ensures InitRoutes(RedirectScheme(p, config), OM.Empty()).keys == ["auth", "auth_callback"]
    ensures OM.Values(InitRoutes(RedirectScheme(p, config), OM.Empty())) ==
      [Redirect.AuthRoute(p, config), Redirect.CallbackRoute(p, config)]
  {
    var auth, callback := Redirect.AuthRoute(p, config), Redirect.CallbackRoute(p, config);
    assert InitRoutes(RedirectScheme(p, config), OM.Empty()) == OM.Set(OM.Set(OM.Empty(), "auth", auth), "auth_callback", callback);
    OM.SetTwiceOnEmpty("auth", auth, "auth_callback", callback);
  }

  class AuthStrategy {
    const scheme: Scheme
    var middlewares: OM.ValidMap<Middleware>
    var routes: OM.ValidMap<Route>
    /** How many times `init` has run on this object. */
    ghost var initCount: nat

    /** The state `init` acts on. */
    ghost function Snapshot(): State
      reads this
    {
      State(initCount, middlewares, routes)
    }

    constructor (scheme: Scheme)
      ensures this.scheme == scheme && middlewares == OM.Empty() && routes == OM.Empty() && initCount == 0
    {
      this.scheme := scheme;
      middlewares := OM.Empty();
      routes := OM.Empty();
      initCount := 0;
    }

    /** `this.middlewares.set(key, middleware)`. */
    method SetMiddleware(key: string, middleware: Middleware)
      modifies this
      ensures middlewares == OM.Set(old(middlewares), key, middleware)
      ensures routes == old(routes) && initCount == old(initCount)
    {
      middlewares := OM.Set(middlewares, key, middleware);
    }

    /** `this.routes.set(key, route)`. */
    method SetRoute(key: string, route: Route)
      modifies this
      ensures routes == OM.Set(old(routes), key, route)
      ensures middlewares == old(middlewares) && initCount == old(initCount)
    {
      routes := OM.Set(routes, key, route);
    }

    /** `getMiddlewares(filter)`. */
    function GetMiddlewares(filter: MiddlewareFilter): (r: Query<Middleware>)
      reads this
      ensures !FilterGiven(filter) ==> r == Many(OM.Values(middlewares))
      ensures filter.ByName? && filter.name != "" ==>
        (filter.name in middlewares.entries ==> r == One(middlewares.entries[filter.name])) &&
        (filter.name !in middlewares.entries ==> r == Absent)
      ensures filter.Selector? && Truthy(filter.onlyGlobal) ==>
        r == Many(Filter(OM.Values(middlewares), IsGlobal)) &&
        forall m :: m in r.items <==> m in OM.Values(middlewares) && IsDynamic(m) == Bool(false)
      ensures filter.Selector? && !Truthy(filter.onlyGlobal) && Truthy(filter.onlyDynamic) ==>
        r == Many(Filter(OM.Values(middlewares), IsDynamicFlag)) &&
        forall m :: m in r.items <==> m in OM.Values(middlewares) && Truthy(IsDynamic(m))
      ensures filter.Selector? && !Truthy(filter.onlyGlobal) && !Truthy(filter.onlyDynamic) ==> r == Absent
      ensures r.Many? && filter.Selector? ==> |r.items| <= |middlewares.keys|
    {
      match filter
      case NoFilter => Many(OM.Values(middlewares))
      case ByName(name) =>
        if name == "" then Many(OM.Values(middlewares))
        else (match OM.Get(middlewares, name) case Some(m) => One(m) case None => Absent)
      case Selector(onlyGlobal, onlyDynamic) =>
        if Truthy(onlyGlobal) then
          FilterMembers(OM.Values(middlewares), IsGlobal);
          Many(Filter(OM.Values(middlewares), IsGlobal))
        else if Truthy(onlyDynamic) then
          FilterMembers(OM.Values(middlewares), IsDynamicFlag);
          Many(Filter(OM.Values(middlewares), IsDynamicFlag))
        else Absent
    }

    /** `getRoutes(filter)`; `None` is a call without a filter. */
    function GetRoutes(filter: Option<string>): (r: Query<Route>)
      reads this
      ensures (filter.None? || filter.value == "") ==> r == Many(OM.Values(routes))
      ensures filter.Some? && filter.value != "" && filter.value in routes.entries ==> r == One(routes.entries[filter.value])
      ensures filter.Some? && filter.value != "" && filter.value !in routes.entries ==> r == Absent
    {
      match filter
      case None => Many(OM.Values(routes))
      case Some(name) =>
        if name == "" then Many(OM.Values(routes))
        else match OM.Get(routes, name) case Some(route) => One(route) case None => Absent
    }

    /** `init()`, dispatched on the scheme. */
    method Init(adapter: Adapter)
      modifies this, adapter
      ensures middlewares == InitMiddlewares(scheme, old(middlewares))
      ensures routes == InitRoutes(scheme, old(routes))
      ensures adapter.log == old(adapter.log) + InitCalls(scheme)
      ensures initCount == old(initCount) + 1
      ensures Snapshot() == AfterInits(scheme, old(Snapshot()), 1)
    {
      initCount := initCount + 1;
      match scheme
      case JwtScheme(_) => InitJwt(adapter);
      case ApiKeyScheme(_) => InitApiKey(adapter);
      case LocalScheme(_) => InitLocal(adapter);
      case BasicScheme(_) => InitBasic(adapter);
      case RedirectScheme(_, _) => InitRedirect(adapter);
      case CustomScheme(_) =>
    }

    /** The API-key strategy's `init`. */
    method InitApiKey(adapter: Adapter)
      requires scheme.ApiKeyScheme?
      modifies this, adapter
      ensures initCount == old(initCount)
      ensures middlewares == InitMiddlewares(scheme, old(middlewares)) && routes == old(routes)
      ensures adapter.log == old(adapter.log) + InitCalls(scheme)
    {
      var config := scheme.config;
      var validate, apiKeyHeader, apiKeyQueryParam :=
        Get(config, "validate"), Get(config, "apiKeyHeader"), Get(config, "apiKeyQueryParam");
      adapter.Use(Some(ApiKey.STRATEGY_NAME), CustomStrategy(apiKeyHeader, apiKeyQueryParam, validate));
      SetMiddleware(AUTHENTICATED_ONLY, AuthenticatedOnly(ApiKey.STRATEGY_NAME));
    }

    /** The JWT strategy's `init`. */
    method InitJwt(adapter: Adapter)
      requires scheme.JwtScheme?
      modifies this, adapter
      ensures initCount == old(initCount)
      ensures middlewares == InitMiddlewares(scheme, old(middlewares)) && routes == old(routes)
      ensures adapter.log == old(adapter.log) + InitCalls(scheme)
    {
      var validate := Get(scheme.config, "validate");
      var options := Omit(scheme.config, {"validate"});
      if !Truthy(Get(options, "jwtFromRequest")) {
        options := options["jwtFromRequest" := Jwt.BEARER_EXTRACTOR];
      }
      adapter.Use(None, JwtStrategy(options, validate));
      SetMiddleware(AUTHENTICATED_ONLY, AuthenticatedOnly(Jwt.STRATEGY_NAME));
    }

    /** The local strategy's `init`. */
    method InitLocal(adapter: Adapter)
      requires scheme.LocalScheme?
      modifies this, adapter
      ensures initCount == old(initCount)
      ensures middlewares == InitMiddlewares(scheme, old(middlewares))
      ensures routes == InitRoutes(scheme, old(routes))
      ensures adapter.log == old(adapter.log) + InitCalls(scheme)
    {
      var config := scheme.config;
      var validate, authPath, authHttpMethod, redirectPath :=
        Get(config, "validate"), Get(config, "authPath"), Get(config, "authHttpMethod"), Get(config, "redirectPath");
      var options := Omit(config, Password.DESTRUCTURED);
      adapter.Use(None, LocalStrategy(validate));
      SetMiddleware(AUTHENTICATED_ONLY, AuthenticatedOnly(Password.LOCAL));
      SetRoute("auth", Route(authPath, Or(authHttpMethod, Password.DEFAULT_METHOD),
                             [Authenticate(Password.LOCAL, Obj(options))], RedirectOrNext(redirectPath)));
    }

    /** The basic strategy's `init`. */
    method InitBasic(adapter: Adapter)
      requires scheme.BasicScheme?
      modifies this, adapter
      ensures initCount == old(initCount)
      ensures middlewares == InitMiddlewares(scheme, old(middlewares))
      ensures routes == InitRoutes(scheme, old(routes))
      ensures adapter.log == old(adapter.log) + InitCalls(scheme)
    {
      var config := scheme.config;
      var validate, authPath, authHttpMethod, redirectPath :=
        Get(config, "validate"), Get(config, "authPath"), Get(config, "authHttpMethod"), Get(config, "redirectPath");
      var options := Omit(config, Password.DESTRUCTURED);
      adapter.Use(None, BasicStrategy(validate));
      SetMiddleware(AUTHENTICATED_ONLY, AuthenticatedOnly(Password.BASIC));
      SetRoute("auth", Route(authPath, Or(authHttpMethod, Password.DEFAULT_METHOD),
                             [Authenticate(Password.BASIC, Or(Obj(options), Password.SESSIONLESS))],
                             RedirectOrNext(redirectPath)));
    }

    /** The `init` of the Facebook, Google and Twitter strategies. */
    method InitRedirect(adapter: Adapter)
      requires scheme.RedirectScheme?
      modifies this, adapter
      ensures initCount == old(initCount)
      ensures middlewares == InitMiddlewares(scheme, old(middlewares))
      ensures routes == InitRoutes(scheme, old(routes))
      ensures adapter.log == old(adapter.log) + InitCalls(scheme)
    {
      var p, config := scheme.provider, scheme.config;
      var name := Redirect.Name(p);
      var validate, authPath, callbackPath, failurePath, redirectPath, authHttpMethod :=
        Get(config, "validate"), Get(config, "authPath"), Get(config, "callbackPath"),
        Get(config, "failurePath"), Get(config, "redirectPath"), Get(config, "authHttpMethod");
      var options := Omit(config, Redirect.Destructured(p));
      adapter.Use(None, Redirect.Provider(p, config));
      SetMiddleware(AUTHENTICATED_ONLY, AuthenticatedOnly(name));
      SetRoute("auth", Route(authPath, Or(authHttpMethod, Redirect.AUTH_DEFAULT_METHOD), [],
                             Delegate(Authenticate(name, Obj(options)))));
      SetRoute("auth_callback", Route(callbackPath, Redirect.CALLBACK_METHOD,
                                      [Authenticate(name, Redirect.FailureOptions(failurePath))],
                                      RedirectOrNext(redirectPath)));
    }
  }
}
