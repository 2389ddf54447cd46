/** The API-key scheme: where the key is taken from, and how its verification ends. */
module ApiKey {
  import opened Wrappers
  import opened Js
  import opened Outcome
  import opened Passport

  /** The name the scheme registers under with `passport.use`. */
  const STRATEGY_NAME: string := "api-key"
  /** The header that is always consulted after the configured one. */
  const FALLBACK_HEADER: string := "x-api-key"
  const NOT_PROVIDED: string := "API Key not provided"

  /** An inbound request, reduced to its header and query-string values. */
  datatype Request = Request(headers: map<string, string>, query: map<string, string>)

  /** `source[name]`: the value under a name, `undefined` when missing. */
  function Lookup(source: map<string, string>, name: Value): Value {
    if name.Str? && name.s in source then Str(source[name.s]) else Undefined
  }

  /** A source counts when its name is set and the value under it is not empty. */
  predicate Supplies(source: map<string, string>, name: Value) {
    name.Str? && name.s != "" && name.s in source && source[name.s] != ""
  }

  /**
   * The key of a request: the configured header, then `x-api-key`, then the
   * configured query parameter, each taken only when truthy.
   */
  function Extract(apiKeyHeader: Value, apiKeyQueryParam: Value, req: Request): (key: Option<string>)
    requires IsName(apiKeyHeader) && IsName(apiKeyQueryParam)
    ensures key.Some? ==> key.value != ""
    ensures key.None? <==>
      !Supplies(req.headers, apiKeyHeader) && !Supplies(req.headers, Str(FALLBACK_HEADER)) && !Supplies(req.query, apiKeyQueryParam)
    ensures Supplies(req.headers, apiKeyHeader) ==> key == Some(req.headers[apiKeyHeader.s])
    ensures key.Some? ==>
      || (Supplies(req.headers, apiKeyHeader) && key.value == req.headers[apiKeyHeader.s])
      || (Supplies(req.headers, Str(FALLBACK_HEADER)) && key.value == req.headers[FALLBACK_HEADER])
      || (Supplies(req.query, apiKeyQueryParam) && key.value == req.query[apiKeyQueryParam.s])
  {
    if Truthy(apiKeyHeader) && Truthy(Lookup(req.headers, apiKeyHeader)) then
      Some(Lookup(req.headers, apiKeyHeader).s)
    else if Truthy(Lookup(req.headers, Str(FALLBACK_HEADER))) then
      Some(Lookup(req.headers, Str(FALLBACK_HEADER)).s)
    else if Truthy(apiKeyQueryParam) && Truthy(Lookup(req.query, apiKeyQueryParam)) then
      Some(Lookup(req.query, apiKeyQueryParam).s)
    else
      None
  }

  /** Reference reading of the precedence: the first of the candidate values that is truthy. */
  function FirstTruthy(candidates: seq<Value>): (key: Option<string>)
    requires forall v :: v in candidates ==> v.Str? || v.Undefined?
  {
    if candidates == [] then None
    else if Truthy(candidates[0]) then Some(candidates[0].s)
    else FirstTruthy(candidates[1..])
  }

  /** The three sources in the order they are consulted; an unset name contributes nothing. */
  function Candidates(apiKeyHeader: Value, apiKeyQueryParam: Value, req: Request): (cs: seq<Value>)
    ensures |cs| == 3 && forall v :: v in cs ==> v.Str? || v.Undefined?
  {
    [ if Truthy(apiKeyHeader) then Lookup(req.headers, apiKeyHeader) else Undefined,
      Lookup(req.headers, Str(FALLBACK_HEADER)),
      if Truthy(apiKeyQueryParam) then Lookup(req.query, apiKeyQueryParam) else Undefined ]
  }

  lemma ExtractIsFirstTruthy(apiKeyHeader: Value, apiKeyQueryParam: Value, req: Request)
    requires IsName(apiKeyHeader) && IsName(apiKeyQueryParam)
    ensures Extract(apiKeyHeader, apiKeyQueryParam, req) == FirstTruthy(Candidates(apiKeyHeader, apiKeyQueryParam, req))
  {
    var cs := Candidates(apiKeyHeader, apiKeyQueryParam, req);
    assert FirstTruthy(cs[1..][1..][1..]) == None by { assert cs[1..][1..][1..] == []; }
    assert FirstTruthy(cs[1..][1..]) == if Truthy(cs[2]) then Some(cs[2].s) else None;
    assert FirstTruthy(cs[1..]) == if Truthy(cs[1]) then Some(cs[1].s) else FirstTruthy(cs[1..][1..]);
  }

  /** A configured header beats `x-api-key` when both are sent. */
  lemma ConfiguredHeaderWins(header: string, key: string, other: string, query: Value)
    requires header != "" && header != FALLBACK_HEADER && key != "" && IsName(query)
    ensures Extract(Str(header), query, Request(map[header := key, FALLBACK_HEADER := other], map[])) == Some(key)
  {
  }

  /** An empty configured header falls through to `x-api-key`. */
  lemma EmptyHeaderFallsThrough(header: string, key: string)
    requires header != "" && header != FALLBACK_HEADER && key != ""
    ensures Extract(Str(header), Undefined, Request(map[header := "", FALLBACK_HEADER := key], map[])) == Some(key)
  {
  }

  /** With no headers the configured query parameter supplies the key. */
  lemma QueryParameterLast(param: string, key: string, header: Value)
    requires param != "" && key != "" && IsName(header)
    ensures Extract(header, Str(param), Request(map[], map[param := key])) == Some(key)
  {
  }

  /** The strategy object `init` hands to `passport.use("api-key", ...)`. */
  function Provider(config: Record): (p: ProviderStrategy)
    ensures p.CustomStrategy? && p.validate == Get(config, "validate")
    ensures p.apiKeyHeader == Get(config, "apiKeyHeader") && p.apiKeyQueryParam == Get(config, "apiKeyQueryParam")
  {
    CustomStrategy(Get(config, "apiKeyHeader"), Get(config, "apiKeyQueryParam"), Get(config, "validate"))
  }

  /**
   * The verify callback of the registered strategy on one request. The
   * configuration types require a validator; the callback only reaches it
   * once a key was found, and without one it would throw there.
   */
  function Verify(p: ProviderStrategy, host: Host, req: Request): (a: Attempt)
    requires p.CustomStrategy? && IsName(p.apiKeyHeader) && IsName(p.apiKeyQueryParam)
    requires Extract(p.apiKeyHeader, p.apiKeyQueryParam, req).Some? ==> p.validate.Ref?
    ensures Extract(p.apiKeyHeader, p.apiKeyQueryParam, req).None? ==>
      a.validateCalls == [] && a.done == DoneError(CoreError(NOT_PROVIDED))
    ensures Extract(p.apiKeyHeader, p.apiKeyQueryParam, req).Some? ==>
      a.validateCalls == [ValidateCall(p.validate.ref, ApiKeyArg(Extract(p.apiKeyHeader, p.apiKeyQueryParam, req).value))]
    ensures a.done.DoneSuccess? <==> |a.validateCalls| == 1 && host(p.validate.ref, a.validateCalls[0].args).Identity?
    ensures a.done.DoneSuccess? ==> a.done.user == host(p.validate.ref, a.validateCalls[0].args).user
    ensures |a.validateCalls| == 1 && host(p.validate.ref, a.validateCalls[0].args).ErrValue? ==>
      a.done == DoneError(host(p.validate.ref, a.validateCalls[0].args).err)
  {
    match Extract(p.apiKeyHeader, p.apiKeyQueryParam, req)
    case None => Attempt([], DoneError(CoreError(NOT_PROVIDED)))
    case Some(key) =>
      var result := host(p.validate.ref, ApiKeyArg(key));
      if result.ErrValue? then Attempt([ValidateCall(p.validate.ref, ApiKeyArg(key))], DoneError(result.err))
      else Attempt([ValidateCall(p.validate.ref, ApiKeyArg(key))], DoneSuccess(result.user))
  }

  /** The API-key scheme fails with `done(err)` alone, never with `done(err, false)`. */
  lemma VerifyNeverPassesFalse(p: ProviderStrategy, host: Host, req: Request)
    requires p.CustomStrategy? && IsName(p.apiKeyHeader) && IsName(p.apiKeyQueryParam)
    requires Extract(p.apiKeyHeader, p.apiKeyQueryParam, req).Some? ==> p.validate.Ref?
    ensures !Verify(p, host, req).done.DoneFailed?
  {
  }
}
