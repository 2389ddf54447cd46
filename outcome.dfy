/**
 * The verification outcome protocol: how a verify callback turns what the
 * host's `validate` resolved to into a call of Passport's `done`.
 */
module Outcome {
  import opened Js

  /** An `Error` instance: one the host created, or one this layer creates with a message. */
  datatype Error = HostError(ref: nat, message: string) | CoreError(message: string)

  /** What an awaited `validate(...)` resolves to: an identity or an `Error` instance. */
  datatype Resolved = Identity(user: Value) | ErrValue(err: Error)

  /** The positional arguments each scheme passes to `validate`. */
  datatype ValidateArgs =
    | JwtPayload(payload: Value)
    | ApiKeyArg(key: string)
    | Credentials(username: string, password: string)
    | ProviderTokens(token: Value, tokenSecret: Value, profile: Value)

  /** The host's validators: what the function with a given reference resolves to on given arguments. */
  type Host = (nat, ValidateArgs) -> Resolved

  datatype ValidateCall = ValidateCall(validator: nat, args: ValidateArgs)

  /** The shapes of the `done` call: `done(err)`, `done(err, false)` and `done(null, user)`. */
  datatype Done = DoneError(err: Error) | DoneFailed(err: Error) | DoneSuccess(user: Value)

  /** One run of a verify callback: the `validate` calls it made and the one `done` call it ended with. */
  datatype Attempt = Attempt(validateCalls: seq<ValidateCall>, done: Done)

  /**
   * The three-way normalisation shared by every scheme but the API key:
   * no validator, a validator resolving to an `Error`, or success.
   */
  function Settle(validate: Value, host: Host, args: ValidateArgs, missing: string): (a: Attempt)
    requires Callable(validate)
    ensures a.done.DoneSuccess? <==> Truthy(validate) && host(validate.ref, args).Identity?
    ensures a.done.DoneSuccess? ==> a.done.user == host(validate.ref, args).user
    ensures !a.done.DoneSuccess? ==> a.done.DoneFailed?
    ensures !Truthy(validate) ==> a.validateCalls == [] && a.done.err == CoreError(missing)
    ensures Truthy(validate) ==> a.validateCalls == [ValidateCall(validate.ref, args)]
    ensures Truthy(validate) && host(validate.ref, args).ErrValue? ==> a.done.err == host(validate.ref, args).err
  {
    if Truthy(validate) then
      var result := host(validate.ref, args);
      if result.ErrValue? then Attempt([ValidateCall(validate.ref, args)], DoneFailed(result.err))
      else Attempt([ValidateCall(validate.ref, args)], DoneSuccess(result.user))
    else Attempt([], DoneFailed(CoreError(missing)))
  }

  /** Under the three-way protocol `done` is never called with the error alone. */
  lemma SettleNeverErrorAlone(validate: Value, host: Host, args: ValidateArgs, missing: string)
    requires Callable(validate)
    ensures !Settle(validate, host, args, missing).done.DoneError?
    ensures |Settle(validate, host, args, missing).validateCalls| <= 1
  {
  }
}
