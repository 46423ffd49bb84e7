/** Outcomes and error values shared by the token manager, the telemetry
    fetcher and the polling program.

    Every `panic`, `os.Exit` and `log.Fatalln` of the Go code is an explicit
    `Fatal` outcome carrying the `Cause` that names which one it was; the
    error values a Go function returns (rather than dies on) are `Error`. */
module Errors {

  datatype Option<+T> = None | Some(value: T)

  /** The result of an operation that may end the process. */
  datatype Outcome<+T> = Ok(value: T) | Fatal(cause: Cause)

  /** Error values returned to a caller. The first three are the sentinels
      declared in pkg/ecobee/errors.go; the others stand for the errors of
      `client.Do`, `ioutil.ReadAll` and `json.Unmarshal` that GetThermostats
      passes on. */
  datatype Error =
    | ErrTokenExpired
    | ErrRateLimited
    | ErrUnaccountedFor
    | RequestError
    | ReadError
    | DecodeError

  /** Which fatal exit ended the process. */
  datatype Cause =
    | StoreReadFailed          // ioutil.ReadFile of the token file failed (panic)
    | StoreDecodeFailed        // the token file is not a decodable Tokens record (panic)
    | StoreWriteFailed         // ioutil.WriteFile of the token file failed (panic)
    | TokenTransportFailed     // client.Do against the token endpoint failed (panic)
    | TokenReplyUndecodable    // json.Unmarshal of a token endpoint reply failed (panic)
    | RateLimitedExit          // the provider answered "slow_down" (os.Exit(1))
    | RefreshRejected          // the refresh reply held no access token (panic)
    | NilResponseBody          // resp.Body.Close() on the nil response of a failed fetch (panic)
    | ExitOnError(err: Error)  // the polling program called os.Exit(1) after a failed first fetch
    | PanicOnError(err: Error) // the polling program called panic(err) after a failed retry
    | WeatherSetupFailed       // owm.NewCurrent failed (log.Fatalln)
}
