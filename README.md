# ecobee token lifecycle and telemetry retry, modelled in Dafny

This project models the core of the Go package `github.com/mitchya1/ecobee`:

- **Token manager** (`pkg/ecobee/auth.go`). The class `Auth.TokenManager`
  holds the token files by path, the package-global `TokenExpirationEpoch`
  and the requests sent to the token endpoint. `GetOAuth` loads a stored
  pair, or sends a PIN grant and reacts to the answer. `RefreshToken`
  exchanges the stored refresh token for a new pair. `writeTokens`,
  `checkExistingTokens` and `readTokensFromFile` form the store.
  `CheckTokenExpiration` compares a time with the expiry instant.
- **Telemetry fetcher** (`pkg/ecobee/thermostats.go`). `GetThermostats`
  builds the request: the three headers, with keys canonicalised as Go's
  `http.Header.Add` does, and the selection payload as the JSON text
  `json.Marshal` produces. `Classify` turns the provider's answer into
  the two results.
- **Polling program** (`example/main.go`, lines 59-104). The
  specification function `Example.Course` gives the course of one run:
  obtain, fetch, refresh at most once, fetch at most once more, then
  forward the readings. `Example.Poll` is proved against it. The loop
  `Example.ForwardReadings` is proved against `Example.Forwarded`.

Every `panic`, `os.Exit` and `log.Fatalln` becomes an explicit
`Fatal(cause)` outcome (`Errors.Outcome`). The cause says which exit was
taken.

Inputs from the outside world become parameters:
- The token endpoint is the oracle `replies: nat -> TokenReply`. Its
  argument is the number of token requests sent before, so consecutive
  requests may be answered differently.
- A telemetry answer is a `TelemetryReply` value. `Poll` takes
  `telemetry: nat -> TelemetryReply`, indexed by attempt.
- `time.Now().Unix()` is the parameter `now`. The refresh in the program
  happens at `later`.
- The weather client is the value `WeatherLookup`.

`json.Unmarshal` is modelled by its two observable results: the partly
filled record and whether it returned an error. The helpers
`Auth.GrantedBody` and `Auth.ErrorBody` describe how real success and
error bodies decode.

Files: `errors.dfy` (outcomes and causes), `goint.dfy` (int64 arithmetic
with wrap-around), `http.dfy` (`url.Values`, `http.Header`, canonical
header keys), `json.dfy` (JSON string and boolean text), `auth.dfy`,
`thermostats.dfy`, `example.dfy`.

The model follows the code as written, including these edges:

- **Unrecognised error code**: the code falls through, sets the expiry to
  `now + 0`, stores the empty access token with the empty refresh token,
  and returns that pair. It does not fail with an "unaccounted-for" error.
  `ErrUnaccountedFor` and `ErrRateLimited` (`pkg/ecobee/errors.go:8-11`)
  are never produced: on `slow_down` the process exits instead.
- **`invalid_grant`**: `GetOAuth` calls `RefreshToken` with the empty
  refresh token as the API key. The stored file is known to be absent, so
  `RefreshToken` dies reading it before it sends any request. No refresh
  request is ever sent on this path.
- **Unusable token file**: a missing, unreadable or undecodable file on
  the refresh path is fatal. There is no recoverable "not found" or
  "corrupt" error.
- **Transport failures are fatal**:
  - the token endpoint path panics;
  - the telemetry path calls `Close` on the nil response body, which is
    fatal (`NilResponseBody`). The exception is a refused redirect, where
    `client.Do` returns a closed response together with its error:
    `GetThermostats` returns the empty response and that error, and the
    program exits or panics on it as on any other error.
- **Failed token write**: `ioutil.WriteFile` truncates the file before it
  writes. A failure after the open leaves the file empty or partly
  written, so it no longer decodes.
- **Status code 14**: the decoded response comes back together with
  `ErrTokenExpired`. It is not replaced by an empty list.

## Model

| member | source | states |
|---|---|---|
| GoInt.AddInt64 | pkg/ecobee/auth.go:138 | `now + expires_in` on int64: the exact sum when it fits, otherwise wrapped by 2^64 in either direction, and always congruent to the sum |
| Http.Add | pkg/ecobee/auth.go:100-104 | `Values.Add` appends the value under its key and leaves every other key as it was |
| Http.Get | pkg/ecobee/auth_test.go:87-89 | `Values.Get` is the first value under the key, or "" when there is none (the key absent or its list empty) |
| Http.GetAdd | pkg/ecobee/auth.go:100-104 | after an `Add`, `Get` of that key is the added value exactly when the key had no value before, and any other key reads as before |
| Http.CanonicalHeaderKey | pkg/ecobee/thermostats.go:77-79 | a key of token characters has its first letter and each letter after '-' upper-cased and the other letters lower-cased; any other key is kept; the length never changes |
| Http.AddThree | pkg/ecobee/auth.go:100-104 | three `Add`s under distinct keys give exactly those three one-value lists |
| Http.AddOne | pkg/ecobee/thermostats.go:96-98 | one `Add` to empty values gives exactly that one-value list |
| Http.CanonicalKeyIs | pkg/ecobee/thermostats.go:77-79 | a key of token characters whose letters all follow the canonical pattern comes out as the given text |
| Http.CanonicalAuthorization | pkg/ecobee/thermostats.go:77 | "Authorization" is sent unchanged |
| Http.CanonicalContentType | pkg/ecobee/thermostats.go:78 | "Content-Type" is sent unchanged |
| Http.CanonicalCacheControl | pkg/ecobee/thermostats.go:79 | the key added as "cache-control" is sent as "Cache-Control" |
| Json.EscapeChar | pkg/ecobee/thermostats.go:89 | a character is written as itself if and only if it needs no escaping; any other is written as an escape sequence that starts with a backslash |
| Json.BoolText | pkg/ecobee/thermostats.go:89 | the text is "true" if and only if the value is true, and "false" if and only if it is false |
| Json.EscapePlain | pkg/ecobee/thermostats.go:89 | characters that need no escaping are written as they are |
| Json.QuotePlain | pkg/ecobee/thermostats.go:89 | a string that needs no escaping is written between two quotes |
| Auth.CheckExistingTokens | pkg/ecobee/auth.go:236-242 | a path reported missing cannot be read: reading it is the fatal read error |
| Auth.ReadTokensFromFile | pkg/ecobee/auth.go:244-260 | the stored pair is returned exactly when the path holds decodable tokens; an undecodable file is the decode panic; a missing or unreadable path is the read panic |
| Auth.TokenManager.constructor | pkg/ecobee/auth.go:38-40 | the expiry starts at 0, so every non-negative time counts as expired; no request has been sent |
| Auth.TokenManager.CheckTokenExpiration | pkg/ecobee/auth.go:203-209 | expired if and only if `now >= TokenExpirationEpoch`, the boundary included |
| Auth.StoreAfterWrite | pkg/ecobee/auth.go:216-233 | after a write, reading the path gives exactly the pair when the write succeeds; a write that fails after the open leaves an existing file that no longer decodes; other paths read as before |
| Auth.Adopt | pkg/ecobee/auth.go:138-145 | adopting a record returns its pair if and only if the write succeeds; otherwise the write failure is fatal |
| Auth.GrantOutcome | pkg/ecobee/auth.go:106-146 | the PIN grant's result: a transport failure is fatal; a returned pair is the record's; an empty access token is returned only when the error code is neither `invalid_grant` nor `slow_down`; the fatal causes are five listed ones |
| Auth.RefreshOutcome | pkg/ecobee/auth.go:170-199 | the refresh's result: a transport failure is fatal; a returned pair is the record's and its access token is never empty; the fatal causes are four listed ones |
| Auth.TokenManager.WriteTokens | pkg/ecobee/auth.go:216-233 | overwrites the path with exactly the pair, so reading it back gives that pair; other paths are unchanged; a failed open is fatal and changes nothing; a failure after the open is fatal and leaves the file undecodable |
| Auth.TokenManager.GetOAuth | pkg/ecobee/auth.go:83-146 | existing file: its pair, with no request, no write and no new expiry; otherwise exactly one request, `PinGrantRequest` (`grant_type=ecobeePin`, `code`, `client_id`), and the result is `GrantOutcome` of its answer; a non-empty token sets the expiry and stores and returns the pair; with an empty token the envelope decides: `invalid_grant` dies reading the absent file, `slow_down` exits with nothing written, any other code adopts the empty pair; a failed decode dies; a returned pair is what the token file holds |
| Auth.TokenManager.RefreshToken | pkg/ecobee/auth.go:150-200 | no readable pair: fatal before any request; otherwise exactly one request, `RefreshRequest` of the stored refresh token and the key, and the result is `RefreshOutcome` of its answer; transport or decode failure and an empty access token are fatal with nothing written; success sets the expiry, stores the pair and returns it, and the access token it returns is never empty |
| Auth.GrantThenReload | pkg/ecobee/auth.go:83-90 | after a successful GetOAuth, a second one returns the same pair; the two calls send at most one request between them |
| Auth.PinGrantScenario | pkg/ecobee/auth_test.go:80-107 | a grant on an empty store answered with `access`/`refresh`/86400 sends exactly one request, whose `grant_type`, `code` and `client_id` read as `ecobeePin`, `ciCode`, `ciAPIKey`; it returns and stores that pair and sets the expiry to the time plus 86400 |
| Thermostats.MarshalPlain | pkg/ecobee/thermostats.go:81-94 | request properties whose strings need no escaping are written as the fixed JSON text with those strings quoted and the flags as booleans, in field order |
| Thermostats.SelectionText | pkg/ecobee/thermostats.go:81-94 | the selection sent is `selectionType` "registered", `selectionMatch` "", `includeAlerts` false, `includeRuntime` true, as that text |
| Thermostats.Classify | pkg/ecobee/thermostats.go:100-129 | a transport failure is the nil-body panic; a refused redirect returns the empty response with the request error; a read error returns the empty response; a decode error returns what was decoded; `ErrTokenExpired` if and only if a decoded payload has status 14; no error if and only if one has any other status; no other error is produced |
| Thermostats.HttpStatusIgnored | pkg/ecobee/thermostats.go:117-129 | the HTTP status code never changes the classification |
| Thermostats.TelemetryHeaders | pkg/ecobee/thermostats.go:77-79 | the three header adds give exactly `Authorization: Bearer <t>`, the JSON content type and `Cache-Control: no-cache` |
| Thermostats.TelemetryRequest | pkg/ecobee/thermostats.go:71-98 | a GET of the thermostat URL with exactly those three headers and the selection text as the single query parameter `json` |
| Thermostats.GetThermostats | pkg/ecobee/thermostats.go:62-130 | the request sent is TelemetryRequest of the token, and the results are the classification of the answer |
| Example.ForwardedFor | example/main.go:94-104 | one thermostat gives its raw readings and name, then the outside temperature only when the weather code is 200 |
| Example.ForwardedAppend | example/main.go:94-104 | forwarding a concatenated list forwards the parts one after the other |
| Example.ForwardedAt | example/main.go:94-104 | with weather code 200, call 2i holds thermostat i's raw readings and call 2i+1 holds the outside temperature under its name; otherwise call i holds thermostat i's raw readings; the total length follows in both cases |
| Example.ForwardReadings | example/main.go:94-104 | the loop makes exactly the storage calls Forwarded gives, in list order |
| Example.Settled | example/main.go:84-104 | a failed weather client setup is fatal and nothing is stored; otherwise the run succeeds and stores the forwarded readings |
| Example.FinishRun | example/main.go:84-104 | a failed weather client setup is fatal and nothing is stored; otherwise the run succeeds and stores the forwarded readings (a lookup error is ignored) |
| Example.Course | example/main.go:59-104 | at most two fetches and one refresh; no tokens means no fetch; a refresh happens if and only if the first fetch reports expiry; a second fetch happens if and only if that refresh succeeded, and it uses the refreshed token; any error on the retry is a panic, any other first error an exit; a successful run stores the forwarded list of its last fetch, and a failed run stores nothing |
| Example.RefreshIrrelevant | example/main.go:69-82 | unless the first fetch reports an expired token, the refresh outcome plays no part in the run |
| Example.LookupErrorIgnored | example/main.go:89-91 | a failed weather lookup does not change the run |
| Example.GetOAuthTokens | example/main.go:59-63 | the grant step is GetOAuth with the configured key, code and file: a stored pair is used with no request and no write; otherwise the one request is the PIN grant with the configured code and key, and the result is GrantOutcome of its answer; a returned pair is what the token file holds |
| Example.RefreshTokens | example/main.go:73 | the refresh step is RefreshToken with the configured key and file: without a readable pair it fails with no request; otherwise the one request carries the stored refresh token and the result is RefreshOutcome of its answer; a returned pair is what the token file holds |
| Example.FetchThermostats | example/main.go:69 | a fetch yields the classification of the answer |
| Example.Poll | example/main.go:59-104 | the run is Course of the grant outcome, the refresh outcome, the answers and the weather; the grant outcome is the stored pair, or GrantOutcome of the first answer; a refresh outcome is RefreshOutcome of the answer after the grant's; the token requests are exactly the PIN grant when there was no file, then the refresh carrying the obtained refresh token; a successful run leaves in the token file the pair whose access token its last fetch carried |
| Example.WithTokens | example/main.go:66-104 | after the grant: the run is Course of the given outcome; the one refresh request, if any, carries the obtained refresh token and its result is RefreshOutcome of the next answer; a successful run leaves the last fetch's pair in the token file |
| Example.OfflineStart | example/main.go:59-63 | without a token file and with the token endpoint unreachable, the run dies of the transport failure with no fetch, no refresh and nothing stored |

## Left out

- The `EBClient` API that `example/main.go` calls (`GetOAuthTokens`, a
  `RefreshToken` without arguments) is not in `pkg/ecobee/auth.go`.
  `Example.GetOAuthTokens` and `Example.RefreshTokens` stand for it, using
  `GetOAuth` and `RefreshToken` with the configured key, code and file.
- HTTP clients, TLS, URL building and `url.Values.Encode` are not
  modelled: the query is kept as the values map. Response bodies are
  already-decoded records. The correlation between the two decodings of
  one token body is free in the model, which therefore allows more
  answers than real bodies produce.
- `http.NewRequest` and `json.Marshal` errors are left out. They cannot
  happen for the fixed URLs and records, so the early returns at
  `pkg/ecobee/thermostats.go:73-75` and `:91-94` and the panics at
  `pkg/ecobee/auth.go:96-98`, `:160-162` and `:224-226` are not modelled.
- `ioutil.ReadAll` errors on token responses are ignored by the source;
  the model has no separate case for them.
- Logging, `fmt.Println` of the reply body, and the recovery of a
  `panic` are left out: any panic ends the model's run.
- `getAuthorizationCode` (`pkg/ecobee/auth.go:44-80`) is not called by
  the core, so it is left out.
- `pkg/auth/token.go` and `main.go` are an earlier revision, outside this
  model.
- The InfluxDB storage is reduced to the list of calls and their
  arguments. Its write errors are ignored by the program. Its scaling by
  integer division (`dh / 10.0` on an `int`, so 725 becomes 72) lies
  beyond the calls and is not modelled.
- Viper configuration is reduced to `Config`. OpenWeatherMap is reduced
  to `WeatherLookup`. File permissions, concurrency and file locking are
  not modelled.
- Example.PollRun records the access token each telemetry request
  carried, not the request itself. The request for a token is given by
  Thermostats.TelemetryRequest, through GetThermostats' contract.
- Json.EscapeChar follows `encoding/json` before Go 1.22, which writes
  `\b` and `\f` as `\u0008` and `\u000c`; Go 1.22 and later write the short
  forms. It covers the characters `json.Marshal` escapes by
  default: `"`, `\`, control characters, `<`, `>`, `&`, U+2028 and
  U+2029. Invalid UTF-8 is not modelled, because Dafny strings are
  sequences of characters.
- Auth.TokenManager.WriteTokens: a `Close` failure after a complete
  write is treated like any failure after the open, so the file is
  marked undecodable even though its bytes would decode.
- Temperatures from the weather service are `real`, not float64.
