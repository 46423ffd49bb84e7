/** The polling program of example/main.go: obtain tokens, fetch the
    thermostats, refresh once and fetch once more when the access token has
    expired, then forward every thermostat's readings to storage.

    The provider's answers are oracles: `replies(n)` answers the n-th token
    request (see module Auth) and `telemetry(n)` the n-th telemetry request
    of this run, counting from 0. `now` is the time of the token grant and
    `later` the time of the refresh. */
module Example {
  import opened Errors
  import opened GoInt
  import opened Auth
  import opened Thermostats

  /** The settings read from the configuration file. */
  datatype Config = Config(apiKey: string, authCode: string, tokenFile: string)

  /** What the weather client holds after a lookup: the result code and the
      current temperature. */
  datatype Weather = Weather(cod: int, temp: real)

  /** The weather client: whether it could not be created, whether the
      lookup by zip code failed, and what it holds afterwards (which a failed
      lookup may leave at any value). */
  datatype WeatherLookup = WeatherLookup(setupFailed: bool, lookupFailed: bool, current: Weather)

  /** One call of the storage container, with the arguments it receives. */
  datatype StoreCall =
    | StoreTemperature(desiredHeat: int, desiredCool: int, actualTemperature: int, name: string)
    | StoreCurrentOutsideTemperature(temp: real, name: string)

  /** The observable course of one run: the token outcome, the access token
      each telemetry request carried (the request itself is
      TelemetryRequest of that token), every refresh outcome, every storage
      call in order, and how the process ends. */
  datatype PollRun = PollRun(
    obtained: Outcome<Tokens>,
    fetches: seq<string>,
    refreshes: seq<Outcome<Tokens>>,
    stored: seq<StoreCall>,
    exit: Outcome<()>)

  /** The storage calls for one thermostat: its raw readings, then the
      outside temperature when the weather result code is 200. */
  function ForwardedFor(th: Thermostat, w: Weather): (calls: seq<StoreCall>)
    ensures |calls| == if w.cod == 200 then 2 else 1
    ensures calls[0] == StoreTemperature(th.runtime.desiredHeat, th.runtime.desiredCool,
                                         th.runtime.actualTemperature, th.name)
    ensures w.cod == 200 ==> calls[1] == StoreCurrentOutsideTemperature(w.temp, th.name)
  {
    [StoreTemperature(th.runtime.desiredHeat, th.runtime.desiredCool,
                      th.runtime.actualTemperature, th.name)] +
    (if w.cod == 200 then [StoreCurrentOutsideTemperature(w.temp, th.name)] else [])
  }

  /** The storage calls for a whole list, thermostat by thermostat. */
  function Forwarded(list: seq<Thermostat>, w: Weather): seq<StoreCall>
  {
    if list == [] then [] else Forwarded(list[..|list| - 1], w) + ForwardedFor(list[|list| - 1], w)
  }

  /** Forwarding a concatenation forwards the parts one after the other. */
  lemma {:induction false} ForwardedAppend(a: seq<Thermostat>, b: seq<Thermostat>, w: Weather)
    ensures Forwarded(a + b, w) == Forwarded(a, w) + Forwarded(b, w)
    decreases |b|
  {
    if b == [] {
      assert a + b == a;
    } else {
      var b' := b[..|b| - 1];
      assert (a + b)[..|a + b| - 1] == a + b';
      assert (a + b)[|a + b| - 1] == b[|b| - 1];
      ForwardedAppend(a, b', w);
    }
  }

  /** The storage calls in full: without a weather result of 200, one call per
      thermostat with its raw readings, in list order; with 200, each of those
      is followed by the outside temperature under the same name. */
  lemma {:induction false} ForwardedAt(list: seq<Thermostat>, w: Weather)
    ensures w.cod != 200 ==>
      |Forwarded(list, w)| == |list| &&
      forall i :: 0 <= i < |list| ==>
        Forwarded(list, w)[i] == StoreTemperature(list[i].runtime.desiredHeat, list[i].runtime.desiredCool,
                                                  list[i].runtime.actualTemperature, list[i].name)
    ensures w.cod == 200 ==>
      |Forwarded(list, w)| == 2 * |list| &&
      forall i :: 0 <= i < |list| ==>
        Forwarded(list, w)[2 * i] == StoreTemperature(list[i].runtime.desiredHeat, list[i].runtime.desiredCool,
                                                      list[i].runtime.actualTemperature, list[i].name) &&
        Forwarded(list, w)[2 * i + 1] == StoreCurrentOutsideTemperature(w.temp, list[i].name)
    decreases |list|
  {
    if list != [] {
      var init := list[..|list| - 1];
      ForwardedAt(init, w);
      assert forall i :: 0 <= i < |init| ==> init[i] == list[i];
    }
  }

  /** The forwarding loop: every thermostat of the list, in order, gets its
      storage calls; a storage error is ignored. */
  method ForwardReadings(list: seq<Thermostat>, w: Weather) returns (calls: seq<StoreCall>)
    ensures calls == Forwarded(list, w)
  {
    calls := [];
    var i := 0;
    while i < |list|
      invariant 0 <= i <= |list|
      invariant calls == Forwarded(list[..i], w)
    {
      var therm := list[i];
      calls := calls + [StoreTemperature(therm.runtime.desiredHeat, therm.runtime.desiredCool,
                                         therm.runtime.actualTemperature, therm.name)];
      if w.cod == 200 {
        calls := calls + [StoreCurrentOutsideTemperature(w.temp, therm.name)];
      }
      assert list[..i + 1] == list[..i] + [therm];
      assert [therm][..0] == [];
      ForwardedAppend(list[..i], [therm], w);
      i := i + 1;
    }
    assert list[..i] == list;
  }

  /** A fetch that returns the thermostats without an error. */
  predicate Succeeded(f: Outcome<Fetch>)
  {
    f.Ok? && f.value.err == None
  }

  /** A fetch that returns an error. */
  predicate Failed(f: Outcome<Fetch>)
  {
    f.Ok? && f.value.err.Some?
  }

  /** A fetch that reports an expired access token. */
  predicate Expired(f: Outcome<Fetch>)
  {
    f.Ok? && f.value.err == Some(ErrTokenExpired)
  }

  /** How a run that holds a thermostat list ends: the weather client is
      created (the run dies if it cannot be), a failed lookup is only
      reported, and the readings are forwarded. */
  function Settled(obtained: Outcome<Tokens>, fetches: seq<string>, refreshes: seq<Outcome<Tokens>>,
                   list: seq<Thermostat>, weather: WeatherLookup): (run: PollRun)
    ensures run.obtained == obtained && run.fetches == fetches && run.refreshes == refreshes
    ensures weather.setupFailed ==> run.exit == Fatal(WeatherSetupFailed) && run.stored == []
    ensures !weather.setupFailed ==> run.exit == Ok(()) && run.stored == Forwarded(list, weather.current)
  {
    if weather.setupFailed then PollRun(obtained, fetches, refreshes, [], Fatal(WeatherSetupFailed))
    else PollRun(obtained, fetches, refreshes, Forwarded(list, weather.current), Ok(()))
  }

  /** The course of a run, given what the token grant returned, what a
      refresh would return, the telemetry answers and the weather. The
      refresh outcome matters only when the first fetch reports an expired
      token (see RefreshIrrelevant). */
  function Course(obtained: Outcome<Tokens>, refresh: Outcome<Tokens>, telemetry: nat -> TelemetryReply,
                  weather: WeatherLookup): (run: PollRun)
    ensures run.obtained == obtained
    // Never more than two fetches and one refresh, and nothing is stored by a run that dies.
    ensures |run.fetches| <= 2 && |run.refreshes| <= 1
    ensures run.exit.Fatal? ==> run.stored == []
    // No tokens: exit before any fetch.
    ensures obtained.Fatal? <==> run.fetches == []
    ensures obtained.Fatal? ==> run.refreshes == [] && run.exit == Fatal(obtained.cause)
    // The first fetch uses the obtained access token.
    ensures obtained.Ok? ==> run.fetches[0] == obtained.value.accessToken
    // A refresh happens exactly when the first fetch reports an expired token.
    ensures run.refreshes != [] <==> obtained.Ok? && Expired(Classify(telemetry(0)))
    ensures run.refreshes != [] ==> run.refreshes == [refresh]
    // A second fetch happens exactly after a successful refresh, with the refreshed token.
    ensures |run.fetches| == 2 <==> run.refreshes != [] && refresh.Ok?
    ensures |run.fetches| == 2 ==> run.fetches[1] == refresh.value.accessToken
    // How the run ends after the first fetch.
    ensures obtained.Ok? && Classify(telemetry(0)).Fatal? ==> run.exit == Fatal(NilResponseBody)
    ensures obtained.Ok? && Failed(Classify(telemetry(0))) && !Expired(Classify(telemetry(0))) ==>
      run.exit == Fatal(ExitOnError(Classify(telemetry(0)).value.err.value))
    ensures run.refreshes == [refresh] && refresh.Fatal? ==> run.exit == Fatal(refresh.cause)
    // Any error on the retry, a second expiry included, is fatal.
    ensures |run.fetches| == 2 && Classify(telemetry(1)).Fatal? ==> run.exit == Fatal(NilResponseBody)
    ensures |run.fetches| == 2 && Failed(Classify(telemetry(1))) ==>
      run.exit == Fatal(PanicOnError(Classify(telemetry(1)).value.err.value))
    // A run that succeeds forwards the list of its last fetch.
    ensures run.exit.Ok? <==>
      run.fetches != [] && Succeeded(Classify(telemetry(|run.fetches| - 1))) && !weather.setupFailed
    ensures run.exit.Ok? ==>
      run.stored == Forwarded(Classify(telemetry(|run.fetches| - 1)).value.response.thermostatList, weather.current)
  {
    if obtained.Fatal? then PollRun(obtained, [], [], [], Fatal(obtained.cause))
    else
      var first := Classify(telemetry(0));
      var one := [obtained.value.accessToken];
      if first.Fatal? then PollRun(obtained, one, [], [], Fatal(first.cause))
      else if first.value.err == None then Settled(obtained, one, [], first.value.response.thermostatList, weather)
      else if first.value.err != Some(ErrTokenExpired) then
        PollRun(obtained, one, [], [], Fatal(ExitOnError(first.value.err.value)))
      else if refresh.Fatal? then PollRun(obtained, one, [refresh], [], Fatal(refresh.cause))
      else
        var second := Classify(telemetry(1));
        var two := one + [refresh.value.accessToken];
        if second.Fatal? then PollRun(obtained, two, [refresh], [], Fatal(second.cause))
        else if second.value.err.Some? then PollRun(obtained, two, [refresh], [], Fatal(PanicOnError(second.value.err.value)))
        else Settled(obtained, two, [refresh], second.value.response.thermostatList, weather)
  }

  /** The refresh outcome plays no part unless the first fetch reports an
      expired token. */
  lemma RefreshIrrelevant(obtained: Outcome<Tokens>, r1: Outcome<Tokens>, r2: Outcome<Tokens>,
                          telemetry: nat -> TelemetryReply, weather: WeatherLookup)
    requires !(obtained.Ok? && Expired(Classify(telemetry(0))))
    ensures Course(obtained, r1, telemetry, weather) == Course(obtained, r2, telemetry, weather)
  {
  }

  /** An error of the weather lookup changes nothing: only a failure to
      create the weather client ends the run. */
  lemma LookupErrorIgnored(obtained: Outcome<Tokens>, refresh: Outcome<Tokens>,
                           telemetry: nat -> TelemetryReply, weather: WeatherLookup)
    ensures Course(obtained, refresh, telemetry, weather) ==
            Course(obtained, refresh, telemetry, weather.(lookupFailed := !weather.lookupFailed))
  {
  }

  /** ecobeeClient.GetOAuthTokens() with the configured API key, PIN code and
      token file: the grant of the token manager. */
  method GetOAuthTokens(m: TokenManager, cfg: Config, now: Int64, replies: nat -> TokenReply)
    returns (oauth: Outcome<Tokens>)
    modifies m
    ensures CheckExistingTokens(old(m.files), cfg.tokenFile) ==>
      oauth == ReadTokensFromFile(old(m.files), cfg.tokenFile) &&
      m.files == old(m.files) && m.tokenRequests == old(m.tokenRequests)
    ensures !CheckExistingTokens(old(m.files), cfg.tokenFile) ==>
      m.tokenRequests == old(m.tokenRequests) + [PinGrantRequest(cfg.authCode, cfg.apiKey)] &&
      oauth == GrantOutcome(replies(|old(m.tokenRequests)|), m.readOnly, m.writeFails, cfg.tokenFile)
    ensures oauth.Ok? ==> ReadTokensFromFile(m.files, cfg.tokenFile) == oauth
  {
    oauth := m.GetOAuth(cfg.apiKey, cfg.authCode, cfg.tokenFile, now, replies);
  }

  /** ecobeeClient.RefreshToken() with the configured API key and token file. */
  method RefreshTokens(m: TokenManager, cfg: Config, later: Int64, replies: nat -> TokenReply)
    returns (refreshed: Outcome<Tokens>)
    modifies m
    ensures ReadTokensFromFile(old(m.files), cfg.tokenFile).Fatal? ==>
      refreshed == ReadTokensFromFile(old(m.files), cfg.tokenFile) && m.tokenRequests == old(m.tokenRequests)
    ensures ReadTokensFromFile(old(m.files), cfg.tokenFile).Ok? ==>
      m.tokenRequests == old(m.tokenRequests) +
        [RefreshRequest(ReadTokensFromFile(old(m.files), cfg.tokenFile).value.refreshToken, cfg.apiKey)] &&
      refreshed == RefreshOutcome(replies(|old(m.tokenRequests)|), m.readOnly, m.writeFails, cfg.tokenFile)
    ensures refreshed.Ok? ==> ReadTokensFromFile(m.files, cfg.tokenFile) == refreshed
  {
    refreshed := m.RefreshToken(cfg.apiKey, cfg.tokenFile, later, replies);
  }

  /** `thermostats, err = ecobee.GetThermostats(t)`: the program keeps the
      two results and nothing else of the request. */
  method FetchThermostats(t: string, reply: TelemetryReply) returns (fetched: Outcome<Fetch>)
    ensures fetched == Classify(reply)
  {
    var req;
    req, fetched := GetThermostats(t, reply);
  }

  /** The body of main from the token grant on, proved against Course. */
  method Poll(m: TokenManager, cfg: Config, now: Int64, later: Int64, replies: nat -> TokenReply,
              telemetry: nat -> TelemetryReply, weather: WeatherLookup) returns (run: PollRun)
    modifies m
    ensures run == Course(run.obtained, if run.refreshes == [] then Fatal(RefreshRejected) else run.refreshes[0],
                          telemetry, weather)
    // The grant is GetOAuth: a stored pair is used as it is, otherwise the
    // answer to the PIN grant decides.
    ensures CheckExistingTokens(old(m.files), cfg.tokenFile) ==>
      run.obtained == ReadTokensFromFile(old(m.files), cfg.tokenFile)
    ensures !CheckExistingTokens(old(m.files), cfg.tokenFile) ==>
      run.obtained == GrantOutcome(replies(|old(m.tokenRequests)|), m.readOnly, m.writeFails, cfg.tokenFile)
    // The refresh answers the request after the grant's.
    ensures run.refreshes != [] ==>
      run.refreshes[0] == RefreshOutcome(
        replies(|old(m.tokenRequests)| + if CheckExistingTokens(old(m.files), cfg.tokenFile) then 0 else 1),
        m.readOnly, m.writeFails, cfg.tokenFile)
    // The requests sent to the token endpoint: the PIN grant when there was
    // no token file, then the refresh with the obtained refresh token.
    ensures m.tokenRequests == old(m.tokenRequests) +
      (if CheckExistingTokens(old(m.files), cfg.tokenFile) then [] else [PinGrantRequest(cfg.authCode, cfg.apiKey)]) +
      (if run.refreshes == [] then [] else [RefreshRequest(run.obtained.value.refreshToken, cfg.apiKey)])
    // A run that succeeds leaves in the token file the pair whose access
    // token its last fetch carried.
    ensures run.exit.Ok? ==>
      ReadTokensFromFile(m.files, cfg.tokenFile) == (if run.refreshes == [] then run.obtained else run.refreshes[0]) &&
      ReadTokensFromFile(m.files, cfg.tokenFile).Ok? &&
      ReadTokensFromFile(m.files, cfg.tokenFile).value.accessToken == run.fetches[|run.fetches| - 1]
  {
    var oauth := GetOAuthTokens(m, cfg, now, replies);
    run := WithTokens(m, cfg, oauth, later, replies, telemetry, weather);
  }

  /** main after the grant: with the tokens obtained (which the token file
      holds when there are any), fetch, refresh and retry once on an expired
      token, then forward. */
  method WithTokens(m: TokenManager, cfg: Config, oauth: Outcome<Tokens>, later: Int64, replies: nat -> TokenReply,
                    telemetry: nat -> TelemetryReply, weather: WeatherLookup) returns (run: PollRun)
    requires oauth.Ok? ==> ReadTokensFromFile(m.files, cfg.tokenFile) == oauth
    modifies m
    ensures run.obtained == oauth
    ensures run == Course(oauth, if run.refreshes == [] then Fatal(RefreshRejected) else run.refreshes[0],
                          telemetry, weather)
    ensures run.refreshes != [] ==>
      run.refreshes[0] == RefreshOutcome(replies(|old(m.tokenRequests)|), m.readOnly, m.writeFails, cfg.tokenFile)
    ensures m.tokenRequests == old(m.tokenRequests) +
      (if run.refreshes == [] then [] else [RefreshRequest(oauth.value.refreshToken, cfg.apiKey)])
    ensures run.exit.Ok? ==>
      ReadTokensFromFile(m.files, cfg.tokenFile) == (if run.refreshes == [] then oauth else run.refreshes[0]) &&
      ReadTokensFromFile(m.files, cfg.tokenFile).Ok? &&
      ReadTokensFromFile(m.files, cfg.tokenFile).value.accessToken == run.fetches[|run.fetches| - 1]
  {
    run := PollRun(oauth, [], [], [], Ok(()));
    if oauth.Fatal? {
      run := run.(exit := Fatal(oauth.cause));
      return;
    }
    var tokens := oauth.value;
    var attempt := 0;
    var fetched := FetchThermostats(tokens.accessToken, telemetry(attempt));
    attempt := attempt + 1;
    run := run.(fetches := run.fetches + [tokens.accessToken]);
    if fetched.Fatal? {
      run := run.(exit := Fatal(fetched.cause));
      return;
    }
    var thermostats := fetched.value.response;
    var err := fetched.value.err;
    if err.Some? {
      if err == Some(ErrTokenExpired) {
        var refreshed := RefreshTokens(m, cfg, later, replies);
        run := run.(refreshes := [refreshed]);
        if refreshed.Fatal? {
          run := run.(exit := Fatal(refreshed.cause));
          return;
        }
        tokens := refreshed.value;
        fetched := FetchThermostats(tokens.accessToken, telemetry(attempt));
        attempt := attempt + 1;
        run := run.(fetches := run.fetches + [tokens.accessToken]);
        if fetched.Fatal? {
          run := run.(exit := Fatal(fetched.cause));
          return;
        }
        thermostats := fetched.value.response;
        err := fetched.value.err;
        if err.Some? {
          run := run.(exit := Fatal(PanicOnError(err.value)));
          return;
        }
      } else {
        run := run.(exit := Fatal(ExitOnError(err.value)));
        return;
      }
    }
    var stored, exit := FinishRun(thermostats.thermostatList, weather);
    run := run.(stored := stored, exit := exit);
  }

  /** The end of main: the weather client and the forwarding loop. */
  method FinishRun(list: seq<Thermostat>, weather: WeatherLookup) returns (stored: seq<StoreCall>, exit: Outcome<()>)
    ensures weather.setupFailed ==> exit == Fatal(WeatherSetupFailed) && stored == []
    ensures !weather.setupFailed ==> exit == Ok(()) && stored == Forwarded(list, weather.current)
  {
    if weather.setupFailed {
      stored := [];
      exit := Fatal(WeatherSetupFailed);
      return;
    }
    stored := ForwardReadings(list, weather.current);
    exit := Ok(());
  }

  /** A first start without a token file while the token endpoint cannot be
      reached: the run dies of the failed grant before any fetch. */
  method OfflineStart(cfg: Config, now: Int64, later: Int64, telemetry: nat -> TelemetryReply,
                      weather: WeatherLookup) returns (run: PollRun)
    ensures run.exit == Fatal(TokenTransportFailed)
    ensures run.fetches == [] && run.refreshes == [] && run.stored == []
  {
    var m := new TokenManager(map[], {}, {});
    run := Poll(m, cfg, now, later, n => TokenTransportError, telemetry, weather);
  }
}
