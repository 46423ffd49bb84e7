/** The credential lifecycle of pkg/ecobee/auth.go: the token file store,
    the PIN grant, the refresh grant and the package-global expiry instant.

    The network is an oracle: `replies(n)` is the token endpoint's answer to
    the n-th request this process sends it (counting from 0), so the answer
    may differ from call to call. `now` stands for `time.Now().Unix()`. */
module Auth {
  import opened Errors
  import opened GoInt
  import opened Http

  const TokenURL := "https://api.ecobee.com/token"

  /** The pair of credentials kept in memory and in the token file. */
  datatype Tokens = Tokens(accessToken: string, refreshToken: string)

  /** What a path holds, as far as the token store can tell. */
  datatype TokenFile =
    | Encoded(tokens: Tokens)  // bytes that json.Unmarshal decodes to this pair
    | Undecodable              // readable bytes that json.Unmarshal rejects
    | Unreadable               // present to os.Stat, but ioutil.ReadFile fails (a directory, say)

  /** The file system, restricted to the paths that matter: a path is absent
      exactly when os.Stat fails on it. */
  type Store = map<string, TokenFile>

  /** checkExistingTokens: whether os.Stat succeeds on `loc`. A path it
      reports missing cannot be read either. */
  function CheckExistingTokens(store: Store, loc: string): (present: bool)
    ensures !present ==> ReadTokensFromFile(store, loc) == Fatal(StoreReadFailed)
    ensures !present ==> loc !in store
  {
    loc in store
  }

  /** readTokensFromFile: the decoded pair, or the panic of a failed read or
      a failed decode. */
  function ReadTokensFromFile(store: Store, loc: string): (r: Outcome<Tokens>)
    ensures r.Ok? <==> loc in store && store[loc].Encoded?
    ensures r.Ok? ==> r.value == store[loc].tokens
    ensures r.Fatal? ==> r.cause == (if loc in store && store[loc].Undecodable? then StoreDecodeFailed else StoreReadFailed)
  {
    if loc !in store then Fatal(StoreReadFailed)
    else match store[loc]
      case Unreadable => Fatal(StoreReadFailed)
      case Undecodable => Fatal(StoreDecodeFailed)
      case Encoded(t) => Ok(t)
  }

  /** The token endpoint's success record, EcobeeOAuthResponse. */
  datatype OAuthResponse = OAuthResponse(
    accessToken: string,
    tokenType: string,
    expiresIn: Int64,
    scope: string,
    refreshToken: string)

  /** The token endpoint's error envelope, EcobeeAuthErrorResponse. */
  datatype AuthErrorResponse = AuthErrorResponse(error: string, errorDescription: string)

  /** An answer of the token endpoint, as the Go code sees it. For a body,
      `oauth` is what json.Unmarshal leaves in an EcobeeOAuthResponse and
      `oauthDecodeFailed` whether it returned an error; `envelope` and
      `envelopeDecodeFailed` are the same for an EcobeeAuthErrorResponse. */
  datatype TokenReply =
    | TokenTransportError
    | TokenBody(
        oauth: OAuthResponse,
        oauthDecodeFailed: bool,
        envelope: AuthErrorResponse,
        envelopeDecodeFailed: bool)

  const NoOAuthResponse := OAuthResponse("", "", 0, "", "")
  const NoAuthError := AuthErrorResponse("", "")

  /** How Go decodes a body `{access_token, refresh_token, expires_in}`:
      the error envelope decodes to empty fields without an error. */
  function GrantedBody(at: string, rt: string, expiresIn: Int64): TokenReply
  {
    TokenBody(OAuthResponse(at, "", expiresIn, "", rt), false, NoAuthError, false)
  }

  /** How Go decodes an error envelope `{error, error_description}`: the
      success record decodes to empty fields (a zero lifetime) without an
      error. */
  function ErrorBody(error: string, description: string): TokenReply
  {
    TokenBody(NoOAuthResponse, false, AuthErrorResponse(error, description), false)
  }

  /** The PIN grant request: grant type `ecobeePin`, the code and the key. */
  function PinGrantRequest(c: string, k: string): Request
  {
    Request("POST", TokenURL, map[], map["grant_type" := ["ecobeePin"], "code" := [c], "client_id" := [k]])
  }

  /** The refresh request: grant type `refresh_token`, the refresh token as
      the code, and the key. */
  function RefreshRequest(rt: string, k: string): Request
  {
    Request("POST", TokenURL, map[], map["grant_type" := ["refresh_token"], "code" := [rt], "client_id" := [k]])
  }

  /** What the store holds after writeTokens of `t` to `loc`. ioutil.WriteFile
      opens with O_CREATE|O_TRUNC: where the open fails (`readOnly`) nothing
      changes; where a later write or close fails (`writeFails`) the path is
      left empty or partly written, which no longer decodes. */
  function StoreAfterWrite(files: Store, readOnly: set<string>, writeFails: set<string>,
                           loc: string, t: Tokens): (after: Store)
    ensures forall p :: p != loc ==> ReadTokensFromFile(after, p) == ReadTokensFromFile(files, p)
    ensures loc !in readOnly && loc !in writeFails ==> ReadTokensFromFile(after, loc) == Ok(t)
    ensures loc !in readOnly && loc in writeFails ==>
      CheckExistingTokens(after, loc) && ReadTokensFromFile(after, loc) == Fatal(StoreDecodeFailed)
  {
    if loc in readOnly then files
    else if loc in writeFails then files[loc := Undecodable]
    else files[loc := Encoded(t)]
  }

  /** What both grants return after adopting the record `e`: the pair, unless
      writing it to `loc` fails. */
  function Adopt(e: OAuthResponse, readOnly: set<string>, writeFails: set<string>, loc: string): (out: Outcome<Tokens>)
    ensures out.Ok? <==> loc !in readOnly && loc !in writeFails
    ensures out.Ok? ==> out.value == Tokens(e.accessToken, e.refreshToken)
    ensures out.Fatal? ==> out.cause == StoreWriteFailed
  {
    if loc in readOnly || loc in writeFails then Fatal(StoreWriteFailed) else Ok(Tokens(e.accessToken, e.refreshToken))
  }

  /** GetOAuth's result when there is no token file at `loc`, given the
      answer to its PIN grant. */
  function GrantOutcome(reply: TokenReply, readOnly: set<string>, writeFails: set<string>, loc: string): (out: Outcome<Tokens>)
    ensures reply.TokenTransportError? ==> out == Fatal(TokenTransportFailed)
    ensures out.Ok? ==> reply.TokenBody? && out.value == Tokens(reply.oauth.accessToken, reply.oauth.refreshToken)
    ensures out.Ok? && out.value.accessToken == "" ==>
      reply.envelope.error != "invalid_grant" && reply.envelope.error != "slow_down"
    ensures out.Fatal? ==> out.cause in {StoreReadFailed, StoreWriteFailed, TokenTransportFailed,
                                         TokenReplyUndecodable, RateLimitedExit}
  {
    if reply.TokenTransportError? then Fatal(TokenTransportFailed)
    else if reply.oauth.accessToken != "" then
      if reply.oauthDecodeFailed then Fatal(TokenReplyUndecodable) else Adopt(reply.oauth, readOnly, writeFails, loc)
    else if reply.envelopeDecodeFailed then Fatal(TokenReplyUndecodable)
    else if reply.envelope.error == "invalid_grant" then Fatal(StoreReadFailed)
    else if reply.envelope.error == "slow_down" then Fatal(RateLimitedExit)
    else Adopt(reply.oauth, readOnly, writeFails, loc)
  }

  /** RefreshToken's result when the token file holds a pair, given the
      answer to its request. */
  function RefreshOutcome(reply: TokenReply, readOnly: set<string>, writeFails: set<string>, loc: string): (out: Outcome<Tokens>)
    ensures reply.TokenTransportError? ==> out == Fatal(TokenTransportFailed)
    ensures out.Ok? ==> reply.TokenBody? && out.value == Tokens(reply.oauth.accessToken, reply.oauth.refreshToken)
    ensures out.Ok? ==> out.value.accessToken != ""
    ensures out.Fatal? ==> out.cause in {StoreWriteFailed, TokenTransportFailed, TokenReplyUndecodable, RefreshRejected}
  {
    if reply.TokenTransportError? then Fatal(TokenTransportFailed)
    else if reply.oauthDecodeFailed then Fatal(TokenReplyUndecodable)
    else if reply.oauth.accessToken == "" then Fatal(RefreshRejected)
    else Adopt(reply.oauth, readOnly, writeFails, loc)
  }

  /** The package state of pkg/ecobee/auth.go together with the files and the
      requests it touches: the token files by path, the paths where
      ioutil.WriteFile cannot open the file and those where it fails after
      opening it, TokenExpirationEpoch, and every request sent to the token
      endpoint, in order. */
  class TokenManager {
    var files: Store
    const readOnly: set<string>
    const writeFails: set<string>
    var expirationEpoch: Int64
    var tokenRequests: seq<Request>

    /** A process start: Go's zero value 0 for TokenExpirationEpoch, so every
        non-negative time counts as expired. */
    constructor (files: Store, readOnly: set<string>, writeFails: set<string>)
      ensures this.files == files && this.readOnly == readOnly && this.writeFails == writeFails
      ensures expirationEpoch == 0 && tokenRequests == []
      ensures forall now: Int64 :: now >= 0 ==> CheckTokenExpiration(now)
    {
      this.files := files;
      this.readOnly := readOnly;
      this.writeFails := writeFails;
      expirationEpoch := 0;
      tokenRequests := [];
    }

    /** CheckTokenExpiration: expired from the recorded instant on, the
        instant itself included. */
    function CheckTokenExpiration(now: Int64): (expired: bool)
      reads this
      ensures expired <==> now >= expirationEpoch
    {
      now >= expirationEpoch
    }

    /** Neither the files nor the expiry instant changed. */
    twostate predicate Untouched()
      reads this
    {
      files == old(files) && expirationEpoch == old(expirationEpoch)
    }

    /** What both grants do with an accepted record `e`: set the expiry to
        `now + expires_in` (int64 arithmetic), then write the pair to `loc`
        and return it, or die if the write fails (the new expiry stays). */
    twostate predicate Adopted(e: OAuthResponse, now: Int64, loc: string, new out: Outcome<Tokens>)
      reads this
    {
      expirationEpoch == AddInt64(now, e.expiresIn) &&
      out == Adopt(e, readOnly, writeFails, loc) &&
      files == StoreAfterWrite(old(files), readOnly, writeFails, loc, Tokens(e.accessToken, e.refreshToken))
    }

    /** writeTokens: overwrite `loc` with the pair, so that reading it back
        gives exactly that pair; other paths keep their contents. A write
        that fails after truncating the file leaves it undecodable. */
    method WriteTokens(at: string, rt: string, loc: string) returns (out: Outcome<()>)
      modifies this`files
      ensures files == StoreAfterWrite(old(files), readOnly, writeFails, loc, Tokens(at, rt))
      ensures loc in readOnly ==> out == Fatal(StoreWriteFailed) && files == old(files)
      ensures loc !in readOnly && loc in writeFails ==>
        out == Fatal(StoreWriteFailed) && files == old(files)[loc := Undecodable]
      ensures loc !in readOnly && loc !in writeFails ==>
        out == Ok(()) && files == old(files)[loc := Encoded(Tokens(at, rt))]
      ensures out.Ok? ==> CheckExistingTokens(files, loc) && ReadTokensFromFile(files, loc) == Ok(Tokens(at, rt))
      ensures forall p :: p != loc ==> ReadTokensFromFile(files, p) == ReadTokensFromFile(old(files), p)
    {
      if loc in readOnly {
        out := Fatal(StoreWriteFailed);
        return;
      }
      if loc in writeFails {
        files := files[loc := Undecodable];
        out := Fatal(StoreWriteFailed);
        return;
      }
      files := files[loc := Encoded(Tokens(at, rt))];
      out := Ok(());
    }

    /** GetOAuth(k, c, loc): the stored pair when the token file exists;
        otherwise one PIN grant request and the reaction to its reply. */
    method GetOAuth(k: string, c: string, loc: string, now: Int64, replies: nat -> TokenReply)
      returns (out: Outcome<Tokens>)
      modifies this
      // A token file exists: its pair is returned as it is, with no request,
      // no write and no new expiry.
      ensures CheckExistingTokens(old(files), loc) ==>
        out == ReadTokensFromFile(old(files), loc) && Untouched() && tokenRequests == old(tokenRequests)
      // Otherwise exactly one request is sent, the PIN grant, and nothing else.
      ensures !CheckExistingTokens(old(files), loc) ==>
        tokenRequests == old(tokenRequests) + [PinGrantRequest(c, k)] &&
        out == GrantOutcome(replies(|old(tokenRequests)|), readOnly, writeFails, loc)
      ensures var reply := replies(|old(tokenRequests)|);
        !CheckExistingTokens(old(files), loc) ==>
          (reply.TokenTransportError? ==> out == Fatal(TokenTransportFailed) && Untouched()) &&
          (reply.TokenBody? && reply.oauth.accessToken != "" ==>
            if reply.oauthDecodeFailed then out == Fatal(TokenReplyUndecodable) && Untouched()
            else Adopted(reply.oauth, now, loc, out))
      // An empty access token: the error envelope decides.
      ensures var reply := replies(|old(tokenRequests)|);
        !CheckExistingTokens(old(files), loc) && reply.TokenBody? && reply.oauth.accessToken == "" ==>
          if reply.envelopeDecodeFailed then out == Fatal(TokenReplyUndecodable) && Untouched()
          // invalid_grant: RefreshToken("", loc) must read the absent file and dies.
          else if reply.envelope.error == "invalid_grant" then out == Fatal(StoreReadFailed) && Untouched()
          else if reply.envelope.error == "slow_down" then out == Fatal(RateLimitedExit) && Untouched()
          // Any other code falls through and adopts the empty access token.
          else Adopted(reply.oauth, now, loc, out)
      // Whatever it returns is what the token file now holds.
      ensures out.Ok? ==> ReadTokensFromFile(files, loc) == out
      ensures out.Fatal? ==> out.cause in {StoreReadFailed, StoreDecodeFailed, StoreWriteFailed,
                                           TokenTransportFailed, TokenReplyUndecodable, RateLimitedExit}
    {
      var t := Tokens("", "");
      if CheckExistingTokens(files, loc) {
        out := ReadTokensFromFile(files, loc);
        return;
      }
      var q: Values := map[];
      q := Add(q, "grant_type", "ecobeePin");
      q := Add(q, "code", c);
      q := Add(q, "client_id", k);
      AddThree("grant_type", "ecobeePin", "code", c, "client_id", k);
      var reply := replies(|tokenRequests|);
      tokenRequests := tokenRequests + [Request("POST", TokenURL, map[], q)];
      if reply.TokenTransportError? {
        out := Fatal(TokenTransportFailed);
        return;
      }
      var e := reply.oauth;
      var failed := reply.oauthDecodeFailed;
      if e.accessToken == "" {
        // The error of this second json.Unmarshal replaces the first one.
        failed := reply.envelopeDecodeFailed;
        if failed {
          out := Fatal(TokenReplyUndecodable);
          return;
        }
        var er := reply.envelope;
        if er.error == "invalid_grant" {
          // The result is discarded; only a fatal exit matters.
          var refreshed := RefreshToken(t.refreshToken, loc, now, replies);
          if refreshed.Fatal? {
            out := Fatal(refreshed.cause);
            return;
          }
        } else if er.error == "slow_down" {
          out := Fatal(RateLimitedExit);
          return;
        }
      }
      if failed {
        out := Fatal(TokenReplyUndecodable);
        return;
      }
      expirationEpoch := AddInt64(now, e.expiresIn);
      t := Tokens(e.accessToken, e.refreshToken);
      var written := WriteTokens(e.accessToken, e.refreshToken, loc);
      if written.Fatal? {
        out := Fatal(written.cause);
        return;
      }
      out := Ok(t);
    }

    /** RefreshToken(k, loc): exchange the stored refresh token for a new
        pair, adopting it as the current one. */
    method RefreshToken(k: string, loc: string, now: Int64, replies: nat -> TokenReply)
      returns (out: Outcome<Tokens>)
      modifies this
      // No readable pair: fatal before any request.
      ensures ReadTokensFromFile(old(files), loc).Fatal? ==>
        out == ReadTokensFromFile(old(files), loc) && Untouched() && tokenRequests == old(tokenRequests)
      // Otherwise exactly one request, carrying the stored refresh token.
      ensures ReadTokensFromFile(old(files), loc).Ok? ==>
        tokenRequests == old(tokenRequests) + [RefreshRequest(ReadTokensFromFile(old(files), loc).value.refreshToken, k)] &&
        out == RefreshOutcome(replies(|old(tokenRequests)|), readOnly, writeFails, loc)
      ensures var reply := replies(|old(tokenRequests)|);
        ReadTokensFromFile(old(files), loc).Ok? ==>
          if reply.TokenTransportError? then out == Fatal(TokenTransportFailed) && Untouched()
          else if reply.oauthDecodeFailed then out == Fatal(TokenReplyUndecodable) && Untouched()
          // An empty access token is fatal before anything is written.
          else if reply.oauth.accessToken == "" then out == Fatal(RefreshRejected) && Untouched()
          else Adopted(reply.oauth, now, loc, out)
      ensures out.Ok? ==> out.value.accessToken != "" && ReadTokensFromFile(files, loc) == out
    {
      var stored := ReadTokensFromFile(files, loc);
      if stored.Fatal? {
        out := stored;
        return;
      }
      var existingTokens := stored.value;
      var q: Values := map[];
      q := Add(q, "grant_type", "refresh_token");
      q := Add(q, "code", existingTokens.refreshToken);
      q := Add(q, "client_id", k);
      AddThree("grant_type", "refresh_token", "code", existingTokens.refreshToken, "client_id", k);
      var reply := replies(|tokenRequests|);
      tokenRequests := tokenRequests + [Request("POST", TokenURL, map[], q)];
      if reply.TokenTransportError? {
        out := Fatal(TokenTransportFailed);
        return;
      }
      if reply.oauthDecodeFailed {
        out := Fatal(TokenReplyUndecodable);
        return;
      }
      var e := reply.oauth;
      if e.accessToken == "" {
        out := Fatal(RefreshRejected);
        return;
      }
      expirationEpoch := AddInt64(now, e.expiresIn);
      var tok := Tokens(e.accessToken, e.refreshToken);
      var written := WriteTokens(e.accessToken, e.refreshToken, loc);
      if written.Fatal? {
        out := Fatal(written.cause);
        return;
      }
      out := Ok(tok);
    }
  }

  /** A second GetOAuth after a successful one finds the token file the
      first one wrote (or read) and returns the same pair, without a request. */
  method GrantThenReload(m: TokenManager, k: string, c: string, loc: string, now: Int64, later: Int64,
                         replies: nat -> TokenReply)
    returns (first: Outcome<Tokens>, second: Outcome<Tokens>)
    modifies m
    ensures first.Ok? ==> second == first
    ensures first.Ok? ==> |m.tokenRequests| <= |old(m.tokenRequests)| + 1
  {
    first := m.GetOAuth(k, c, loc, now, replies);
    second := m.GetOAuth(k, c, loc, later, replies);
  }

  /** A PIN grant on an empty store whose answer is a decodable success
      record: the request carries the grant type, the code and the key, the
      pair is returned and stored, and the expiry is the time plus the
      lifetime. */
  method PinGrantScenario(now: Int64) returns (out: Outcome<Tokens>, sent: seq<Request>, epoch: Int64, files: Store)
    ensures out == Ok(Tokens("access", "refresh"))
    ensures |sent| == 1 && sent[0].verb == "POST" && sent[0].url == TokenURL
    ensures Get(sent[0].query, "grant_type") == "ecobeePin"
    ensures Get(sent[0].query, "code") == "ciCode"
    ensures Get(sent[0].query, "client_id") == "ciAPIKey"
    ensures epoch == AddInt64(now, 86400)
    ensures ReadTokensFromFile(files, "./ci-tokens.yml") == Ok(Tokens("access", "refresh"))
  {
    var m := new TokenManager(map[], {}, {});
    out := m.GetOAuth("ciAPIKey", "ciCode", "./ci-tokens.yml", now, n => GrantedBody("access", "refresh", 86400));
    sent := m.tokenRequests;
    epoch := m.expirationEpoch;
    files := m.files;
  }
}
